/** The pure helpers of the test utilities: revert-message matching, address
    ordering, byte-wise XOR, the ERC-165 interface identifier and the
    signature-type suffix of `ethSign`. */
module Helpers {
  import opened Wrappers

  // ---------------------------------------------------------------------------
  // RevertError
  // ---------------------------------------------------------------------------

  /** The message prefix a node reports for a reverted transaction. */
  const RevertPrefix: string := "VM Exception while processing transaction: revert"

  /** The expected revert message: the prefix alone when no (or an empty)
      reason is given, otherwise the prefix, one space and the reason. */
  function RevertError(errorMessage: Option<string>): (r: string)
    ensures |RevertPrefix| <= |r| && r[..|RevertPrefix|] == RevertPrefix
    ensures r == RevertPrefix <==> errorMessage.None? || errorMessage.value == ""
  {
    if errorMessage.Some? && errorMessage.value != "" then
      RevertPrefix + " " + errorMessage.value
    else
      RevertPrefix
  }

  /** Reads the reason back out of a revert message; `None` when it carries none. */
  function RevertReason(s: string): Option<string>
  {
    var n := |RevertPrefix|;
    if n + 1 < |s| && s[..n + 1] == RevertPrefix + " " then Some(s[n + 1..]) else None
  }

  /** Every non-empty reason survives the round trip; no reason and the empty
      reason both come back as `None`. */
  lemma RevertReasonRoundTrip(m: Option<string>)
    ensures RevertReason(RevertError(m)) == if m.Some? && m.value != "" then m else None
  {
  }

  // ---------------------------------------------------------------------------
  // compareAddr
  // ---------------------------------------------------------------------------

  /** Three-way comparison of two addresses by their unsigned numeric value. */
  function CompareAddr(a: nat, b: nat): (r: int)
    ensures r == -1 <==> a < b
    ensures r == 0 <==> a == b
    ensures r == 1 <==> a > b
  {
    if a < b then -1 else if a == b then 0 else 1
  }

  lemma CompareAddrAntisymmetric(a: nat, b: nat)
    ensures CompareAddr(a, b) == -CompareAddr(b, a)
  {
  }

  lemma CompareAddrTransitive(a: nat, b: nat, c: nat)
    requires CompareAddr(a, b) <= 0 && CompareAddr(b, c) <= 0
    ensures CompareAddr(a, c) <= 0
  {
  }

  // ---------------------------------------------------------------------------
  // xor
  // ---------------------------------------------------------------------------

  type Byte = bv8

  /** `b[i]` as JavaScript's `^` sees it: a missing byte reads as 0. */
  function ByteAt(b: seq<Byte>, i: nat): Byte
  {
    if i < |b| then b[i] else 0
  }

  /** Byte-wise XOR over the length of the first operand. */
  function Xor(a: seq<Byte>, b: seq<Byte>): (r: seq<Byte>)
    ensures |r| == |a|
    ensures forall i :: 0 <= i < |a| ==> r[i] == a[i] ^ ByteAt(b, i)
  {
    if a == [] then []
    else [a[0] ^ ByteAt(b, 0)] + Xor(a[1..], if b == [] then [] else b[1..])
  }

  lemma XorCommutative(a: seq<Byte>, b: seq<Byte>)
    requires |a| == |b|
    ensures Xor(a, b) == Xor(b, a)
  {
  }

  /** XOR-ing the same operand twice gives back the first operand. */
  lemma XorSelfInverse(a: seq<Byte>, b: seq<Byte>)
    ensures Xor(Xor(a, b), b) == a
  {
  }

  // ---------------------------------------------------------------------------
  // interfaceIdOf
  // ---------------------------------------------------------------------------

  /** One entry of an interface's function table: its key and the selector
      the interface computes for it. */
  datatype FunctionEntry = FunctionEntry(key: string, selector: seq<Byte>)

  /** Keys that are full signatures contain an opening parenthesis. */
  predicate IsSignatureKey(key: string)
  {
    '(' in key
  }

  /** The indices of the signature entries that carry selector `s`. */
  ghost function EntriesWith(fns: seq<FunctionEntry>, s: seq<Byte>): set<nat>
  {
    set k: nat | k < |fns| && IsSignatureKey(fns[k].key) && fns[k].selector == s
  }

  /** Appending an entry adds at most its own index to `EntriesWith`. */
  lemma EntriesWithSnoc(init: seq<FunctionEntry>, last: FunctionEntry, s: seq<Byte>)
    ensures |EntriesWith(init + [last], s)| ==
      |EntriesWith(init, s)| + if IsSignatureKey(last.key) && last.selector == s then 1 else 0
  {
    var fns, n := init + [last], |init|;
    var a, b := EntriesWith(init, s), EntriesWith(fns, s);
    forall k | k in b && k != n ensures k in a {
      assert fns[k] == init[k];
    }
    forall k | k in a ensures k in b {
      assert fns[k] == init[k];
    }
    if IsSignatureKey(last.key) && last.selector == s {
      assert fns[n] == last;
      assert b == a + {n};
    } else {
      assert b == a;
    }
  }

  /** Appending an entry adds one occurrence of its selector exactly when
      its key is a signature. */
  lemma CountSnoc(init: seq<FunctionEntry>, last: FunctionEntry, rest: seq<seq<Byte>>)
    requires forall s :: multiset(rest)[s] == |EntriesWith(init, s)|
    ensures var sigs := rest + (if IsSignatureKey(last.key) then [last.selector] else []);
      forall s :: multiset(sigs)[s] == |EntriesWith(init + [last], s)|
  {
    var sigs := rest + (if IsSignatureKey(last.key) then [last.selector] else []);
    forall s ensures multiset(sigs)[s] == |EntriesWith(init + [last], s)| {
      EntriesWithSnoc(init, last, s);
    }
  }

  /** Appending an entry keeps the first signature entry of `init`, or
      makes `last` the first one when `init` has none. */
  lemma FirstSignatureSnoc(init: seq<FunctionEntry>, last: FunctionEntry, rest: seq<seq<Byte>>)
    requires forall s :: s in rest <==>
      exists k :: 0 <= k < |init| && IsSignatureKey(init[k].key) && init[k].selector == s
    requires rest != [] ==>
      exists k :: 0 <= k < |init| && IsSignatureKey(init[k].key) && init[k].selector == rest[0] &&
        forall j :: 0 <= j < k ==> !IsSignatureKey(init[j].key)
    ensures var fns, sigs := init + [last], rest + (if IsSignatureKey(last.key) then [last.selector] else []);
      sigs != [] ==>
        exists k :: 0 <= k < |fns| && IsSignatureKey(fns[k].key) && fns[k].selector == sigs[0] &&
          forall j :: 0 <= j < k ==> !IsSignatureKey(fns[j].key)
  {
    var fns, sigs := init + [last], rest + (if IsSignatureKey(last.key) then [last.selector] else []);
    if rest != [] {
      var k :| 0 <= k < |init| && IsSignatureKey(init[k].key) && init[k].selector == rest[0] &&
        forall j :: 0 <= j < k ==> !IsSignatureKey(init[j].key);
      assert fns[k] == init[k];
      assert forall j :: 0 <= j < k ==> fns[j] == init[j];
    } else if sigs != [] {
      forall j | 0 <= j < |init| ensures !IsSignatureKey(fns[j].key) {
        assert fns[j] == init[j];
        var s := init[j].selector;
        assert s !in rest;
        assert !exists k :: 0 <= k < |init| && IsSignatureKey(init[k].key) && init[k].selector == s;
      }
      assert fns[|init|] == last;
    }
  }

  /** Appending an entry adds its selector to the membership exactly when
      its key is a signature. */
  lemma MembershipSnoc(init: seq<FunctionEntry>, last: FunctionEntry, rest: seq<seq<Byte>>)
    requires forall s :: s in rest <==>
      exists k :: 0 <= k < |init| && IsSignatureKey(init[k].key) && init[k].selector == s
    ensures var fns, sigs := init + [last], rest + (if IsSignatureKey(last.key) then [last.selector] else []);
      forall s :: s in sigs <==>
        exists k :: 0 <= k < |fns| && IsSignatureKey(fns[k].key) && fns[k].selector == s
  {
    var fns, sigs := init + [last], rest + (if IsSignatureKey(last.key) then [last.selector] else []);
    forall s | s in sigs
      ensures exists k :: 0 <= k < |fns| && IsSignatureKey(fns[k].key) && fns[k].selector == s
    {
      if s in rest {
        var k :| 0 <= k < |init| && IsSignatureKey(init[k].key) && init[k].selector == s;
        assert fns[k] == init[k];
      } else {
        assert fns[|init|] == last;
      }
    }
    forall s, k | 0 <= k < |fns| && IsSignatureKey(fns[k].key) && fns[k].selector == s
      ensures s in sigs
    {
      if k < |init| {
        assert fns[k] == init[k];
      }
    }
  }

  /** The selectors of the entries whose key is a signature, one per such
      entry (the count of each selector is the number of signature entries
      that carry it), led by the selector of the first signature entry. */
  function Signatures(fns: seq<FunctionEntry>): (sigs: seq<seq<Byte>>)
    ensures |sigs| <= |fns|
    ensures forall s :: multiset(sigs)[s] == |EntriesWith(fns, s)|
    ensures forall s :: s in sigs <==>
      exists k :: 0 <= k < |fns| && IsSignatureKey(fns[k].key) && fns[k].selector == s
    ensures sigs != [] ==>
      exists k :: 0 <= k < |fns| && IsSignatureKey(fns[k].key) && fns[k].selector == sigs[0] &&
        forall j :: 0 <= j < k ==> !IsSignatureKey(fns[j].key)
    decreases |fns|
  {
    if fns == [] then []
    else
      var init, last := fns[..|fns| - 1], fns[|fns| - 1];
      assert fns == init + [last];
      var rest := Signatures(init);
      var sigs := rest + (if IsSignatureKey(last.key) then [last.selector] else []);
      CountSnoc(init, last, rest);
      MembershipSnoc(init, last, rest);
      FirstSignatureSnoc(init, last, rest);
      sigs
  }

  /** The XOR of byte `i` of every selector (a missing byte counts as 0). */
  function ColumnXor(sigs: seq<seq<Byte>>, i: nat): Byte
  {
    if sigs == [] then 0 else ByteAt(sigs[0], i) ^ ColumnXor(sigs[1..], i)
  }

  /** `rest.reduce((p, c) => xor(p, c), acc)`: a left fold of `Xor`. */
  function XorFold(acc: seq<Byte>, rest: seq<seq<Byte>>): seq<Byte>
    decreases |rest|
  {
    if rest == [] then acc else XorFold(Xor(acc, rest[0]), rest[1..])
  }

  lemma {:induction false} XorFoldColumns(acc: seq<Byte>, rest: seq<seq<Byte>>)
    ensures |XorFold(acc, rest)| == |acc|
    ensures forall i :: 0 <= i < |acc| ==> XorFold(acc, rest)[i] == acc[i] ^ ColumnXor(rest, i)
    decreases |rest|
  {
    if rest != [] {
      XorFoldColumns(Xor(acc, rest[0]), rest[1..]);
    }
  }

  /** Why a reduction can fail. */
  datatype ReduceError =
    /** `reduce` over an empty array with no initial value raises a TypeError. */
    EmptyReduce

  /** `sigs.reduce((p, c) => xor(p, c))` with no initial value. Byte `i` of
      the result is the XOR of byte `i` of every selector, over the length
      of the first selector. */
  function ReduceXor(sigs: seq<seq<Byte>>): (r: Result<seq<Byte>, ReduceError>)
    ensures r.Failure? <==> sigs == []
    ensures r.Success? ==>
      |r.value| == |sigs[0]| &&
      forall i :: 0 <= i < |sigs[0]| ==> r.value[i] == ColumnXor(sigs, i)
  {
    if sigs == [] then Failure(EmptyReduce)
    else
      XorFoldColumns(sigs[0], sigs[1..]);
      Success(XorFold(sigs[0], sigs[1..]))
  }

  /** The ERC-165 interface identifier: the XOR of the selectors of all
      functions of the interface. An interface without functions raises
      the error of an empty `reduce`. */
  function InterfaceIdOf(fns: seq<FunctionEntry>): (r: Result<seq<Byte>, ReduceError>)
    ensures r.Failure? <==> forall k :: 0 <= k < |fns| ==> !IsSignatureKey(fns[k].key)
    ensures r.Success? ==>
      var sigs := Signatures(fns);
      sigs != [] && |r.value| == |sigs[0]| &&
      forall i :: 0 <= i < |r.value| ==> r.value[i] == ColumnXor(sigs, i)
  {
    var sigs := Signatures(fns);
    assert forall k :: 0 <= k < |fns| && IsSignatureKey(fns[k].key) ==> fns[k].selector in sigs;
    ReduceXor(sigs)
  }

  /** A single selector is its own interface identifier. */
  lemma ReduceXorSingle(s: seq<Byte>)
    ensures ReduceXor([s]) == Success(s)
  {
  }

  /** Removing entry `k` takes its byte out of every column. */
  lemma {:induction false} ColumnXorRemove(t: seq<seq<Byte>>, k: nat, i: nat)
    requires k < |t|
    ensures ColumnXor(t, i) == ByteAt(t[k], i) ^ ColumnXor(t[..k] + t[k + 1..], i)
  {
    if k == 0 {
      assert t[..0] + t[1..] == t[1..];
    } else {
      ColumnXorRemove(t[1..], k - 1, i);
      assert t[..k] + t[k + 1..] == [t[0]] + (t[1..][..k - 1] + t[1..][k..]);
      assert ([t[0]] + (t[1..][..k - 1] + t[1..][k..]))[1..] == t[1..][..k - 1] + t[1..][k..];
    }
  }

  /** Column XORs do not depend on the order of the selectors. */
  lemma {:induction false} ColumnXorPermutation(s: seq<seq<Byte>>, t: seq<seq<Byte>>, i: nat)
    requires multiset(s) == multiset(t)
    ensures ColumnXor(s, i) == ColumnXor(t, i)
    decreases |s|
  {
    if s == [] {
      assert |t| == |multiset(t)| == 0;
    } else {
      assert s[0] in multiset(t);
      var k :| 0 <= k < |t| && t[k] == s[0];
      var t' := t[..k] + t[k + 1..];
      assert t == t[..k] + [t[k]] + t[k + 1..];
      assert multiset(t) == multiset(t[..k]) + multiset{t[k]} + multiset(t[k + 1..]);
      assert s == [s[0]] + s[1..];
      assert multiset(s) == multiset{s[0]} + multiset(s[1..]);
      assert multiset(t') == multiset(t[..k]) + multiset(t[k + 1..]);
      assert multiset(s[1..]) == multiset(s) - multiset{s[0]};
      assert multiset(t') == multiset(t) - multiset{t[k]};
      assert multiset(s[1..]) == multiset(t');
      ColumnXorPermutation(s[1..], t', i);
      ColumnXorRemove(t, k, i);
    }
  }

  /** The interface identifier does not depend on the order of the
      selectors, as long as the one that comes first has the same length
      (every selector is four bytes long). */
  lemma ReduceXorPermutation(s: seq<seq<Byte>>, t: seq<seq<Byte>>)
    requires multiset(s) == multiset(t)
    requires s != [] && t != [] && |s[0]| == |t[0]|
    ensures ReduceXor(s) == ReduceXor(t)
  {
    var rs, rt := ReduceXor(s).value, ReduceXor(t).value;
    forall i | 0 <= i < |rs| ensures rs[i] == rt[i] {
      ColumnXorPermutation(s, t, i);
    }
    assert rs == rt;
  }

  // ---------------------------------------------------------------------------
  // ethSign: the signature-type suffix
  // ---------------------------------------------------------------------------

  predicate EndsWith(s: string, suffix: string)
  {
    |suffix| <= |s| && s[|s| - |suffix|..] == suffix
  }

  /** The signature already carries the ETH_SIGN type ("02") or another signature type ("03"). */
  predicate HasSignatureType(sig: string)
  {
    EndsWith(sig, "02") || EndsWith(sig, "03")
  }

  /** Appends the ETH_SIGN type `"02"` unless the signature already carries a type. */
  function EthSignSuffix(sig: string): (r: string)
    ensures HasSignatureType(r)
    ensures r == sig <==> HasSignatureType(sig)
    ensures r != sig ==> r == sig + "02"
  {
    if HasSignatureType(sig) then sig else sig + "02"
  }

  lemma EthSignSuffixIdempotent(sig: string)
    ensures EthSignSuffix(EthSignSuffix(sig)) == EthSignSuffix(sig)
  {
  }
}
