/**
  The seed list of the `Create` verb: all one-byte instructions, or a scan
  list narrowed by the architecture's inclusion predicate, with most of its
  REX-prefixed entries thinned out, and `[0x00]` put in front.
 */
module Seed {
  import opened Wrappers
  import opened Instructions

  /** Without a scan file: the 256 one-byte instructions, `[0x00]` to `[0xFF]`. */
  function DefaultSeed(): seq<Instruction>
  {
    seq(256, i requires 0 <= i < 256 => [i as bv8])
  }

  lemma ByteRoundTrip(b: bv8)
    ensures (b as int) as bv8 == b
  {
  }

  lemma ByteSucc(c: bv8)
    requires c < 0xff
    ensures (c + 1) as int == c as int + 1
  {
  }

  /** The byte with value i, counted up from zero. */
  ghost function ByteOf(i: int): (b: bv8)
    requires 0 <= i < 256
    ensures b as int == i
  {
    if i == 0 then 0
    else
      var c := ByteOf(i - 1);
      ByteSucc(c);
      c + 1
  }

  lemma DefaultSeedByte(i: int)
    requires 0 <= i < 256
    ensures (i as bv8) as int == i
  {
    ByteRoundTrip(ByteOf(i));
  }

  lemma ByteOrder(a: bv8, b: bv8)
    ensures a < b <==> (a as int) < (b as int)
  {
  }

  /** The default seed is strictly ascending and holds every one-byte instruction. */
  lemma DefaultSeedIsAllSingleBytesAscending()
    ensures |DefaultSeed()| == 256
    ensures forall i, j :: 0 <= i < j < 256 ==> Less(DefaultSeed()[i], DefaultSeed()[j])
    ensures forall x: Instruction :: |x| == 1 ==> x in DefaultSeed()
    ensures forall x :: x in DefaultSeed() ==> |x| == 1
  {
    var s := DefaultSeed();
    forall i, j | 0 <= i < j < 256 ensures Less(s[i], s[j]) {
      DefaultSeedByte(i);
      DefaultSeedByte(j);
      ByteOrder(i as bv8, j as bv8);
      SingleByteLess(i as bv8, j as bv8);
    }
    forall x: Instruction | |x| == 1 ensures x in s {
      var k := x[0] as int;
      ByteRoundTrip(x[0]);
      assert s[k] == [x[0]];
      assert x == [x[0]];
    }
  }

  /** The REX pattern of `Create`: after one of the legacy-prefix combinations the next byte is bound as `rex`. */
  predicate RexAfter(b: Instruction, prefix: seq<bv8>)
  {
    |b| > |prefix| && b[..|prefix|] == prefix && b[|prefix|] & 0xf0 == 0x40
  }

  /**
    An entry is REX-matching when some alternative of the or-pattern binds a
    `rex` byte whose high nibble is 0x4 (the guard is tried per alternative).
   */
  predicate IsRexMatching(b: Instruction)
  {
    || RexAfter(b, [0xf0, 0x66])
    || RexAfter(b, [0xf0])
    || RexAfter(b, [0x66])
    || RexAfter(b, [0xf2, 0x66])
    || RexAfter(b, [0xf3, 0x66])
    || RexAfter(b, [0xf2])
    || RexAfter(b, [0xf3])
    || RexAfter(b, [])
  }

  /** Number of REX-matching entries. */
  function RexCount(v: seq<Instruction>): nat
  {
    if v == [] then 0
    else RexCount(v[..|v| - 1]) + (if IsRexMatching(v[|v| - 1]) then 1 else 0)
  }

  /** Entry i survives thinning: it is not REX-matching, or its 1-based REX ordinal is a multiple of 8. */
  predicate Kept(v: seq<Instruction>, i: nat)
    requires i < |v|
  {
    !IsRexMatching(v[i]) || RexCount(v[..i + 1]) % 8 == 0
  }

  /** The entries that survive thinning, in their original order. */
  function Retained(v: seq<Instruction>): seq<Instruction>
  {
    if v == [] then []
    else Retained(v[..|v| - 1]) + (if Kept(v, |v| - 1) then [v[|v| - 1]] else [])
  }

  /** `retain` with a predicate that depends only on the element. */
  function Select(v: seq<Instruction>, p: Instruction -> bool): seq<Instruction>
  {
    if v == [] then []
    else Select(v[..|v| - 1], p) + (if p(v[|v| - 1]) then [v[|v| - 1]] else [])
  }

  function NotRex(b: Instruction): bool
  {
    !IsRexMatching(b)
  }

  /** a can be obtained from b by deleting entries: order is preserved. */
  predicate IsSubsequence(a: seq<Instruction>, b: seq<Instruction>)
    decreases |b|
  {
    if a == [] then true
    else if b == [] then false
    else (a[|a| - 1] == b[|b| - 1] && IsSubsequence(a[..|a| - 1], b[..|b| - 1]))
         || IsSubsequence(a, b[..|b| - 1])
  }

  lemma {:induction false} SubsequenceTransitive(a: seq<Instruction>, b: seq<Instruction>, c: seq<Instruction>)
    requires IsSubsequence(a, b) && IsSubsequence(b, c)
    ensures IsSubsequence(a, c)
    decreases |c|
  {
    if a != [] {
      if IsSubsequence(b, c[..|c| - 1]) {
        SubsequenceTransitive(a, b, c[..|c| - 1]);
      } else if a[|a| - 1] == b[|b| - 1] && IsSubsequence(a[..|a| - 1], b[..|b| - 1]) {
        SubsequenceTransitive(a[..|a| - 1], b[..|b| - 1], c[..|c| - 1]);
      } else {
        SubsequenceTransitive(a, b[..|b| - 1], c[..|c| - 1]);
      }
    }
  }

  lemma {:induction false} SubsequenceMembers(a: seq<Instruction>, b: seq<Instruction>)
    requires IsSubsequence(a, b)
    ensures forall x :: x in a ==> x in b
    decreases |b|
  {
    if a != [] {
      if a[|a| - 1] == b[|b| - 1] && IsSubsequence(a[..|a| - 1], b[..|b| - 1]) {
        SubsequenceMembers(a[..|a| - 1], b[..|b| - 1]);
        assert a == a[..|a| - 1] + [a[|a| - 1]];
        assert b == b[..|b| - 1] + [b[|b| - 1]];
      } else {
        SubsequenceMembers(a, b[..|b| - 1]);
        assert b == b[..|b| - 1] + [b[|b| - 1]];
      }
    }
  }

  /** `retain` keeps every entry that satisfies the predicate, only those, in order. */
  lemma {:induction false} SelectProperties(v: seq<Instruction>, p: Instruction -> bool)
    ensures IsSubsequence(Select(v, p), v)
    ensures forall x :: x in Select(v, p) ==> p(x)
    ensures forall x :: x in v && p(x) ==> x in Select(v, p)
  {
    if v != [] {
      var init := v[..|v| - 1];
      SelectProperties(init, p);
      var s := Select(v, p);
      if p(v[|v| - 1]) {
        assert s[..|s| - 1] == Select(init, p);
        assert IsSubsequence(s[..|s| - 1], v[..|v| - 1]);
      } else if s != [] {
        assert s == Select(init, p);
        assert IsSubsequence(s, v[..|v| - 1]);
      }
    }
    forall x | x in v && p(x) ensures x in Select(v, p) {
      SelectComplete(v, p, x);
    }
  }

  lemma {:induction false} SelectComplete(v: seq<Instruction>, p: Instruction -> bool, x: Instruction)
    requires x in v && p(x)
    ensures x in Select(v, p)
  {
    var init := v[..|v| - 1];
    if x != v[|v| - 1] {
      assert v == init + [v[|v| - 1]];
      SelectComplete(init, p, x);
    }
  }

  /** Thinning keeps exactly floor(R/8) of the R REX-matching entries and every other entry. */
  lemma {:induction false} RetainedCount(v: seq<Instruction>)
    ensures |Retained(v)| == |v| - RexCount(v) + RexCount(v) / 8
    ensures RexCount(Retained(v)) == RexCount(v) / 8
  {
    if v != [] {
      var init := v[..|v| - 1];
      var x := v[|v| - 1];
      RetainedCount(init);
      OrdinalStep(RexCount(init));
      var r := Retained(v);
      assert v[..|v|] == v;
      assert RexCount(v) == RexCount(init) + (if IsRexMatching(x) then 1 else 0);
      if Kept(v, |v| - 1) {
        assert r[..|r| - 1] == Retained(init) && r[|r| - 1] == x;
        assert RexCount(r) == RexCount(Retained(init)) + (if IsRexMatching(x) then 1 else 0);
      } else {
        assert r == Retained(init);
      }
    }
  }

  lemma OrdinalStep(c: nat)
    ensures (c + 1) % 8 == 0 ==> (c + 1) / 8 == c / 8 + 1
    ensures (c + 1) % 8 != 0 ==> (c + 1) / 8 == c / 8
  {
  }

  /** Entries that match no REX alternative are all kept, in order. */
  lemma {:induction false} RetainedKeepsNonRex(v: seq<Instruction>)
    ensures Select(Retained(v), NotRex) == Select(v, NotRex)
  {
    if v != [] {
      var init := v[..|v| - 1];
      var x := v[|v| - 1];
      RetainedKeepsNonRex(init);
      var r := Retained(v);
      if Kept(v, |v| - 1) {
        assert r[..|r| - 1] == Retained(init);
      } else {
        assert r == Retained(init);
      }
    }
  }

  /** Thinning only deletes entries. */
  lemma {:induction false} RetainedIsSubsequence(v: seq<Instruction>)
    ensures IsSubsequence(Retained(v), v)
  {
    if v != [] {
      var init := v[..|v| - 1];
      RetainedIsSubsequence(init);
      var r := Retained(v);
      if Kept(v, |v| - 1) {
        assert r[..|r| - 1] == Retained(init);
        assert IsSubsequence(r[..|r| - 1], v[..|v| - 1]);
      } else if r != [] {
        assert r == Retained(init);
        assert IsSubsequence(r, v[..|v| - 1]);
      }
    }
  }

  /**
    The `retain` closure of `Create`: `k` counts REX-matching entries and an
    entry is dropped unless `k` is a multiple of 8; `n` counts down the entries
    still to visit (it drives a progress message only).
   */
  method ThinRex(v: seq<Instruction>) returns (kept: seq<Instruction>)
    ensures kept == Retained(v)
  {
    var k: nat := 0;
    var n: nat := |v|;
    kept := [];
    var i := 0;
    while i < |v|
      invariant 0 <= i <= |v|
      invariant n == |v| - i
      invariant k == RexCount(v[..i])
      invariant kept == Retained(v[..i])
    {
      n := n - 1;
      var instr := v[i];
      var keep := true;
      if IsRexMatching(instr) {
        k := k + 1;
        if k % 8 != 0 {
          keep := false;
        }
      }
      assert v[..i + 1][..i] == v[..i];
      assert v[..i + 1][..i + 1] == v[..i + 1];
      if keep {
        kept := kept + [instr];
      }
      i := i + 1;
    }
    assert v[..|v|] == v;
  }

  /** The seed list of `Create`, given the scan list (if any) and the inclusion predicate. */
  method CreateSeed(scan: Option<seq<Instruction>>, included: Instruction -> bool) returns (work: seq<Instruction>)
    ensures scan.None? ==> work == DefaultSeed()
    ensures scan.Some? ==> work == [[0x00]] + Retained(Select(scan.value, included))
  {
    if scan.Some? {
      var v := Select(scan.value, included);
      v := ThinRex(v);
      work := [[0x00]] + v;
    } else {
      work := DefaultSeed();
    }
  }

  /**
    With a scan list the seed is `[0x00]` followed by a subsequence of the
    scan list whose every entry satisfies the inclusion predicate, and every
    included scan entry that is not REX-matching is in the seed.
   */
  lemma SeedFromScan(v: seq<Instruction>, included: Instruction -> bool)
    ensures var work := [[0x00]] + Retained(Select(v, included));
      && work[0] == [0x00]
      && IsSubsequence(work[1..], v)
      && (forall i :: 1 <= i < |work| ==> included(work[i]) && work[i] in v)
      && (forall x :: x in v && included(x) && !IsRexMatching(x) ==> x in work[1..])
  {
    var sel := Select(v, included);
    var work := [[0x00]] + Retained(sel);
    SelectProperties(v, included);
    RetainedIsSubsequence(sel);
    SubsequenceTransitive(Retained(sel), sel, v);
    SubsequenceMembers(Retained(sel), sel);
    SubsequenceMembers(Retained(sel), v);
    assert work[1..] == Retained(sel);
    forall i | 1 <= i < |work| ensures included(work[i]) && work[i] in v {
      assert work[i] in Retained(sel);
    }
    RetainedKeepsNonRex(sel);
    SelectProperties(sel, NotRex);
    SelectProperties(Retained(sel), NotRex);
    SubsequenceMembers(Select(Retained(sel), NotRex), Retained(sel));
    forall x | x in v && included(x) && !IsRexMatching(x) ensures x in work[1..] {
      assert x in sel;
      assert NotRex(x);
      assert x in Select(sel, NotRex);
    }
  }

}
