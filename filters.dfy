/**
  Filters: the pattern an encoding covers. Each byte position fixes the bits
  its mask selects and leaves the others as don't-care. The ordering key used
  when filters are rebuilt is the smallest instruction a filter matches.
 */
module Filters {
  import opened Instructions

  datatype FilterByte = FilterByte(value: bv8, mask: bv8)

  datatype Filter = Filter(bytes: seq<FilterByte>) {

    /** An instruction matches when it has the filter's length and agrees on every selected bit. */
    predicate Matches(instr: Instruction)
    {
      |instr| == |bytes| &&
      forall i :: 0 <= i < |instr| ==> instr[i] & bytes[i].mask == bytes[i].value & bytes[i].mask
    }

    /** The filter's ordering key: every don't-care bit cleared. */
    function SmallestMatchingInstruction(): (r: Instruction)
      ensures Matches(r)
      ensures forall instr :: Matches(instr) ==> LessEq(r, instr)
    {
      ClearedMatches(this);
      forall instr | Matches(instr) ensures LessEq(Cleared(bytes), instr) {
        ClearedIsLeast(this, instr);
      }
      Cleared(bytes)
    }
  }

  /** Each byte's selected bits as the filter fixes them, every other bit zero. */
  function Cleared(bytes: seq<FilterByte>): (r: Instruction)
    ensures |r| == |bytes|
  {
    seq(|bytes|, i requires 0 <= i < |bytes| => bytes[i].value & bytes[i].mask)
  }

  lemma ClearedMatches(f: Filter)
    ensures f.Matches(Cleared(f.bytes))
  {
    var r := Cleared(f.bytes);
    forall i | 0 <= i < |r| ensures r[i] & f.bytes[i].mask == f.bytes[i].value & f.bytes[i].mask {
      ClearedBitsAgree(f.bytes[i].value, f.bytes[i].mask);
    }
  }

  lemma ClearedIsLeast(f: Filter, instr: Instruction)
    requires f.Matches(instr)
    ensures LessEq(Cleared(f.bytes), instr)
  {
    var r := Cleared(f.bytes);
    forall i | 0 <= i < |r| ensures r[i] <= instr[i] {
      ClearedByteBelow(f, instr, i);
    }
    PointwiseLessEq(r, instr);
  }

  lemma ClearedByteBelow(f: Filter, instr: Instruction, i: nat)
    requires f.Matches(instr) && i < |instr|
    ensures Cleared(f.bytes)[i] <= instr[i]
  {
    var b := f.bytes[i];
    ClearedBitsBelow(Cleared(f.bytes)[i], instr[i], b.value, b.mask);
  }

  lemma ClearedBitsAgree(v: bv8, m: bv8)
    ensures (v & m) & m == v & m
  {
  }

  lemma ClearedBitsBelow(c: bv8, x: bv8, v: bv8, m: bv8)
    requires c == v & m && x & m == v & m
    ensures c <= x
  {
  }

  function Key(f: Filter): Instruction
  {
    f.SmallestMatchingInstruction()
  }

  /** Filters ordered non-decreasingly by their smallest matching instruction. */
  predicate SortedByKey(fs: seq<Filter>)
  {
    forall i, j :: 0 <= i < j < |fs| ==> LessEq(Key(fs[i]), Key(fs[j]))
  }

  /** Places f before the first filter whose key is not below f's. */
  function Insert(f: Filter, s: seq<Filter>): seq<Filter>
  {
    if s == [] then [f]
    else if LessEq(Key(f), Key(s[0])) then [f] + s
    else [s[0]] + Insert(f, s[1..])
  }

  /** A stable sort by key (insertion sort), standing in for `sort_by_cached_key`. */
  function SortByKey(fs: seq<Filter>): seq<Filter>
  {
    if fs == [] then [] else Insert(fs[0], SortByKey(fs[1..]))
  }

  /** Every filter of s has a key at least x's. */
  predicate AllAbove(x: Filter, s: seq<Filter>)
  {
    forall j :: 0 <= j < |s| ==> LessEq(Key(x), Key(s[j]))
  }

  lemma SortedCons(x: Filter, s: seq<Filter>)
    requires SortedByKey(s) && AllAbove(x, s)
    ensures SortedByKey([x] + s)
  {
    var r := [x] + s;
    forall i, j | 0 <= i < j < |r| ensures LessEq(Key(r[i]), Key(r[j])) {
      if i == 0 {
        assert r[j] == s[j - 1];
      } else {
        assert r[i] == s[i - 1] && r[j] == s[j - 1];
      }
    }
  }

  lemma SortedTail(s: seq<Filter>)
    requires SortedByKey(s) && s != []
    ensures SortedByKey(s[1..]) && AllAbove(s[0], s[1..])
  {
    forall j | 0 <= j < |s| - 1 ensures LessEq(Key(s[0]), Key(s[1..][j])) {
      assert s[1..][j] == s[j + 1];
    }
  }

  lemma {:induction false} InsertMembers(f: Filter, s: seq<Filter>)
    ensures multiset(Insert(f, s)) == multiset(s) + multiset{f}
  {
    if s != [] && !LessEq(Key(f), Key(s[0])) {
      InsertMembers(f, s[1..]);
      assert s == [s[0]] + s[1..];
    }
  }

  /** A lower bound of f and of every element of s bounds every element of Insert(f, s). */
  lemma InsertAbove(x: Filter, f: Filter, s: seq<Filter>)
    requires LessEq(Key(x), Key(f)) && AllAbove(x, s)
    ensures AllAbove(x, Insert(f, s))
  {
    var r := Insert(f, s);
    InsertMembers(f, s);
    forall j | 0 <= j < |r| ensures LessEq(Key(x), Key(r[j])) {
      assert r[j] in multiset(r);
      if r[j] != f {
        assert r[j] in multiset(s);
        var k :| 0 <= k < |s| && s[k] == r[j];
      }
    }
  }

  lemma {:induction false} InsertSorted(f: Filter, s: seq<Filter>)
    requires SortedByKey(s)
    ensures SortedByKey(Insert(f, s))
    ensures multiset(Insert(f, s)) == multiset(s) + multiset{f}
  {
    InsertMembers(f, s);
    if s == [] {
    } else if LessEq(Key(f), Key(s[0])) {
      SortedTail(s);
      forall j | 0 <= j < |s| ensures LessEq(Key(f), Key(s[j])) {
        if j > 0 {
          assert s[j] == s[1..][j - 1];
          LessEqTransitive(Key(f), Key(s[0]), Key(s[j]));
        }
      }
      SortedCons(f, s);
    } else {
      SortedTail(s);
      InsertSorted(f, s[1..]);
      LessEqTotal(Key(f), Key(s[0]));
      InsertAbove(s[0], f, s[1..]);
      SortedCons(s[0], Insert(f, s[1..]));
    }
  }

  /** The rebuilt filter list is sorted by key and a permutation of its input. */
  lemma {:induction false} SortByKeyCorrect(fs: seq<Filter>)
    ensures SortedByKey(SortByKey(fs))
    ensures multiset(SortByKey(fs)) == multiset(fs)
    ensures |SortByKey(fs)| == |fs|
  {
    if fs != [] {
      SortByKeyCorrect(fs[1..]);
      InsertSorted(fs[0], SortByKey(fs[1..]));
      assert fs == [fs[0]] + fs[1..];
    }
  }
}
