/**
  The `Status` verb's audit of a scan list: a filter map from filters to the
  artifact that produced them, the owner of each scanned instruction, the
  per-worker found / missed / total tally with the seen flags of the
  encodings, and the merge of per-chunk tallies.
 */
module Status {
  import opened Wrappers
  import opened Instructions
  import opened Filters
  import opened WorkState

  // ---------------------------------------------------------------- filter map

  datatype FilterEntry = FilterEntry(filter: Filter, index: nat)

  /** The filter map: registered filters with the index of the artifact they came from. */
  datatype FilterMap = FilterMap(entries: seq<FilterEntry>) {

    /** `add(filter, index)`. */
    function Add(f: Filter, index: nat): FilterMap
    {
      FilterMap(entries + [FilterEntry(f, index)])
    }

    /** `filters(instr)`: the artifact index of the first registered filter matching instr. */
    function Lookup(instr: Instruction): (r: Option<nat>)
      ensures r.Some? ==> exists e :: e in entries && e.filter.Matches(instr) && e.index == r.value
      ensures r.None? <==> forall e :: e in entries ==> !e.filter.Matches(instr)
      decreases |entries|
    {
      if entries == [] then None
      else if entries[0].filter.Matches(instr) then Some(entries[0].index)
      else FilterMap(entries[1..]).Lookup(instr)
    }

    /** Every registered index is below n. */
    predicate IndicesBelow(n: nat)
    {
      forall e :: e in entries ==> e.index < n
    }
  }

  /** The entries the Status loop registers: every filter of artifact i under index i. */
  function FilterMapOf(es: seq<Encoding>): (fm: FilterMap)
    ensures fm.IndicesBelow(|es|)
  {
    if es == [] then FilterMap([])
    else FilterMap(FilterMapOf(es[..|es| - 1]).entries + EntriesFor(es[|es| - 1].filters, |es| - 1))
  }

  function EntriesFor(fs: seq<Filter>, index: nat): (r: seq<FilterEntry>)
    ensures forall e :: e in r ==> e.index == index
  {
    if fs == [] then [] else EntriesFor(fs[..|fs| - 1], index) + [FilterEntry(fs[|fs| - 1], index)]
  }

  lemma {:induction false} EntriesForMembers(fs: seq<Filter>, index: nat)
    ensures forall e :: e in EntriesFor(fs, index) <==> e.index == index && e.filter in fs
  {
    if fs != [] {
      EntriesForMembers(fs[..|fs| - 1], index);
      assert fs == fs[..|fs| - 1] + [fs[|fs| - 1]];
    }
  }

  /** The filter map registers exactly the pairs (f, i) with f a filter of artifact i. */
  lemma {:induction false} FilterMapOfMembers(es: seq<Encoding>)
    ensures forall e :: e in FilterMapOf(es).entries <==> e.index < |es| && e.filter in es[e.index].filters
  {
    if es != [] {
      var init := es[..|es| - 1];
      FilterMapOfMembers(init);
      EntriesForMembers(es[|es| - 1].filters, |es| - 1);
    }
  }

  /**
    A lookup in the filter map answers an artifact one of whose filters matches
    the instruction, and answers nothing only when no filter of any artifact does.
   */
  lemma FilterMapLookup(es: seq<Encoding>, instr: Instruction)
    ensures FilterMapOf(es).IndicesBelow(|es|)
    ensures FilterMapOf(es).Lookup(instr).Some? ==>
      var i := FilterMapOf(es).Lookup(instr).value;
      i < |es| && exists f :: f in es[i].filters && f.Matches(instr)
    ensures FilterMapOf(es).Lookup(instr).None? <==>
      forall i, f :: 0 <= i < |es| && f in es[i].filters ==> !f.Matches(instr)
  {
    FilterMapOfMembers(es);
    var fm := FilterMapOf(es);
    if fm.Lookup(instr).None? {
      forall i, f | 0 <= i < |es| && f in es[i].filters ensures !f.Matches(instr) {
        assert FilterEntry(f, i) in fm.entries;
      }
    }
  }

  /**
    The loop that builds the filter map: it panics on the first artifact that
    has no filters, and otherwise registers every filter of artifact i under i.
   */
  method BuildFilterMap(encodings: seq<Encoding>) returns (r: Result<FilterMap, VerbError>)
    ensures r.Success? <==> forall i :: 0 <= i < |encodings| ==> encodings[i].filters != []
    ensures r.Success? ==> r.value == FilterMapOf(encodings)
    ensures r.Failure? ==>
      && r.error.NoFilters? && r.error.encoding < |encodings|
      && encodings[r.error.encoding].filters == []
      && forall i :: 0 <= i < r.error.encoding ==> encodings[i].filters != []
  {
    var fm := FilterMap([]);
    var index := 0;
    while index < |encodings|
      invariant 0 <= index <= |encodings|
      invariant fm == FilterMapOf(encodings[..index])
      invariant forall i :: 0 <= i < index ==> encodings[i].filters != []
    {
      var filters := encodings[index].filters;
      if |filters| <= 0 {
        return Failure(NoFilters(index));
      }
      var k := 0;
      ghost var before := fm.entries;
      while k < |filters|
        invariant 0 <= k <= |filters|
        invariant fm.entries == before + EntriesFor(filters[..k], index)
      {
        assert filters[..k + 1][..k] == filters[..k];
        fm := fm.Add(filters[k], index);
        k := k + 1;
      }
      assert filters[..|filters|] == filters;
      assert encodings[..index + 1][..index] == encodings[..index];
      index := index + 1;
    }
    assert encodings[..|encodings|] == encodings;
    r := Success(fm);
  }

  // ---------------------------------------------------------------- owners

  /** Worker w's range [from, to] contains instr (no upper bound when `to` is absent). */
  predicate InRange(w: WorkerRecord, instr: Instruction)
  {
    LessEq(w.from, instr) && (w.to.None? || LessEq(instr, w.to.value))
  }

  /** `position`: the first worker whose range contains instr. */
  function Owner(workers: seq<WorkerRecord>, instr: Instruction): (r: Option<nat>)
    ensures r.Some? ==> r.value < |workers| && InRange(workers[r.value], instr)
    ensures r.Some? ==> forall j :: 0 <= j < r.value ==> !InRange(workers[j], instr)
    ensures r.None? <==> forall j :: 0 <= j < |workers| ==> !InRange(workers[j], instr)
  {
    if workers == [] then None
    else if InRange(workers[0], instr) then Some(0)
    else match Owner(workers[1..], instr)
      case None => None
      case Some(k) => Some(k + 1)
  }

  // ---------------------------------------------------------------- tally

  datatype Stats = Stats(found: nat, missed: nat, total: nat)

  /** A chunk's result: per-worker stats and per-encoding seen flags. */
  datatype Tally = Tally(counts: seq<Stats>, seen: seq<bool>)

  /** `Stats::default()` for every worker and `false` for every encoding: the merge identity. */
  function Zero(numWorkers: nat, numEncodings: nat): Tally
  {
    Tally(seq(numWorkers, _ => Stats(0, 0, 0)), seq(numEncodings, _ => false))
  }

  predicate Shaped(t: Tally, workers: seq<WorkerRecord>, fm: FilterMap)
  {
    |t.counts| == |workers| && fm.IndicesBelow(|t.seen|)
  }

  /**
    The effect of one scanned instruction on a tally: the loop body of the
    audit (its properties are stated by `StepEffect`).
   */
  function Step(t: Tally, workers: seq<WorkerRecord>, fm: FilterMap, instr: Instruction): (r: Tally)
    requires Shaped(t, workers, fm)
    ensures |r.counts| == |t.counts| && |r.seen| == |t.seen|
  {
    match Owner(workers, instr)
    case None => t
    case Some(w) =>
      var hit := fm.Lookup(instr);
      var s := t.counts[w];
      var s' :=
        if hit.Some? then s.(found := s.found + 1)
        else if Less(instr, workers[w].inner.counter.current) then s.(missed := s.missed + 1)
        else s;
      Tally(t.counts[w := s'.(total := s'.total + 1)],
            if hit.Some? then t.seen[hit.value := true] else t.seen)
  }

  /**
    One scanned instruction: its owner's total rises by one; found rises by
    one exactly when a filter matches (and that artifact is marked seen);
    otherwise missed rises by one exactly when the owner's cursor is already
    past it; nothing else in the owner's record changes, and no other worker
    changes. An instruction without an owner aborts the
    audit; here it changes nothing.
   */
  lemma StepEffect(t: Tally, workers: seq<WorkerRecord>, fm: FilterMap, instr: Instruction)
    requires Shaped(t, workers, fm)
    ensures var r := Step(t, workers, fm, instr);
      && (Owner(workers, instr).Some? ==>
        var w := Owner(workers, instr).value;
        var hit := fm.Lookup(instr).Some?;
        var past := Less(instr, workers[w].inner.counter.current);
        && r.counts[w] == Stats(t.counts[w].found + (if hit then 1 else 0),
                                t.counts[w].missed + (if !hit && past then 1 else 0),
                                t.counts[w].total + 1)
        && (forall j :: 0 <= j < |t.counts| && j != w ==> r.counts[j] == t.counts[j]))
      && (Owner(workers, instr).None? ==> r == t)
      && (forall i :: 0 <= i < |t.seen| ==>
        (r.seen[i] <==> t.seen[i] || (fm.Lookup(instr) == Some(i) && Owner(workers, instr).Some?)))
  {
  }

  /** The sequential tally of a list of scanned instructions, starting from t. */
  function TallyFrom(t: Tally, workers: seq<WorkerRecord>, fm: FilterMap, xs: seq<Instruction>): (r: Tally)
    requires Shaped(t, workers, fm)
    ensures |r.counts| == |t.counts| && |r.seen| == |t.seen|
    decreases |xs|
  {
    if xs == [] then t else TallyFrom(Step(t, workers, fm, xs[0]), workers, fm, xs[1..])
  }

  /** Every scanned instruction has an owner (otherwise the audit panics). */
  predicate AllOwned(workers: seq<WorkerRecord>, xs: seq<Instruction>)
  {
    forall j :: 0 <= j < |xs| ==> Owner(workers, xs[j]).Some?
  }

  // ---------------------------------------------------------------- merge

  function MergeStats(a: Stats, b: Stats): Stats
  {
    Stats(a.found + b.found, a.missed + b.missed, a.total + b.total)
  }

  /**
    The reduce step: element-wise sum of the stats and element-wise OR of the
    seen flags, over the positions both sides have (`zip` stops at the shorter).
   */
  function Combine(a: Tally, b: Tally): Tally
  {
    Tally(
      seq(|a.counts|, i requires 0 <= i < |a.counts| =>
        if i < |b.counts| then MergeStats(a.counts[i], b.counts[i]) else a.counts[i]),
      seq(|a.seen|, i requires 0 <= i < |a.seen| =>
        if i < |b.seen| then a.seen[i] || b.seen[i] else a.seen[i]))
  }

  /** The reduce closure, updating the left side in place through `iter_mut().zip(..)`. */
  method Merge(a: Tally, b: Tally) returns (r: Tally)
    ensures r == Combine(a, b)
  {
    var counts := a.counts;
    var i := 0;
    while i < |counts| && i < |b.counts|
      invariant 0 <= i <= |counts| == |a.counts| && i <= |b.counts|
      invariant forall j :: 0 <= j < i ==> counts[j] == MergeStats(a.counts[j], b.counts[j])
      invariant forall j :: i <= j < |counts| ==> counts[j] == a.counts[j]
    {
      var c := counts[i];
      var o := b.counts[i];
      c := c.(missed := c.missed + o.missed);
      c := c.(total := c.total + o.total);
      c := c.(found := c.found + o.found);
      counts := counts[i := c];
      i := i + 1;
    }
    var seen := a.seen;
    i := 0;
    while i < |seen| && i < |b.seen|
      invariant 0 <= i <= |seen| == |a.seen| && i <= |b.seen|
      invariant forall j :: 0 <= j < i ==> seen[j] == (a.seen[j] || b.seen[j])
      invariant forall j :: i <= j < |seen| ==> seen[j] == a.seen[j]
    {
      seen := seen[i := seen[i] || b.seen[i]];
      i := i + 1;
    }
    r := Tally(counts, seen);
  }

  /** The all-zero tally is a two-sided identity of the merge. */
  lemma CombineIdentity(t: Tally)
    ensures Combine(Zero(|t.counts|, |t.seen|), t) == t
    ensures Combine(t, Zero(|t.counts|, |t.seen|)) == t
  {
  }

  /** The merge is associative, so any reduction tree gives the same result. */
  lemma CombineAssociative(a: Tally, b: Tally, c: Tally)
    requires |a.counts| == |b.counts| == |c.counts| && |a.seen| == |b.seen| == |c.seen|
    ensures Combine(Combine(a, b), c) == Combine(a, Combine(b, c))
  {
  }

  /** The merge is commutative. */
  lemma CombineCommutative(a: Tally, b: Tally)
    requires |a.counts| == |b.counts| && |a.seen| == |b.seen|
    ensures Combine(a, b) == Combine(b, a)
  {
  }

  lemma StepCombine(a: Tally, b: Tally, workers: seq<WorkerRecord>, fm: FilterMap, x: Instruction)
    requires |a.counts| == |b.counts| && |a.seen| == |b.seen|
    requires Shaped(b, workers, fm)
    ensures Shaped(Combine(a, b), workers, fm)
    ensures Step(Combine(a, b), workers, fm, x) == Combine(a, Step(b, workers, fm, x))
  {
  }

  lemma {:induction false} TallyFromCombine(a: Tally, b: Tally, workers: seq<WorkerRecord>, fm: FilterMap, xs: seq<Instruction>)
    requires |a.counts| == |b.counts| && |a.seen| == |b.seen|
    requires Shaped(b, workers, fm)
    ensures Shaped(Combine(a, b), workers, fm)
    ensures TallyFrom(Combine(a, b), workers, fm, xs) == Combine(a, TallyFrom(b, workers, fm, xs))
    decreases |xs|
  {
    StepCombine(a, b, workers, fm, if xs == [] then [] else xs[0]);
    if xs != [] {
      TallyFromCombine(a, Step(b, workers, fm, xs[0]), workers, fm, xs[1..]);
    }
  }

  lemma {:induction false} TallyFromAppend(t: Tally, workers: seq<WorkerRecord>, fm: FilterMap, xs: seq<Instruction>, ys: seq<Instruction>)
    requires Shaped(t, workers, fm)
    ensures TallyFrom(t, workers, fm, xs + ys) == TallyFrom(TallyFrom(t, workers, fm, xs), workers, fm, ys)
    decreases |xs|
  {
    if xs == [] {
      assert xs + ys == ys;
    } else {
      assert (xs + ys)[1..] == xs[1..] + ys;
      TallyFromAppend(Step(t, workers, fm, xs[0]), workers, fm, xs[1..], ys);
    }
  }

  lemma PrefixSnoc(s: seq<Instruction>, i: nat)
    requires i < |s|
    ensures s[..i + 1] == s[..i] + [s[i]]
  {
  }

  lemma TallyFromSnoc(t: Tally, workers: seq<WorkerRecord>, fm: FilterMap, xs: seq<Instruction>, x: Instruction)
    requires Shaped(t, workers, fm)
    ensures Shaped(TallyFrom(t, workers, fm, xs), workers, fm)
    ensures TallyFrom(t, workers, fm, xs + [x]) == Step(TallyFrom(t, workers, fm, xs), workers, fm, x)
  {
    TallyFromAppend(t, workers, fm, xs, [x]);
    var u := TallyFrom(t, workers, fm, xs);
    assert TallyFrom(Step(u, workers, fm, x), workers, fm, []) == Step(u, workers, fm, x);
  }

  /**
    Tallying a list in two pieces and merging the results equals tallying the
    whole list: the per-chunk parallel audit computes the sequential tally.
   */
  lemma TallySplit(workers: seq<WorkerRecord>, fm: FilterMap, numEncodings: nat, xs: seq<Instruction>, ys: seq<Instruction>)
    requires fm.IndicesBelow(numEncodings)
    ensures var z := Zero(|workers|, numEncodings);
      TallyFrom(z, workers, fm, xs + ys) == Combine(TallyFrom(z, workers, fm, xs), TallyFrom(z, workers, fm, ys))
  {
    var z := Zero(|workers|, numEncodings);
    var left := TallyFrom(z, workers, fm, xs);
    TallyFromAppend(z, workers, fm, xs, ys);
    CombineIdentity(left);
    TallyFromCombine(left, z, workers, fm, ys);
  }

  /** Folding chunk tallies with the merge, from the identity, as `reduce` does. */
  function ReduceChunks(workers: seq<WorkerRecord>, fm: FilterMap, numEncodings: nat, chunks: seq<seq<Instruction>>): (r: Tally)
    requires fm.IndicesBelow(numEncodings)
    ensures |r.counts| == |workers| && |r.seen| == numEncodings
  {
    var z := Zero(|workers|, numEncodings);
    if chunks == [] then z
    else Combine(ReduceChunks(workers, fm, numEncodings, chunks[..|chunks| - 1]),
                 TallyFrom(z, workers, fm, chunks[|chunks| - 1]))
  }

  function Concat(chunks: seq<seq<Instruction>>): seq<Instruction>
  {
    if chunks == [] then [] else Concat(chunks[..|chunks| - 1]) + chunks[|chunks| - 1]
  }

  /** However the scan list is cut into chunks, the merged result is the sequential tally. */
  lemma {:induction false} ReduceChunksIsSequential(workers: seq<WorkerRecord>, fm: FilterMap, numEncodings: nat, chunks: seq<seq<Instruction>>)
    requires fm.IndicesBelow(numEncodings)
    ensures ReduceChunks(workers, fm, numEncodings, chunks) == TallyFrom(Zero(|workers|, numEncodings), workers, fm, Concat(chunks))
  {
    if chunks != [] {
      var init := chunks[..|chunks| - 1];
      ReduceChunksIsSequential(workers, fm, numEncodings, init);
      TallySplit(workers, fm, numEncodings, Concat(init), chunks[|chunks| - 1]);
    }
  }

  // ---------------------------------------------------------------- invariants

  predicate Consistent(counts: seq<Stats>)
  {
    forall i :: 0 <= i < |counts| ==> counts[i].found + counts[i].missed <= counts[i].total
  }

  function SumFound(counts: seq<Stats>): nat
  {
    if counts == [] then 0 else SumFound(counts[..|counts| - 1]) + counts[|counts| - 1].found
  }

  function SumMissed(counts: seq<Stats>): nat
  {
    if counts == [] then 0 else SumMissed(counts[..|counts| - 1]) + counts[|counts| - 1].missed
  }

  function SumTotal(counts: seq<Stats>): nat
  {
    if counts == [] then 0 else SumTotal(counts[..|counts| - 1]) + counts[|counts| - 1].total
  }

  function CountTrue(bs: seq<bool>): (r: nat)
    ensures r <= |bs|
  {
    if bs == [] then 0 else CountTrue(bs[..|bs| - 1]) + (if bs[|bs| - 1] then 1 else 0)
  }

  /** Overall found plus missed never exceeds overall total. */
  lemma {:induction false} SumsConsistent(counts: seq<Stats>)
    requires Consistent(counts)
    ensures SumFound(counts) + SumMissed(counts) <= SumTotal(counts)
  {
    if counts != [] {
      SumsConsistent(counts[..|counts| - 1]);
    }
  }

  lemma {:induction false} SumTotalUpdate(counts: seq<Stats>, w: nat, s: Stats)
    requires w < |counts|
    ensures SumTotal(counts[w := s]) == SumTotal(counts) - counts[w].total + s.total
  {
    if w < |counts| - 1 {
      SumTotalUpdate(counts[..|counts| - 1], w, s);
      assert counts[w := s][..|counts| - 1] == counts[..|counts| - 1][w := s];
    } else {
      assert counts[w := s][..|counts| - 1] == counts[..|counts| - 1];
    }
  }

  /**
    Tallying keeps found + missed <= total for every worker, and when every
    scanned instruction has an owner the totals add up to the number scanned.
   */
  lemma {:induction false} TallyFromCounts(t: Tally, workers: seq<WorkerRecord>, fm: FilterMap, xs: seq<Instruction>)
    requires Shaped(t, workers, fm) && Consistent(t.counts)
    ensures Consistent(TallyFrom(t, workers, fm, xs).counts)
    ensures AllOwned(workers, xs) ==> SumTotal(TallyFrom(t, workers, fm, xs).counts) == SumTotal(t.counts) + |xs|
    decreases |xs|
  {
    if xs != [] {
      var t' := Step(t, workers, fm, xs[0]);
      if Owner(workers, xs[0]).Some? {
        var w := Owner(workers, xs[0]).value;
        SumTotalUpdate(t.counts, w, t'.counts[w]);
        assert t'.counts == t.counts[w := t'.counts[w]];
      }
      assert AllOwned(workers, xs) ==> AllOwned(workers, xs[1..]);
      TallyFromCounts(t', workers, fm, xs[1..]);
    }
  }

  lemma {:induction false} ZeroSums(n: nat, m: nat)
    ensures SumTotal(Zero(n, m).counts) == 0 && Consistent(Zero(n, m).counts)
  {
    if n > 0 {
      ZeroSums(n - 1, m);
      assert Zero(n, m).counts[..n - 1] == Zero(n - 1, m).counts;
    }
  }

  // ---------------------------------------------------------------- the audit

  /** The body of the chunk loop for one scanned instruction owned by worker w. */
  method TallyOne(t: Tally, workers: seq<WorkerRecord>, fm: FilterMap, w: nat, instr: Instruction)
    returns (r: Tally)
    requires Shaped(t, workers, fm)
    requires Owner(workers, instr) == Some(w)
    ensures r == Step(t, workers, fm, instr)
  {
    var matchFound := false;
    var counts := t.counts;
    var seen := t.seen;
    var hit := fm.Lookup(instr);
    if hit.Some? {
      matchFound := true;
      seen := seen[hit.value := true];
    }
    if matchFound {
      counts := counts[w := counts[w].(found := counts[w].found + 1)];
    } else if Less(instr, workers[w].inner.counter.current) {
      counts := counts[w := counts[w].(missed := counts[w].missed + 1)];
    }
    counts := counts[w := counts[w].(total := counts[w].total + 1)];
    r := Tally(counts, seen);
  }

  /** The loop over one chunk: tally each scanned instruction, panicking on one no worker owns. */
  method TallyChunk(workers: seq<WorkerRecord>, fm: FilterMap, numEncodings: nat, chunk: seq<Instruction>)
    returns (r: Result<Tally, VerbError>)
    requires fm.IndicesBelow(numEncodings)
    ensures r.Success? <==> AllOwned(workers, chunk)
    ensures r.Success? ==> r.value == TallyFrom(Zero(|workers|, numEncodings), workers, fm, chunk)
    ensures r.Failure? ==>
      && r.error.NoWorkerForInstruction? && r.error.instr in chunk
      && Owner(workers, r.error.instr).None?
  {
    var t := Zero(|workers|, numEncodings);
    var i := 0;
    while i < |chunk|
      invariant 0 <= i <= |chunk|
      invariant |t.counts| == |workers| && |t.seen| == numEncodings
      invariant AllOwned(workers, chunk[..i])
      invariant t == TallyFrom(Zero(|workers|, numEncodings), workers, fm, chunk[..i])
    {
      var instr := chunk[i];
      var worker := Owner(workers, instr);
      if worker.None? {
        return Failure(NoWorkerForInstruction(instr));
      }
      var next := TallyOne(t, workers, fm, worker.value, instr);
      PrefixSnoc(chunk, i);
      TallyFromSnoc(Zero(|workers|, numEncodings), workers, fm, chunk[..i], instr);
      t := next;
      i := i + 1;
    }
    assert chunk[..|chunk|] == chunk;
    r := Success(t);
  }

  lemma AllOwnedAppend(workers: seq<WorkerRecord>, xs: seq<Instruction>, ys: seq<Instruction>)
    ensures AllOwned(workers, xs + ys) <==> AllOwned(workers, xs) && AllOwned(workers, ys)
  {
    if AllOwned(workers, xs) && AllOwned(workers, ys) {
      forall j | 0 <= j < |xs + ys| ensures Owner(workers, (xs + ys)[j]).Some? {
        if j >= |xs| {
          assert (xs + ys)[j] == ys[j - |xs|];
        }
      }
    }
    if AllOwned(workers, xs + ys) {
      forall j | 0 <= j < |xs| ensures Owner(workers, xs[j]).Some? {
        assert (xs + ys)[j] == xs[j];
      }
      forall j | 0 <= j < |ys| ensures Owner(workers, ys[j]).Some? {
        assert (xs + ys)[|xs| + j] == ys[j];
      }
    }
  }

  lemma UnownedInSlice(workers: seq<WorkerRecord>, v: seq<Instruction>, start: nat, end: nat, x: Instruction)
    requires start <= end <= |v|
    requires x in v[start..end] && Owner(workers, x).None?
    ensures !AllOwned(workers, v)
  {
    var k :| 0 <= k < end - start && v[start..end][k] == x;
    assert v[start + k] == x;
  }

  /** Extending the audited prefix of `v` by the chunk `v[start..end]`. */
  lemma ChunkStep(workers: seq<WorkerRecord>, fm: FilterMap, numEncodings: nat, v: seq<Instruction>, start: nat, end: nat)
    requires fm.IndicesBelow(numEncodings)
    requires start <= end <= |v|
    ensures var z := Zero(|workers|, numEncodings);
      TallyFrom(z, workers, fm, v[..end]) == Combine(TallyFrom(z, workers, fm, v[..start]), TallyFrom(z, workers, fm, v[start..end]))
    ensures AllOwned(workers, v[..end]) <==> AllOwned(workers, v[..start]) && AllOwned(workers, v[start..end])
  {
    assert v[..start] + v[start..end] == v[..end];
    TallySplit(workers, fm, numEncodings, v[..start], v[start..end]);
    AllOwnedAppend(workers, v[..start], v[start..end]);
  }

  /**
    The audit `par_iter().chunks(5000).map(..).reduce(..)`, run chunk by
    chunk in order: it fails exactly when some scanned instruction has no
    owner, and otherwise yields the sequential tally of the whole list.
   */
  method AuditScan(workers: seq<WorkerRecord>, fm: FilterMap, numEncodings: nat, v: seq<Instruction>)
    returns (r: Result<Tally, VerbError>)
    requires fm.IndicesBelow(numEncodings)
    ensures r.Success? <==> AllOwned(workers, v)
    ensures r.Success? ==> r.value == TallyFrom(Zero(|workers|, numEncodings), workers, fm, v)
  {
    var z := Zero(|workers|, numEncodings);
    var acc := z;
    var start := 0;
    while start < |v|
      invariant 0 <= start <= |v|
      invariant AllOwned(workers, v[..start])
      invariant acc == TallyFrom(z, workers, fm, v[..start])
    {
      var end := if |v| - start < ChunkSize then |v| else start + ChunkSize;
      var chunk := v[start..end];
      var t := TallyChunk(workers, fm, numEncodings, chunk);
      if t.Failure? {
        UnownedInSlice(workers, v, start, end, t.error.instr);
        return Failure(t.error);
      }
      ChunkStep(workers, fm, numEncodings, v, start, end);
      acc := Merge(acc, t.value);
      start := end;
    }
    assert v[..|v|] == v;
    r := Success(acc);
  }

  /** The overall numbers `Status` reports for a scan list. */
  datatype Summary = Summary(
    perWorker: seq<Stats>,
    found: nat,
    missed: nat,
    total: nat,
    encodingsSeen: nat,
    numEncodings: nat)

  /**
    An encoding is marked seen by a tally exactly when it was seen before or
    some owned scanned instruction's lookup answers it.
   */
  lemma {:induction false} TallySeen(t: Tally, workers: seq<WorkerRecord>, fm: FilterMap, xs: seq<Instruction>, i: nat)
    requires Shaped(t, workers, fm) && i < |t.seen|
    ensures TallyFrom(t, workers, fm, xs).seen[i] <==>
      t.seen[i] || exists j :: 0 <= j < |xs| && Answers(workers, fm, xs[j], i)
    decreases |xs|
  {
    if xs != [] {
      var t' := Step(t, workers, fm, xs[0]);
      StepEffect(t, workers, fm, xs[0]);
      TallySeen(t', workers, fm, xs[1..], i);
      AnsweredCons(workers, fm, xs, i);
    }
  }

  /** The scanned instruction x has an owner and the filter map answers encoding i for it. */
  predicate Answers(workers: seq<WorkerRecord>, fm: FilterMap, x: Instruction, i: nat)
  {
    Owner(workers, x).Some? && fm.Lookup(x) == Some(i)
  }

  lemma AnsweredCons(workers: seq<WorkerRecord>, fm: FilterMap, xs: seq<Instruction>, i: nat)
    requires xs != []
    ensures (exists j :: 0 <= j < |xs| && Answers(workers, fm, xs[j], i)) <==>
      Answers(workers, fm, xs[0], i)
      || exists j :: 0 <= j < |xs[1..]| && Answers(workers, fm, xs[1..][j], i)
  {
    var rest := xs[1..];
    if exists j :: 0 <= j < |rest| && Answers(workers, fm, rest[j], i) {
      var j :| 0 <= j < |rest| && Answers(workers, fm, rest[j], i);
      assert xs[j + 1] == rest[j];
    }
    if exists j :: 0 <= j < |xs| && Answers(workers, fm, xs[j], i) {
      var j :| 0 <= j < |xs| && Answers(workers, fm, xs[j], i);
      if j > 0 {
        assert rest[j - 1] == xs[j];
      }
    }
  }

  /**
    The seen flags `Status` counts: encoding i is seen exactly when some
    owned scanned instruction's lookup answers i.
   */
  lemma ScanSeen(workers: seq<WorkerRecord>, fm: FilterMap, numEncodings: nat, xs: seq<Instruction>, i: nat)
    requires fm.IndicesBelow(numEncodings) && i < numEncodings
    ensures TallyFrom(Zero(|workers|, numEncodings), workers, fm, xs).seen[i] <==>
      exists j :: 0 <= j < |xs| && Answers(workers, fm, xs[j], i)
  {
    var z := Zero(|workers|, numEncodings);
    assert !z.seen[i];
    TallySeen(z, workers, fm, xs, i);
  }

  /** One of encoding e's filters matches instr. */
  predicate Hits(e: Encoding, instr: Instruction)
  {
    exists f :: f in e.filters && f.Matches(instr)
  }

  /**
    An artifact marked seen by the audit has a filter that matches some
    scanned instruction.
   */
  lemma ScanSeenMatches(es: seq<Encoding>, fm: FilterMap, workers: seq<WorkerRecord>, xs: seq<Instruction>, i: nat)
    requires fm == FilterMapOf(es) && i < |es|
    requires TallyFrom(Zero(|workers|, |es|), workers, fm, xs).seen[i]
    ensures exists j :: 0 <= j < |xs| && Hits(es[i], xs[j])
  {
    ScanSeen(workers, fm, |es|, xs, i);
    var j :| 0 <= j < |xs| && Answers(workers, fm, xs[j], i);
    SeenMatches(es, fm, xs[j], i);
    assert Hits(es[i], xs[j]);
  }

  lemma SeenMatches(es: seq<Encoding>, fm: FilterMap, instr: Instruction, i: nat)
    requires fm == FilterMapOf(es) && fm.Lookup(instr) == Some(i)
    ensures i < |es| && Hits(es[i], instr)
  {
    FilterMapLookup(es, instr);
  }

  datatype StatusReport = StatusReport(uniqueSequences: nat, summary: Option<Summary>)

  function SumUniqueSequences(workers: seq<WorkerRecord>): nat
  {
    if workers == [] then 0
    else SumUniqueSequences(workers[..|workers| - 1]) + workers[|workers| - 1].inner.uniqueSequences
  }

  const ChunkSize: nat := 5000

  /**
    `Status`: with a scan list, build the filter map over all artifacts, tally
    the scan list chunk by chunk, merge the chunk results and sum them up.
   */
  method Status(runner: Work, scan: Option<seq<Instruction>>) returns (r: Result<StatusReport, VerbError>)
    requires runner.Valid()
    ensures r.Success? ==> r.value.uniqueSequences == SumUniqueSequences(runner.workers)
    ensures r.Success? ==> runner.workers != []
    ensures r.Success? <==>
      && runner.workers != []
      && (scan.Some? ==> AllOwned(runner.workers, scan.value)
                         && forall i :: 0 <= i < |runner.artifacts| ==> runner.artifacts[i].filters != [])
    ensures r.Success? ==> (r.value.summary.Some? <==> scan.Some?)
    ensures r.Success? && scan.Some? ==>
      var s := r.value.summary.value;
      && s.perWorker == TallyFrom(Zero(|runner.workers|, |runner.artifacts|), runner.workers,
                                  FilterMapOf(runner.artifacts), scan.value).counts
      && s.found == SumFound(s.perWorker) && s.missed == SumMissed(s.perWorker) && s.total == SumTotal(s.perWorker)
      && s.found + s.missed <= s.total
      && s.total == |scan.value|
      && s.numEncodings == |runner.artifacts|
      && s.encodingsSeen == CountTrue(TallyFrom(Zero(|runner.workers|, |runner.artifacts|), runner.workers,
                                                FilterMapOf(runner.artifacts), scan.value).seen)
      && s.encodingsSeen <= s.numEncodings
  {
    var workers := runner.workers;
    var uniqueSequences := SumUniqueSequences(workers);
    if scan.None? {
      if workers == [] {
        return Failure(NoWorkers);
      }
      return Success(StatusReport(uniqueSequences, None));
    }
    var encodings := runner.artifacts;
    var built := BuildFilterMap(encodings);
    if built.Failure? {
      return Failure(built.error);
    }
    var fm := built.value;
    var numEncodings := |encodings|;

    var v := scan.value;
    var z := Zero(|workers|, numEncodings);
    var audited := AuditScan(workers, fm, numEncodings, v);
    if audited.Failure? {
      return Failure(audited.error);
    }
    var acc := audited.value;
    if workers == [] {
      return Failure(NoWorkers);
    }
    ZeroSums(|workers|, numEncodings);
    TallyFromCounts(z, workers, fm, v);
    var counts := acc.counts;
    SumsConsistent(counts);
    var summary := Summary(counts, SumFound(counts), SumMissed(counts), SumTotal(counts),
                           CountTrue(acc.seen), numEncodings);
    r := Success(StatusReport(uniqueSequences, Some(summary)));
  }
}
