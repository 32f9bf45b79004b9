/**
  The maintenance verbs of the driver: `ResetWorker`, `ResumeWorker`,
  `ResetInstrsSeen` and `RebuildFilters`. Each updates the loaded worker
  records in place and leaves the artifact log alone.
 */
module Maintenance {
  import opened Wrappers
  import opened Instructions
  import opened Filters
  import opened WorkState

  /** Every filter of every artifact, artifact by artifact in log order. */
  function AllFilters(es: seq<Encoding>): seq<Filter>
  {
    if es == [] then [] else AllFilters(es[..|es| - 1]) + es[|es| - 1].filters
  }

  /** The filter list each counter holds after a rebuild. */
  function RebuiltFilters(es: seq<Encoding>): seq<Filter>
  {
    SortByKey(AllFilters(es))
  }

  /** A filter is in the gathered list exactly when some artifact lists it. */
  lemma {:induction false} AllFiltersMembers(es: seq<Encoding>, f: Filter)
    ensures f in AllFilters(es) <==> exists i :: 0 <= i < |es| && f in es[i].filters
  {
    if es != [] {
      var init := es[..|es| - 1];
      AllFiltersMembers(init, f);
      if f in es[|es| - 1].filters {
        assert f in AllFilters(es);
      }
      if exists i :: 0 <= i < |es| && f in es[i].filters {
        var i :| 0 <= i < |es| && f in es[i].filters;
        if i < |es| - 1 {
          assert f in init[i].filters;
        }
      }
    }
  }

  /**
    The rebuilt list is ordered by smallest matching instruction and is a
    permutation of the concatenation of all artifacts' filters.
   */
  lemma RebuiltFiltersCorrect(es: seq<Encoding>)
    ensures SortedByKey(RebuiltFilters(es))
    ensures multiset(RebuiltFilters(es)) == multiset(AllFilters(es))
    ensures forall f :: f in RebuiltFilters(es) <==> exists i :: 0 <= i < |es| && f in es[i].filters
  {
    SortByKeyCorrect(AllFilters(es));
    forall f ensures f in RebuiltFilters(es) <==> exists i :: 0 <= i < |es| && f in es[i].filters {
      assert f in RebuiltFilters(es) <==> f in multiset(AllFilters(es));
      AllFiltersMembers(es, f);
    }
  }

  /** `ResetWorker num`: a fresh counter over the worker's own bounds, nothing seen, not done. */
  method ResetWorker(runner: Work, num: nat) returns (r: Outcome<VerbError>)
    requires runner.Valid()
    modifies runner
    ensures runner.Valid()
    ensures runner.artifacts == old(runner.artifacts) && runner.secondsRunning == old(runner.secondsRunning)
    ensures r.Pass? <==> num < |old(runner.workers)|
    ensures r.Fail? ==> r.error == WorkerIndexOutOfRange(num, |old(runner.workers)|) && runner.workers == old(runner.workers)
    ensures |runner.workers| == |old(runner.workers)|
    ensures forall j :: 0 <= j < |runner.workers| && j != num ==> runner.workers[j] == old(runner.workers[j])
    ensures r.Pass? ==>
      var w, w0 := runner.workers[num], old(runner.workers[num]);
      && w.inner.counter == FreshWorker(w0.from, w0.to).counter
      && w.inner.instrsSeen == FreshWorker(w0.from, w0.to).instrsSeen
      && !w.done
      && w == w0.(inner := w.inner, done := false)
      && w.inner == w0.inner.(counter := w.inner.counter, instrsSeen := {})
  {
    if num >= |runner.workers| {
      return Fail(WorkerIndexOutOfRange(num, |runner.workers|));
    }
    var worker := runner.workers[num];
    var newCounter := Range(worker.from, worker.to);
    worker := worker.(inner := worker.inner.(counter := newCounter));
    worker := worker.(inner := worker.inner.(instrsSeen := {}));
    worker := worker.(done := false);
    runner.workers := runner.workers[num := worker];
    r := Pass;
  }

  /** `ResumeWorker num`: only the done flag of worker num is cleared. */
  method ResumeWorker(runner: Work, num: nat) returns (r: Outcome<VerbError>)
    requires runner.Valid()
    modifies runner
    ensures runner.Valid()
    ensures runner.artifacts == old(runner.artifacts) && runner.secondsRunning == old(runner.secondsRunning)
    ensures r.Pass? <==> num < |old(runner.workers)|
    ensures r.Fail? ==> r.error == WorkerIndexOutOfRange(num, |old(runner.workers)|) && runner.workers == old(runner.workers)
    ensures |runner.workers| == |old(runner.workers)|
    ensures forall j :: 0 <= j < |runner.workers| && j != num ==> runner.workers[j] == old(runner.workers[j])
    ensures r.Pass? ==> runner.workers[num] == old(runner.workers[num]).(done := false)
  {
    if num >= |runner.workers| {
      return Fail(WorkerIndexOutOfRange(num, |runner.workers|));
    }
    runner.workers := runner.workers[num := runner.workers[num].(done := false)];
    r := Pass;
  }

  /** `ResetInstrsSeen`: every worker's seen-set is emptied and nothing else changes. */
  method ResetInstrsSeen(runner: Work)
    requires runner.Valid()
    modifies runner
    ensures runner.Valid()
    ensures runner.artifacts == old(runner.artifacts) && runner.secondsRunning == old(runner.secondsRunning)
    ensures |runner.workers| == |old(runner.workers)|
    ensures forall j :: 0 <= j < |runner.workers| ==>
      runner.workers[j] == old(runner.workers[j]).(inner := old(runner.workers[j]).inner.(instrsSeen := {}))
  {
    var i := 0;
    while i < |runner.workers|
      invariant 0 <= i <= |runner.workers| == |old(runner.workers)|
      invariant runner.artifacts == old(runner.artifacts) && runner.secondsRunning == old(runner.secondsRunning)
      invariant forall j :: 0 <= j < i ==>
        runner.workers[j] == old(runner.workers[j]).(inner := old(runner.workers[j]).inner.(instrsSeen := {}))
      invariant forall j :: i <= j < |runner.workers| ==> runner.workers[j] == old(runner.workers[j])
    {
      var w := runner.workers[i];
      runner.workers := runner.workers[i := w.(inner := w.inner.(instrsSeen := {}))];
      i := i + 1;
    }
  }

  /** The worker record after a rebuild: its counter holds exactly `fs`; nothing else differs. */
  function WithFilters(w: WorkerRecord, fs: seq<Filter>): WorkerRecord
  {
    w.(inner := w.inner.(counter := w.inner.counter.(filters := fs)))
  }

  /** The gathering loop of `RebuildFilters`: every artifact's filters, artifact by artifact. */
  method GatherFilters(encodings: seq<Encoding>) returns (filters: seq<Filter>)
    ensures filters == AllFilters(encodings)
  {
    filters := [];
    var index := 0;
    while index < |encodings|
      invariant 0 <= index <= |encodings|
      invariant filters == AllFilters(encodings[..index])
    {
      assert encodings[..index + 1][..index] == encodings[..index];
      filters := filters + encodings[index].filters;
      index := index + 1;
    }
    assert encodings[..|encodings|] == encodings;
  }

  /**
    One worker's share of a rebuild: each filter is added to the counter in
    order, then the ten `rebuild_inplace` passes run. The counter ends up
    holding its previous filters followed by `filters`, and nothing else
    about it changes.
   */
  method LoadFilters(start: InstructionCounter, filters: seq<Filter>) returns (counter: InstructionCounter)
    ensures counter == start.(filters := start.filters + filters)
  {
    counter := start;
    var k := 0;
    while k < |filters|
      invariant 0 <= k <= |filters|
      invariant counter == start.(filters := start.filters + filters[..k])
    {
      assert start.filters + filters[..k + 1] == start.filters + filters[..k] + [filters[k]];
      counter := counter.AddFilter(filters[k]);
      k := k + 1;
    }
    assert filters[..|filters|] == filters;
    for n := 0 to 10
      invariant counter == start.(filters := start.filters + filters)
    {
      counter := counter.RebuildInplace();
    }
  }

  /** The clearing pass of `RebuildFilters`: every counter's filter list is emptied. */
  method ClearAll(workers: seq<WorkerRecord>) returns (ws: seq<WorkerRecord>)
    ensures |ws| == |workers|
    ensures forall j :: 0 <= j < |ws| ==> ws[j] == WithFilters(workers[j], [])
  {
    ws := workers;
    var i := 0;
    while i < |ws|
      invariant 0 <= i <= |ws| == |workers|
      invariant forall j :: 0 <= j < i ==> ws[j] == WithFilters(workers[j], [])
      invariant forall j :: i <= j < |ws| ==> ws[j] == workers[j]
    {
      var w := ws[i];
      ws := ws[i := w.(inner := w.inner.(counter := w.inner.counter.ClearFilters()))];
      i := i + 1;
    }
  }

  /** The loading pass of `RebuildFilters`: `fs` is appended to every counter's filter list. */
  method LoadAll(workers: seq<WorkerRecord>, fs: seq<Filter>) returns (ws: seq<WorkerRecord>)
    ensures |ws| == |workers|
    ensures forall j :: 0 <= j < |ws| ==> ws[j] == WithFilters(workers[j], workers[j].inner.counter.filters + fs)
  {
    ws := workers;
    var i := 0;
    while i < |ws|
      invariant 0 <= i <= |ws| == |workers|
      invariant forall j :: 0 <= j < i ==> ws[j] == WithFilters(workers[j], workers[j].inner.counter.filters + fs)
      invariant forall j :: i <= j < |ws| ==> ws[j] == workers[j]
    {
      var w := ws[i];
      var counter := LoadFilters(w.inner.counter, fs);
      ws := ws[i := w.(inner := w.inner.(counter := counter))];
      i := i + 1;
    }
  }

  /**
    `RebuildFilters`: gather every artifact's filters, sort them by smallest
    matching instruction, clear every counter, then load the same list into
    every counter and run the ten `rebuild_inplace` passes.
   */
  method RebuildFilters(runner: Work)
    requires runner.Valid()
    modifies runner
    ensures runner.Valid()
    ensures runner.artifacts == old(runner.artifacts) && runner.secondsRunning == old(runner.secondsRunning)
    ensures |runner.workers| == |old(runner.workers)|
    ensures forall j :: 0 <= j < |runner.workers| ==>
      runner.workers[j] == WithFilters(old(runner.workers[j]), RebuiltFilters(old(runner.artifacts)))
  {
    var filters := GatherFilters(runner.artifacts);
    filters := SortByKey(filters);

    var cleared := ClearAll(runner.workers);
    var ws := LoadAll(cleared, filters);
    assert [] + filters == filters;
    runner.workers := ws;
  }
}
