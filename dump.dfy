/**
  The `Dump` verb's statistics over the artifact log: how many distinct
  representative byte strings there are, and two histograms — encodings by
  number of memory-accessing outputs, and by the largest input count of any
  output.
 */
module Dump {
  import opened Instructions
  import opened WorkState

  /** The distinct representative instructions of the encodings. */
  function Representatives(es: seq<Encoding>): set<Instruction>
  {
    set i | 0 <= i < |es| :: es[i].instr
  }

  lemma {:induction false} RepresentativesBound(es: seq<Encoding>)
    ensures |Representatives(es)| <= |es|
    ensures es != [] ==> |Representatives(es)| >= 1
  {
    if es != [] {
      var init := es[..|es| - 1];
      RepresentativesBound(init);
      assert Representatives(es) == Representatives(init) + {es[|es| - 1].instr} by {
        forall x | x in Representatives(es) ensures x in Representatives(init) + {es[|es| - 1].instr} {
          var i :| 0 <= i < |es| && es[i].instr == x;
          if i < |es| - 1 {
            assert init[i].instr == x;
          }
        }
      }
    }
  }

  /** The loop with the `seen` set: the number of distinct representatives, never above the number of encodings. */
  method UniqueEncodings(encodings: seq<Encoding>) returns (unique: nat)
    ensures unique == |Representatives(encodings)|
    ensures unique <= |encodings|
    ensures unique == 0 <==> encodings == []
  {
    var seen: set<Instruction> := {};
    var index := 0;
    while index < |encodings|
      invariant 0 <= index <= |encodings|
      invariant seen == Representatives(encodings[..index])
    {
      var instr := encodings[index].instr;
      ghost var prefix := encodings[..index];
      assert Representatives(encodings[..index + 1]) == Representatives(prefix) + {instr} by {
        var next := encodings[..index + 1];
        forall x | x in Representatives(next) ensures x in Representatives(prefix) + {instr} {
          var i :| 0 <= i < |next| && next[i].instr == x;
          if i < index {
            assert prefix[i].instr == x;
          }
        }
        assert next[index].instr == instr;
        forall x | x in Representatives(prefix) ensures x in Representatives(next) {
          var i :| 0 <= i < index && prefix[i].instr == x;
          assert next[i].instr == x;
        }
      }
      if instr !in seen {
        seen := seen + {instr};
      }
      index := index + 1;
    }
    assert encodings[..|encodings|] == encodings;
    RepresentativesBound(encodings);
    unique := |seen|;
  }

  /** Number of outputs that access memory. */
  function MemoryAccesses(outputs: seq<Output>): (r: nat)
    ensures r <= |outputs|
    ensures r == 0 <==> forall o :: o in outputs ==> !o.memoryAccess
  {
    if outputs == [] then 0
    else MemoryAccesses(outputs[..|outputs| - 1]) + (if outputs[|outputs| - 1].memoryAccess then 1 else 0)
  }

  /** The largest `num_inputs` of any output, or 0 when there are no outputs. */
  function MaxInputs(outputs: seq<Output>): (r: nat)
    ensures forall o :: o in outputs ==> o.numInputs <= r
    ensures outputs == [] ==> r == 0
    ensures outputs != [] ==> exists o :: o in outputs && o.numInputs == r
  {
    if outputs == [] then 0
    else
      var rest := MaxInputs(outputs[..|outputs| - 1]);
      var last := outputs[|outputs| - 1].numInputs;
      assert outputs == outputs[..|outputs| - 1] + [outputs[|outputs| - 1]];
      if |outputs| == 1 || last > rest then last else rest
  }

  /** Sum of the counts of a histogram. */
  ghost function SumValues(m: map<nat, nat>): nat
    decreases |m|
  {
    if m == map[] then 0
    else
      var k :| k in m;
      assert |m - {k}| < |m| by { assert (m - {k}).Keys == m.Keys - {k}; }
      m[k] + SumValues(m - {k})
  }

  lemma {:induction false} SumValuesRemove(m: map<nat, nat>, k: nat)
    requires k in m
    ensures SumValues(m) == m[k] + SumValues(m - {k})
    decreases |m|
  {
    var j :| j in m && SumValues(m) == m[j] + SumValues(m - {j});
    if j != k {
      assert (m - {j}).Keys == m.Keys - {j};
      assert (m - {k}).Keys == m.Keys - {k};
      SumValuesRemove(m - {j}, k);
      SumValuesRemove(m - {k}, j);
      assert m - {j} - {k} == m - {k} - {j};
    }
  }

  /** Counting one more occurrence of k adds one to the histogram's sum. */
  lemma SumValuesIncrement(m: map<nat, nat>, k: nat)
    ensures SumValues(m[k := (if k in m then m[k] else 0) + 1]) == SumValues(m) + 1
  {
    var m' := m[k := (if k in m then m[k] else 0) + 1];
    SumValuesRemove(m', k);
    assert m' - {k} == m - {k};
    if k in m {
      SumValuesRemove(m, k);
    } else {
      assert m - {k} == m;
    }
  }

  /**
    A `HashMap` histogram built by `*counts.entry(key).or_insert(0) += 1`:
    every key present occurs in `keys` as often as its count says, and the
    counts sum to the number of keys.
   */
  method Histogram(keys: seq<nat>) returns (counts: map<nat, nat>)
    ensures forall k :: k in counts <==> k in keys
    ensures forall k :: k in counts ==> counts[k] == multiset(keys)[k]
    ensures SumValues(counts) == |keys|
  {
    counts := map[];
    var i := 0;
    while i < |keys|
      invariant 0 <= i <= |keys|
      invariant forall k :: k in counts <==> k in keys[..i]
      invariant forall k :: k in counts ==> counts[k] == multiset(keys[..i])[k]
      invariant SumValues(counts) == i
    {
      var num := keys[i];
      SumValuesIncrement(counts, num);
      var count := if num in counts then counts[num] else 0;
      counts := counts[num := count + 1];
      assert keys[..i + 1] == keys[..i] + [num];
      i := i + 1;
    }
    assert keys[..|keys|] == keys;
  }

  function MemoryAccessKeys(es: seq<Encoding>): (r: seq<nat>)
    ensures |r| == |es|
  {
    seq(|es|, i requires 0 <= i < |es| => MemoryAccesses(es[i].outputs))
  }

  function InputKeys(es: seq<Encoding>): (r: seq<nat>)
    ensures |r| == |es|
  {
    seq(|es|, i requires 0 <= i < |es| => MaxInputs(es[i].outputs))
  }

  datatype DumpReport = DumpReport(
    unique: nat,
    duplicates: nat,
    memoryAccessCounts: map<nat, nat>,
    inputCounts: map<nat, nat>)

  /** `Dump`: the distinct-representative count and the two histograms. */
  method Dump(runner: Work) returns (report: DumpReport)
    ensures report.unique == |Representatives(runner.artifacts)| <= |runner.artifacts|
    ensures report.duplicates == |runner.artifacts| - report.unique
    ensures SumValues(report.memoryAccessCounts) == |runner.artifacts|
    ensures SumValues(report.inputCounts) == |runner.artifacts|
    ensures forall k :: k in report.memoryAccessCounts <==> k in MemoryAccessKeys(runner.artifacts)
    ensures forall k :: k in report.inputCounts <==> k in InputKeys(runner.artifacts)
    ensures forall k :: k in report.memoryAccessCounts ==>
      report.memoryAccessCounts[k] == multiset(MemoryAccessKeys(runner.artifacts))[k]
    ensures forall k :: k in report.inputCounts ==>
      report.inputCounts[k] == multiset(InputKeys(runner.artifacts))[k]
  {
    var encodings := runner.artifacts;
    var unique := UniqueEncodings(encodings);
    var memoryAccessCounts := Histogram(MemoryAccessKeys(encodings));
    var inputCounts := Histogram(InputKeys(encodings));
    report := DumpReport(unique, |encodings| - unique, memoryAccessCounts, inputCounts);
  }
}
