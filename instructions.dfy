/**
  Instructions: candidate machine-code byte strings and the total order the
  enumeration walks them in (lexicographic over bytes, a proper prefix first).
 */
module Instructions {

  /** The raw bytes of one candidate instruction. */
  type Instruction = seq<bv8>

  /** Strict order: compare byte by byte; a proper prefix is smaller. */
  predicate Less(a: Instruction, b: Instruction)
    decreases |a|
  {
    |b| > 0 && (|a| == 0 || a[0] < b[0] || (a[0] == b[0] && Less(a[1..], b[1..])))
  }

  predicate LessEq(a: Instruction, b: Instruction)
  {
    a == b || Less(a, b)
  }

  lemma {:induction false} LessIrreflexive(a: Instruction)
    ensures !Less(a, a)
  {
    if |a| > 0 {
      LessIrreflexive(a[1..]);
    }
  }

  lemma {:induction false} LessTransitive(a: Instruction, b: Instruction, c: Instruction)
    requires Less(a, b) && Less(b, c)
    ensures Less(a, c)
  {
    if |a| > 0 && a[0] == b[0] && b[0] == c[0] {
      LessTransitive(a[1..], b[1..], c[1..]);
    }
  }

  lemma {:induction false} LessConnected(a: Instruction, b: Instruction)
    requires a != b
    ensures Less(a, b) || Less(b, a)
  {
    if |a| > 0 && |b| > 0 && a[0] == b[0] {
      assert a == [a[0]] + a[1..] && b == [b[0]] + b[1..];
      LessConnected(a[1..], b[1..]);
    }
  }

  lemma LessAsymmetric(a: Instruction, b: Instruction)
    requires Less(a, b)
    ensures !Less(b, a)
  {
    if Less(b, a) {
      LessTransitive(a, b, a);
      LessIrreflexive(a);
    }
  }

  lemma LessEqTransitive(a: Instruction, b: Instruction, c: Instruction)
    requires LessEq(a, b) && LessEq(b, c)
    ensures LessEq(a, c)
  {
    if Less(a, b) && Less(b, c) {
      LessTransitive(a, b, c);
    }
  }

  /** LessEq is total: of two instructions one is at most the other. */
  lemma LessEqTotal(a: Instruction, b: Instruction)
    ensures LessEq(a, b) || LessEq(b, a)
  {
    if a != b {
      LessConnected(a, b);
    }
  }

  /** Two instructions of equal length compare no later than byte-wise bounds. */
  lemma {:induction false} PointwiseLessEq(a: Instruction, b: Instruction)
    requires |a| == |b|
    requires forall i :: 0 <= i < |a| ==> a[i] <= b[i]
    ensures LessEq(a, b)
  {
    if |a| > 0 && a[0] == b[0] {
      PointwiseLessEq(a[1..], b[1..]);
      if a[1..] == b[1..] {
        assert a == [a[0]] + a[1..] && b == [b[0]] + b[1..];
      }
    }
  }

  /** On one-byte instructions the order is the order of the byte. */
  lemma SingleByteLess(x: bv8, y: bv8)
    ensures Less([x], [y]) <==> x < y
  {
    assert [x][1..] == [];
  }
}
