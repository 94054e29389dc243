/**
 * Deriving the result of `Runner.process` from the comparator's output:
 * classes and flips are the label rows at the best-match indices, and the
 * scores are the score matrix restricted to the best-match columns and then
 * flattened row by row (process.py, lines 93-96 and 101-104).
 */
module Matching {
  import opened Wrappers
  import opened Python
  import opened Types

  /** Resolves every index of `c` against a dimension of length `n`, or None
      when one of them raises IndexError. */
  function ResolveAll(c: seq<int>, n: nat): (r: Option<seq<nat>>)
    ensures r.Some? <==> forall k :: 0 <= k < |c| ==> -(n as int) <= c[k] < n
    ensures r.Some? ==> |r.value| == |c|
    ensures r.Some? ==> forall k :: 0 <= k < |c| ==> r.value[k] < n && Resolve(c[k], n) == Some(r.value[k])
  {
    if c == [] then Some([])
    else
      match Resolve(c[0], n)
      case None => None
      case Some(i) =>
        match ResolveAll(c[1..], n)
        case None => None
        case Some(rest) => Some([i] + rest)
  }

  /** The entries of `row` at the columns `idx`, in the order of `idx`. */
  function Pick(row: seq<Float32>, idx: seq<nat>): (picked: seq<Float32>)
    requires forall j :: 0 <= j < |idx| ==> idx[j] < |row|
    ensures |picked| == |idx|
    ensures forall j :: 0 <= j < |idx| ==> picked[j] == row[idx[j]]
  {
    seq(|idx|, j requires 0 <= j < |idx| => row[idx[j]])
  }

  /** `raw[:, idx].flatten()`: every row restricted to the columns `idx`,
      concatenated in row-major order. */
  function Flatten(rows: seq<seq<Float32>>, cols: nat, idx: seq<nat>): (flat: seq<Float32>)
    requires forall r :: 0 <= r < |rows| ==> |rows[r]| == cols
    requires forall j :: 0 <= j < |idx| ==> idx[j] < cols
  {
    if rows == [] then []
    else Pick(rows[0], idx) + Flatten(rows[1..], cols, idx)
  }

  /** The flattened selection holds one value per (row, selected column). */
  lemma {:induction false} FlattenLength(rows: seq<seq<Float32>>, cols: nat, idx: seq<nat>)
    requires forall r :: 0 <= r < |rows| ==> |rows[r]| == cols
    requires forall j :: 0 <= j < |idx| ==> idx[j] < cols
    ensures |Flatten(rows, cols, idx)| == |rows| * |idx|
  {
    if rows != [] {
      FlattenLength(rows[1..], cols, idx);
      assert |rows| * |idx| == |idx| + (|rows| - 1) * |idx|;
    }
  }

  /** Position `r·|idx| + j` of the flattened selection is row `r`, column `idx[j]`. */
  lemma {:induction false} FlattenAt(rows: seq<seq<Float32>>, cols: nat, idx: seq<nat>, r: nat, j: nat)
    requires forall i :: 0 <= i < |rows| ==> |rows[i]| == cols
    requires forall i :: 0 <= i < |idx| ==> idx[i] < cols
    requires r < |rows| && j < |idx|
    ensures r * |idx| + j < |Flatten(rows, cols, idx)|
    ensures Flatten(rows, cols, idx)[r * |idx| + j] == rows[r][idx[j]]
  {
    var head, tail := Pick(rows[0], idx), Flatten(rows[1..], cols, idx);
    assert Flatten(rows, cols, idx) == head + tail;
    if r == 0 {
      assert r * |idx| + j == j;
    } else {
      FlattenAt(rows[1..], cols, idx, r - 1, j);
      assert r * |idx| == (r - 1) * |idx| + |idx|;
      assert r * |idx| + j == |head| + ((r - 1) * |idx| + j);
    }
  }

  /** The result of `process` for the comparator output `cmp` against the
      label rows `labels`, or None when indexing raises IndexError. */
  function Classify(labels: seq<TemplateLabel>, cmp: Comparison): (r: Option<Classification>)
    ensures r.Some? <==>
      forall k :: 0 <= k < |cmp.best| ==>
        -|labels| <= cmp.best[k] < |labels| && -(cmp.raw.cols as int) <= cmp.best[k] < cmp.raw.cols
    ensures r.Some? ==> |r.value.classes| == |cmp.best| && |r.value.flips| == |cmp.best|
    ensures r.Some? ==>
      forall k :: 0 <= k < |cmp.best| ==>
        Lookup(labels, cmp.best[k]) == Some(TemplateLabel(r.value.classes[k], r.value.flips[k]))
  {
    match ResolveAll(cmp.best, cmp.raw.cols)
    case None => None
    case Some(cols) =>
      match ResolveAll(cmp.best, |labels|)
      case None => None
      case Some(rows) =>
        Some(Classification(
          seq(|rows|, k requires 0 <= k < |rows| => labels[rows[k]].classId),
          Flatten(cmp.raw.rows, cmp.raw.cols, cols),
          seq(|rows|, k requires 0 <= k < |rows| => labels[rows[k]].flip)))
  }

  /** There are rows(raw)·|c| scores, not one per input row. */
  lemma ScoreCount(labels: seq<TemplateLabel>, cmp: Comparison)
    requires Classify(labels, cmp).Some?
    ensures |Classify(labels, cmp).value.scores| == |cmp.raw.rows| * |cmp.best|
  {
    ScoresAreSelection(labels, cmp);
    FlattenLength(cmp.raw.rows, cmp.raw.cols, ResolveAll(cmp.best, cmp.raw.cols).value);
  }

  /** The scores of a classification are the flattened selection of the
      best-match columns. */
  lemma ScoresAreSelection(labels: seq<TemplateLabel>, cmp: Comparison)
    requires Classify(labels, cmp).Some?
    ensures ResolveAll(cmp.best, cmp.raw.cols).Some?
    ensures Classify(labels, cmp).value.scores
         == Flatten(cmp.raw.rows, cmp.raw.cols, ResolveAll(cmp.best, cmp.raw.cols).value)
  {
  }

  /** Scores are `raw[:, c]` in row-major order: position `r·|c| + j` holds the
      score of input row `r` against the best-match template of input `j`. */
  lemma ScoreAt(labels: seq<TemplateLabel>, cmp: Comparison, r: nat, j: nat)
    requires Classify(labels, cmp).Some?
    requires r < |cmp.raw.rows| && j < |cmp.best|
    ensures r * |cmp.best| + j < |Classify(labels, cmp).value.scores|
    ensures Classify(labels, cmp).value.scores[r * |cmp.best| + j] == cmp.raw.rows[r][cmp.best[j] % cmp.raw.cols]
  {
    var cols := ResolveAll(cmp.best, cmp.raw.cols).value;
    ScoresAreSelection(labels, cmp);
    FlattenAt(cmp.raw.rows, cmp.raw.cols, cols, r, j);
    assert Resolve(cmp.best[j], cmp.raw.cols) == Some(cols[j]);
  }

  /** For a batch of N inputs with one score row and one best index each, the
      N·N scores hold each input's own best-match score on the diagonal,
      beside the scores of that input against the other inputs' best matches. */
  lemma BatchScoresSquare(labels: seq<TemplateLabel>, cmp: Comparison, k: nat)
    requires Classify(labels, cmp).Some?
    requires |cmp.raw.rows| == |cmp.best| && k < |cmp.best|
    ensures |Classify(labels, cmp).value.scores| == |cmp.best| * |cmp.best|
    ensures k * |cmp.best| + k < |Classify(labels, cmp).value.scores|
    ensures Classify(labels, cmp).value.scores[k * |cmp.best| + k] == cmp.raw.rows[k][cmp.best[k] % cmp.raw.cols]
  {
    ScoreCount(labels, cmp);
    ScoreAt(labels, cmp, k, k);
  }

  /** A single input with a single best index yields exactly its own score. */
  lemma SingleScore(labels: seq<TemplateLabel>, cmp: Comparison)
    requires Classify(labels, cmp).Some?
    requires |cmp.raw.rows| == 1 && |cmp.best| == 1
    ensures Classify(labels, cmp).value.scores == [cmp.raw.rows[0][cmp.best[0] % cmp.raw.cols]]
  {
    ScoreCount(labels, cmp);
    ScoreAt(labels, cmp, 0, 0);
  }
}
