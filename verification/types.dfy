/**
 * The values the runner works with. The comparator, the formatter and the
 * template reader are collaborators whose code is not modelled; they appear
 * here only as function types.
 */
module Types {

  /** A float32 value, kept as its bit pattern: the model never computes with scores. */
  datatype Float32 = Float32(bits: bv32)

  /** One formatted frame or template: the two rows of `frameSize` values,
      already reshaped into a single row of 2·width values. */
  type Feature = seq<Float32>

  /** A weight-set descriptor as read from its `set.json`: frame size, layer
      count and the session name of the trained weights. */
  datatype WeightSet = WeightSet(width: nat, height: nat, numLayers: int, sessionName: string)

  /** One row of the template label matrix: column 0 is the class label,
      column 1 the flip (mirrored-variant) flag. */
  datatype TemplateLabel = TemplateLabel(classId: int, flip: int)

  /** A 2-D score matrix: one row per input, `cols` columns. */
  datatype ScoreMatrix = ScoreMatrix(cols: nat, rows: seq<seq<Float32>>)
  {
    predicate Rectangular()
    {
      forall r :: 0 <= r < |rows| ==> |rows[r]| == cols
    }
  }

  /** Score matrices are NumPy 2-D arrays, so every row has the same length. */
  type Matrix = m: ScoreMatrix | m.Rectangular() witness ScoreMatrix(0, [])

  /** What the comparator returns: a best-match index per input row and the
      full score matrix. */
  datatype Comparison = Comparison(best: seq<int>, raw: Matrix)

  /** The comparator, bound to the loaded session (named by its session name),
      applied to an input batch and the template batch. */
  type Comparator = (string, seq<Feature>, seq<Feature>) -> Comparison

  /** The formatter built for a frame width, applied to one raw frame. */
  type Formatter<!Frame> = (nat, Frame) -> Feature

  /** Reading a template directory with the formatter of a given width: the
      template features and their parallel label rows. */
  type TemplateReader = (nat, string) -> (seq<Feature>, seq<TemplateLabel>)

  /** The triple `process` returns: classes, scores and flip flags. */
  datatype Classification = Classification(classes: seq<int>, scores: seq<Float32>, flips: seq<int>)

  /** A Python call that either returns a value or raises IndexError. */
  datatype Outcome<+T> = Returned(value: T) | IndexError

  /** The argument of `process`: a single frame or a Python list of frames. */
  datatype Input<Frame> = Single(frame: Frame) | Batch(frames: seq<Frame>)

  /** A template write sent to storage: the raw frame, its label, the width of
      the formatter used and the template directory name. */
  datatype TemplateWrite<Frame> = TemplateWrite(frame: Frame, classId: int, width: nat, directory: string)

  /** Events on the compute runtime: a session opened for a session name, or
      the open session closed and the default graph reset. */
  datatype SessionEvent = Opened(name: string) | Released
}
