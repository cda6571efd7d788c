/** The LS-DYNA keyword text that drop_tower_2_k.py writes to `acceleration.k`,
    stated as values: the lines of the file, in order, each without its
    trailing newline. The imperative writer in module KWriter is proved to
    produce exactly `AccFile`. */
module KFormat {
  import opened Text

  /** `str(round(x, digits))` for a Python float. Float rounding and float
      printing are not modelled: the writer is given this function and only
      ever pads what it returns. */
  type Formatter = (real, nat) -> string

  /** A pandas Series: a time index and one value per time stamp. */
  datatype Series = Series(index: seq<real>, values: seq<real>) {
    predicate Valid() {
      |values| == |index|
    }
  }

  /** A pandas DataFrame: one time index shared by every value column, the
      columns in their left-to-right order (their names play no part). */
  datatype Frame = Frame(index: seq<real>, columns: seq<seq<real>>) {
    predicate Valid() {
      forall j :: 0 <= j < |columns| ==> |columns[j]| == |index|
    }

    /** `df[col]` for the column at position `j`. */
    function Column(j: nat): (s: Series)
      requires Valid() && j < |columns|
      ensures s.Valid() && s.index == index && s.values == columns[j]
    {
      Series(index, columns[j])
    }
  }

  /** `df.index[-1]` on a frame with no rows raises IndexError. */
  datatype Error = EmptyIndex

  datatype Result<T> = Ok(value: T) | Err(error: Error)

  /** Width of every field of a keyword card. */
  const FieldWidth: nat := 10
  /** Width of each of the two fields of a curve data row. */
  const PointWidth: nat := 20
  /** Decimal places kept for data rows and for the termination time. */
  const PointDigits: nat := 10
  const EndTimeDigits: nat := 9

  const TerminationKeyword := "*CONTROL_TERMINATION"
  const TerminationComment := "$#  endtim    endcyc     dtmin    endeng    endmas     nosol  "
  /** endcyc, dtmin, endeng, endmas and nosol placeholders after the end time. */
  const TerminationTail := "         0       0.0       0.01.000000E8         0"

  const MotionKeyword := "*BOUNDARY_PRESCRIBED_MOTION_RIGID"
  const MotionComment := "$#     pid       dof       vad      lcid        sf       vid     death     birth"
  /** sf, vid, death and birth placeholders after pid, dof, vad and lcid. */
  const MotionTail := "       1.0         01.00000E28       0.0"

  const CurveKeyword := "*DEFINE_CURVE_TITLE"
  const CurveTitle := "Acceleration component"
  const CurveComment := "$#    lcid      sidr       sfa       sfo      offa      offo    dattyp     lcint"
  /** sidr, sfa, sfo, offa, offo, dattyp and lcint placeholders after lcid. */
  const CurveTail := "         0       1.0       1.0       0.0       0.0         0         0"
  const PointComment := "$#                a1                  o1  "

  const EndKeyword := "*END"

  /** Number of lines of a channel block that precede its data rows. */
  const HeaderLineCount: nat := 8

  /** The motion type (vad) written for every channel. */
  const MotionTypeLin: nat := 1
  /** Declared beside MotionTypeLin by the writer but never written. */
  const MotionTypeRot: nat := 0

  /** The lines the writer emits, by kind: the fixed keyword and comment
      lines, the three kinds of card it fills in, and the curve data rows. */
  datatype Line =
    | TerminationKeywordLine
    | TerminationCommentLine
    | TerminationCard(endTime: real)
    | MotionKeywordLine
    | MotionCommentLine
    | MotionCard(pid: string, dof: nat, vad: nat, lcid: nat)
    | CurveKeywordLine
    | CurveTitleLine
    | CurveCommentLine
    | CurveCard(curveId: nat)
    | PointCommentLine
    | Point(t: real, v: real)
    | EndLine

  function TerminationRecord(fmt: Formatter, endTime: real): string {
    RJust(fmt(endTime, EndTimeDigits), FieldWidth) + TerminationTail
  }

  /** The pid, dof, vad, lcid card of a prescribed motion. */
  function MotionRecord(cogId: string, dof: nat, vad: nat, lcid: nat): string {
    RJust(cogId, FieldWidth) + RJust(NatToString(dof), FieldWidth)
      + RJust(NatToString(vad), FieldWidth) + RJust(NatToString(lcid), FieldWidth)
      + MotionTail
  }

  /** The lcid card of a curve definition. */
  function CurveRecord(lcid: nat): string {
    RJust(NatToString(lcid), FieldWidth) + CurveTail
  }

  /** One (abscissa, ordinate) row of a curve. */
  function DataRow(fmt: Formatter, t: real, v: real): string {
    RJust(fmt(t, PointDigits), PointWidth) + RJust(fmt(v, PointDigits), PointWidth)
  }

  /** The text of a line, without its newline. */
  function Render(fmt: Formatter, line: Line): string {
    match line
    case TerminationKeywordLine => TerminationKeyword
    case TerminationCommentLine => TerminationComment
    case TerminationCard(endTime) => TerminationRecord(fmt, endTime)
    case MotionKeywordLine => MotionKeyword
    case MotionCommentLine => MotionComment
    case MotionCard(pid, dof, vad, lcid) => MotionRecord(pid, dof, vad, lcid)
    case CurveKeywordLine => CurveKeyword
    case CurveTitleLine => CurveTitle
    case CurveCommentLine => CurveComment
    case CurveCard(lcid) => CurveRecord(lcid)
    case PointCommentLine => PointComment
    case Point(t, v) => DataRow(fmt, t, v)
    case EndLine => EndKeyword
  }

  /** The text of a run of lines, line by line. */
  function RenderAll(fmt: Formatter, lines: seq<Line>): (r: seq<string>)
    ensures |r| == |lines|
  {
    seq(|lines|, i requires 0 <= i < |lines| => Render(fmt, lines[i]))
  }

  /** Rendering is line by line: line `i` of the text is the text of line
      `i`, and a run of the lines renders as the same run of the text. */
  lemma RenderAllAt(fmt: Formatter, lines: seq<Line>, i: nat)
    requires i < |lines|
    ensures RenderAll(fmt, lines)[i] == Render(fmt, lines[i])
  {
  }

  lemma RenderAllSlice(fmt: Formatter, a: seq<Line>, i: nat, j: nat)
    requires i <= j <= |a|
    ensures RenderAll(fmt, a)[i..j] == RenderAll(fmt, a[i..j])
  {
  }

  function TerminationBlock(endTime: real): seq<Line> {
    [TerminationKeywordLine, TerminationCommentLine, TerminationCard(endTime)]
  }

  function HeaderLines(cogId: string, dof: nat, vad: nat, lcid: nat): seq<Line> {
    [MotionKeywordLine, MotionCommentLine, MotionCard(cogId, dof, vad, lcid),
     CurveKeywordLine, CurveTitleLine, CurveCommentLine, CurveCard(lcid), PointCommentLine]
  }

  /** The first `n` data rows of a curve, in index order. */
  function DataRows(curve: Series, n: nat): (r: seq<Line>)
    requires curve.Valid() && n <= |curve.index|
    ensures |r| == n
  {
    if n == 0 then []
    else DataRows(curve, n - 1) + [Point(curve.index[n - 1], curve.values[n - 1])]
  }

  /** Everything one call of the channel writer emits: the prescribed-motion
      card, the curve header and one row per sample. */
  function CurveBlock(curve: Series, cogId: string, dof: nat, vad: nat, lcid: nat): (r: seq<Line>)
    requires curve.Valid()
    ensures |r| == HeaderLineCount + |curve.index|
  {
    HeaderLines(cogId, dof, vad, lcid) + DataRows(curve, |curve.index|)
  }

  /** The lines of a run of parts, one part after the other. */
  function Concat<T>(parts: seq<seq<T>>): seq<T> {
    if |parts| == 0 then [] else Concat(parts[..|parts| - 1]) + parts[|parts| - 1]
  }

  /** The channel block of every column of a frame, in column order, written
      with consecutive dof codes from `dof` and consecutive curve ids from
      `lcid`. */
  function ColumnBlocks(frame: Frame, cogId: string, dof: nat, lcid: nat): (r: seq<seq<Line>>)
    requires frame.Valid()
    ensures |r| == |frame.columns|
  {
    seq(|frame.columns|, j requires 0 <= j < |frame.columns| =>
      CurveBlock(frame.Column(j), cogId, dof + j, MotionTypeLin, lcid + j))
  }

  // One more sample appends one more row, and one more part appends its
  // lines, at the end: the step every writer loop takes.

  lemma DataRowsStep(curve: Series, i: nat)
    requires curve.Valid() && i < |curve.index|
    ensures DataRows(curve, i + 1) == DataRows(curve, i) + [Point(curve.index[i], curve.values[i])]
  {
  }

  lemma ConcatSnoc<T>(parts: seq<seq<T>>, part: seq<T>)
    ensures Concat(parts + [part]) == Concat(parts) + part
  {
    assert (parts + [part])[..|parts|] == parts;
  }

  /** Joining distributes over splitting the run of parts in two. */
  lemma {:induction false} ConcatAppend<T>(a: seq<seq<T>>, b: seq<seq<T>>)
    ensures Concat(a + b) == Concat(a) + Concat(b)
    decreases |b|
  {
    if |b| > 0 {
      var c := b[..|b| - 1];
      var x := b[|b| - 1];
      assert b == c + [x];
      assert a + b == (a + c) + [x];
      ConcatAppend(a, c);
      ConcatSnoc(a + c, x);
      ConcatSnoc(c, x);
    } else {
      assert a + b == a;
    }
  }

  function LastTime(f: Frame): real
    requires |f.index| > 0
  {
    f.index[|f.index| - 1]
  }

  /** Python's two-argument `min`: the first argument unless the second is smaller. */
  function Min(a: real, b: real): (m: real)
    ensures m <= a && m <= b
    ensures m == a || m == b
  {
    if b < a then b else a
  }

  /** The termination time: the earlier of the two frames' last time stamps. */
  function EndTime(lin: Frame, rot: Frame): real
    requires |lin.index| > 0 && |rot.index| > 0
  {
    Min(LastTime(lin), LastTime(rot))
  }

  /** The lines of `acceleration.k` by kind: the termination block, the linear
      columns numbered from dof 1 and lcid 1, the rotational columns after one
      skipped dof code, and `*END`. */
  function FileLines(lin: Frame, rot: Frame, cogId: string): seq<Line>
    requires lin.Valid() && rot.Valid() && |lin.index| > 0 && |rot.index| > 0
  {
    TerminationBlock(EndTime(lin, rot))
      + Concat(ColumnBlocks(lin, cogId, 1, 1))
      + Concat(ColumnBlocks(rot, cogId, |lin.columns| + 2, |lin.columns| + 1))
      + [EndLine]
  }

  /** The text of `acceleration.k`, or the error raised before it is opened. */
  function AccFile(fmt: Formatter, lin: Frame, rot: Frame, cogId: string): Result<seq<string>>
    requires lin.Valid() && rot.Valid()
  {
    if |lin.index| == 0 || |rot.index| == 0 then Err(EmptyIndex)
    else Ok(RenderAll(fmt, FileLines(lin, rot, cogId)))
  }
}
