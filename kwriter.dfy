/** The writer itself, step by step as drop_tower_2_k.py does it: an output
    file that grows one written line at a time, the per-channel writer, the
    column loop the file writer runs once per frame, and the file writer with
    its two numbering counters. */
module KWriter {
  import opened KFormat

  /** The open output file. Every `write` of the writer emits exactly one
      line, so the file is the sequence of lines written so far, each kept
      by kind; its text is `Rendered(fmt)`, the lines rendered one by one. */
  class KFile {
    var lines: seq<Line>

    constructor ()
      ensures lines == []
    {
      lines := [];
    }

    /** `write(text + "\n")` for the text of `line`. */
    method Write(line: Line)
      modifies this
      ensures lines == old(lines) + [line]
    {
      lines := lines + [line];
    }

    function Rendered(fmt: Formatter): seq<string>
      reads this
    {
      RenderAll(fmt, lines)
    }
  }

  lemma Assoc<T>(a: seq<T>, b: seq<T>, c: seq<T>)
    ensures (a + b) + c == a + (b + c)
  {
  }

  /** `write_acc_comp`: appends the prescribed-motion card and the curve
      definition of one channel, then one data row per sample. */
  method WriteAccComp(curve: Series, cogId: string, dof: nat, vad: nat, lcid: nat, out: KFile)
    requires curve.Valid()
    modifies out
    ensures out.lines == old(out.lines) + CurveBlock(curve, cogId, dof, vad, lcid)
  {
    out.Write(MotionKeywordLine);
    out.Write(MotionCommentLine);
    out.Write(MotionCard(cogId, dof, vad, lcid));
    out.Write(CurveKeywordLine);
    out.Write(CurveTitleLine);
    out.Write(CurveCommentLine);
    out.Write(CurveCard(lcid));
    out.Write(PointCommentLine);
    var header := HeaderLines(cogId, dof, vad, lcid);
    assert out.lines == old(out.lines) + header + DataRows(curve, 0);

    var time := curve.index;
    var data := curve.values;
    var i := 0;
    while i < |time|
      invariant 0 <= i <= |time|
      invariant out.lines == old(out.lines) + header + DataRows(curve, i)
    {
      out.Write(Point(time[i], data[i]));
      DataRowsStep(curve, i);
      Assoc(old(out.lines) + header, DataRows(curve, i), [Point(time[i], data[i])]);
      i := i + 1;
    }
    Assoc(old(out.lines), header, DataRows(curve, |curve.index|));
  }

  /** The column loop of `create_acc_file`, which the writer runs over the
      linear frame and again over the rotational frame: one channel block per
      column, and both counters advanced by one after each. */
  method WriteFrame(frame: Frame, cogId: string, dof: nat, lcid: nat, out: KFile)
    returns (nextDof: nat, nextLcid: nat)
    requires frame.Valid()
    modifies out
    ensures out.lines == old(out.lines) + Concat(ColumnBlocks(frame, cogId, dof, lcid))
    ensures nextDof == dof + |frame.columns| && nextLcid == lcid + |frame.columns|
  {
    var blocks := ColumnBlocks(frame, cogId, dof, lcid);
    nextDof, nextLcid := dof, lcid;
    var j := 0;
    assert old(out.lines) + Concat(blocks[..j]) == old(out.lines);
    while j < |frame.columns|
      invariant 0 <= j <= |frame.columns|
      invariant nextDof == dof + j && nextLcid == lcid + j
      invariant out.lines == old(out.lines) + Concat(blocks[..j])
    {
      WriteAccComp(frame.Column(j), cogId, nextDof, MotionTypeLin, nextLcid, out);
      assert blocks[..j + 1] == blocks[..j] + [blocks[j]];
      ConcatSnoc(blocks[..j], blocks[j]);
      Assoc(old(out.lines), Concat(blocks[..j]), blocks[j]);
      nextDof := nextDof + 1;
      nextLcid := nextLcid + 1;
      j := j + 1;
    }
    assert blocks[..j] == blocks;
  }

  /** `create_acc_file`: the text of `acceleration.k`, or the IndexError that
      an empty frame raises before the file is opened. */
  method CreateAccFile(fmt: Formatter, lin: Frame, rot: Frame, cogId: string) returns (r: Result<seq<string>>)
    requires lin.Valid() && rot.Valid()
    ensures r == AccFile(fmt, lin, rot, cogId)
  {
    if |lin.index| == 0 || |rot.index| == 0 {
      return Err(EmptyIndex);
    }
    var maxTime := Min(lin.index[|lin.index| - 1], rot.index[|rot.index| - 1]);
    assert maxTime == EndTime(lin, rot);

    var out := new KFile();
    out.Write(TerminationKeywordLine);
    out.Write(TerminationCommentLine);
    out.Write(TerminationCard(maxTime));
    assert out.lines == TerminationBlock(maxTime);

    var presMotionDof := 1;
    var lcid := 1;
    presMotionDof, lcid := WriteFrame(lin, cogId, presMotionDof, lcid, out);
    presMotionDof := presMotionDof + 1;
    presMotionDof, lcid := WriteFrame(rot, cogId, presMotionDof, lcid, out);

    out.Write(EndLine);
    r := Ok(out.Rendered(fmt));
  }
}
