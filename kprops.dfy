/** What the written `acceleration.k` promises to a positional LS-DYNA reader:
    the block layout of one channel, where each channel's block sits in the
    file, the dof and curve numbering stated independently of the writer's
    counters, and the integer fields read back from the fixed-width cards. */
module KProps {
  import opened Text
  import opened KFormat

  // ---------------------------------------------------------------------
  // Sequence slicing

  lemma SliceLeft<T>(a: seq<T>, b: seq<T>, i: nat, j: nat)
    requires i <= j <= |a|
    ensures (a + b)[i..j] == a[i..j]
  {
  }

  lemma SliceRight<T>(a: seq<T>, b: seq<T>, i: nat, j: nat)
    requires |a| <= i <= j <= |a| + |b|
    ensures (a + b)[i..j] == b[i - |a|..j - |a|]
  {
  }

  /** Lines `lo .. hi` of the middle part of a run made of three parts, the
      middle part starting at `base`. */
  lemma MiddlePart<T>(a: seq<T>, b: seq<T>, c: seq<T>, base: nat, lo: nat, hi: nat)
    requires base == |a| && lo <= hi <= |b|
    ensures base + hi <= |a + b + c|
    ensures (a + b + c)[base + lo..base + hi] == b[lo..hi]
  {
    SliceLeft(a + b, c, base + lo, base + hi);
    SliceRight(a, b, base + lo, base + hi);
  }

  lemma SliceAt<T>(s: seq<T>, lo: nat, hi: nat, i: nat)
    requires lo + i < hi <= |s|
    ensures s[lo + i] == s[lo..hi][i]
  {
  }

  lemma SliceLast<T>(a: seq<T>, b: seq<T>)
    ensures (a + b)[|a|..|a| + |b|] == b
  {
  }

  /** A run of five parts splits after its first part. */
  lemma SplitFirst<T>(a: seq<T>, b: seq<T>, c: seq<T>, d: seq<T>, e: seq<T>)
    ensures a + b + c + d + e == a + (b + c + d + e)
  {
  }

  lemma MulSucc(a: nat, c: nat)
    ensures a * c + c == (a + 1) * c
  {
  }

  // ---------------------------------------------------------------------
  // Fixed-width fields

  /** The `k`-th ten-character field of a keyword card. */
  function CardField(line: string, k: nat): string
    requires (k + 1) * FieldWidth <= |line|
  {
    line[k * FieldWidth..(k + 1) * FieldWidth]
  }

  /** The integer a positional reader finds in field `k` of line `i` of a
      text, if the line is that long and the field holds one. */
  function FieldNumber(text: seq<string>, i: nat, k: nat): Option<nat> {
    if i < |text| && (k + 1) * FieldWidth <= |text[i]| then ParseField(CardField(text[i], k)) else None
  }

  lemma FourFields(a: string, b: string, c: string, d: string, tail: string)
    requires |a| == FieldWidth && |b| == FieldWidth && |c| == FieldWidth && |d| == FieldWidth
    ensures var line := a + b + c + d + tail;
      && |line| == 4 * FieldWidth + |tail|
      && CardField(line, 0) == a && CardField(line, 1) == b
      && CardField(line, 2) == c && CardField(line, 3) == d
  {
    var line := a + b + c + d + tail;
    assert line == a + (b + (c + (d + tail)));
  }

  /** A number that fits in a field comes out of `str(n).rjust(10)` exactly ten
      characters wide and reads back as itself. */
  lemma IntField(n: nat)
    requires n < Pow10(FieldWidth)
    ensures |RJust(NatToString(n), FieldWidth)| == FieldWidth
    ensures ParseField(RJust(NatToString(n), FieldWidth)) == Some(n)
  {
    NatToStringLength(n, FieldWidth);
    RJustSpec(NatToString(n), FieldWidth);
    ParseFieldRJust(n, FieldWidth);
  }

  /** The prescribed-motion card: when the part id fits in its field and the
      numbers fit in theirs, the card is 80 characters and its four leading
      fields read back as pid, dof, vad and lcid. */
  lemma MotionRecordFields(cogId: string, dof: nat, vad: nat, lcid: nat)
    requires |cogId| <= FieldWidth
    requires dof < Pow10(FieldWidth) && vad < Pow10(FieldWidth) && lcid < Pow10(FieldWidth)
    ensures var r := MotionRecord(cogId, dof, vad, lcid);
      && |r| == 8 * FieldWidth
      && CardField(r, 0) == RJust(cogId, FieldWidth)
      && (|cogId| == 0 || cogId[0] != ' ' ==> TrimLeft(CardField(r, 0)) == cogId)
      && ParseField(CardField(r, 1)) == Some(dof)
      && ParseField(CardField(r, 2)) == Some(vad)
      && ParseField(CardField(r, 3)) == Some(lcid)
  {
    RJustSpec(cogId, FieldWidth);
    IntField(dof);
    IntField(vad);
    IntField(lcid);
    FourFields(RJust(cogId, FieldWidth), RJust(NatToString(dof), FieldWidth),
               RJust(NatToString(vad), FieldWidth), RJust(NatToString(lcid), FieldWidth), MotionTail);
    if |cogId| == 0 || cogId[0] != ' ' {
      TrimLeftRJust(cogId, FieldWidth);
    }
  }

  /** A part id longer than its field is written whole: `rjust` never cuts, so
      every later field of the card moves right by the excess. */
  lemma MotionRecordLongId(cogId: string, dof: nat, vad: nat, lcid: nat)
    requires |cogId| > FieldWidth
    requires dof < Pow10(FieldWidth) && vad < Pow10(FieldWidth) && lcid < Pow10(FieldWidth)
    ensures var r := MotionRecord(cogId, dof, vad, lcid);
      && |r| == |cogId| + 7 * FieldWidth
      && r[..|cogId|] == cogId
      && r[|cogId|..] == RJust(NatToString(dof), FieldWidth) + RJust(NatToString(vad), FieldWidth)
           + RJust(NatToString(lcid), FieldWidth) + MotionTail
  {
    var rest := RJust(NatToString(dof), FieldWidth) + RJust(NatToString(vad), FieldWidth)
      + RJust(NatToString(lcid), FieldWidth) + MotionTail;
    assert RJust(cogId, FieldWidth) == cogId;
    SplitFirst(cogId, RJust(NatToString(dof), FieldWidth), RJust(NatToString(vad), FieldWidth),
               RJust(NatToString(lcid), FieldWidth), MotionTail);
    assert |rest| == 7 * FieldWidth by {
      IntField(dof);
      IntField(vad);
      IntField(lcid);
    }
    SliceLast(cogId, rest);
  }

  /** The curve card: 80 characters whose first field reads back as lcid. */
  lemma CurveRecordFields(lcid: nat)
    requires lcid < Pow10(FieldWidth)
    ensures var r := CurveRecord(lcid);
      && |r| == 8 * FieldWidth
      && ParseField(CardField(r, 0)) == Some(lcid)
  {
    IntField(lcid);
  }

  /** The termination card: the end-time text right-justified in the first
      field, or written whole and pushing the placeholders right when longer. */
  lemma TerminationRecordField(fmt: Formatter, endTime: real)
    ensures var s := fmt(endTime, EndTimeDigits);
      var r := TerminationRecord(fmt, endTime);
      && (|s| <= FieldWidth ==> |r| == 6 * FieldWidth && CardField(r, 0) == RJust(s, FieldWidth))
      && (|s| <= FieldWidth && (|s| == 0 || s[0] != ' ') ==> TrimLeft(CardField(r, 0)) == s)
      && (|s| > FieldWidth ==> r[..|s|] == s)
  {
    var s := fmt(endTime, EndTimeDigits);
    RJustSpec(s, FieldWidth);
    if |s| == 0 || s[0] != ' ' {
      TrimLeftRJust(s, FieldWidth);
    }
  }

  /** A data row: two 20-character columns holding the time and the value
      texts, which read back unchanged. */
  lemma DataRowFields(fmt: Formatter, t: real, v: real)
    requires |fmt(t, PointDigits)| <= PointWidth && |fmt(v, PointDigits)| <= PointWidth
    requires |fmt(t, PointDigits)| == 0 || fmt(t, PointDigits)[0] != ' '
    requires |fmt(v, PointDigits)| == 0 || fmt(v, PointDigits)[0] != ' '
    ensures var r := DataRow(fmt, t, v);
      && |r| == 2 * PointWidth
      && TrimLeft(r[..PointWidth]) == fmt(t, PointDigits)
      && TrimLeft(r[PointWidth..]) == fmt(v, PointDigits)
  {
    var a := RJust(fmt(t, PointDigits), PointWidth);
    var b := RJust(fmt(v, PointDigits), PointWidth);
    RJustSpec(fmt(t, PointDigits), PointWidth);
    RJustSpec(fmt(v, PointDigits), PointWidth);
    TrimLeftRJust(fmt(t, PointDigits), PointWidth);
    TrimLeftRJust(fmt(v, PointDigits), PointWidth);
    assert (a + b)[..PointWidth] == a;
    assert (a + b)[PointWidth..] == b;
  }

  /** A row for a sample at time 2.0 with value -2.25: both texts are
      right-justified in 20 columns, the sign kept. */
  lemma DataRowExample(fmt: Formatter)
    requires fmt(2.0, PointDigits) == "2.0" && fmt(-2.25, PointDigits) == "-2.25"
    ensures DataRow(fmt, 2.0, -2.25) == "                 2.0               -2.25"
  {
    SpacesBlank(17);
    SpacesBlank(15);
    assert Spaces(17) == "                 ";
    assert Spaces(15) == "               ";
  }

  // ---------------------------------------------------------------------
  // One channel block

  lemma {:induction false} DataRowsAt(curve: Series, n: nat, i: nat)
    requires curve.Valid() && i < n <= |curve.index|
    ensures DataRows(curve, n)[i] == Point(curve.index[i], curve.values[i])
  {
    if i < n - 1 {
      DataRowsAt(curve, n - 1, i);
    }
  }

  /** A channel block is the eight header lines, with the card that names the
      curve and the curve card carrying the same lcid, then row `i` for
      sample `i`, in index order. */
  lemma CurveBlockLayout(curve: Series, cogId: string, dof: nat, vad: nat, lcid: nat)
    requires curve.Valid()
    ensures var r := CurveBlock(curve, cogId, dof, vad, lcid);
      && r[..HeaderLineCount] == HeaderLines(cogId, dof, vad, lcid)
      && r[0] == MotionKeywordLine && r[2] == MotionCard(cogId, dof, vad, lcid)
      && r[3] == CurveKeywordLine && r[6] == CurveCard(lcid)
      && (forall i :: 0 <= i < |curve.index| ==>
            r[HeaderLineCount + i] == Point(curve.index[i], curve.values[i]))
  {
    var r := CurveBlock(curve, cogId, dof, vad, lcid);
    forall i | 0 <= i < |curve.index|
      ensures r[HeaderLineCount + i] == Point(curve.index[i], curve.values[i])
    {
      DataRowsAt(curve, |curve.index|, i);
    }
  }

  /** The lcid of the prescribed motion and the lcid of the curve it names
      read back from their cards as the same number. */
  lemma SameLcid(cogId: string, dof: nat, vad: nat, lcid: nat)
    requires |cogId| <= FieldWidth
    requires dof < Pow10(FieldWidth) && vad < Pow10(FieldWidth) && lcid < Pow10(FieldWidth)
    ensures var motion := MotionRecord(cogId, dof, vad, lcid);
      var curve := CurveRecord(lcid);
      && 4 * FieldWidth <= |motion| && FieldWidth <= |curve|
      && ParseField(CardField(motion, 3)) == ParseField(CardField(curve, 0)) == Some(lcid)
  {
    MotionRecordFields(cogId, dof, vad, lcid);
    CurveRecordFields(lcid);
  }

  // ---------------------------------------------------------------------
  // Channel numbering, stated without the writer's counters

  /** Channels count the linear columns first, then the rotational ones. */
  function ChannelCount(lin: Frame, rot: Frame): nat {
    |lin.columns| + |rot.columns|
  }

  /** The series of channel `k`. */
  function Channel(lin: Frame, rot: Frame, k: nat): (s: Series)
    requires lin.Valid() && rot.Valid() && k < ChannelCount(lin, rot)
    ensures s.Valid()
  {
    if k < |lin.columns| then lin.Column(k) else rot.Column(k - |lin.columns|)
  }

  /** The dof code of channel `k`: 1, 2, ... over the linear channels, then,
      one code skipped, on over the rotational channels. */
  function DofCode(linCount: nat, k: nat): (d: nat)
    ensures d >= 1 && d != linCount + 1
  {
    if k < linCount then k + 1 else k + 2
  }

  /** The curve id of channel `k`: 1, 2, ... in channel order. */
  function CurveId(k: nat): nat {
    k + 1
  }

  /** The line at which the block of channel `k` starts: after the three
      termination lines and the blocks of every earlier channel. */
  function Offset(lin: Frame, rot: Frame, k: nat): nat
    requires lin.Valid() && rot.Valid() && k <= ChannelCount(lin, rot)
  {
    if k == 0 then 3 else Offset(lin, rot, k - 1) + HeaderLineCount + |Channel(lin, rot, k - 1).index|
  }

  // ---------------------------------------------------------------------
  // Where each block sits

  /** Part `j` of a run of parts sits right after the parts before it. */
  lemma ConcatAt<T>(parts: seq<seq<T>>, j: nat)
    requires j < |parts|
    ensures |Concat(parts[..j])| <= |Concat(parts[..j + 1])| <= |Concat(parts)|
    ensures Concat(parts)[|Concat(parts[..j])|..|Concat(parts[..j + 1])|] == parts[j]
  {
    assert parts == parts[..j + 1] + parts[j + 1..];
    assert parts[..j + 1] == parts[..j] + [parts[j]];
    ConcatAppend(parts[..j + 1], parts[j + 1..]);
    ConcatSnoc(parts[..j], parts[j]);
    SliceLeft(Concat(parts[..j + 1]), Concat(parts[j + 1..]), |Concat(parts[..j])|, |Concat(parts[..j + 1])|);
    SliceLast(Concat(parts[..j]), parts[j]);
  }

  /** Parts of equal size make a run `size` times their number long. */
  lemma {:induction false} ConcatLength<T>(parts: seq<seq<T>>, size: nat)
    requires forall i :: 0 <= i < |parts| ==> |parts[i]| == size
    ensures |Concat(parts)| == |parts| * size
  {
    if |parts| > 0 {
      ConcatLength(parts[..|parts| - 1], size);
      MulSucc(|parts| - 1, size);
    }
  }

  /** The blocks of all channels, each numbered by its position alone. */
  function ChannelBlocks(lin: Frame, rot: Frame, cogId: string): (r: seq<seq<Line>>)
    requires lin.Valid() && rot.Valid()
    ensures |r| == ChannelCount(lin, rot)
  {
    seq(ChannelCount(lin, rot), k requires 0 <= k < ChannelCount(lin, rot) =>
      CurveBlock(Channel(lin, rot, k), cogId, DofCode(|lin.columns|, k), MotionTypeLin, CurveId(k)))
  }

  /** The writer's two counters number the channels exactly as the position
      of each channel does: the linear blocks, then the rotational blocks,
      are the channel blocks in order. */
  lemma ChannelBlocksSplit(lin: Frame, rot: Frame, cogId: string)
    requires lin.Valid() && rot.Valid()
    ensures ChannelBlocks(lin, rot, cogId)
         == ColumnBlocks(lin, cogId, 1, 1) + ColumnBlocks(rot, cogId, |lin.columns| + 2, |lin.columns| + 1)
  {
    var nLin := |lin.columns|;
    var all := ChannelBlocks(lin, rot, cogId);
    var linBlocks := ColumnBlocks(lin, cogId, 1, 1);
    var rotBlocks := ColumnBlocks(rot, cogId, nLin + 2, nLin + 1);
    forall k | 0 <= k < ChannelCount(lin, rot)
      ensures all[k] == (linBlocks + rotBlocks)[k]
    {
      if k < nLin {
        assert all[k] == linBlocks[k];
      } else {
        assert nLin + 2 + (k - nLin) == DofCode(nLin, k) && nLin + 1 + (k - nLin) == CurveId(k);
        assert all[k] == rotBlocks[k - nLin];
      }
    }
  }

  /** The file by channel: the termination block, the channel blocks, `*END`. */
  lemma FileLinesByChannel(lin: Frame, rot: Frame, cogId: string)
    requires lin.Valid() && rot.Valid() && |lin.index| > 0 && |rot.index| > 0
    ensures FileLines(lin, rot, cogId)
         == TerminationBlock(EndTime(lin, rot)) + Concat(ChannelBlocks(lin, rot, cogId)) + [EndLine]
  {
    ChannelBlocksSplit(lin, rot, cogId);
    ConcatAppend(ColumnBlocks(lin, cogId, 1, 1), ColumnBlocks(rot, cogId, |lin.columns| + 2, |lin.columns| + 1));
  }

  /** The offset of channel `k` counts the termination block and every
      channel block before it. */
  lemma {:induction false} OffsetPrefix(lin: Frame, rot: Frame, cogId: string, k: nat)
    requires lin.Valid() && rot.Valid() && k <= ChannelCount(lin, rot)
    ensures Offset(lin, rot, k) == 3 + |Concat(ChannelBlocks(lin, rot, cogId)[..k])|
  {
    if k > 0 {
      var blocks := ChannelBlocks(lin, rot, cogId);
      OffsetPrefix(lin, rot, cogId, k - 1);
      assert blocks[..k] == blocks[..k - 1] + [blocks[k - 1]];
      ConcatSnoc(blocks[..k - 1], blocks[k - 1]);
    }
  }

  /** Channel `k` is written, as one block, from line `Offset(k)` up to the
      start of the next channel, with dof code `DofCode(k)`, motion type 1
      and curve id `CurveId(k)`. */
  lemma FileLinesChannel(lin: Frame, rot: Frame, cogId: string, k: nat)
    requires lin.Valid() && rot.Valid() && |lin.index| > 0 && |rot.index| > 0
    requires k < ChannelCount(lin, rot)
    ensures Offset(lin, rot, k) <= Offset(lin, rot, k + 1) <= |FileLines(lin, rot, cogId)|
    ensures FileLines(lin, rot, cogId)[Offset(lin, rot, k)..Offset(lin, rot, k + 1)]
         == CurveBlock(Channel(lin, rot, k), cogId, DofCode(|lin.columns|, k), MotionTypeLin, CurveId(k))
  {
    var blocks := ChannelBlocks(lin, rot, cogId);
    var before, through := Concat(blocks[..k]), Concat(blocks[..k + 1]);
    FileLinesByChannel(lin, rot, cogId);
    OffsetPrefix(lin, rot, cogId, k);
    OffsetPrefix(lin, rot, cogId, k + 1);
    ConcatAt(blocks, k);
    MiddlePart(TerminationBlock(EndTime(lin, rot)), Concat(blocks), [EndLine], 3, |before|, |through|);
  }

  /** The file holds the termination block, every channel block and `*END`
      and nothing else. */
  lemma FileLinesEnd(lin: Frame, rot: Frame, cogId: string)
    requires lin.Valid() && rot.Valid() && |lin.index| > 0 && |rot.index| > 0
    ensures |FileLines(lin, rot, cogId)| == Offset(lin, rot, ChannelCount(lin, rot)) + 1
  {
    var blocks := ChannelBlocks(lin, rot, cogId);
    FileLinesByChannel(lin, rot, cogId);
    OffsetPrefix(lin, rot, cogId, ChannelCount(lin, rot));
    assert blocks[..ChannelCount(lin, rot)] == blocks;
  }

  /** The line count in closed form: three termination lines, eight header
      lines and one row per sample for every column, and `*END`. */
  lemma FileLinesLength(lin: Frame, rot: Frame, cogId: string)
    requires lin.Valid() && rot.Valid() && |lin.index| > 0 && |rot.index| > 0
    ensures |FileLines(lin, rot, cogId)|
         == 3 + |lin.columns| * (HeaderLineCount + |lin.index|)
              + |rot.columns| * (HeaderLineCount + |rot.index|) + 1
  {
    ConcatLength(ColumnBlocks(lin, cogId, 1, 1), HeaderLineCount + |lin.index|);
    ConcatLength(ColumnBlocks(rot, cogId, |lin.columns| + 2, |lin.columns| + 1), HeaderLineCount + |rot.index|);
  }

  // ---------------------------------------------------------------------
  // The text of the file

  /** The writer fails exactly when a frame has no rows; otherwise the text
      opens with the termination block at the earlier of the two last time
      stamps, closes with `*END`, and ends one line after the last block. */
  lemma AccFileShape(fmt: Formatter, lin: Frame, rot: Frame, cogId: string)
    requires lin.Valid() && rot.Valid()
    ensures AccFile(fmt, lin, rot, cogId).Err? <==> |lin.index| == 0 || |rot.index| == 0
    ensures AccFile(fmt, lin, rot, cogId).Ok? ==>
      var r := AccFile(fmt, lin, rot, cogId).value;
      && |r| == Offset(lin, rot, ChannelCount(lin, rot)) + 1
      && r[..3] == [TerminationKeyword, TerminationComment, TerminationRecord(fmt, EndTime(lin, rot))]
      && r[|r| - 1] == EndKeyword
  {
    if |lin.index| > 0 && |rot.index| > 0 {
      var lines := FileLines(lin, rot, cogId);
      var r := RenderAll(fmt, lines);
      FileLinesEnd(lin, rot, cogId);
      RenderAllAt(fmt, lines, 0);
      RenderAllAt(fmt, lines, 1);
      RenderAllAt(fmt, lines, 2);
      RenderAllAt(fmt, lines, |lines| - 1);
      assert r[..3] == [r[0], r[1], r[2]];
    }
  }

  /** The line count in closed form: three termination lines, eight header
      lines and one row per sample for every column, and `*END`. */
  lemma AccFileLength(fmt: Formatter, lin: Frame, rot: Frame, cogId: string)
    requires lin.Valid() && rot.Valid() && |lin.index| > 0 && |rot.index| > 0
    ensures |AccFile(fmt, lin, rot, cogId).value|
         == 3 + |lin.columns| * (HeaderLineCount + |lin.index|)
              + |rot.columns| * (HeaderLineCount + |rot.index|) + 1
  {
    FileLinesLength(lin, rot, cogId);
  }

  /** The text of channel `k` is the text of its block, from line `Offset(k)`. */
  lemma AccFileChannel(fmt: Formatter, lin: Frame, rot: Frame, cogId: string, k: nat)
    requires lin.Valid() && rot.Valid() && |lin.index| > 0 && |rot.index| > 0
    requires k < ChannelCount(lin, rot)
    ensures Offset(lin, rot, k + 1) <= |AccFile(fmt, lin, rot, cogId).value|
    ensures AccFile(fmt, lin, rot, cogId).value[Offset(lin, rot, k)..Offset(lin, rot, k + 1)]
         == RenderAll(fmt, CurveBlock(Channel(lin, rot, k), cogId, DofCode(|lin.columns|, k), MotionTypeLin, CurveId(k)))
  {
    FileLinesChannel(lin, rot, cogId, k);
    RenderAllSlice(fmt, FileLines(lin, rot, cogId), Offset(lin, rot, k), Offset(lin, rot, k + 1));
  }

  /** Wherever a channel block sits in a run of lines, its line `8 + i` is
      the row of sample `i`. */
  lemma BlockLine(lines: seq<Line>, o: nat, hi: nat, curve: Series, cogId: string, dof: nat, lcid: nat, i: nat)
    requires curve.Valid() && o <= hi <= |lines| && i < |curve.index|
    requires lines[o..hi] == CurveBlock(curve, cogId, dof, MotionTypeLin, lcid)
    ensures o + HeaderLineCount + i < |lines|
    ensures lines[o + HeaderLineCount + i] == Point(curve.index[i], curve.values[i])
  {
    DataRowsAt(curve, |curve.index|, i);
    SliceAt(lines, o, hi, HeaderLineCount + i);
  }

  /** Row `i` of channel `k` is line `Offset(k) + 8 + i` of the file. */
  lemma FileLinesRow(lin: Frame, rot: Frame, cogId: string, k: nat, i: nat)
    requires lin.Valid() && rot.Valid() && |lin.index| > 0 && |rot.index| > 0
    requires k < ChannelCount(lin, rot) && i < |Channel(lin, rot, k).index|
    ensures Offset(lin, rot, k) + HeaderLineCount + i < |FileLines(lin, rot, cogId)|
    ensures FileLines(lin, rot, cogId)[Offset(lin, rot, k) + HeaderLineCount + i]
         == Point(Channel(lin, rot, k).index[i], Channel(lin, rot, k).values[i])
  {
    FileLinesChannel(lin, rot, cogId, k);
    BlockLine(FileLines(lin, rot, cogId), Offset(lin, rot, k), Offset(lin, rot, k + 1),
              Channel(lin, rot, k), cogId, DofCode(|lin.columns|, k), CurveId(k), i);
  }

  /** A line that is a point renders as its data row. */
  lemma RenderPoint(fmt: Formatter, lines: seq<Line>, text: seq<string>, n: nat, t: real, v: real)
    requires text == RenderAll(fmt, lines)
    requires n < |lines| && lines[n] == Point(t, v)
    ensures n < |text| && text[n] == DataRow(fmt, t, v)
  {
  }

  /** Row `i` of channel `k` is line `Offset(k) + 8 + i`: the time stamp and
      the value of sample `i`, in index order. */
  lemma AccFileRow(fmt: Formatter, lin: Frame, rot: Frame, cogId: string, k: nat, i: nat)
    requires lin.Valid() && rot.Valid() && |lin.index| > 0 && |rot.index| > 0
    requires k < ChannelCount(lin, rot) && i < |Channel(lin, rot, k).index|
    ensures AccFile(fmt, lin, rot, cogId).Ok?
    ensures Offset(lin, rot, k) + HeaderLineCount + i < |AccFile(fmt, lin, rot, cogId).value|
    ensures AccFile(fmt, lin, rot, cogId).value[Offset(lin, rot, k) + HeaderLineCount + i]
         == DataRow(fmt, Channel(lin, rot, k).index[i], Channel(lin, rot, k).values[i])
  {
    var text := AccFile(fmt, lin, rot, cogId).value;
    var lines := FileLines(lin, rot, cogId);
    var n := Offset(lin, rot, k) + HeaderLineCount + i;
    var c := Channel(lin, rot, k);
    FileLinesRow(lin, rot, cogId, k, i);
    RenderPoint(fmt, lines, text, n, c.index[i], c.values[i]);
  }

  /** The two cards of a channel block, as text. */
  lemma BlockCardsText(fmt: Formatter, curve: Series, cogId: string, dof: nat, lcid: nat)
    requires curve.Valid()
    ensures var r := RenderAll(fmt, CurveBlock(curve, cogId, dof, MotionTypeLin, lcid));
      && HeaderLineCount <= |r|
      && r[2] == MotionRecord(cogId, dof, MotionTypeLin, lcid)
      && r[6] == CurveRecord(lcid)
  {
    CurveBlockLayout(curve, cogId, dof, MotionTypeLin, lcid);
  }

  /** The curve card of a channel block, read back from its text wherever
      the block sits in a text. The card holds no part id, so this holds for
      every part id. */
  lemma BlockCurveRead(fmt: Formatter, text: seq<string>, o: nat, hi: nat,
                       curve: Series, cogId: string, dof: nat, lcid: nat)
    requires curve.Valid() && o <= hi <= |text|
    requires text[o..hi] == RenderAll(fmt, CurveBlock(curve, cogId, dof, MotionTypeLin, lcid))
    requires lcid < Pow10(FieldWidth)
    ensures o + HeaderLineCount <= |text|
    ensures |text[o + 6]| == 8 * FieldWidth
    ensures ParseField(CardField(text[o + 6], 0)) == Some(lcid)
  {
    BlockCardsText(fmt, curve, cogId, dof, lcid);
    SliceAt(text, o, hi, 6);
    assert text[o + 6] == CurveRecord(lcid);
    CurveRecordFields(lcid);
  }

  /** The motion card of a channel block, read back from its text wherever
      the block sits in a text, when the part id fits its field. */
  lemma BlockReads(fmt: Formatter, text: seq<string>, o: nat, hi: nat,
                   curve: Series, cogId: string, dof: nat, lcid: nat)
    requires curve.Valid() && o <= hi <= |text|
    requires text[o..hi] == RenderAll(fmt, CurveBlock(curve, cogId, dof, MotionTypeLin, lcid))
    requires |cogId| <= FieldWidth && dof < Pow10(FieldWidth) && lcid < Pow10(FieldWidth)
    ensures o + HeaderLineCount <= |text|
    ensures |text[o + 2]| == 8 * FieldWidth
    ensures ParseField(CardField(text[o + 2], 1)) == Some(dof)
    ensures ParseField(CardField(text[o + 2], 2)) == Some(MotionTypeLin)
    ensures ParseField(CardField(text[o + 2], 3)) == Some(lcid)
  {
    BlockCardsText(fmt, curve, cogId, dof, lcid);
    SliceAt(text, o, hi, 2);
    assert text[o + 2] == MotionRecord(cogId, dof, MotionTypeLin, lcid);
    MotionRecordFields(cogId, dof, MotionTypeLin, lcid);
  }

  /** Read back as a positional reader does, the curve card of channel `k`
      gives curve id `CurveId(k)`, whatever the part id. */
  lemma AccFileCurveRead(fmt: Formatter, lin: Frame, rot: Frame, cogId: string, k: nat)
    requires lin.Valid() && rot.Valid() && |lin.index| > 0 && |rot.index| > 0
    requires k < ChannelCount(lin, rot) < Pow10(FieldWidth)
    ensures AccFile(fmt, lin, rot, cogId).Ok?
    ensures FieldNumber(AccFile(fmt, lin, rot, cogId).value, Offset(lin, rot, k) + 6, 0) == Some(CurveId(k))
  {
    var text := AccFile(fmt, lin, rot, cogId).value;
    var o, hi := Offset(lin, rot, k), Offset(lin, rot, k + 1);
    AccFileChannel(fmt, lin, rot, cogId, k);
    BlockCurveRead(fmt, text, o, hi, Channel(lin, rot, k), cogId, DofCode(|lin.columns|, k), CurveId(k));
  }

  /** Read back as a positional reader does, the cards of channel `k` give
      dof code `DofCode(k)`, motion type 1, and the same curve id `CurveId(k)`
      on the motion card and on the curve card. */
  lemma AccFileChannelReads(fmt: Formatter, lin: Frame, rot: Frame, cogId: string, k: nat)
    requires lin.Valid() && rot.Valid() && |lin.index| > 0 && |rot.index| > 0
    requires k < ChannelCount(lin, rot) && ChannelCount(lin, rot) + 2 <= Pow10(FieldWidth)
    requires |cogId| <= FieldWidth
    ensures AccFile(fmt, lin, rot, cogId).Ok?
    ensures var r := AccFile(fmt, lin, rot, cogId).value; var o := Offset(lin, rot, k);
      && FieldNumber(r, o + 2, 1) == Some(DofCode(|lin.columns|, k))
      && FieldNumber(r, o + 2, 2) == Some(MotionTypeLin)
      && FieldNumber(r, o + 2, 3) == Some(CurveId(k))
      && FieldNumber(r, o + 6, 0) == Some(CurveId(k))
  {
    AccFileChannel(fmt, lin, rot, cogId, k);
    BlockReads(fmt, AccFile(fmt, lin, rot, cogId).value, Offset(lin, rot, k), Offset(lin, rot, k + 1),
               Channel(lin, rot, k), cogId, DofCode(|lin.columns|, k), CurveId(k));
    AccFileCurveRead(fmt, lin, rot, cogId, k);
  }

  /** No two channels of the file carry the same curve id or the same dof
      code, as read back from their motion cards. */
  lemma AccFileNumbersDistinct(fmt: Formatter, lin: Frame, rot: Frame, cogId: string, k1: nat, k2: nat)
    requires lin.Valid() && rot.Valid() && |lin.index| > 0 && |rot.index| > 0
    requires k1 < k2 < ChannelCount(lin, rot) && ChannelCount(lin, rot) + 2 <= Pow10(FieldWidth)
    requires |cogId| <= FieldWidth
    ensures AccFile(fmt, lin, rot, cogId).Ok?
    ensures var r := AccFile(fmt, lin, rot, cogId).value;
      var o1 := Offset(lin, rot, k1); var o2 := Offset(lin, rot, k2);
      && FieldNumber(r, o1 + 2, 1).Some? && FieldNumber(r, o1 + 2, 3).Some?
      && FieldNumber(r, o1 + 2, 1) != FieldNumber(r, o2 + 2, 1)
      && FieldNumber(r, o1 + 2, 3) != FieldNumber(r, o2 + 2, 3)
  {
    AccFileChannelReads(fmt, lin, rot, cogId, k1);
    AccFileChannelReads(fmt, lin, rot, cogId, k2);
  }

  /** No two channels of the file carry the same curve id, as read back from
      their curve cards, whatever the part id. */
  lemma AccFileCurveIdsDistinct(fmt: Formatter, lin: Frame, rot: Frame, cogId: string, k1: nat, k2: nat)
    requires lin.Valid() && rot.Valid() && |lin.index| > 0 && |rot.index| > 0
    requires k1 < k2 < ChannelCount(lin, rot) < Pow10(FieldWidth)
    ensures AccFile(fmt, lin, rot, cogId).Ok?
    ensures var r := AccFile(fmt, lin, rot, cogId).value;
      && FieldNumber(r, Offset(lin, rot, k1) + 6, 0).Some?
      && FieldNumber(r, Offset(lin, rot, k1) + 6, 0) != FieldNumber(r, Offset(lin, rot, k2) + 6, 0)
  {
    AccFileCurveRead(fmt, lin, rot, cogId, k1);
    AccFileCurveRead(fmt, lin, rot, cogId, k2);
  }

  /** With the usual three linear and three rotational columns, the dof codes
      are 1, 2, 3, 5, 6, 7 and the curve ids 1 to 6. */
  lemma SixChannels()
    ensures [DofCode(3, 0), DofCode(3, 1), DofCode(3, 2), DofCode(3, 3), DofCode(3, 4), DofCode(3, 5)]
         == [1, 2, 3, 5, 6, 7]
    ensures [CurveId(0), CurveId(1), CurveId(2), CurveId(3), CurveId(4), CurveId(5)]
         == [1, 2, 3, 4, 5, 6]
  {
  }
}
