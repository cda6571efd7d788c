# acceleration.k writer, modelled in Dafny

`drop_tower_2_k.py` turns drop-tower acceleration recordings into an LS-DYNA
keyword file, `acceleration.k`. This project models its writer. It covers two functions:

- `create_acc_file` opens the file and writes a `*CONTROL_TERMINATION` block at
  the earlier of the two tables' last time stamps. It then runs over the linear
  table's columns and the rotational table's columns, numbering the channels
  with two counters (dof code and curve id, with one dof code skipped between
  the two groups), and closes with `*END`.
- `write_acc_comp` writes one channel: a `*BOUNDARY_PRESCRIBED_MOTION_RIGID`
  card, a `*DEFINE_CURVE_TITLE` header, and one data row per sample.

Every number the writer fills into a card or a data row is a Python
`str(...).rjust(width)`, meant for a reader that parses by column position;
the placeholder fields after those numbers are fixed text.

The project has four modules.

- `Text` (`text.dfy`) holds the string facts the format rests on:
  - `rjust`, which pads on the left and never cuts;
  - `str` of a non-negative integer;
  - the reading a positional parser applies to a right-justified integer
    field: trim the blanks, then read the digits.
- `KFormat` (`kformat.dfy`) states the file as values.
  - A `Line` datatype names each kind of line the writer emits. `Render`
    gives the text of a line and `RenderAll` the text of a run of lines.
  - `CurveBlock` is the block of one channel and `ColumnBlocks` the blocks of
    a frame's columns. `FileLines` is the whole file by line kind, and
    `AccFile` is its text, or the `IndexError` an empty table raises.
- `KWriter` (`kwriter.dfy`) is the writer in its own imperative form.
  - `KFile` is the open file: a class whose `lines` field grows by one line
    per `write`.
  - `WriteAccComp` is `write_acc_comp`, with its row loop.
  - `WriteFrame` is one of the two column loops of `create_acc_file`,
    advancing both counters.
  - `CreateAccFile` is `create_acc_file`.
  - Each method is proved to produce exactly the lines its specification
    function gives, and `CreateAccFile` returns exactly `AccFile`.
- `KProps` (`kprops.dfy`) proves what the file promises:
  - the field layout of every card, and that its integer fields read back;
  - the layout of a channel block;
  - the channel numbering, stated by channel position (`DofCode`, `CurveId`,
    `Offset`) and proved equal to what the writer's counters produce;
  - where each channel block sits in the file, and the file's overall shape
    and line count;
  - that the numbers read back from the file are the channel's and are
    pairwise distinct.

Two choices shape the model.

- Float printing is not modelled. Values and times are `real`, and
  `str(round(x, k))` is a `Formatter` function the caller supplies. The
  writer only pads what it returns.
- Each `write` call in the source writes exactly one line ending in `"\n"`,
  given a part id with no line break in it.
  The file is therefore modelled as the sequence of lines written, without
  their newlines.

Two facts about the code are worth stating outright:

- The writer loops over however many columns each table has, and so does
  the model; `SixChannels` gives the numbering for three linear plus three
  rotational columns.
- Each data row is two 20-character fields, 40 characters in all, as
  `DataRowExample` shows.

## Model

| member | source | states |
|---|---|---|
| Text.RJust | drop_tower_2_k.py:46-49 | `str.rjust`: pads on the left with blanks up to the width and never cuts; its contract is `RJustSpec` |
| Text.RJustSpec | drop_tower_2_k.py:46-49 | `rjust(width)` yields `width` characters, or the text itself when it is longer; the text is never cut; everything to its left is a blank |
| Text.TrimLeftRJust | drop_tower_2_k.py:46-49 | stripping the padding of a right-justified text gives the text back, unless the text itself starts with a blank |
| Text.NatToString | drop_tower_2_k.py:47-49 | `str` of a non-negative int is a non-empty run of decimal digits with no leading zero |
| Text.ParseNatToString | drop_tower_2_k.py:47-49 | the digits of `str(n)` read back as `n` |
| Text.NatToStringLength | drop_tower_2_k.py:47-49 | a number below 10^k prints in at most k characters, so it fits its field without pushing later fields right |
| Text.ParseFieldRJust | drop_tower_2_k.py:47-49 | a right-justified `str(n)` read by a positional reader gives `n`, whatever the width |
| KFormat.TerminationRecord | drop_tower_2_k.py:116 | the termination card: the printed end time right-justified in 10 characters, then the fixed endcyc to nosol text; its layout is `TerminationRecordField` |
| KFormat.MotionRecord | drop_tower_2_k.py:46-50 | the prescribed-motion card: pid, dof, vad and lcid each right-justified in 10 characters, then the fixed sf to birth text; its layout is `MotionRecordFields` and `MotionRecordLongId` |
| KFormat.CurveRecord | drop_tower_2_k.py:54 | the curve card: lcid right-justified in 10 characters, then the fixed sidr to lcint text; its layout is `CurveRecordFields` |
| KFormat.DataRow | drop_tower_2_k.py:63 | a data row: the printed time and the printed value, each right-justified in 20 characters; its layout is `DataRowFields` |
| KFormat.Min | drop_tower_2_k.py:108 | the end time is no later than either table's last time stamp and is one of them |
| KFormat.EndTime | drop_tower_2_k.py:108 | the end time is `min` of the two tables' last time stamps; its bounds are `Min`'s contract |
| KFormat.CurveBlock | drop_tower_2_k.py:44-63 | a channel block has 8 header lines plus one line per sample |
| KFormat.ColumnBlocks | drop_tower_2_k.py:128-142 | a frame yields one channel block per column |
| KFormat.ConcatAppend | drop_tower_2_k.py:128-142 | writing two runs of blocks one after the other writes the lines of both, in order |
| KFormat.FileLines | drop_tower_2_k.py:114-144 | the file by line kind: the termination block, the linear channel blocks numbered from dof 1 and lcid 1, the rotational blocks after one skipped dof code, then `*END`; its layout is `FileLinesByChannel`, `FileLinesChannel`, `FileLinesEnd` and `FileLinesLength` |
| KFormat.AccFile | drop_tower_2_k.py:106-145 | the text of `acceleration.k`, or the IndexError of an empty table; `CreateAccFile` is proved to produce it, and its shape is `AccFileShape`, `AccFileChannel`, `AccFileRow` and `AccFileChannelReads` |
| KWriter.KFile.constructor | drop_tower_2_k.py:111 | a newly opened file is empty |
| KWriter.KFile.Write | drop_tower_2_k.py:44 | one `write` appends exactly one line and changes nothing else |
| KWriter.WriteAccComp | drop_tower_2_k.py:38-63 | the file grows by exactly the channel's block: 8 header lines, then the data rows in index order |
| KWriter.WriteFrame | drop_tower_2_k.py:128-133 | one column loop appends the blocks of every column in order, numbered from the counters' values, and leaves both counters advanced by the number of columns |
| KWriter.CreateAccFile | drop_tower_2_k.py:106-145 | the text written is exactly `AccFile`; an empty table gives the IndexError and writes nothing |
| KProps.IntField | drop_tower_2_k.py:47-49 | an integer below 10^10 fills exactly one 10-character field and reads back as itself |
| KProps.MotionRecordFields | drop_tower_2_k.py:46-50 | the motion card is 80 characters; its fields are pid right-justified, then dof, vad and lcid, each reading back as itself |
| KProps.MotionRecordLongId | drop_tower_2_k.py:46-50 | a part id longer than 10 characters is written whole at the start of the card, and right after it come dof, vad and lcid, each right-justified in 10 characters, then the fixed placeholders: every later field moves right by the excess |
| KProps.CurveRecordFields | drop_tower_2_k.py:54 | the curve card is 80 characters and its first field reads back as lcid |
| KProps.TerminationRecordField | drop_tower_2_k.py:116 | the end time is right-justified in the first 10 columns and strips back to its text, or is written whole when longer |
| KProps.DataRowFields | drop_tower_2_k.py:63 | a data row is two 20-character columns that strip back to the time text and the value text |
| KProps.DataRowExample | drop_tower_2_k.py:63 | the row for time 2.0 and value -2.25 is 17 blanks, `2.0`, 15 blanks, `-2.25` |
| KProps.CurveBlockLayout | drop_tower_2_k.py:44-63 | a block starts with the 8 header lines; line 2 is the motion card and line 6 the curve card, with the same lcid; line 8+i is sample i |
| KProps.SameLcid | drop_tower_2_k.py:49-54 | the lcid read back from the motion card equals the lcid read back from the curve card |
| KProps.DofCode | drop_tower_2_k.py:132-141 | dof codes are at least 1, and code `nLin + 1` is skipped |
| KProps.ChannelBlocksSplit | drop_tower_2_k.py:121-142 | the blocks written by the two counter loops are the channel blocks numbered by position alone: dof k+1 and lcid k+1 for linear channel k; dof k+2 and lcid k+1 for the rotational channels; motion type 1 throughout |
| KProps.FileLinesByChannel | drop_tower_2_k.py:114-144 | the file is the termination block, then the channel blocks in order, then `*END` |
| KProps.OffsetPrefix | drop_tower_2_k.py:128-142 | channel k starts after the 3 termination lines and the blocks of every earlier channel |
| KProps.FileLinesChannel | drop_tower_2_k.py:128-142 | the lines of channel k, from `Offset(k)`, are its block with dof `DofCode(k)`, motion type 1 and curve `CurveId(k)` |
| KProps.FileLinesEnd | drop_tower_2_k.py:144 | nothing follows the last channel block except the `*END` line |
| KProps.FileLinesLength | drop_tower_2_k.py:114-144 | the file has 3 + Σ over columns of (8 + rows) + 1 lines |
| KProps.AccFileShape | drop_tower_2_k.py:106-145 | the writer fails exactly when a table is empty; otherwise the text starts with the 3 termination lines at `min` of the last time stamps and ends with `*END` |
| KProps.AccFileLength | drop_tower_2_k.py:114-144 | the text has 3 + Σ over columns of (8 + rows) + 1 lines |
| KProps.AccFileChannel | drop_tower_2_k.py:128-142 | the text of channel k, from `Offset(k)`, is the text of its block |
| KProps.BlockLine | drop_tower_2_k.py:62-63 | wherever a block sits in a run of lines, its line 8+i is the point of sample i |
| KProps.FileLinesRow | drop_tower_2_k.py:62-63 | line `Offset(k) + 8 + i` of the file is the point of sample i of channel k |
| KProps.RenderPoint | drop_tower_2_k.py:63 | a point line renders as the data row of its time and value |
| KProps.AccFileRow | drop_tower_2_k.py:62-63 | text line `Offset(k) + 8 + i` is the data row of sample i of channel k, in index order |
| KProps.BlockCardsText | drop_tower_2_k.py:46-54 | line 2 of a block's text is the motion card and line 6 is the curve card |
| KProps.BlockCurveRead | drop_tower_2_k.py:54 | wherever a block sits in a text, its curve card is 80 characters and reads back as lcid, whatever the part id |
| KProps.BlockReads | drop_tower_2_k.py:46-50 | wherever a block sits in a text, its motion card is 80 characters and reads back as dof, motion type 1 and lcid |
| KProps.AccFileCurveRead | drop_tower_2_k.py:128-142 | read back from the text, channel k's curve card gives `CurveId(k)`, whatever the part id |
| KProps.AccFileChannelReads | drop_tower_2_k.py:128-142 | read back from the text, channel k's motion card gives `DofCode(k)`, motion type 1 and `CurveId(k)`, and its curve card gives `CurveId(k)` |
| KProps.AccFileNumbersDistinct | drop_tower_2_k.py:128-142 | no two channels' motion cards read back the same dof code or the same curve id |
| KProps.AccFileCurveIdsDistinct | drop_tower_2_k.py:128-142 | no two channels' curve cards read back the same curve id, whatever the part id |
| KProps.SixChannels | drop_tower_2_k.py:121-142 | with three linear and three rotational columns, the dof codes are 1,2,3,5,6,7 and the curve ids are 1..6 |

## Left out

- `read_dt_xlsx` (drop_tower_2_k.py:14-36) is left out. It parses a spreadsheet through pandas, a foreign library doing I/O; the tables reach the model as values.
- `plot_acc` (drop_tower_2_k.py:65-104) is left out: it renders plots and image files.
- The `__main__` block (drop_tower_2_k.py:147-168) is left out: command-line handling, console output and a scale-by-one step.
- Opening and closing the file by path (drop_tower_2_k.py:111, 145) is left out. `CreateAccFile` builds its `KFile` in memory and returns its text.
- The progress message at line 118 and the unused `n = 0` at line 112 are not modelled.
- Float rounding and float printing (`round`, `str` at drop_tower_2_k.py:63, 116) are a caller-supplied `Formatter`. No fact about float text is proved beyond what padding preserves.
- Column names play no part: a frame is its time index plus its value columns in order.
- The newline after each line is not part of the model. Each `write` ends in exactly one `"\n"`, `*END` included, so the file is each modelled line followed by a newline.
- Table rows whose value column is shorter than the index cannot occur in pandas. `Frame.Valid` requires every column to be as long as the index.
- `pres_motion_type_rot` is declared (line 126) but never written. It is kept as `MotionTypeRot` and left unused, so every channel, rotational ones included, is written with motion type 1, as the code does. Whether 0 was intended for the rotational group is not decided here.
- KProps.MotionRecordFields: the read-back facts assume a part id of at most 10 characters and numbers below 10^10. A longer part id is covered by KProps.MotionRecordLongId.
- KProps.AccFileChannelReads: stated for part ids of at most 10 characters and at most 10^10 - 2 channels. A longer part id moves the motion card's fields right (`MotionRecordLongId`), and a larger number would overflow its field. The curve-card read-back alone needs no part-id bound: see `AccFileCurveRead`.
- KProps.BlockReads: the motion card's read-back is stated for part ids of at most 10 characters, because a longer id moves the dof, vad and lcid fields right (`MotionRecordLongId`). The curve card holds no part id, and `BlockCurveRead` reads it back for every part id.
- KProps.AccFileNumbersDistinct: stated for part ids of at most 10 characters, because it reads the numbers from the motion cards. For every part id, `AccFileCurveIdsDistinct` shows that the curve cards carry pairwise distinct curve ids.
- The part id, taken from the command line, is assumed to contain no line break. If it contains one, the motion card spans two lines of the file, and the line counts of `FileLinesLength` and `AccFileLength` no longer count the file's real lines.
- NaN time stamps, which an empty `Time(ms)` cell would give, are not represented: times are `real`. With a NaN on either side, Python's `min` at line 108 returns its first argument, as `Min`'s definition would, because every comparison with NaN is false. The bounds `Min` promises would then not hold.
- KProps.DataRowFields: stated for float texts of at most 20 characters that do not begin with a blank. A longer text is written whole and pushes the value column right.
- KProps.TerminationRecordField: the end-time field is shown to strip back to the printed text; reading that text as a number is float parsing and is not modelled.
- One `Formatter` prints both time stamps and values, so the model cannot tell an integer time index from a float value. When every time stamp is whole, pandas reads the time column as integers and `str(round(2, 10))` prints `2`, while a float `2.0` prints `2.0`. Such a run can still be represented. Values reach nothing but the formatter, so each can be replaced by a fresh real that it prints as the source would. Time stamps also reach `Min`, but both tables take them from the same `Time(ms)` column (drop_tower_2_k.py:19-28), so they print alike. No proved property depends on the difference.
