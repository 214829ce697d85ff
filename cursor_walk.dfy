/** The cursor walk of the chat client (`calculateCursorCoordinates`, chat.js):
    a flat cursor offset is mapped to a row and a column of the wrapped input. */
module CursorWalk {
  import opened Strings
  import opened LineWrap

  /** The flat offset at which row `r` starts: every earlier line's characters
      plus one position for the join between consecutive lines. */
  function Offset(lines: seq<string>, r: nat): nat
    requires r <= |lines|
  {
    if r == 0 then 0 else Offset(lines, r - 1) + |lines[r - 1]| + 1
  }

  /** The position after `k` steps of the walk: one step per offset, moving
      right while the row has room and to the start of the next row otherwise.
      The walk stays on a line, or just past the last one with column 0, and
      its position always accounts for exactly `k` offsets. */
  function Walk(lines: seq<string>, k: nat): (rc: (nat, nat))
    requires k <= Offset(lines, |lines|)
    ensures rc.0 <= |lines| && k == Offset(lines, rc.0) + rc.1
    ensures rc.0 < |lines| ==> rc.1 <= |lines[rc.0]|
    ensures rc.0 == |lines| ==> rc.1 == 0
    decreases k
  {
    if k == 0 then (0, 0)
    else
      var (r, c) := Walk(lines, k - 1);
      if |lines[r]| > c then (r, c + 1) else (r + 1, 0)
  }

  /** The loop of `calculateCursorCoordinates`. The source reads
      `inputLines[cursorRow].length` on every step, which throws once the row runs
      past the last line; the precondition keeps every step in range. */
  method CalculateCursorCoordinates(inputLines: seq<string>, cursorIndex: nat) returns (cursorRow: nat, cursorCol: nat)
    requires cursorIndex <= Offset(inputLines, |inputLines|)
    ensures (cursorRow, cursorCol) == Walk(inputLines, cursorIndex)
    ensures cursorIndex < Offset(inputLines, |inputLines|) ==> cursorRow < |inputLines|
    ensures cursorIndex == 0 ==> cursorRow == 0 && cursorCol == 0
  {
    cursorRow, cursorCol := 0, 0;
    for i := 0 to cursorIndex
      invariant (cursorRow, cursorCol) == Walk(inputLines, i)
    {
      if |inputLines[cursorRow]| > cursorCol {
        cursorCol := cursorCol + 1;
      } else {
        cursorRow := cursorRow + 1;
        cursorCol := 0;
      }
    }
  }

  /** While the offset is within the first line, the walk stays on row 0 at
      column `k`. */
  lemma {:induction false} WalkFirstRow(lines: seq<string>, k: nat)
    requires |lines| >= 1 && k <= |lines[0]|
    ensures k <= Offset(lines, |lines|)
    ensures Walk(lines, k) == (0, k)
    decreases k
  {
    OffsetIncreasing(lines, 0, |lines|);
    if k > 0 {
      WalkFirstRow(lines, k - 1);
    }
  }

  /** Offsets grow strictly from row to row: row `r` ends before row `s` starts. */
  lemma {:induction false} OffsetIncreasing(lines: seq<string>, r: nat, s: nat)
    requires r < s <= |lines|
    ensures Offset(lines, r) + |lines[r]| < Offset(lines, s)
    decreases s
  {
    if s > r + 1 {
      OffsetIncreasing(lines, r, s - 1);
    }
  }

  /** The walk's result is the only in-range position with that offset, so the
      row and column are determined by the offset alone. */
  lemma PositionUnique(lines: seq<string>, r1: nat, c1: nat, r2: nat, c2: nat)
    requires r1 < |lines| && c1 <= |lines[r1]|
    requires r2 < |lines| && c2 <= |lines[r2]|
    requires Offset(lines, r1) + c1 == Offset(lines, r2) + c2
    ensures r1 == r2 && c1 == c2
  {
    if r1 < r2 {
      OffsetIncreasing(lines, r1, r2);
    } else if r2 < r1 {
      OffsetIncreasing(lines, r2, r1);
    }
  }

  /** Offsets of the lines after the first are those of the tail, shifted. */
  lemma {:induction false} OffsetTail(lines: seq<string>, r: nat)
    requires 1 <= r <= |lines|
    ensures Offset(lines, r) == |lines[0]| + 1 + Offset(lines[1..], r - 1)
    decreases r
  {
    if r > 1 {
      OffsetTail(lines, r - 1);
    }
  }

  /** Offsets index the joined text: character `c` of row `r` is at
      `Offset(r) + c`, and the join after a row that is not the last is a space. */
  lemma {:induction false} JoinAt(lines: seq<string>, r: nat, c: nat)
    requires r < |lines| && c <= |lines[r]|
    ensures Offset(lines, r) + c <= |Join(lines)|
    ensures c < |lines[r]| || r + 1 < |lines| ==> Offset(lines, r) + c < |Join(lines)|
    ensures c < |lines[r]| ==> Join(lines)[Offset(lines, r) + c] == lines[r][c]
    ensures c == |lines[r]| && r + 1 < |lines| ==> Join(lines)[Offset(lines, r) + c] == ' '
    decreases |lines|
  {
    if |lines| == 1 {
    } else if r == 0 {
      assert Join(lines) == lines[0] + " " + Join(lines[1..]);
    } else {
      JoinAt(lines[1..], r - 1, c);
      OffsetTail(lines, r);
      assert Join(lines) == lines[0] + " " + Join(lines[1..]);
    }
  }

  /** The walk has exactly one position per character of the joined text, plus
      one past its end. */
  lemma {:induction false} OffsetJoinLength(lines: seq<string>)
    requires |lines| >= 1
    ensures Offset(lines, |lines|) == |Join(lines)| + 1
    decreases |lines|
  {
    if |lines| > 1 {
      OffsetJoinLength(lines[1..]);
      OffsetTail(lines, |lines|);
    }
  }

  /** For the wrapped input of the chat client, every cursor offset the editor
      can hold (at most the text length) lands on an existing row, so the walk
      and the row lookup that follows it never run off the lines. */
  lemma CursorInRange(maxWidth: real, text: string, measure: string -> real, cursorIndex: nat)
    requires cursorIndex <= |text|
    ensures var lines := Wrap(maxWidth, text, measure);
      cursorIndex + 1 < Offset(lines, |lines|)
  {
    var lines := Wrap(maxWidth, text, measure);
    WrapJoin(maxWidth, text, measure);
    OffsetJoinLength(lines);
  }
}
