/** The line buffer: one line of text and a cursor offset into it, changed by
    deleting an inclusive range of characters. The pure rules (what the line
    becomes, where the cursor goes) are functions on State; Buffer is the
    object whose fields the editing operations update in place. */
module LineBuffer {
  import opened TextObjects

  /** What a buffer holds apart from its mode: the line and the cursor offset. */
  datatype State = State(line: seq<char>, cursor: int)

  /** The line without the characters left..right. */
  function DeleteRange(line: seq<char>, left: int, right: int): (r: seq<char>)
    requires WithinLine((left, right), |line|)
    ensures |r| == |line| - Length((left, right))
    ensures r == Kept(line, Indices((left, right)))
  {
    KeptOne(line, (left, right));
    line[..left] + line[right + 1..]
  }

  /** Where a cursor at pos goes when left..right is deleted: a cursor before
      the range stays, one inside it moves to left, one after it moves back by
      the length of the range. */
  function AdjustCursor(pos: int, left: int, right: int): (p: int)
    // the cursor never moves right
    ensures left <= right + 1 ==> p <= pos
    // a cursor at or after the range's start does not end before it
    ensures left <= right + 1 && left <= pos ==> left <= p
  {
    if pos < left then pos
    else if pos <= right then left
    else pos - (right - left + 1)
  }

  /** The cursor forced into a line of n characters: max(0, min(n - 1, pos)). */
  function Clamp(pos: int, n: int): (p: int)
    ensures n > 0 ==> 0 <= p < n
    ensures n <= 0 ==> p == 0
    ensures 0 <= pos < n ==> p == pos
    ensures pos < 0 ==> p == 0
    ensures 0 < n <= pos ==> p == n - 1
  {
    var q := if n - 1 < pos then n - 1 else pos;
    if q < 0 then 0 else q
  }

  /** The state after deleting left..right, cursor adjusted and then clamped. */
  function AfterDelete(s: State, left: int, right: int): (r: State)
    requires WithinLine((left, right), |s.line|)
    ensures |r.line| == |s.line| - Length((left, right))
    ensures r.line == Kept(s.line, Indices((left, right)))
    ensures |r.line| > 0 ==> 0 <= r.cursor < |r.line|
    ensures |r.line| == 0 ==> r.cursor == 0
  {
    var line := DeleteRange(s.line, left, right);
    State(line, Clamp(AdjustCursor(s.cursor, left, right), |line|))
  }

  /** A cursor on a character that survives the delete stays on that character. */
  lemma CursorFollowsCharacter(line: seq<char>, pos: int, left: int, right: int)
    requires WithinLine((left, right), |line|)
    requires 0 <= pos < |line| && !InRange(pos, (left, right))
    ensures var p := AdjustCursor(pos, left, right);
      0 <= p < |DeleteRange(line, left, right)| && DeleteRange(line, left, right)[p] == line[pos]
  {
  }

  /** A cursor inside the deleted range lands on the character that followed the range. */
  lemma CursorInsideLandsAfterRange(line: seq<char>, pos: int, left: int, right: int)
    requires WithinLine((left, right), |line|) && right + 1 < |line|
    requires InRange(pos, (left, right))
    ensures AdjustCursor(pos, left, right) == left
    ensures left < |DeleteRange(line, left, right)| && DeleteRange(line, left, right)[left] == line[right + 1]
  {
  }

  /** Deleting an empty range changes nothing but the clamp. */
  lemma DeleteEmptyRange(s: State, k: int)
    requires 0 <= k <= |s.line|
    ensures AfterDelete(s, k, k - 1) == State(s.line, Clamp(s.cursor, |s.line|))
  {
  }

  /** A line buffer: the line, the cursor offset and whether the editor is in
      insert mode. Delete keeps the cursor inside the line as a test double
      for the editor does (the editor itself clamps a cursor set past the end). */
  class Buffer {
    var line: seq<char>
    var cursor: int
    var insertMode: bool

    function View(): State
      reads this
    {
      State(line, cursor)
    }

    constructor (line: seq<char>, cursor: int)
      ensures View() == State(line, cursor) && !insertMode
    {
      this.line := line;
      this.cursor := cursor;
      insertMode := false;
    }

    /** Delete left..right from the line and move the cursor accordingly. */
    method Delete(left: int, right: int)
      requires WithinLine((left, right), |line|)
      modifies this
      ensures line == DeleteRange(old(line), left, right)
      ensures cursor == Clamp(AdjustCursor(old(cursor), left, right), |line|)
      ensures View() == AfterDelete(old(View()), left, right)
      ensures insertMode == old(insertMode)
    {
      var newLine := line[..left] + line[right + 1..];
      var pos := cursor;
      if pos < left {
      } else if left <= pos <= right {
        pos := left;
      } else {
        pos := pos - (right - left + 1);
      }
      line := newLine;
      cursor := if |line| - 1 < pos then |line| - 1 else pos;
      cursor := if cursor < 0 then 0 else cursor;
    }

    /** Ask the editor to treat what follows as inserted text. */
    method GoToInsertMode()
      modifies this
      ensures insertMode
      ensures View() == old(View())
    {
      insertMode := true;
    }
  }
}
