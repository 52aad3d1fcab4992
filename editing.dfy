/** The text-object editing operations: inner delete removes the word only,
    outer delete removes the word and its separator, and the change variants
    delete the same way and then enter insert mode. Each is a function on
    State, stating what the operation computes, and a method that performs the
    same steps on a Buffer. */
module Editing {
  import opened TextObjects
  import opened LineBuffer
  import opened Scanner

  /** Where the separator starts once the word has been deleted: a separator
      after the word moves back by the word's length, one before it stays. */
  function SeparatorStart(t: TextObject): int
    requires t.sep.Some?
  {
    if t.sep.value.0 > t.word.1 then t.sep.value.0 - Length(t.word) else t.sep.value.0
  }

  /** The separator's range once the word has been deleted. */
  function ShiftedSeparator(t: TextObject): Range
    requires t.sep.Some?
  {
    (SeparatorStart(t), SeparatorStart(t) + Length(t.sep.value) - 1)
  }

  /** Inner delete: put the cursor on a following separator, or else at the
      start of the word, and delete the word. */
  function DeleteInner(s: State, t: TextObject): (r: State)
    requires Fits(t, |s.line|)
    ensures |r.line| == |s.line| - Length(t.word)
    ensures |r.line| > 0 ==> 0 <= r.cursor < |r.line|
  {
    var pos := match t.sep
      case None => t.word.0
      case Some(sep) => if sep.0 > t.word.1 then sep.0 else t.word.0;
    AfterDelete(s.(cursor := pos), t.word.0, t.word.1)
  }

  /** Outer delete: without a separator the same as inner delete; with one, put
      the cursor on the separator and delete whichever range lies later in
      the line first, so that the earlier range's offsets stay valid. */
  function DeleteOuter(s: State, t: TextObject): (r: State)
    requires Fits(t, |s.line|)
    ensures |r.line| == |s.line| - Length(t.word) - (if t.sep.Some? then Length(t.sep.value) else 0)
    ensures |r.line| > 0 ==> 0 <= r.cursor < |r.line|
  {
    match t.sep
    case None => DeleteInner(s, t)
    case Some(sep) =>
      var s1 := s.(cursor := sep.0);
      if sep.0 > t.word.1 then
        AfterDelete(AfterDelete(s1, sep.0, sep.1), t.word.0, t.word.1)
      else
        AfterDelete(AfterDelete(s1, t.word.0, t.word.1), sep.0, sep.1)
  }

  /** Inner delete removes exactly the word's characters. Without a separator,
      or with one before the word, the cursor ends (clamped) where the word
      started. */
  lemma DeleteInnerRemovesWord(s: State, t: TextObject)
    requires Fits(t, |s.line|)
    ensures var r := DeleteInner(s, t);
      && r.line == Kept(s.line, Indices(t.word))
      && |r.line| == |s.line| - Length(t.word)
    ensures !(t.sep.Some? && t.sep.value.0 > t.word.1) ==>
      DeleteInner(s, t).cursor == Clamp(t.word.0, |s.line| - Length(t.word))
  {
  }

  /** A slice that lies in the second half of a concatenation. */
  lemma SliceOfSuffix(p: seq<char>, q: seq<char>, i: int, j: int)
    requires |p| <= i <= j <= |p| + |q|
    ensures (p + q)[i..j] == q[i - |p|..j - |p|]
  {
    forall k | 0 <= k < j - i
      ensures (p + q)[i..j][k] == q[i - |p|..j - |p|][k]
    {
      assert (p + q)[i + k] == q[i + k - |p|];
    }
  }

  /** Deleting w leaves a range after it intact, moved back by the length of w. */
  lemma DeleteRangeKeepsLater(line: seq<char>, w: Range, sep: Range)
    requires WithinLine(w, |line|) && w.1 < sep.0 <= sep.1 < |line|
    ensures var at := sep.0 - Length(w);
      DeleteRange(line, w.0, w.1)[at..at + Length(sep)] == line[sep.0..sep.1 + 1]
  {
    var suf := line[w.1 + 1..];
    var at := sep.0 - Length(w);
    assert DeleteRange(line, w.0, w.1) == line[..w.0] + suf;
    SliceOfSuffix(line[..w.0], suf, at, at + Length(sep));
    assert suf[at - w.0..at - w.0 + Length(sep)] == line[sep.0..sep.1 + 1];
  }

  /** Deleting w leaves a range before it where it was; so does deleting an
      empty w, wherever the range is. */
  lemma DeleteRangeKeepsEarlier(line: seq<char>, w: Range, sep: Range)
    requires WithinLine(w, |line|) && 0 <= sep.0 <= sep.1 < |line|
    requires sep.1 < w.0 || w.1 < w.0
    ensures DeleteRange(line, w.0, w.1)[sep.0..sep.0 + Length(sep)] == line[sep.0..sep.1 + 1]
  {
    if w.0 <= w.1 {
      assert DeleteRange(line, w.0, w.1)[sep.0..sep.1 + 1] == line[..w.0][sep.0..sep.1 + 1];
    } else {
      assert DeleteRange(line, w.0, w.1) == line;
    }
  }

  /** Inner delete leaves the separator intact, now starting at
      SeparatorStart(t); a separator after the word ends up under the cursor. */
  lemma DeleteInnerKeepsSeparator(s: State, t: TextObject)
    requires Fits(t, |s.line|) && t.sep.Some?
    ensures var r := DeleteInner(s, t); var sep := t.sep.value; var at := SeparatorStart(t);
      && 0 <= at && at + Length(sep) <= |r.line|
      && r.line[at..at + Length(sep)] == s.line[sep.0..sep.1 + 1]
    ensures var sep := t.sep.value;
      sep.0 > t.word.1 ==> DeleteInner(s, t).cursor == SeparatorStart(t)
  {
    var w, sep := t.word, t.sep.value;
    var line := DeleteInner(s, t).line;
    assert line == DeleteRange(s.line, w.0, w.1);
    if sep.0 > w.1 {
      assert SeparatorStart(t) == sep.0 - Length(w);
      DeleteRangeKeepsLater(s.line, w, sep);
    } else {
      assert SeparatorStart(t) == sep.0;
      DeleteRangeKeepsEarlier(s.line, w, sep);
    }
  }

  /** Deleting a later range b and then an earlier range a removes exactly
      the characters of both. */
  lemma DeleteLaterRangeFirst(line: seq<char>, a: Range, b: Range)
    requires WithinLine(a, |line|) && WithinLine(b, |line|) && a.1 < b.0
    ensures WithinLine(a, |line| - Length(b))
    ensures DeleteRange(DeleteRange(line, b.0, b.1), a.0, a.1) == Kept(line, Indices(a) + Indices(b))
  {
    var mid := line[..b.0] + line[b.1 + 1..];
    assert mid[..a.0] + mid[a.1 + 1..] == line[..a.0] + line[a.1 + 1..b.0] + line[b.1 + 1..];
    KeptTwo(line, a, b);
  }

  /** Where outer delete leaves the cursor, on a line of n characters, when
      the separator follows the word. */
  lemma OuterCursorSeparatorAfter(n: int, w: Range, sep: Range)
    requires WithinLine(w, n) && 0 <= sep.0 <= sep.1 < n && w.1 < sep.0
    ensures var n1 := n - Length(sep);
      var c1 := Clamp(AdjustCursor(sep.0, sep.0, sep.1), n1);
      Clamp(AdjustCursor(c1, w.0, w.1), n1 - Length(w)) == Clamp(sep.0 - Length(w), n1 - Length(w))
  {
  }

  /** Where outer delete leaves the cursor, on a line of n characters, when
      the separator precedes the word. */
  lemma OuterCursorSeparatorBefore(n: int, w: Range, sep: Range)
    requires WithinLine(w, n) && 0 <= sep.0 <= sep.1 < n && sep.0 <= w.1 && Disjoint(w, sep)
    ensures var n1 := n - Length(w);
      var c1 := Clamp(AdjustCursor(sep.0, w.0, w.1), n1);
      Clamp(AdjustCursor(c1, sep.0, sep.1), n1 - Length(sep)) == Clamp(sep.0, n1 - Length(sep))
  {
  }

  /** Outer delete's two steps when the separator follows the word. */
  lemma OuterStepsSeparatorAfter(s: State, w: Range, sep: Range)
    requires WithinLine(w, |s.line|) && 0 <= sep.0 <= sep.1 < |s.line| && w.1 < sep.0
    ensures WithinLine(w, |s.line| - Length(sep))
    ensures var r := AfterDelete(AfterDelete(s.(cursor := sep.0), sep.0, sep.1), w.0, w.1);
      && r.line == Kept(s.line, Indices(w) + Indices(sep))
      && r.cursor == Clamp(sep.0 - Length(w), |r.line|)
  {
    DeleteLaterRangeFirst(s.line, w, sep);
    OuterCursorSeparatorAfter(|s.line|, w, sep);
  }

  /** Outer delete's two steps when the separator precedes the word. */
  lemma OuterStepsSeparatorBefore(s: State, w: Range, sep: Range)
    requires WithinLine(w, |s.line|) && 0 <= sep.0 <= sep.1 < |s.line|
    requires sep.0 <= w.1 && Disjoint(w, sep)
    ensures WithinLine(sep, |s.line| - Length(w))
    ensures var r := AfterDelete(AfterDelete(s.(cursor := sep.0), w.0, w.1), sep.0, sep.1);
      && r.line == Kept(s.line, Indices(w) + Indices(sep))
      && r.cursor == Clamp(sep.0, |r.line|)
  {
    OuterCursorSeparatorBefore(|s.line|, w, sep);
    if w.1 < w.0 {
      assert DeleteRange(s.line, w.0, w.1) == s.line;
      KeptNone(s.line, w, Indices(sep));
    } else {
      DeleteLaterRangeFirst(s.line, sep, w);
      assert Indices(w) + Indices(sep) == Indices(sep) + Indices(w);
    }
  }

  /** Outer delete without a separator is inner delete. With one, it removes
      exactly the characters of both ranges, and the cursor ends (clamped)
      where the separator was. */
  lemma DeleteOuterRemovesBoth(s: State, t: TextObject)
    requires Fits(t, |s.line|)
    ensures t.sep.None? ==> DeleteOuter(s, t) == DeleteInner(s, t)
    ensures t.sep.Some? ==> var r := DeleteOuter(s, t); var sep := t.sep.value;
      && r.line == Kept(s.line, Indices(t.word) + Indices(sep))
      && |r.line| == |s.line| - Length(t.word) - Length(sep)
      && r.cursor == Clamp(SeparatorStart(t), |r.line|)
  {
    if t.sep.Some? {
      if t.sep.value.0 > t.word.1 {
        OuterStepsSeparatorAfter(s, t.word, t.sep.value);
      } else {
        OuterStepsSeparatorBefore(s, t.word, t.sep.value);
      }
    }
  }

  /** Deleting a later range b and then an earlier range a is deleting a and
      then b moved back by the length of a. */
  lemma DeleteRangesCommute(line: seq<char>, a: Range, b: Range)
    requires WithinLine(a, |line|) && WithinLine(b, |line|) && a.1 < b.0
    ensures WithinLine(a, |line| - Length(b))
    ensures WithinLine((b.0 - Length(a), b.1 - Length(a)), |line| - Length(a))
    ensures DeleteRange(DeleteRange(line, b.0, b.1), a.0, a.1)
         == DeleteRange(DeleteRange(line, a.0, a.1), b.0 - Length(a), b.1 - Length(a))
  {
    var inner := line[..a.0] + line[a.1 + 1..];
    var n := Length(a);
    assert inner[..b.0 - n] == line[..a.0] + line[a.1 + 1..b.0];
    assert inner[b.1 - n + 1..] == line[b.1 + 1..];
    DeleteLaterRangeFirst(line, a, b);
  }

  /** Outer delete is inner delete followed by deleting the separator where it
      then stands, so it removes more than inner delete. */
  lemma DeleteOuterExtendsInner(s: State, t: TextObject)
    requires Fits(t, |s.line|) && t.sep.Some?
    ensures var inner := DeleteInner(s, t).line; var sep := ShiftedSeparator(t);
      && WithinLine(sep, |inner|)
      && DeleteOuter(s, t).line == DeleteRange(inner, sep.0, sep.1)
    ensures |DeleteOuter(s, t).line| < |DeleteInner(s, t).line|
  {
    var w, sep := t.word, t.sep.value;
    var inner := DeleteRange(s.line, w.0, w.1);
    assert DeleteInner(s, t).line == inner;
    if sep.0 > w.1 {
      assert ShiftedSeparator(t) == (sep.0 - Length(w), sep.1 - Length(w));
      assert DeleteOuter(s, t).line == DeleteRange(DeleteRange(s.line, sep.0, sep.1), w.0, w.1);
      DeleteRangesCommute(s.line, w, sep);
    } else {
      assert ShiftedSeparator(t) == sep;
      assert DeleteOuter(s, t).line == DeleteRange(inner, sep.0, sep.1);
    }
  }

  /** Outer delete as written, run past the overlap guard on a separator
      that encloses the word: "foobarbaz" with word (2, 3) and separator
      (1, 4). The guard lets it through, the word is deleted first because
      the separator does not start after it, and the separator's offsets are
      then stale: the result is "faz". */
  lemma OuterDeleteWithEnclosingSeparator()
    ensures SourceGuard((2, 3), (1, 4)) && !Disjoint((2, 3), (1, 4))
    ensures DeleteRange(DeleteRange("foobarbaz", 2, 3), 1, 4) == "faz"
  {
    assert "foobarbaz"[..2] == "fo" && "foobarbaz"[4..] == "arbaz";
    assert DeleteRange("foobarbaz", 2, 3) == "foarbaz";
    assert "foarbaz"[..1] == "f" && "foarbaz"[5..] == "az";
  }

  /** What removing both ranges of that text object gives: the separator
      covers the word, so it is the line without offsets 1..4, "frbaz". */
  lemma EnclosingSeparatorRemovedAsIntended()
    ensures Kept("foobarbaz", Indices((2, 3)) + Indices((1, 4))) == "frbaz"
  {
    assert Indices((2, 3)) + Indices((1, 4)) == Indices((1, 4));
    assert "foobarbaz"[..1] == "f" && "foobarbaz"[5..] == "rbaz";
    assert DeleteRange("foobarbaz", 1, 4) == "frbaz";
  }

  /** delete_inner_text_object on a buffer. */
  method DeleteInnerTextObject(t: TextObject, b: Buffer)
    requires Fits(t, |b.line|)
    modifies b
    ensures b.View() == DeleteInner(old(b.View()), t)
    ensures b.insertMode == old(b.insertMode)
  {
    var (wl, wr) := t.word;
    match t.sep {
      case None =>
        b.cursor := wl;
        b.Delete(wl, wr);
      case Some(sep) =>
        var (sl, sr) := sep;
        if sl > wr {
          b.cursor := sl;
        } else {
          b.cursor := wl;
        }
        b.Delete(wl, wr);
    }
  }

  /** delete_outer_text_object on a buffer. */
  method DeleteOuterTextObject(t: TextObject, b: Buffer)
    requires Fits(t, |b.line|)
    modifies b
    ensures b.View() == DeleteOuter(old(b.View()), t)
    ensures b.insertMode == old(b.insertMode)
  {
    match t.sep {
      case None =>
        DeleteInnerTextObject(t, b);
      case Some(sep) =>
        var (sl, sr) := sep;
        var (wl, wr) := t.word;
        ghost var s1 := b.View().(cursor := sl);
        b.cursor := sl;
        if sl > wr {
          b.Delete(sl, sr);
          ghost var m := b.View();
          assert m == AfterDelete(s1, sl, sr);
          b.Delete(wl, wr);
          assert b.View() == AfterDelete(m, wl, wr);
        } else {
          b.Delete(wl, wr);
          ghost var m := b.View();
          assert m == AfterDelete(s1, wl, wr);
          b.Delete(sl, sr);
          assert b.View() == AfterDelete(m, sl, sr);
        }
    }
  }

  /** change_inner_text_object: inner delete, then insert mode. */
  method ChangeInnerTextObject(t: TextObject, b: Buffer)
    requires Fits(t, |b.line|)
    modifies b
    ensures b.View() == DeleteInner(old(b.View()), t)
    ensures b.insertMode
  {
    DeleteInnerTextObject(t, b);
    b.GoToInsertMode();
  }

  /** change_outer_text_object: outer delete, then insert mode. */
  method ChangeOuterTextObject(t: TextObject, b: Buffer)
    requires Fits(t, |b.line|)
    modifies b
    ensures b.View() == DeleteOuter(old(b.View()), t)
    ensures b.insertMode
  {
    DeleteOuterTextObject(t, b);
    b.GoToInsertMode();
  }

  /** The operations bound to the subword scanner: the text object is the one
      the scanner finds in the buffer at the moment of the call. */
  method DeleteInnerSubword(b: Buffer)
    requires 0 <= b.cursor < |b.line|
    modifies b
    ensures b.View() == DeleteInner(old(b.View()), SubwordTextObject(old(b.line), old(b.cursor)))
    ensures b.insertMode == old(b.insertMode)
  {
    var t := GetSubwordTextObject(b.line, b.cursor);
    DeleteInnerTextObject(t, b);
  }

  method DeleteOuterSubword(b: Buffer)
    requires 0 <= b.cursor < |b.line|
    modifies b
    ensures b.View() == DeleteOuter(old(b.View()), SubwordTextObject(old(b.line), old(b.cursor)))
    ensures b.insertMode == old(b.insertMode)
  {
    var t := GetSubwordTextObject(b.line, b.cursor);
    DeleteOuterTextObject(t, b);
  }

  method ChangeInnerSubword(b: Buffer)
    requires 0 <= b.cursor < |b.line|
    modifies b
    ensures b.View() == DeleteInner(old(b.View()), SubwordTextObject(old(b.line), old(b.cursor)))
    ensures b.insertMode
  {
    var t := GetSubwordTextObject(b.line, b.cursor);
    ChangeInnerTextObject(t, b);
  }

  method ChangeOuterSubword(b: Buffer)
    requires 0 <= b.cursor < |b.line|
    modifies b
    ensures b.View() == DeleteOuter(old(b.View()), SubwordTextObject(old(b.line), old(b.cursor)))
    ensures b.insertMode
  {
    var t := GetSubwordTextObject(b.line, b.cursor);
    ChangeOuterTextObject(t, b);
  }
}
