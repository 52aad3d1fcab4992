/** The subword scanner: from a line and a cursor offset, the text object the
    cursor points at. A subword is a maximal run of lowercase letters and
    digits; an uppercase letter right before the run belongs to it (camelCase),
    and otherwise one uppercase letter or underscore next to the run is its
    separator, the one after the run preferred over the one before. */
module Scanner {
  import opened TextObjects

  /** The characters subwords are made of, as the scanner lists them. */
  const WordChars: string := "zxcvbnmlkjhgfdsaqwertyuiop0987654321"
  /** The characters that can act as a separator, as the scanner lists them. */
  const SeparatorChars: string := "ZXCVBNMLKJHGFDSAQWERTYUIOP_"

  /** ASCII lowercase letters and digits. */
  predicate IsWordChar(c: char) {
    'a' <= c <= 'z' || '0' <= c <= '9'
  }

  /** ASCII uppercase letters (the scanner's upper-case test, restricted to ASCII). */
  predicate IsUpper(c: char) {
    'A' <= c <= 'Z'
  }

  /** ASCII uppercase letters and underscore. */
  predicate IsSeparatorChar(c: char) {
    IsUpper(c) || c == '_'
  }

  /** The first part of the scanner's lists of letters is the lowercase alphabet. */
  lemma LowercaseList(c: char)
    ensures c in "zxcvbnmlkjhgfdsaqwertyuiop" <==> 'a' <= c <= 'z'
  {
  }

  /** The second part of the list of word characters is the ten digits. */
  lemma DigitList(c: char)
    ensures c in "0987654321" <==> '0' <= c <= '9'
  {
  }

  /** The first part of the list of separator characters is the uppercase alphabet. */
  lemma UppercaseList(c: char)
    ensures c in "ZXCVBNMLKJHGFDSAQWERTYUIOP" <==> 'A' <= c <= 'Z'
  {
  }

  lemma WordCharsAreLowercaseAndDigits(c: char)
    ensures c in WordChars <==> IsWordChar(c)
  {
    assert WordChars == "zxcvbnmlkjhgfdsaqwertyuiop" + "0987654321";
    LowercaseList(c);
    DigitList(c);
  }

  lemma SeparatorCharsAreUppercaseAndUnderscore(c: char)
    ensures c in SeparatorChars <==> IsSeparatorChar(c)
  {
    assert SeparatorChars == "ZXCVBNMLKJHGFDSAQWERTYUIOP" + "_";
    UppercaseList(c);
  }

  /** The offsets left..right hold a run of word characters that cannot be
      extended on either side. */
  ghost predicate MaximalRun(line: seq<char>, left: int, right: int) {
    && 0 <= left <= right + 1 <= |line|
    && (forall k :: left <= k <= right ==> IsWordChar(line[k]))
    && (left == 0 || !IsWordChar(line[left - 1]))
    && (right == |line| - 1 || !IsWordChar(line[right + 1]))
  }

  /** Walking left from i: the first offset of the run of word characters that
      ends at i, or i + 1 when i is outside the line or not a word character. */
  function RunLeft(line: seq<char>, i: int): (a: int)
    ensures a <= i + 1
    ensures a <= i ==> 0 <= a && i < |line|
    ensures forall k :: a <= k <= i ==> IsWordChar(line[k])
    ensures !(0 <= a - 1 < |line| && IsWordChar(line[a - 1]))
    decreases i + 1
  {
    if 0 <= i < |line| && IsWordChar(line[i]) then RunLeft(line, i - 1) else i + 1
  }

  /** Walking right from i: the last offset of the run of word characters that
      starts at i, or i - 1 when i is outside the line or not a word character. */
  function RunRight(line: seq<char>, i: int): (b: int)
    ensures b >= i - 1
    ensures b >= i ==> 0 <= i && b < |line|
    ensures forall k :: i <= k <= b ==> IsWordChar(line[k])
    ensures !(0 <= b + 1 < |line| && IsWordChar(line[b + 1]))
    decreases |line| - i
  {
    if 0 <= i < |line| && IsWordChar(line[i]) then RunRight(line, i + 1) else i - 1
  }

  /** Step from start in direction stride while on word characters; the last
      word offset reached, or start - stride when there is none. */
  method Walk(txt: string, start: int, stride: int) returns (r: int)
    requires stride == 1 || stride == -1
    ensures stride == 1 ==> r == RunRight(txt, start)
    ensures stride == -1 ==> r == RunLeft(txt, start)
  {
    var idx := start;
    while 0 <= idx < |txt|
      invariant stride == 1 ==> RunRight(txt, idx) == RunRight(txt, start)
      invariant stride == -1 ==> RunLeft(txt, idx) == RunLeft(txt, start)
      decreases if stride == 1 then |txt| - idx else idx + 1
    {
      WordCharsAreLowercaseAndDigits(txt[idx]);
      if txt[idx] !in WordChars {
        return idx - stride;
      }
      idx := idx + stride;
    }
    return idx - stride;
  }

  /** The run the two walks find around the cursor: the maximal run holding
      the cursor when it is on a word character, otherwise the (possibly empty)
      maximal run starting just after it. */
  function WalkedRun(line: seq<char>, cursor: int): (r: Range)
    requires 0 <= cursor < |line|
    ensures MaximalRun(line, r.0, r.1)
    ensures IsWordChar(line[cursor]) ==> r.0 <= cursor <= r.1
    ensures !IsWordChar(line[cursor]) ==> r.0 == cursor + 1
  {
    (RunLeft(line, cursor), RunRight(line, cursor + 1))
  }

  /** The choice made once the run left..right is known: a capital before the
      run joins it; otherwise a character of the separator list after the run,
      or else one before it, is the separator. */
  function ChooseTextObject(line: seq<char>, left: int, right: int): (t: TextObject)
    requires WithinLine((left, right), |line|)
    ensures Fits(t, |line|)
    ensures t.word.1 == right && (t.word.0 == left || t.word.0 == left - 1)
    ensures t.sep.Some? ==>
      && t.word.0 == left && t.sep.value.0 == t.sep.value.1
      && (t.sep.value.0 == right + 1 || t.sep.value.0 == left - 1)
  {
    if left - 1 >= 0 && IsUpper(line[left - 1]) then
      TextObject((left - 1, right), None)
    else if right + 1 < |line| && line[right + 1] in SeparatorChars then
      TextObject((left, right), Some((right + 1, right + 1)))
    else if left - 1 >= 0 && line[left - 1] in SeparatorChars then
      TextObject((left, right), Some((left - 1, left - 1)))
    else
      TextObject((left, right), None)
  }

  /** The capital right before the run, if there is one, is absorbed into it. */
  predicate AbsorbsCapital(line: seq<char>, run: Range)
    requires WithinLine(run, |line|)
  {
    run.0 > 0 && IsUpper(line[run.0 - 1])
  }

  /** The subword text object at the cursor. */
  function SubwordTextObject(line: seq<char>, cursor: int): (t: TextObject)
    requires 0 <= cursor < |line|
    // whatever the line, the result can be handed to the editing operations
    ensures Fits(t, |line|)
    // the word lies on or right after the cursor
    ensures t.word.0 <= cursor + 1 && cursor <= t.word.1
    // camelCase: a capital before the run joins it and there is no separator
    ensures var run := WalkedRun(line, cursor);
      AbsorbsCapital(line, run) ==> t == TextObject((run.0 - 1, run.1), None)
    // otherwise the word is exactly the run
    ensures var run := WalkedRun(line, cursor);
      !AbsorbsCapital(line, run) ==> t.word == run
    // a separator after the run is preferred
    ensures var run := WalkedRun(line, cursor);
      !AbsorbsCapital(line, run) && run.1 + 1 < |line| && IsSeparatorChar(line[run.1 + 1])
      ==> t.sep == Some((run.1 + 1, run.1 + 1))
    // only then one before it
    ensures var run := WalkedRun(line, cursor);
      !AbsorbsCapital(line, run) && !(run.1 + 1 < |line| && IsSeparatorChar(line[run.1 + 1]))
      ==> t.sep == (if run.0 > 0 && IsSeparatorChar(line[run.0 - 1]) then Some((run.0 - 1, run.0 - 1)) else None)
    // a separator is one separator character directly next to the word
    ensures t.sep.Some? ==> var s := t.sep.value;
      s.0 == s.1 && IsSeparatorChar(line[s.0]) && (s.0 == t.word.1 + 1 || s.0 == t.word.0 - 1)
  {
    var run := WalkedRun(line, cursor);
    SeparatorListBesideRun(line, run);
    ChooseTextObject(line, run.0, run.1)
  }

  /** The two list tests the choice makes agree with IsSeparatorChar. */
  lemma SeparatorListBesideRun(line: seq<char>, run: Range)
    requires WithinLine(run, |line|)
    ensures run.1 + 1 < |line| ==> (line[run.1 + 1] in SeparatorChars <==> IsSeparatorChar(line[run.1 + 1]))
    ensures run.0 > 0 ==> (line[run.0 - 1] in SeparatorChars <==> IsSeparatorChar(line[run.0 - 1]))
  {
    if run.1 + 1 < |line| {
      SeparatorCharsAreUppercaseAndUnderscore(line[run.1 + 1]);
    }
    if run.0 > 0 {
      SeparatorCharsAreUppercaseAndUnderscore(line[run.0 - 1]);
    }
  }

  /** The scanner as the editor runs it: two walks, then the choice. */
  method GetSubwordTextObject(line: string, cursor: int) returns (t: TextObject)
    requires 0 <= cursor < |line|
    ensures t == SubwordTextObject(line, cursor)
  {
    var left := Walk(line, cursor, -1);
    var right := Walk(line, cursor + 1, 1);
    SeparatorListBesideRun(line, (left, right));
    t := ChooseTextObject(line, left, right);
  }

  /** The word range holds word characters only, apart from an absorbed capital
      at its start. */
  lemma SubwordIsWordCharacters(line: seq<char>, cursor: int, k: int)
    requires 0 <= cursor < |line|
    requires InRange(k, SubwordTextObject(line, cursor).word)
    ensures 0 <= k < |line|
    ensures IsWordChar(line[k]) || (k == SubwordTextObject(line, cursor).word.0 && IsUpper(line[k]))
  {
  }

  /** When the cursor and the character after it are both outside every word,
      the word range is empty, just after the cursor. */
  lemma EmptyWordBetweenNonWordCharacters(line: seq<char>, cursor: int)
    requires 0 <= cursor < |line|
    requires !IsWordChar(line[cursor]) && !IsUpper(line[cursor])
    requires cursor + 1 == |line| || !IsWordChar(line[cursor + 1])
    ensures SubwordTextObject(line, cursor).word == (cursor + 1, cursor)
  {
  }
}
