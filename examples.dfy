/** The expected outcomes of the repository's tests, stated about the model.
    Specs are written as in the tests: the line with '*' at the cursor. Each
    outcome is built from small steps (the state a spec describes, the state an
    operation leaves, the spec of that state), which the test methods combine. */
module Examples {
  import opened TextObjects
  import opened LineBuffer
  import opened SpecNotation
  import opened Scanner
  import opened Editing

  /** The states the delete tests start from. */
  lemma DeleteTestStart()
    ensures ParseSpec("foo*bar") == State("foobar", 3)
  {
  }

  lemma ShortDeleteTestStart()
    ensures ParseSpec("*bar") == State("bar", 0)
  {
  }

  /** A range before the cursor: the cursor moves back by its length. */
  lemma DeleteBeforeCursor()
    ensures AfterDelete(State("foobar", 3), 0, 1) == State("obar", 1)
  {
  }

  /** A range after the cursor: the cursor stays. */
  lemma DeleteAfterCursor()
    ensures AfterDelete(State("bar", 0), 2, 2) == State("ba", 0)
  {
  }

  /** A range from the cursor to the end: the cursor is clamped to the new end. */
  lemma DeleteFromCursorToEnd()
    ensures AfterDelete(State("foobar", 3), 3, 5) == State("foo", 2)
  {
  }

  /** A range the cursor is in: the cursor moves to the range's start. */
  lemma DeleteAroundCursor()
    ensures AfterDelete(State("foobar", 3), 2, 3) == State("foar", 2)
  {
  }

  /** The specs the delete tests expect. */
  lemma DeleteResultSpecs()
    ensures RenderSpec(State("obar", 1)) == "o*bar"
    ensures RenderSpec(State("ba", 0)) == "*ba"
    ensures RenderSpec(State("foo", 2)) == "fo*o"
    ensures RenderSpec(State("foar", 2)) == "fo*ar"
  {
  }

  /** The delete test helper: build a buffer from spec, delete left..right,
      render the result. */
  method RunDelete(spec: string, left: int, right: int) returns (result: string)
    requires IsSpec(spec) && WithinLine((left, right), |ParseSpec(spec).line|)
    ensures result == RenderSpec(AfterDelete(ParseSpec(spec), left, right))
  {
    var b := FromSpec(spec);
    b.Delete(left, right);
    result := Spec(b);
  }

  /** The delete tests, run against buffers. */
  method DeleteTests() returns (results: seq<string>)
    ensures results == ["o*bar", "*ba", "fo*o", "fo*ar"]
  {
    DeleteTestStart();
    ShortDeleteTestStart();
    DeleteBeforeCursor();
    DeleteAfterCursor();
    DeleteFromCursorToEnd();
    DeleteAroundCursor();
    DeleteResultSpecs();
    var r0 := RunDelete("foo*bar", 0, 1);
    var r1 := RunDelete("*bar", 2, 2);
    var r2 := RunDelete("foo*bar", 3, 5);
    var r3 := RunDelete("foo*bar", 2, 3);
    results := [r0, r1, r2, r3];
  }

  /** Where the two walks end in lolaaa, for the cursors 3, 0 and 5. */
  lemma WholeRunWalks()
    ensures RunLeft("lolaaa", 3) == 0 && RunLeft("lolaaa", 0) == 0 && RunLeft("lolaaa", 5) == 0
    ensures RunRight("lolaaa", 4) == 5 && RunRight("lolaaa", 1) == 5 && RunRight("lolaaa", 6) == 5
  {
  }

  /** lol*aaa, *lolaaa, lolaa*a: the word is the whole line. */
  lemma ScanWholeRun()
    ensures SubwordTextObject("lolaaa", 3) == TextObject((0, 5), None)
    ensures SubwordTextObject("lolaaa", 0) == TextObject((0, 5), None)
    ensures SubwordTextObject("lolaaa", 5) == TextObject((0, 5), None)
  {
    WholeRunWalks();
  }

  /** Where the two walks end in " foo_bar ", for cursors on foo. */
  lemma FirstWordWalks()
    ensures RunLeft(" foo_bar ", 1) == 1 && RunLeft(" foo_bar ", 2) == 1 && RunLeft(" foo_bar ", 3) == 1
    ensures RunRight(" foo_bar ", 2) == 3 && RunRight(" foo_bar ", 3) == 3 && RunRight(" foo_bar ", 4) == 3
  {
  }

  /** ' *foo_bar ', ' f*oo_bar ', ' fo*o_bar ': the separator after the word is chosen. */
  lemma ScanSeparatorAfter()
    ensures SubwordTextObject(" foo_bar ", 1) == TextObject((1, 3), Some((4, 4)))
    ensures SubwordTextObject(" foo_bar ", 2) == TextObject((1, 3), Some((4, 4)))
    ensures SubwordTextObject(" foo_bar ", 3) == TextObject((1, 3), Some((4, 4)))
  {
    FirstWordWalks();
  }

  /** Where the two walks end in " foo_bar ", for cursors on bar. */
  lemma SecondWordWalks()
    ensures RunLeft(" foo_bar ", 5) == 5 && RunLeft(" foo_bar ", 6) == 5 && RunLeft(" foo_bar ", 7) == 5
    ensures RunRight(" foo_bar ", 6) == 7 && RunRight(" foo_bar ", 7) == 7 && RunRight(" foo_bar ", 8) == 7
  {
  }

  /** ' foo_*bar ', ' foo_b*ar ', ' foo_ba*r ': with none after, the separator before the word. */
  lemma ScanSeparatorBefore()
    ensures SubwordTextObject(" foo_bar ", 5) == TextObject((5, 7), Some((4, 4)))
    ensures SubwordTextObject(" foo_bar ", 6) == TextObject((5, 7), Some((4, 4)))
    ensures SubwordTextObject(" foo_bar ", 7) == TextObject((5, 7), Some((4, 4)))
  {
    SecondWordWalks();
  }

  /** Where the left walk ends in "(foo_bar_heh)", for the cursors 1, 7 and 11. */
  lemma ThreeWordsLeftWalks()
    ensures RunLeft("(foo_bar_heh)", 1) == 1
    ensures RunLeft("(foo_bar_heh)", 7) == 5
    ensures RunLeft("(foo_bar_heh)", 11) == 9
  {
  }

  /** Where the right walk ends in "(foo_bar_heh)", for the same cursors. */
  lemma ThreeWordsRightWalks()
    ensures RunRight("(foo_bar_heh)", 2) == 3
    ensures RunRight("(foo_bar_heh)", 8) == 7
    ensures RunRight("(foo_bar_heh)", 12) == 11
  {
  }

  /** (*foo_bar_heh), (foo_ba*r_heh), (foo_bar_he*h). */
  lemma ScanThreeWords()
    ensures SubwordTextObject("(foo_bar_heh)", 1) == TextObject((1, 3), Some((4, 4)))
    ensures SubwordTextObject("(foo_bar_heh)", 7) == TextObject((5, 7), Some((8, 8)))
    ensures SubwordTextObject("(foo_bar_heh)", 11) == TextObject((9, 11), Some((8, 8)))
  {
    ThreeWordsLeftWalks();
    ThreeWordsRightWalks();
  }

  /** Where the two walks end in FooBarLol, for the cursors 3, 4 and 5. */
  lemma CamelCaseWalks()
    ensures RunLeft("FooBarLol", 3) == 4 && RunLeft("FooBarLol", 4) == 4 && RunLeft("FooBarLol", 5) == 4
    ensures RunRight("FooBarLol", 4) == 5 && RunRight("FooBarLol", 5) == 5 && RunRight("FooBarLol", 6) == 5
  {
  }

  /** Foo*BarLol, FooB*arLol, FooBa*rLol: the capital joins the word. */
  lemma ScanCamelCase()
    ensures SubwordTextObject("FooBarLol", 3) == TextObject((3, 5), None)
    ensures SubwordTextObject("FooBarLol", 4) == TextObject((3, 5), None)
    ensures SubwordTextObject("FooBarLol", 5) == TextObject((3, 5), None)
  {
    CamelCaseWalks();
  }

  /** The buffer the editing tests start from. */
  function Foobar(): State {
    State("foobar", 0)
  }

  lemma EditTestStart()
    ensures ParseSpec("*foobar") == Foobar()
  {
  }

  /** Inner delete of a word without a separator: the cursor goes to the word's start. */
  lemma InnerWithoutSeparator()
    ensures DeleteInner(Foobar(), TextObject((1, 2), None)) == State("fbar", 1)
  {
  }

  /** Inner delete with the separator before the word: the cursor goes to the word's start. */
  lemma InnerSeparatorBefore()
    ensures DeleteInner(Foobar(), TextObject((2, 2), Some((1, 1)))) == State("fobar", 2)
  {
  }

  /** Inner delete with the separator after the word: the cursor ends on the separator. */
  lemma InnerSeparatorAfter()
    ensures DeleteInner(Foobar(), TextObject((1, 1), Some((2, 2)))) == State("fobar", 1)
  {
  }

  /** Inner delete of the last word: the cursor is clamped to the new end. */
  lemma InnerAtEnd()
    ensures DeleteInner(Foobar(), TextObject((4, 5), Some((3, 3)))) == State("foob", 3)
  {
  }

  /** Outer delete without a separator deletes as inner delete does. */
  lemma OuterWithoutSeparator()
    ensures DeleteOuter(Foobar(), TextObject((1, 2), None)) == State("fbar", 1)
  {
  }

  /** Outer delete with the separator before the word. */
  lemma OuterSeparatorBefore()
    ensures DeleteOuter(Foobar(), TextObject((2, 2), Some((1, 1)))) == State("fbar", 1)
  {
  }

  /** Outer delete with the separator after the word. */
  lemma OuterSeparatorAfter()
    ensures DeleteOuter(Foobar(), TextObject((1, 1), Some((2, 2)))) == State("fbar", 1)
  {
  }

  /** The specs the editing tests expect. */
  lemma EditResultSpecs()
    ensures RenderSpec(State("fbar", 1)) == "f*bar"
    ensures RenderSpec(State("fobar", 2)) == "fo*bar"
    ensures RenderSpec(State("fobar", 1)) == "f*obar"
    ensures RenderSpec(State("foob", 3)) == "foo*b"
  {
  }

  /** The inner-delete test helper: build a buffer from spec, run inner
      delete on it, render the result. */
  method RunDeleteInner(spec: string, t: TextObject) returns (result: string)
    requires IsSpec(spec) && Fits(t, |ParseSpec(spec).line|)
    ensures result == RenderSpec(DeleteInner(ParseSpec(spec), t))
  {
    var b := FromSpec(spec);
    DeleteInnerTextObject(t, b);
    result := Spec(b);
  }

  /** The outer-delete test helper. */
  method RunDeleteOuter(spec: string, t: TextObject) returns (result: string)
    requires IsSpec(spec) && Fits(t, |ParseSpec(spec).line|)
    ensures result == RenderSpec(DeleteOuter(ParseSpec(spec), t))
  {
    var b := FromSpec(spec);
    DeleteOuterTextObject(t, b);
    result := Spec(b);
  }

  /** The inner-delete tests, run against buffers. */
  method DeleteInnerTests() returns (results: seq<string>)
    ensures results == ["f*bar", "fo*bar", "f*obar", "foo*b"]
  {
    EditTestStart();
    InnerWithoutSeparator();
    InnerSeparatorBefore();
    InnerSeparatorAfter();
    InnerAtEnd();
    EditResultSpecs();
    var r0 := RunDeleteInner("*foobar", TextObject((1, 2), None));
    var r1 := RunDeleteInner("*foobar", TextObject((2, 2), Some((1, 1))));
    var r2 := RunDeleteInner("*foobar", TextObject((1, 1), Some((2, 2))));
    var r3 := RunDeleteInner("*foobar", TextObject((4, 5), Some((3, 3))));
    results := [r0, r1, r2, r3];
  }

  /** The outer-delete tests, run against buffers. */
  method DeleteOuterTests() returns (results: seq<string>)
    ensures results == ["f*bar", "f*bar", "f*bar"]
  {
    EditTestStart();
    OuterWithoutSeparator();
    OuterSeparatorBefore();
    OuterSeparatorAfter();
    EditResultSpecs();
    var r0 := RunDeleteOuter("*foobar", TextObject((1, 2), None));
    var r1 := RunDeleteOuter("*foobar", TextObject((2, 2), Some((1, 1))));
    var r2 := RunDeleteOuter("*foobar", TextObject((1, 1), Some((2, 2))));
    results := [r0, r1, r2];
  }
}
