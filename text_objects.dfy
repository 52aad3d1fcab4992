/** Ranges and text objects: the values the subword scanner produces and the
    editing operations consume. A text object is a word range plus an optional
    separator range beside it, each an inclusive pair of character offsets into
    one line. */
module TextObjects {

  datatype Option<T> = None | Some(value: T)

  /** An inclusive range (left, right) of character offsets in one line.
      (k + 1, k) is the empty range just before offset k + 1. */
  type Range = (int, int)

  /** What the scanner returns: the word range and, when there is one, the
      separator range next to it. */
  datatype TextObject = TextObject(word: Range, sep: Option<Range>)

  /** Number of characters a range covers (0 for an empty range). */
  function Length(r: Range): int {
    r.1 - r.0 + 1
  }

  predicate InRange(k: int, r: Range) {
    r.0 <= k <= r.1
  }

  /** The offsets a range covers. The bounds make the set finite; InRange
      is the term its quantifier is triggered on. */
  ghost function Indices(r: Range): set<int> {
    set k | r.0 <= k <= r.1 && InRange(k, r)
  }

  /** A range a line of n characters can delete: inside the line, possibly empty. */
  predicate WithinLine(r: Range, n: int) {
    0 <= r.0 && r.0 <= r.1 + 1 && r.1 < n
  }

  /** No offset belongs to both ranges (see DisjointMeansNoSharedOffset). */
  predicate Disjoint(a: Range, b: Range) {
    a.1 < a.0 || b.1 < b.0 || a.1 < b.0 || b.1 < a.0
  }

  /** The overlap guard the editing operations assert, as written: neither end
      of the separator lies inside the word. */
  predicate SourceGuard(w: Range, s: Range) {
    !(w.0 <= s.0 <= w.1 || w.0 <= s.1 <= w.1)
  }

  /** A text object the editing operations accept on a line of n characters:
      the word range inside the line, and a non-empty separator range inside
      the line that does not overlap the word. */
  predicate Fits(t: TextObject, n: int) {
    WithinLine(t.word, n) &&
    match t.sep
    case None => true
    case Some(s) => 0 <= s.0 <= s.1 < n && Disjoint(t.word, s)
  }

  lemma DisjointMeansNoSharedOffset(a: Range, b: Range)
    ensures Disjoint(a, b) <==> Indices(a) * Indices(b) == {}
  {
    if !Disjoint(a, b) {
      var k := if a.0 < b.0 then b.0 else a.0;
      assert k in Indices(a) * Indices(b);
    }
  }

  /** For one-character separators, the only kind the subword scanner
      produces, the guard as written is exactly disjointness, whatever the
      word range (the scanner's empty one included). */
  lemma SourceGuardExactForSingleChar(w: Range, k: int)
    ensures SourceGuard(w, (k, k)) <==> Disjoint(w, (k, k))
  {
  }

  /** No text object the editing operations accept can fail the guard as
      written. */
  lemma FitsPassesSourceGuard(t: TextObject, n: int)
    requires Fits(t, n) && t.sep.Some?
    ensures SourceGuard(t.word, t.sep.value)
  {
  }

  /** The guard as written lets through a separator that encloses the word. */
  lemma SourceGuardAdmitsEnclosingSeparator()
    ensures SourceGuard((2, 3), (1, 4))
    ensures !Disjoint((2, 3), (1, 4))
    ensures 2 in Indices((2, 3)) * Indices((1, 4))
  {
  }

  /** The characters of line whose offsets are not in drop, in their order:
      the reference against which every delete is measured. */
  ghost function Kept(line: seq<char>, drop: set<int>): seq<char> {
    KeptFrom(line, drop, 0)
  }

  ghost function KeptFrom(line: seq<char>, drop: set<int>, i: nat): seq<char>
    requires i <= |line|
    decreases |line| - i
  {
    if i == |line| then []
    else (if i in drop then [] else [line[i]]) + KeptFrom(line, drop, i + 1)
  }

  lemma {:induction false} KeptSkip(line: seq<char>, drop: set<int>, i: nat, j: nat)
    requires i <= j <= |line|
    requires forall k :: i <= k < j ==> k in drop
    ensures KeptFrom(line, drop, i) == KeptFrom(line, drop, j)
    decreases j - i
  {
    if i < j {
      KeptSkip(line, drop, i + 1, j);
    }
  }

  lemma {:induction false} KeptCopy(line: seq<char>, drop: set<int>, i: nat, j: nat)
    requires i <= j <= |line|
    requires forall k :: i <= k < j ==> k !in drop
    ensures KeptFrom(line, drop, i) == line[i..j] + KeptFrom(line, drop, j)
    decreases j - i
  {
    if i < j {
      KeptCopy(line, drop, i + 1, j);
      calc {
        KeptFrom(line, drop, i);
        [line[i]] + KeptFrom(line, drop, i + 1);
        [line[i]] + (line[i + 1..j] + KeptFrom(line, drop, j));
        { assert line[i..j] == [line[i]] + line[i + 1..j]; }
        line[i..j] + KeptFrom(line, drop, j);
      }
    }
  }

  /** From offset i on, with only the offsets of r dropped in between, the
      kept characters are the ones before r and the ones after it. */
  lemma KeptAround(line: seq<char>, drop: set<int>, i: nat, r: Range)
    requires i <= r.0 <= r.1 + 1 <= |line|
    requires forall k :: i <= k < r.0 ==> k !in drop
    requires forall k :: r.0 <= k <= r.1 ==> k in drop
    requires forall k :: r.1 < k < |line| ==> k !in drop
    ensures KeptFrom(line, drop, i) == line[i..r.0] + line[r.1 + 1..]
  {
    KeptCopy(line, drop, i, r.0);
    KeptSkip(line, drop, r.0, r.1 + 1);
    KeptCopy(line, drop, r.1 + 1, |line|);
    assert line[r.1 + 1..|line|] + KeptFrom(line, drop, |line|) == line[r.1 + 1..];
  }

  /** Removing one range keeps the prefix before it and the suffix after it. */
  lemma KeptOne(line: seq<char>, r: Range)
    requires WithinLine(r, |line|)
    ensures Kept(line, Indices(r)) == line[..r.0] + line[r.1 + 1..]
  {
    KeptAround(line, Indices(r), 0, r);
    assert line[0..r.0] == line[..r.0];
  }

  /** Removing two ranges, a before b, keeps the three pieces around them. */
  lemma KeptTwo(line: seq<char>, a: Range, b: Range)
    requires WithinLine(a, |line|) && WithinLine(b, |line|)
    requires a.1 < b.0
    ensures Kept(line, Indices(a) + Indices(b)) == line[..a.0] + line[a.1 + 1..b.0] + line[b.1 + 1..]
  {
    var d := Indices(a) + Indices(b);
    assert KeptFrom(line, d, 0) == line[..a.0] + KeptFrom(line, d, a.1 + 1) by {
      KeptCopy(line, d, 0, a.0);
      KeptSkip(line, d, a.0, a.1 + 1);
      assert line[0..a.0] == line[..a.0];
    }
    assert KeptFrom(line, d, a.1 + 1) == line[a.1 + 1..b.0] + line[b.1 + 1..] by {
      KeptAround(line, d, a.1 + 1, b);
    }
  }

  /** An empty range removes nothing. */
  lemma KeptNone(line: seq<char>, r: Range, more: set<int>)
    requires r.1 < r.0
    ensures Kept(line, Indices(r) + more) == Kept(line, more)
  {
    assert Indices(r) + more == more;
  }
}
