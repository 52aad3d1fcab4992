/** The notation the test double is built from and rendered to: the line with
    a single '*' written at the cursor offset ("foo*bar" is the line "foobar"
    with the cursor at 3). */
module SpecNotation {
  import opened LineBuffer

  /** Offset of the first occurrence of c in s. */
  function IndexOf(s: string, c: char): (i: nat)
    requires c in s
    ensures i < |s| && s[i] == c && c !in s[..i]
  {
    if s[0] == c then 0
    else
      assert s[1..][..IndexOf(s[1..], c)] == s[1..IndexOf(s[1..], c) + 1];
      1 + IndexOf(s[1..], c)
  }

  /** A spec marks exactly one cursor. */
  predicate IsSpec(spec: string) {
    multiset(spec)['*'] == 1
  }

  /** The buffer state a spec describes: the cursor at the offset of '*', the
      line the spec with that '*' taken out. */
  function ParseSpec(spec: string): (s: State)
    requires IsSpec(spec)
    ensures '*' !in s.line
    ensures 0 <= s.cursor <= |s.line| == |spec| - 1
  {
    var i := IndexOf(spec, '*');
    assert spec == spec[..i] + [spec[i]] + spec[i + 1..];
    assert multiset(spec) == multiset(spec[..i]) + multiset([spec[i]]) + multiset(spec[i + 1..]);
    State(spec[..i] + spec[i + 1..], i)
  }

  /** The spec of a state: '*' written in front of the character at the cursor. */
  function RenderSpec(s: State): (r: string)
    requires 0 <= s.cursor <= |s.line|
    ensures |r| == |s.line| + 1 && r[s.cursor] == '*'
    ensures r[..s.cursor] + r[s.cursor + 1..] == s.line
  {
    s.line[..s.cursor] + "*" + s.line[s.cursor..]
  }

  lemma RenderParse(spec: string)
    requires IsSpec(spec)
    ensures RenderSpec(ParseSpec(spec)) == spec
  {
    var i := IndexOf(spec, '*');
    var line := spec[..i] + spec[i + 1..];
    assert line[..i] == spec[..i];
    assert line[i..] == spec[i + 1..];
    assert spec == spec[..i] + "*" + spec[i + 1..];
  }

  lemma {:induction false} ParseRender(s: State)
    requires 0 <= s.cursor <= |s.line| && '*' !in s.line
    ensures IsSpec(RenderSpec(s))
    ensures ParseSpec(RenderSpec(s)) == s
  {
    var spec := RenderSpec(s);
    var c := s.cursor;
    assert s.line == s.line[..c] + s.line[c..];
    assert '*' !in s.line[..c] && '*' !in s.line[c..];
    assert multiset(spec) == multiset(s.line[..c]) + multiset("*") + multiset(s.line[c..]);
    var i := IndexOf(spec, '*');
    assert spec[c] == '*';
    assert i == c;
    assert spec[..c] == s.line[..c];
    assert spec[c + 1..] == s.line[c..];
  }

  /** The test double built from a spec. */
  method FromSpec(spec: string) returns (b: Buffer)
    requires IsSpec(spec)
    ensures fresh(b)
    ensures b.View() == ParseSpec(spec) && !b.insertMode
  {
    var i := IndexOf(spec, '*');
    b := new Buffer(spec[..i] + spec[i + 1..], i);
  }

  /** The spec a buffer renders. */
  function Spec(b: Buffer): (r: string)
    reads b
    requires 0 <= b.cursor <= |b.line|
    ensures |r| == |b.line| + 1 && r[b.cursor] == '*'
  {
    RenderSpec(b.View())
  }
}
