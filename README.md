# vim-subword in Dafny

A model of vim-subword, a set of "subword" text objects for vim. A subword is a
maximal run of lowercase ASCII letters and digits in the current line. An
uppercase letter right before the run becomes part of it (camelCase), and
otherwise one uppercase letter or underscore next to the run is its separator.

The model has three parts:

- **Line buffer** (`line_buffer.dfy`, module `LineBuffer`). A line and a cursor
  offset. `delete(left, right)` removes an inclusive range and moves the cursor:
  - a cursor before the range stays where it is;
  - a cursor inside the range moves to `left`;
  - a cursor after the range moves back by the range's length.

  The pure rule is the function `AfterDelete` on a `State`. `Buffer` is the
  object. Its fields are `line`, `cursor` and `insertMode`, and its methods
  update them in place.
- **Subword scanner** (`scanner.dfy`, module `Scanner`). Two walks find the
  run of word characters around the cursor. The method `Walk` keeps the
  source's loop and is proved against the recursive functions `RunLeft` and
  `RunRight`. The camelCase and separator choice follows. `SubwordTextObject`
  states what the result is and proves it can always be handed to the editing
  operations.
- **Editing operations** (`editing.dfy`, module `Editing`). Each operation is
  a function on `State` (`DeleteInner`, `DeleteOuter`) and a method that runs
  the same steps on a `Buffer` (`DeleteInnerTextObject` and the others). The
  methods bound to the scanner model the `*_subword` commands.

`text_objects.dfy` (module `TextObjects`) holds ranges and text objects. It
also holds the reference `Kept(line, drop)`: the characters of the line whose
offsets are not in `drop`, in order. Every delete is measured against it.
`spec_notation.dfy` (module `SpecNotation`) models the test double's notation,
the line with one `*` at the cursor. `examples.dfy` (module `Examples`) states
the tests' expected outcomes.

The editor itself is replaced by the fields of `Buffer`. That means reading and
writing the current line and cursor, and the `startinsert` command. `Buffer`
clamps the cursor after a delete the way the test double does. It therefore
does what the tests expect, including the test that needs the clamp.

Two choices of the model follow the code rather than a tidier rule:

- A delete requires `0 <= left <= right + 1` and `right < |line|`, so it
  accepts the empty range `left == right + 1`. The two walks return the empty
  run `(cursor + 1, cursor)` when neither the cursor nor the next character is
  a word character (vim_subword.py:89-96). When the cursor is also not a
  capital, the camelCase rule does not apply and that empty run is the word
  range handed to the editing operations. On it the code's slicing deletes
  nothing. See `Scanner.EmptyWordBetweenNonWordCharacters` and
  `LineBuffer.DeleteEmptyRange`.
- The editor adapter's `delete` does not clamp the cursor (vim does that when
  a cursor is set past the end); only the test double clamps
  (test_vim_subword.py:24). `Buffer.Delete` clamps.

## Model

| member | source | states |
|---|---|---|
| `TextObjects.SourceGuard` | pylibs/vim_subword/vim_subword.py:122 | the overlap guard as written: neither end of the separator lies inside the word |
| `TextObjects.DisjointMeansNoSharedOffset` | pylibs/vim_subword/vim_subword.py:122 | the overlap test the model uses holds exactly when no offset belongs to both the word and the separator range |
| `TextObjects.SourceGuardExactForSingleChar` | pylibs/vim_subword/vim_subword.py:122 | for a one-character separator, the only kind the scanner produces, the guard as written is exactly that overlap test, whatever the word range (the empty one included) |
| `TextObjects.FitsPassesSourceGuard` | pylibs/vim_subword/vim_subword.py:122 | no text object the editing operations accept can fail the guard as written |
| `TextObjects.SourceGuardAdmitsEnclosingSeparator` | pylibs/vim_subword/vim_subword.py:141 | the guard as written accepts separator (1, 4) around word (2, 3), although offset 2 belongs to both |
| `LineBuffer.DeleteRange` | pylibs/vim_subword/vim_subword.py:58 | the new line is the old line without offsets left..right, in order, and shorter by the range's length |
| `LineBuffer.AdjustCursor` | pylibs/vim_subword/vim_subword.py:59-65 | the three-case cursor rule (also test_vim_subword.py:17-22); the cursor never moves right, and one at or after the range's start does not end before it |
| `LineBuffer.CursorFollowsCharacter` | pylibs/vim_subword/vim_subword.py:59-65 | a cursor outside the deleted range ends on the same character it was on |
| `LineBuffer.CursorInsideLandsAfterRange` | pylibs/vim_subword/vim_subword.py:62-63 | a cursor inside the deleted range moves to left, which now holds the character that followed the range |
| `LineBuffer.Clamp` | pylibs/vim_subword/test_vim_subword.py:24 | the clamped cursor lies in [0, n-1] on a non-empty line and is 0 on an empty one; an in-range cursor is unchanged, one past the end goes to n-1 |
| `LineBuffer.AfterDelete` | pylibs/vim_subword/test_vim_subword.py:16-24 | after a delete the line has exactly the characters outside the range, and the cursor is inside the new line (0 on an empty line) |
| `LineBuffer.DeleteEmptyRange` | pylibs/vim_subword/vim_subword.py:58-65 | deleting the empty range (k, k-1) changes nothing but the clamp |
| `LineBuffer.Buffer.constructor` | pylibs/vim_subword/vim_subword.py:30-37 | a buffer starts with the given line and cursor, not in insert mode |
| `LineBuffer.Buffer.Delete` | pylibs/vim_subword/test_vim_subword.py:12-24 | the buffer's line and cursor become those of AfterDelete; the mode is unchanged |
| `LineBuffer.Buffer.GoToInsertMode` | pylibs/vim_subword/vim_subword.py:70-71 | insert mode is on; line and cursor are unchanged |
| `SpecNotation.IsSpec` | pylibs/vim_subword/test_vim_subword.py:7 | a spec holds exactly one '*' |
| `SpecNotation.IndexOf` | pylibs/vim_subword/test_vim_subword.py:9 | the offset of the first occurrence: it holds the character, and no earlier offset does |
| `SpecNotation.ParseSpec` | pylibs/vim_subword/test_vim_subword.py:7-10 | a spec with exactly one '*' gives a line without '*', one character shorter, with the cursor inside it or at its end |
| `SpecNotation.RenderSpec` | pylibs/vim_subword/test_vim_subword.py:26-28 | the spec of a state is one character longer than the line, has '*' at the cursor, and without that '*' is the line |
| `SpecNotation.Spec` | pylibs/vim_subword/test_vim_subword.py:26-28 | the spec a buffer renders: its line with '*' at its cursor |
| `SpecNotation.RenderParse` | pylibs/vim_subword/test_vim_subword.py:26-34 | rendering what a spec parses to gives back the spec |
| `SpecNotation.ParseRender` | pylibs/vim_subword/test_vim_subword.py:26-28 | rendering a state whose line has no '*' gives a spec, and parsing that spec gives back the state |
| `SpecNotation.FromSpec` | pylibs/vim_subword/test_vim_subword.py:6-10 | the test double built from a spec holds the state the spec describes |
| `Scanner.IsWordChar` | pylibs/vim_subword/vim_subword.py:81 | a word character is an ASCII lowercase letter or digit |
| `Scanner.IsUpper` | pylibs/vim_subword/vim_subword.py:98 | the upper-case test of the camelCase rule, on ASCII 'A'..'Z' |
| `Scanner.IsSeparatorChar` | pylibs/vim_subword/vim_subword.py:82 | a separator character is an ASCII uppercase letter or underscore |
| `Scanner.WordCharsAreLowercaseAndDigits` | pylibs/vim_subword/vim_subword.py:81 | the scanner's list of word characters is exactly the ASCII lowercase letters and digits |
| `Scanner.SeparatorCharsAreUppercaseAndUnderscore` | pylibs/vim_subword/vim_subword.py:82 | the scanner's list of separator characters is exactly the ASCII uppercase letters and underscore |
| `Scanner.LowercaseList` | pylibs/vim_subword/vim_subword.py:81 | the first part of the word-character list holds exactly the letters 'a'..'z' |
| `Scanner.DigitList` | pylibs/vim_subword/vim_subword.py:81 | the rest of the word-character list holds exactly the digits '0'..'9' |
| `Scanner.UppercaseList` | pylibs/vim_subword/vim_subword.py:82 | the separator list, without its underscore, holds exactly the letters 'A'..'Z' |
| `Scanner.RunLeft` | pylibs/vim_subword/vim_subword.py:89-95 | walking left ends at the first offset of the run of word characters ending at i: every offset from it to i is a word character and the one before it is not |
| `Scanner.RunRight` | pylibs/vim_subword/vim_subword.py:89-96 | walking right ends at the last offset of the run starting at i: every offset from i to it is a word character and the one after it is not |
| `Scanner.Walk` | pylibs/vim_subword/vim_subword.py:83-94 | the walking loop returns RunLeft for stride -1 and RunRight for stride 1 |
| `Scanner.WalkedRun` | pylibs/vim_subword/vim_subword.py:95-96 | the two walks give a maximal run of word characters; it holds the cursor when the cursor is on a word character, and starts at cursor+1 otherwise |
| `Scanner.ChooseTextObject` | pylibs/vim_subword/vim_subword.py:98-104 | given the walked run, the result fits the line; the word ends where the run ends and starts at the run or one before it; a separator is one character, right after the run or right before it, and then the word is exactly the run |
| `Scanner.SubwordTextObject` | pylibs/vim_subword/vim_subword.py:98-104 | the result fits the line; a capital before the run joins the word, with no separator; otherwise the word is the run and the separator is the separator character after it if there is one, else the one before it, else none; a separator is a single separator character next to the word |
| `Scanner.GetSubwordTextObject` | pylibs/vim_subword/vim_subword.py:74-104 | the scanner as run (two walks, then the choice) returns SubwordTextObject |
| `Scanner.SubwordIsWordCharacters` | pylibs/vim_subword/vim_subword.py:95-99 | every offset of the word range is in the line and holds a word character, except that an absorbed capital may head it |
| `Scanner.EmptyWordBetweenNonWordCharacters` | pylibs/vim_subword/vim_subword.py:89-96 | when the cursor is on a non-word, non-capital character and so is the next one (or the line ends), the word range is the empty (cursor+1, cursor) |
| `Editing.DeleteInner` | pylibs/vim_subword/vim_subword.py:114-127 | inner delete on a state: the line shrinks by the word's length and the cursor stays inside a non-empty line |
| `Editing.DeleteOuter` | pylibs/vim_subword/vim_subword.py:135-148 | outer delete on a state: the line shrinks by the word's length plus the separator's, and the cursor stays inside a non-empty line |
| `Editing.DeleteInnerRemovesWord` | pylibs/vim_subword/vim_subword.py:115-127 | inner delete removes exactly the word's characters; without a separator after the word, the cursor ends (clamped) where the word started |
| `Editing.DeleteInnerKeepsSeparator` | pylibs/vim_subword/vim_subword.py:119-127 | inner delete leaves the separator's characters intact at their new offset; a separator after the word ends under the cursor |
| `Editing.DeleteRangeKeepsLater` | pylibs/vim_subword/vim_subword.py:119-127 | deleting a range leaves the characters of a later range intact, shifted back by the deleted length |
| `Editing.DeleteRangeKeepsEarlier` | pylibs/vim_subword/vim_subword.py:119-127 | deleting a range leaves the characters of an earlier range intact at the same offsets |
| `Editing.DeleteLaterRangeFirst` | pylibs/vim_subword/vim_subword.py:143-145 | deleting the later range and then the earlier one removes exactly the characters of both |
| `Editing.DeleteRangesCommute` | pylibs/vim_subword/vim_subword.py:143-148 | deleting the later range first equals deleting the earlier range first and then the later one shifted back by the earlier's length |
| `Editing.OuterCursorSeparatorAfter` | pylibs/vim_subword/vim_subword.py:142-145 | with the separator after the word, the two cursor adjustments and clamps leave the cursor where the separator started, less the word's length |
| `Editing.OuterCursorSeparatorBefore` | pylibs/vim_subword/vim_subword.py:142-148 | with the separator before the word, the cursor ends (clamped) where the separator started |
| `Editing.OuterStepsSeparatorAfter` | pylibs/vim_subword/vim_subword.py:143-145 | with the separator after the word, the two deletes remove exactly both ranges and leave the cursor (clamped) where the separator started, less the word's length |
| `Editing.OuterStepsSeparatorBefore` | pylibs/vim_subword/vim_subword.py:146-148 | with the separator before the word, the two deletes remove exactly both ranges and leave the cursor (clamped) where the separator started |
| `Editing.DeleteOuterRemovesBoth` | pylibs/vim_subword/vim_subword.py:129-148 | outer delete without a separator is inner delete; with one it removes exactly the characters of both ranges, the line shrinks by both lengths, and the cursor ends (clamped) where the separator was |
| `Editing.DeleteOuterExtendsInner` | pylibs/vim_subword/vim_subword.py:136-148 | outer delete is inner delete followed by deleting the separator where it then stands, so it removes strictly more |
| `Editing.OuterDeleteWithEnclosingSeparator` | pylibs/vim_subword/vim_subword.py:141-148 | as written, outer delete on "foobarbaz" with word (2, 3) and separator (1, 4) passes the guard and leaves "faz" |
| `Editing.EnclosingSeparatorRemovedAsIntended` | pylibs/vim_subword/vim_subword.py:141 | removing both ranges of that text object leaves "frbaz" |
| `Editing.DeleteInnerTextObject` | pylibs/vim_subword/vim_subword.py:107-127 | on a buffer: the new line and cursor are DeleteInner of the old ones; the mode is unchanged |
| `Editing.DeleteOuterTextObject` | pylibs/vim_subword/vim_subword.py:129-148 | on a buffer: the new line and cursor are DeleteOuter of the old ones; the mode is unchanged |
| `Editing.ChangeInnerTextObject` | pylibs/vim_subword/vim_subword.py:150-157 | the same deletion as inner delete, then insert mode is on |
| `Editing.ChangeOuterTextObject` | pylibs/vim_subword/vim_subword.py:159-166 | the same deletion as outer delete, then insert mode is on |
| `Editing.DeleteInnerSubword` | pylibs/vim_subword/vim_subword.py:169-170 | inner delete of the subword the scanner finds at the buffer's cursor |
| `Editing.DeleteOuterSubword` | pylibs/vim_subword/vim_subword.py:171-172 | outer delete of the subword the scanner finds at the buffer's cursor |
| `Editing.ChangeInnerSubword` | pylibs/vim_subword/vim_subword.py:173-174 | inner change of the subword at the cursor: the deletion, then insert mode |
| `Editing.ChangeOuterSubword` | pylibs/vim_subword/vim_subword.py:175-176 | outer change of the subword at the cursor: the deletion, then insert mode |
| `Examples.DeleteTestStart` | pylibs/vim_subword/test_vim_subword.py:42 | "foo*bar" is the line foobar with the cursor at 3 |
| `Examples.ShortDeleteTestStart` | pylibs/vim_subword/test_vim_subword.py:43 | "*bar" is the line bar with the cursor at 0 |
| `Examples.DeleteBeforeCursor` | pylibs/vim_subword/test_vim_subword.py:42 | deleting (0,1) before the cursor at 3 in foobar leaves obar with the cursor moved back to 1 |
| `Examples.DeleteAfterCursor` | pylibs/vim_subword/test_vim_subword.py:43 | deleting (2,2) after the cursor at 0 in bar leaves ba with the cursor at 0 |
| `Examples.DeleteFromCursorToEnd` | pylibs/vim_subword/test_vim_subword.py:44 | deleting (3,5) from the cursor at 3 in foobar leaves foo with the cursor clamped to 2 |
| `Examples.DeleteAroundCursor` | pylibs/vim_subword/test_vim_subword.py:45 | deleting (2,3) around the cursor at 3 in foobar leaves foar with the cursor at 2 |
| `Examples.DeleteResultSpecs` | pylibs/vim_subword/test_vim_subword.py:42-45 | those four states render as o*bar, *ba, fo*o and fo*ar |
| `Examples.WholeRunWalks` | pylibs/vim_subword/test_vim_subword.py:68-70 | in lolaaa both walks reach the ends of the line from each tested cursor |
| `Examples.FirstWordWalks` | pylibs/vim_subword/test_vim_subword.py:71-73 | in " foo_bar " the walks from a cursor on foo stop at offsets 1 and 3 |
| `Examples.SecondWordWalks` | pylibs/vim_subword/test_vim_subword.py:74-76 | in " foo_bar " the walks from a cursor on bar stop at offsets 5 and 7 |
| `Examples.ThreeWordsLeftWalks` | pylibs/vim_subword/test_vim_subword.py:78-80 | in "(foo_bar_heh)" the left walk from 1, 7 and 11 stops at 1, 5 and 9 |
| `Examples.ThreeWordsRightWalks` | pylibs/vim_subword/test_vim_subword.py:78-80 | in "(foo_bar_heh)" the right walk from 2, 8 and 12 stops at 3, 7 and 11 |
| `Examples.CamelCaseWalks` | pylibs/vim_subword/test_vim_subword.py:82-84 | in FooBarLol the walks from a cursor on Bar stop at offsets 4 and 5, leaving the capital B outside the run |
| `Examples.ScanWholeRun` | pylibs/vim_subword/test_vim_subword.py:68-70 | anywhere in lolaaa the word is the whole line, with no separator |
| `Examples.ScanSeparatorAfter` | pylibs/vim_subword/test_vim_subword.py:71-73 | on foo in " foo_bar " the word is foo and the separator the '_' after it |
| `Examples.ScanSeparatorBefore` | pylibs/vim_subword/test_vim_subword.py:74-76 | on bar in " foo_bar " the word is bar and the separator the '_' before it |
| `Examples.ScanThreeWords` | pylibs/vim_subword/test_vim_subword.py:78-80 | in "(foo_bar_heh)" each word gets the '_' after it, and the last one the '_' before it |
| `Examples.ScanCamelCase` | pylibs/vim_subword/test_vim_subword.py:82-84 | on Bar in FooBarLol the word is Bar, capital included, with no separator |
| `Examples.EditTestStart` | pylibs/vim_subword/test_vim_subword.py:95 | "*foobar" is the line foobar with the cursor at 0 |
| `Examples.InnerWithoutSeparator` | pylibs/vim_subword/test_vim_subword.py:95 | inner delete of word (1,2) without a separator on foobar gives fbar with the cursor at 1 |
| `Examples.InnerSeparatorBefore` | pylibs/vim_subword/test_vim_subword.py:96 | inner delete of word (2,2) with separator (1,1) gives fobar with the cursor at 2 |
| `Examples.InnerSeparatorAfter` | pylibs/vim_subword/test_vim_subword.py:97 | inner delete of word (1,1) with separator (2,2) gives fobar with the cursor at 1, on the separator |
| `Examples.InnerAtEnd` | pylibs/vim_subword/test_vim_subword.py:98 | inner delete of word (4,5) with separator (3,3) gives foob with the cursor clamped to 3 |
| `Examples.OuterWithoutSeparator` | pylibs/vim_subword/test_vim_subword.py:106 | outer delete of word (1,2) without a separator gives fbar with the cursor at 1 |
| `Examples.OuterSeparatorBefore` | pylibs/vim_subword/test_vim_subword.py:107 | outer delete of word (2,2) with separator (1,1) gives fbar with the cursor at 1 |
| `Examples.OuterSeparatorAfter` | pylibs/vim_subword/test_vim_subword.py:108 | outer delete of word (1,1) with separator (2,2) gives fbar with the cursor at 1 |
| `Examples.EditResultSpecs` | pylibs/vim_subword/test_vim_subword.py:95-108 | the resulting states render as f*bar, fo*bar, f*obar and foo*b |
| `Examples.RunDelete` | pylibs/vim_subword/test_vim_subword.py:37-40 | building a buffer from a spec, deleting and rendering gives the spec of AfterDelete |
| `Examples.DeleteTests` | pylibs/vim_subword/test_vim_subword.py:42-45 | the delete tests, run on buffers, give o*bar, *ba, fo*o, fo*ar |
| `Examples.RunDeleteInner` | pylibs/vim_subword/test_vim_subword.py:90-93 | building a buffer from a spec, running inner delete and rendering gives the spec of DeleteInner |
| `Examples.RunDeleteOuter` | pylibs/vim_subword/test_vim_subword.py:101-104 | building a buffer from a spec, running outer delete and rendering gives the spec of DeleteOuter |
| `Examples.DeleteInnerTests` | pylibs/vim_subword/test_vim_subword.py:95-98 | the inner-delete tests, run on buffers, give f*bar, fo*bar, f*obar, foo*b |
| `Examples.DeleteOuterTests` | pylibs/vim_subword/test_vim_subword.py:106-108 | the outer-delete tests, run on buffers, give f*bar three times |

## Left out

- Access to the editor (vim_subword.py:30-51): the `vim` module, the `line` and `linepos` properties over `vim.current`, and `vim.command('startinsert')`. These are a foreign API. They become the fields `line`, `cursor` and `insertMode` of `Buffer`.
- The editor's own cursor clamping. The editor adapter's `delete` leaves a cursor past the end for vim to clamp. `Buffer.Delete` clamps as the test double does, so one class serves both.
- Default construction of the editor adapter when no buffer is passed (vim_subword.py:79,109,130,151,160). The model always takes a `Buffer`.
- The `text_object_factory` parameter in general, and `assert text_object or text_object_factory`. The operations take a `TextObject`, and the only factory there is, the subword scanner, is bound directly in the four `*Subword` methods. This stands in for the `functools.partial` bindings. With Dafny types the truthiness assert cannot fail.
- The `type(...) is int` asserts (vim_subword.py:55-56, test_vim_subword.py:13-14). Dafny's types make them hold.
- Unicode behaviour of `str.isupper()`: only ASCII 'A'..'Z' count as uppercase.
- Python slicing outside the line. `delete` requires `0 <= left <= right + 1` and `right < |line|`, the model's own bounds for a delete (they admit the scanner's empty word range). Negative or reversed indices, which Python would slice silently, are not modelled.
- The scanner on an empty line. The code's first test after the walks would index `line[0]` and fail, so the scanner requires a non-empty line and a cursor inside it.
- Separator ranges must be non-empty (`Fits`). The scanner only produces one-character ones.
- `spec` for a cursor outside `[0, |line|]`. Python would slice it anyway. No buffer built from a spec and changed by these operations reaches that case.
- The bracket rendering helper and the `unittest` scaffolding of the tests (test_vim_subword.py:48-66). The scanner tests' expected brackets are stated directly as ranges in `Examples`.

## Findings

| source | as written | input that shows it | evidently intended | confidence | as-written member | corrected member |
|---|---|---|---|---|---|---|
| pylibs/vim_subword/vim_subword.py:141 | the overlap guard `not (wl <= sl <= wr or wl <= sr <= wr)` looks only at the separator's two ends, so a separator enclosing the word passes, and outer delete then deletes the word first and the separator at stale offsets | line "foobarbaz", word (2, 3), separator (1, 4): the guard passes and the result is "faz" | refuse ranges that share an offset; removing both ranges would give "frbaz" | low: the scanner only produces one-character separators, for which the guard is exact whatever the word range (`TextObjects.SourceGuardExactForSingleChar`); not executed | `Editing.OuterDeleteWithEnclosingSeparator` | `TextObjects.DisjointMeansNoSharedOffset` (the `Disjoint` test that `Fits` uses, under which `Editing.DeleteOuterRemovesBoth` proves the intended result) |
