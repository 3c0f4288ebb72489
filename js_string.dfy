/** The JavaScript string operations the map-note bootstrap applies to a
    map's note: `indexOf`, `replace` of the first occurrence, `split` on a
    separator and `match(/[^\r\n]+/g)`. */
module JsString {

  /** `p` occurs in `s` starting at index `i`. */
  predicate OccursAt(s: string, p: string, i: int) {
    0 <= i && i + |p| <= |s| && s[i..i + |p|] == p
  }

  /** `s.indexOf(p, i)`: the first occurrence of `p` at or after `i`, or -1. */
  function IndexFrom(s: string, p: string, i: nat): (r: int)
    requires i <= |s|
    ensures r == -1 || (i <= r && OccursAt(s, p, r))
    ensures forall j :: i <= j < (if r == -1 then |s| + 1 else r) ==> !OccursAt(s, p, j)
    decreases |s| - i
  {
    if OccursAt(s, p, i) then i
    else if i == |s| then -1
    else IndexFrom(s, p, i + 1)
  }

  /** `s.indexOf(p)` */
  function IndexOf(s: string, p: string): int {
    IndexFrom(s, p, 0)
  }

  /** `s.indexOf(p) >= 0` */
  predicate Contains(s: string, p: string) {
    IndexOf(s, p) >= 0
  }

  /** `s.replace(p, "")` with a string pattern: only the first occurrence goes. */
  function RemoveFirst(s: string, p: string): (r: string)
    ensures !Contains(s, p) ==> r == s
    ensures Contains(s, p) ==> |r| == |s| - |p|
    ensures Contains(s, p) ==> s == r[..IndexOf(s, p)] + p + r[IndexOf(s, p)..]
  {
    var i := IndexOf(s, p);
    if i < 0 then s else s[..i] + s[i + |p|..]
  }

  /** `s.split(sep)` for a one-character separator, generalised to a set of
      separator characters: every separator ends a piece, so empty pieces are
      kept and there is always at least one piece. */
  function Split(s: string, seps: set<char>): (r: seq<string>)
    ensures |r| >= 1
    ensures forall i, j :: 0 <= i < |r| && 0 <= j < |r[i]| ==> r[i][j] !in seps
    decreases |s|
  {
    if s == [] then [[]]
    else
      var tail := Split(s[1..], seps);
      if s[0] in seps then [[]] + tail else [[s[0]] + tail[0]] + tail[1..]
  }

  /** `pieces.join(sep)` */
  function Join(pieces: seq<string>, sep: char): string
    requires |pieces| >= 1
  {
    if |pieces| == 1 then pieces[0] else pieces[0] + [sep] + Join(pieces[1..], sep)
  }

  /** Splitting on a separator and joining again with it gives back the text. */
  lemma {:induction false} JoinSplit(s: string, sep: char)
    ensures Join(Split(s, {sep}), sep) == s
    decreases |s|
  {
    if s != [] {
      var tail := Split(s[1..], {sep});
      JoinSplit(s[1..], sep);
      if s[0] != sep && |tail| > 1 {
        assert Split(s, {sep})[1..] == tail[1..];
      }
    }
  }

  /** Splitting a join of separator-free pieces gives back the pieces. */
  lemma {:induction false} SplitJoin(pieces: seq<string>, sep: char)
    requires |pieces| >= 1
    requires forall i, j :: 0 <= i < |pieces| && 0 <= j < |pieces[i]| ==> pieces[i][j] != sep
    ensures Split(Join(pieces, sep), {sep}) == pieces
    decreases |pieces|
  {
    if |pieces| == 1 {
      SplitFree(pieces[0], [], sep);
      assert pieces[0] + [] == pieces[0];
    } else {
      SplitJoin(pieces[1..], sep);
      SplitFree(pieces[0], Join(pieces[1..], sep), sep);
      assert pieces[0] + [sep] + Join(pieces[1..], sep) == pieces[0] + ([sep] + Join(pieces[1..], sep));
      assert pieces == [pieces[0]] + pieces[1..];
    }
  }

  /** A separator-free prefix becomes the first piece; a separator right
      after it starts the pieces of the rest. */
  lemma {:induction false} SplitFree(a: string, b: string, sep: char)
    requires forall j :: 0 <= j < |a| ==> a[j] != sep
    ensures |Split(a + b, {sep})| == |Split(b, {sep})|
    ensures Split(a + b, {sep})[0] == a + Split(b, {sep})[0]
    ensures Split(a + b, {sep})[1..] == Split(b, {sep})[1..]
    ensures b == [] ==> Split(a, {sep}) == [a]
    ensures Split(a + ([sep] + b), {sep}) == [a] + Split(b, {sep})
    decreases |a|
  {
    if a == [] {
      assert [sep] + b != [] && ([sep] + b)[1..] == b;
      assert [] + b == b && [] + ([sep] + b) == [sep] + b;
      if b == [] {
        assert Split(a, {sep}) == [[]];
      }
    } else {
      SplitFree(a[1..], b, sep);
      assert (a + b)[1..] == a[1..] + b;
      assert (a + ([sep] + b))[1..] == a[1..] + ([sep] + b);
      assert [a[0]] + (a[1..] + Split(b, {sep})[0]) == a + Split(b, {sep})[0];
      assert [a[0]] + a[1..] == a;
      if b == [] {
        assert a + b == a;
      }
    }
  }

  predicate IsLineBreak(c: char) {
    c == '\r' || c == '\n'
  }

  /** The non-empty pieces of a split, in order. */
  function NonEmpty(pieces: seq<string>): (r: seq<string>)
    ensures forall i :: 0 <= i < |r| ==> r[i] != [] && r[i] in pieces
    ensures |r| <= |pieces|
  {
    if pieces == [] then []
    else if pieces[0] == [] then NonEmpty(pieces[1..])
    else [pieces[0]] + NonEmpty(pieces[1..])
  }

  /** `s.match(/[^\r\n]+/g)`: the maximal runs of characters that are not line
      breaks; an empty result stands for the `null` the match returns. */
  function Lines(s: string): (r: seq<string>)
    ensures forall i :: 0 <= i < |r| ==> r[i] != []
    ensures forall i, j :: 0 <= i < |r| && 0 <= j < |r[i]| ==> !IsLineBreak(r[i][j])
  {
    NonEmpty(Split(s, {'\r', '\n'}))
  }

  /** A note of a single line without line breaks is that one line. */
  lemma LinesOfOneLine(s: string)
    requires s != []
    requires forall j :: 0 <= j < |s| ==> !IsLineBreak(s[j])
    ensures Lines(s) == [s]
  {
    SplitOneLine(s);
  }

  lemma {:induction false} SplitOneLine(s: string)
    requires forall j :: 0 <= j < |s| ==> !IsLineBreak(s[j])
    ensures Split(s, {'\r', '\n'}) == [s]
    decreases |s|
  {
    if s != [] {
      SplitOneLine(s[1..]);
      assert [s[0]] + s[1..] == s;
    }
  }

  /** Every line break, `\r` or `\n`, ends a line: a note made of two parts
      joined by a line break has the lines of the first part followed by the
      lines of the second. A `\r\n` break is two breaks with an empty line
      between them, which is dropped. */
  lemma {:induction false} LinesOfTwoParts(a: string, br: char, b: string)
    requires IsLineBreak(br)
    requires forall j :: 0 <= j < |a| ==> !IsLineBreak(a[j])
    ensures Lines(a + [br] + b) == (if a == [] then [] else [a]) + Lines(b)
  {
    SplitFreeBreaks(a, br, b);
    var sb := Split(b, {'\r', '\n'});
    assert Split(a + [br] + b, {'\r', '\n'}) == [a] + sb;
    if a == [] {
      assert NonEmpty([a] + sb) == NonEmpty(sb);
    } else {
      assert ([a] + sb)[1..] == sb;
    }
  }

  lemma {:induction false} SplitFreeBreaks(a: string, br: char, b: string)
    requires IsLineBreak(br)
    requires forall j :: 0 <= j < |a| ==> !IsLineBreak(a[j])
    ensures Split(a + [br] + b, {'\r', '\n'}) == [a] + Split(b, {'\r', '\n'})
    decreases |a|
  {
    if a == [] {
      assert a + [br] + b == [br] + b;
      assert ([br] + b)[1..] == b;
    } else {
      SplitFreeBreaks(a[1..], br, b);
      assert (a + [br] + b)[1..] == a[1..] + [br] + b;
      assert [a[0]] + a[1..] == a;
    }
  }

  /** A Windows line end `\r\n` after a line gives just that line: the
      empty piece between the two breaks is no line. */
  lemma CrLfLines(a: string, b: string)
    requires a != [] && forall j :: 0 <= j < |a| ==> !IsLineBreak(a[j])
    ensures Lines(a + "\r\n" + b) == [a] + Lines(b)
  {
    assert a + "\r\n" + b == a + ['\r'] + ([] + ['\n'] + b);
    LinesOfTwoParts(a, '\r', [] + ['\n'] + b);
    LinesOfTwoParts([], '\n', b);
  }

  /** Joining keeps to the characters of the pieces and the separator. */
  lemma {:induction false} JoinAvoids(pieces: seq<string>, sep: char, bad: set<char>)
    requires |pieces| >= 1 && sep !in bad
    requires forall i, j :: 0 <= i < |pieces| && 0 <= j < |pieces[i]| ==> pieces[i][j] !in bad
    ensures forall j :: 0 <= j < |Join(pieces, sep)| ==> Join(pieces, sep)[j] !in bad
    decreases |pieces|
  {
    if |pieces| > 1 {
      JoinAvoids(pieces[1..], sep, bad);
      var t := Join(pieces[1..], sep);
      assert Join(pieces, sep) == pieces[0] + [sep] + t;
      assert forall j :: 0 <= j < |pieces[0]| ==> pieces[0][j] !in bad;
    }
  }

  /** A text lacking a character of the pattern does not contain the pattern. */
  lemma MissingCharNotContained(s: string, p: string, k: nat)
    requires k < |p|
    requires forall j :: 0 <= j < |s| ==> s[j] != p[k]
    ensures !Contains(s, p)
  {
    forall i | 0 <= i && i + |p| <= |s|
      ensures !OccursAt(s, p, i)
    {
      assert s[i..i + |p|][k] == s[i + k];
    }
  }
}
