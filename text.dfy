/**
 * The character classes and the .NET string operations that the function
 * scanner relies on: the regex classes `\w` and `\s`, `String.Trim`,
 * `String.Split(',')` and `String.IsNullOrWhiteSpace`.
 */
module Text {

  /** `\w`, restricted to ASCII: letters, digits and the underscore. */
  predicate IsWordChar(c: char) {
    ('a' <= c <= 'z') || ('A' <= c <= 'Z') || ('0' <= c <= '9') || c == '_'
  }

  /**
   * `\s` and `char.IsWhiteSpace`, restricted to ASCII: the space, and tab,
   * line feed, vertical tab, form feed and carriage return.
   */
  predicate IsSpace(c: char) {
    c == ' ' || ('\t' <= c <= '\r')
  }

  /** The only character `Trim(' ')` removes. */
  predicate IsBlankSpace(c: char) {
    c == ' '
  }

  /** The character classes the scanner takes runs of. */
  datatype CharClass = WordChars | Whitespace | Blanks | NotCloseParen

  predicate InClass(c: char, k: CharClass) {
    match k
    case WordChars => IsWordChar(c)
    case Whitespace => IsSpace(c)
    case Blanks => IsBlankSpace(c)
    case NotCloseParen => c != ')'
  }

  /** The end of the longest run of characters satisfying `p` that starts at `i`. */
  function RunEnd(s: string, i: nat, p: CharClass): (j: nat)
    requires i <= |s|
    ensures i <= j <= |s|
    ensures j == |s| || !InClass(s[j], p)
    decreases |s| - i
  {
    if i < |s| && InClass(s[i], p) then RunEnd(s, i + 1, p) else i
  }

  /** Every character of the run is in the class. */
  lemma {:induction false} RunEndAll(s: string, i: nat, p: CharClass)
    requires i <= |s|
    ensures forall m :: i <= m < RunEnd(s, i, p) ==> InClass(s[m], p)
    decreases |s| - i
  {
    if i < |s| && InClass(s[i], p) {
      RunEndAll(s, i + 1, p);
    }
  }

  /** The start of the longest run of characters satisfying `p` that ends at `j`, not going below `lo`. */
  function RunStart(s: string, lo: nat, j: nat, p: CharClass): (i: nat)
    requires lo <= j <= |s|
    ensures lo <= i <= j
    ensures i == lo || !InClass(s[i - 1], p)
    decreases j - lo
  {
    if lo < j && InClass(s[j - 1], p) then RunStart(s, lo, j - 1, p) else j
  }

  /** Every character of the run is in the class. */
  lemma {:induction false} RunStartAll(s: string, lo: nat, j: nat, p: CharClass)
    requires lo <= j <= |s|
    ensures forall m :: RunStart(s, lo, j, p) <= m < j ==> InClass(s[m], p)
    decreases j - lo
  {
    if lo < j && InClass(s[j - 1], p) {
      RunStartAll(s, lo, j - 1, p);
    }
  }

  /** A run read in a suffix of the text stops where the same run read in the whole text stops. */
  lemma {:induction false} RunEndShift(s: string, j: nat, i: nat, p: CharClass)
    requires j + i <= |s|
    ensures RunEnd(s[j..], i, p) + j == RunEnd(s, j + i, p)
    decreases |s| - j - i
  {
    if j + i < |s| {
      assert s[j..][i] == s[j + i];
      if InClass(s[j + i], p) {
        RunEndShift(s, j, i + 1, p);
      }
    }
  }

  /** A run is determined by the offset where it stops. */
  lemma {:induction false} RunEndIs(s: string, i: nat, j: nat, p: CharClass)
    requires i <= j <= |s|
    requires forall m :: i <= m < j ==> InClass(s[m], p)
    requires j == |s| || !InClass(s[j], p)
    ensures RunEnd(s, i, p) == j
    decreases j - i
  {
    if i < j {
      RunEndIs(s, i + 1, j, p);
    }
  }

  /** A backward run is determined by the offset where it starts. */
  lemma {:induction false} RunStartIs(s: string, lo: nat, i: nat, j: nat, p: CharClass)
    requires lo <= i <= j <= |s|
    requires forall m :: i <= m < j ==> InClass(s[m], p)
    requires i == lo || !InClass(s[i - 1], p)
    ensures RunStart(s, lo, j, p) == i
    decreases j - i
  {
    if i < j {
      RunStartIs(s, lo, i, j - 1, p);
    }
  }

  /** `String.IsNullOrWhiteSpace` on a non-null string: every character is whitespace. */
  predicate IsBlank(s: string) {
    RunEnd(s, 0, Whitespace) == |s|
  }

  /** `String.Trim(chars)`: the text left once the leading and then the trailing characters satisfying `drop` are removed. */
  function Trim(s: string, drop: CharClass): (r: string)
    ensures |r| <= |s|
  {
    var i := RunEnd(s, 0, drop);
    s[i .. RunStart(s, i, |s|, drop)]
  }

  /** What is left by Trim: a piece of the text that neither starts nor ends with a droppable character, after a run of them and before another. */
  lemma TrimShape(s: string, drop: CharClass)
    ensures var r := Trim(s, drop);
              r == [] || (!InClass(r[0], drop) && !InClass(r[|r| - 1], drop))
    ensures Trim(s, drop) == [] <==> forall m :: 0 <= m < |s| ==> InClass(s[m], drop)
    ensures var i, r := RunEnd(s, 0, drop), Trim(s, drop);
              i + |r| <= |s| && r == s[i .. i + |r|] && forall m :: i + |r| <= m < |s| ==> InClass(s[m], drop)
  {
    var i := RunEnd(s, 0, drop);
    var j := RunStart(s, i, |s|, drop);
    assert Trim(s, drop) == s[i .. j];
    RunEndAll(s, 0, drop);
    RunStartAll(s, i, |s|, drop);
    if i < j {
      assert s[i .. j][0] == s[i] && s[i .. j][j - i - 1] == s[j - 1];
    }
  }

  /** Text that neither starts nor ends with a droppable character is left as it is. */
  lemma TrimKeeps(s: string, drop: CharClass)
    requires s == [] || (!InClass(s[0], drop) && !InClass(s[|s| - 1], drop))
    ensures Trim(s, drop) == s
  {
    if s != [] {
      RunEndIs(s, 0, 0, drop);
      TrimShape(s, drop);
    }
  }

  /** Text that neither starts nor ends with a droppable character, then droppable characters only: Trim gives that text back. */
  lemma TrimAround(x: string, tail: string, drop: CharClass)
    requires x != [] && !InClass(x[0], drop) && !InClass(x[|x| - 1], drop)
    requires forall m :: 0 <= m < |tail| ==> InClass(tail[m], drop)
    ensures Trim(x + tail, drop) == x
  {
    var s := x + tail;
    assert s[0] == x[0];
    RunEndIs(s, 0, 0, drop);
    assert s[|x| - 1] == x[|x| - 1];
    assert forall m :: |x| <= m < |s| ==> s[m] == tail[m - |x|];
    RunStartIs(s, 0, |x|, |s|, drop);
    assert s[0 .. |x|] == x;
  }

  /** `String.Split(sep)`: the pieces between the occurrences of `sep`; there is always at least one. */
  function Split(s: string, sep: char): (pieces: seq<string>)
    ensures |pieces| >= 1
    decreases |s|
  {
    if s == [] then [""]
    else
      var rest := Split(s[1..], sep);
      if s[0] == sep then [""] + rest
      else [[s[0]] + rest[0]] + rest[1..]
  }

  /** The pieces hold no separator, and joining them with it gives the text back. */
  lemma {:induction false} SplitShape(s: string, sep: char)
    ensures forall i :: 0 <= i < |Split(s, sep)| ==> sep !in Split(s, sep)[i]
    ensures Join(Split(s, sep), sep) == s
    decreases |s|
  {
    if s != [] {
      var rest := Split(s[1..], sep);
      SplitShape(s[1..], sep);
      if s[0] == sep {
        assert Split(s, sep) == [""] + rest;
        assert s == [sep] + s[1..];
      } else {
        var pieces := [[s[0]] + rest[0]] + rest[1..];
        assert Split(s, sep) == pieces;
        JoinFirst(rest, sep, s[0]);
        assert s == [s[0]] + s[1..];
        assert forall i :: 1 <= i < |pieces| ==> pieces[i] == rest[i];
      }
    }
  }

  /** The pieces, with `sep` between each two consecutive ones. */
  function Join(pieces: seq<string>, sep: char): string
    decreases |pieces|
  {
    if pieces == [] then ""
    else if |pieces| == 1 then pieces[0]
    else pieces[0] + [sep] + Join(pieces[1..], sep)
  }

  lemma JoinFirst(pieces: seq<string>, sep: char, c: char)
    requires |pieces| >= 1
    ensures Join([[c] + pieces[0]] + pieces[1..], sep) == [c] + Join(pieces, sep)
  {
    var q := [[c] + pieces[0]] + pieces[1..];
    assert q[1..] == pieces[1..];
  }

  lemma {:induction false} JoinAppend(p: seq<string>, q: seq<string>, sep: char)
    requires |p| >= 1 && |q| >= 1
    ensures Join(p + q, sep) == Join(p, sep) + [sep] + Join(q, sep)
    decreases |p|
  {
    if |p| == 1 {
      assert (p + q)[1..] == q;
    } else {
      assert (p + q)[1..] == p[1..] + q;
      JoinAppend(p[1..], q, sep);
    }
  }

  /** Splitting undoes joining pieces that do not contain the separator. */
  lemma {:induction false} SplitJoin(pieces: seq<string>, sep: char)
    requires |pieces| >= 1
    requires forall i :: 0 <= i < |pieces| ==> sep !in pieces[i]
    ensures Split(Join(pieces, sep), sep) == pieces
    decreases |pieces|, |pieces[0]|
  {
    var s := Join(pieces, sep);
    if pieces[0] == [] {
      if |pieces| == 1 {
      } else {
        assert s == [sep] + Join(pieces[1..], sep);
        assert s[1..] == Join(pieces[1..], sep);
        SplitJoin(pieces[1..], sep);
        assert pieces == [""] + pieces[1..];
      }
    } else {
      var tail := [pieces[0][1..]] + pieces[1..];
      assert pieces[0] == [pieces[0][0]] + tail[0];
      assert tail[1..] == pieces[1..];
      assert pieces == [[pieces[0][0]] + tail[0]] + tail[1..];
      JoinFirst(tail, sep, pieces[0][0]);
      assert s == [pieces[0][0]] + Join(tail, sep);
      assert s[1..] == Join(tail, sep);
      assert forall i :: 0 <= i < |tail| ==> sep !in tail[i] by {
        assert forall m :: 0 <= m < |pieces[0][1..]| ==> pieces[0][1..][m] == pieces[0][m + 1];
      }
      SplitJoin(tail, sep);
    }
  }

  /** Splitting text with a separator in it splits both sides of it, in order. */
  lemma SplitAppend(a: string, b: string, sep: char)
    ensures Split(a + [sep] + b, sep) == Split(a, sep) + Split(b, sep)
  {
    var p, q := Split(a, sep), Split(b, sep);
    SplitShape(a, sep);
    SplitShape(b, sep);
    JoinAppend(p, q, sep);
    SplitJoin(p + q, sep);
  }
}
