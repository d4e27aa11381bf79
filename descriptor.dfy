/**
 * What FunctionMatchToLuaFunction reads off a FunctionRegex match
 * (src/LuaMinifier/Services/GlobalFunctionParser.cs:88-109): the name, and
 * the argument list, which is the text between the parentheses split on
 * commas, each piece trimmed of spaces, and the blank pieces dropped.
 */
module Descriptor {
  import opened Text
  import opened Patterns

  /** A FunctionRegex match, with the name and the argument list FunctionMatchToLuaFunction reads off it. */
  datatype Header = Header(m: SigMatch, name: string, arguments: seq<string>)

  /** The header of a match. */
  function HeaderOf(m: SigMatch): Header {
    Header(m, NameOf(m), ArgumentList(m.arguments))
  }

  /** The `name` group unless it is blank (`String.IsNullOrWhiteSpace`), else the `name2` group. */
  function NameOf(m: SigMatch): string {
    if !IsBlank(m.name) then m.name else m.name2
  }

  /** `.Split(',').Select(a => a.Trim(' ')).Where(a => !string.IsNullOrWhiteSpace(a))` */
  function ArgumentList(arguments: string): seq<string> {
    Kept(Split(arguments, ','))
  }

  /** Every entry of an argument list is a name with no blank, no comma and no space at either end. */
  lemma ArgumentsAreNames(arguments: string)
    ensures forall i :: 0 <= i < |ArgumentList(arguments)| ==> Argument(ArgumentList(arguments)[i])
  {
    SplitShape(arguments, ',');
    KeptNames(Split(arguments, ','));
  }

  /** What every entry of an argument list is: not blank, free of commas, and without a space at either end. */
  predicate Argument(a: string) {
    !IsBlank(a) && ',' !in a && a[0] != ' ' && a[|a| - 1] != ' '
  }

  /** The pieces, trimmed of spaces, that are not blank after trimming, in order. */
  function Kept(pieces: seq<string>): seq<string>
    decreases |pieces|
  {
    if pieces == [] then []
    else
      var a := Trim(pieces[0], Blanks);
      (if IsBlank(a) then [] else [a]) + Kept(pieces[1..])
  }

  /** No more names than pieces, and each of them an argument name, when no piece holds a comma. */
  lemma {:induction false} KeptNames(pieces: seq<string>)
    requires forall i :: 0 <= i < |pieces| ==> ',' !in pieces[i]
    ensures |Kept(pieces)| <= |pieces|
    ensures forall i :: 0 <= i < |Kept(pieces)| ==> Argument(Kept(pieces)[i])
    decreases |pieces|
  {
    if pieces != [] {
      var a := Trim(pieces[0], Blanks);
      KeptNames(pieces[1..]);
      if !IsBlank(a) {
        TrimmedArgument(pieces[0]);
        var r := Kept(pieces);
        assert r == [a] + Kept(pieces[1..]);
        assert forall i :: 1 <= i < |r| ==> r[i] == Kept(pieces[1..])[i - 1];
      }
    }
  }

  /** A piece without a comma that is not blank once trimmed of spaces is an argument name. */
  lemma TrimmedArgument(p: string)
    requires ',' !in p && !IsBlank(Trim(p, Blanks))
    ensures Argument(Trim(p, Blanks))
  {
    var a := Trim(p, Blanks);
    TrimShape(p, Blanks);
    assert forall m :: 0 <= m < |a| ==> a[m] in p;
  }

  /** A blank string holds no word character: the blank test of NameOf never rejects a name that FunctionRegex captured. */
  lemma WordNotBlank(w: string)
    requires w != [] && IsWord(w)
    ensures !IsBlank(w)
  {
    assert IsWordChar(w[0]);
    RunEndIs(w, 0, 0, Whitespace);
  }

  /** The name FunctionRegex reports for a written-out signature is the name that was written, in either spelling. */
  lemma NameOfMatched(sig: Signature, length: nat)
    requires IsWord(sig.name)
    ensures NameOf(Matched(sig, length)) == sig.name
  {
    if sig.name != [] {
      WordNotBlank(sig.name);
    }
  }

  lemma {:induction false} KeptAppend(p: seq<string>, q: seq<string>)
    ensures Kept(p + q) == Kept(p) + Kept(q)
    decreases |p|
  {
    if p != [] {
      assert (p + q)[1..] == p[1..] + q;
      KeptAppend(p[1..], q);
    } else {
      assert p + q == q;
    }
  }

  /** A comma splits the argument list in two: the arguments before it, then those after it. */
  lemma ArgumentsAppend(a: string, b: string)
    ensures ArgumentList(a + [','] + b) == ArgumentList(a) + ArgumentList(b)
  {
    SplitAppend(a, b, ',');
    KeptAppend(Split(a, ','), Split(b, ','));
  }

  /** Spaces alone give no argument: the argument list of `()` or `(  )` is empty. */
  lemma BlankPiece(a: string)
    requires forall m :: 0 <= m < |a| ==> a[m] == ' '
    ensures ArgumentList(a) == []
  {
    assert ',' !in a;
    assert Join([a], ',') == a;
    SplitJoin([a], ',');
    assert Trim(a, Blanks) == [];
    assert [a][1..] == [];
    assert Split(a, ',') == [a];
    assert Kept([a]) == Kept([]);
  }

  /** `a, b, c`: the names with a comma and a space between each two of them. */
  function Listed(names: seq<string>): string
    decreases |names|
  {
    if names == [] then ""
    else if |names| == 1 then names[0]
    else names[0] + ", " + Listed(names[1..])
  }

  /** A word is its own trimmed piece. */
  lemma TrimWord(w: string)
    requires w != [] && IsWord(w)
    ensures Trim(w, Blanks) == w
  {
    assert IsWordChar(w[0]) && IsWordChar(w[|w| - 1]);
    TrimKeeps(w, Blanks);
  }

  /** A single word is a list of one argument. */
  lemma ArgumentsOfWord(w: string)
    requires w != [] && IsWord(w)
    ensures ArgumentList(w) == [w]
  {
    TrimWord(w);
    WordNotBlank(w);
    assert forall m :: 0 <= m < |w| ==> IsWordChar(w[m]);
    assert ',' !in w;
    assert Join([w], ',') == w;
    SplitJoin([w], ',');
    assert [w][1..] == [];
    assert Split(w, ',') == [w];
    assert Kept([w]) == [w] + Kept([]);
  }

  /** Argument lists read back: the list of a comma-and-space separated list of names is those names, in order. */
  lemma {:induction false} ArgumentsRoundTrip(names: seq<string>)
    requires forall i :: 0 <= i < |names| ==> names[i] != [] && IsWord(names[i])
    ensures ArgumentList(Listed(names)) == names
    decreases |names|
  {
    if names == [] {
      BlankPiece("");
    } else {
      ArgumentsOfWord(names[0]);
      if |names| > 1 {
        ArgumentsRoundTrip(names[1..]);
        CommaSpace(names[0], Listed(names[1..]));
        assert names == [names[0]] + names[1..];
      }
    }
  }

  /** A comma and a space split the argument list in two, as a comma alone does. */
  lemma CommaSpace(a: string, b: string)
    ensures ArgumentList(a + ", " + b) == ArgumentList(a) + ArgumentList(b)
  {
    Regroup(a, b);
    ArgumentsAppend(a, [' '] + b);
    LeadingSpace(b);
  }

  lemma Regroup(a: string, b: string)
    ensures a + ", " + b == a + [','] + ([' '] + b)
  {
  }

  /** A space before the first comma does not change the arguments. */
  lemma LeadingSpace(rest: string)
    ensures ArgumentList([' '] + rest) == ArgumentList(rest)
  {
    var pieces := Split(rest, ',');
    SplitShape(rest, ',');
    var spaced := [[' '] + pieces[0]] + pieces[1..];
    assert Join(spaced, ',') == [' '] + Join(pieces, ',') by {
      JoinFirst(pieces, ',', ' ');
    }
    assert forall i :: 0 <= i < |spaced| ==> ',' !in spaced[i] by {
      assert forall i :: 1 <= i < |spaced| ==> spaced[i] == pieces[i];
    }
    SplitJoin(spaced, ',');
    assert spaced == [spaced[0]] + spaced[1..];
    assert pieces == [pieces[0]] + pieces[1..];
    SpacedTrim(pieces[0]);
  }

  /** Trimming removes a leading space. */
  lemma SpacedTrim(p: string)
    ensures Trim([' '] + p, Blanks) == Trim(p, Blanks)
  {
    LeadingRun(p);
    var j := RunEnd(p, 0, Blanks);
    RunStartCons(' ', p, j, |p|, Blanks);
    var e := RunStart(p, j, |p|, Blanks);
    TrimIs([' '] + p, j + 1, e + 1);
    TrimIs(p, j, e);
    SliceOfTail(' ', p, j, e);
  }

  /** The first run of spaces of `[' '] + p` has one more space than that of `p`. */
  lemma LeadingRun(p: string)
    ensures RunEnd([' '] + p, 0, Blanks) == RunEnd(p, 0, Blanks) + 1
  {
    RunEndCons(' ', p, 0, Blanks);
  }

  /** A run that ends at `hi + 1` in `[c] + p` and does not reach the first character is a run of `p`, one offset later. */
  lemma {:induction false} RunStartCons(c: char, p: string, lo: nat, hi: nat, k: CharClass)
    requires lo <= hi <= |p|
    ensures RunStart([c] + p, lo + 1, hi + 1, k) == RunStart(p, lo, hi, k) + 1
    decreases hi - lo
  {
    if lo < hi {
      assert ([c] + p)[hi] == p[hi - 1];
      if InClass(p[hi - 1], k) {
        RunStartCons(c, p, lo, hi - 1, k);
      }
    }
  }

  lemma TrimIs(s: string, i: nat, j: nat)
    requires i == RunEnd(s, 0, Blanks) && i <= |s| && j == RunStart(s, i, |s|, Blanks)
    ensures Trim(s, Blanks) == s[i..j]
  {
  }

  lemma SliceOfTail(c: char, p: string, a: nat, b: nat)
    requires a <= b <= |p|
    ensures ([c] + p)[a + 1 .. b + 1] == p[a..b]
  {
    var s := [c] + p;
    var l, r := s[a + 1 .. b + 1], p[a..b];
    assert forall m :: 0 <= m < |l| ==> l[m] == s[a + 1 + m] == p[a + m] == r[m];
  }

  /** A run that starts at `i + 1` in `[c] + p` is a run of `p` that starts at `i`, one offset later. */
  lemma {:induction false} RunEndCons(c: char, p: string, i: nat, k: CharClass)
    requires i <= |p|
    ensures RunEnd([c] + p, i + 1, k) == RunEnd(p, i, k) + 1
    decreases |p| - i
  {
    if i < |p| {
      assert ([c] + p)[i + 1] == p[i];
      if InClass(p[i], k) {
        RunEndCons(c, p, i + 1, k);
      }
    }
  }
}
