/**
 * The two patterns of the function scanner, evaluated at one offset of the
 * Lua text: FunctionRegex, which recognises the three spellings of a
 * function signature, and EndRegex, which recognises the `end` keyword
 * (src/LuaMinifier/Services/GlobalFunctionParser.cs:10-11).
 *
 * A matcher succeeds only when its match begins exactly at the offset it is
 * given, which is what the `^` branch of the regexes does on the substring
 * that starts at the scan cursor. Each matcher follows the backtracking
 * order of the regex: the optional `local ` group is tried first, then the
 * `function NAME` alternative before the `NAME = function` one; every other
 * quantifier takes the longest run, since giving any of it back cannot lead
 * to a match.
 *
 * Terms: a signature is *written out* (`Render`) as its literals and gaps one
 * after another, and is *laid* at an offset (`Laid`) when those pieces occur
 * in the text from there, as the matchers read them.
 */
module Patterns {
  import opened Wrappers
  import opened Text

  /** True when the literal `w` occurs in `s` at offset `k`. */
  predicate LiteralAt(s: string, k: nat, w: string) {
    k + |w| <= |s| && MatchesFrom(s, k, w, 0)
  }

  /** The characters of `w` from its position `i` on are those of `s` from offset `k + i` on. */
  predicate MatchesFrom(s: string, k: nat, w: string, i: nat)
    decreases |w| - i
  {
    i >= |w| || (k + i < |s| && s[k + i] == w[i] && MatchesFrom(s, k, w, i + 1))
  }

  /** The groups of a successful FunctionRegex match, and the length of the whole match. */
  datatype SigMatch = SigMatch(isLocal: bool, name: string, name2: string, arguments: string, length: nat)

  /** The two alternatives of FunctionRegex: `function NAME(ARGS)` and `NAME = function(ARGS)`. */
  datatype Spelling = Statement | Assignment

  /**
   * Where the alternative that matched found its name group (the `name`
   * group for the first alternative, `name2` for the second), between
   * `from` and `to`, and the offset of the `(`.
   */
  datatype Head = Head(spelling: Spelling, from: nat, to: nat, paren: nat)

  /** A head with the offset of the `)` that closes the argument list and the offset just past the match. */
  datatype Core = Core(head: Head, close: nat, stop: nat)

  /** The offsets of a head found from offset `p` are in order and within the text. */
  predicate HeadIn(s: string, p: nat, h: Head) {
    p <= h.from <= h.to <= h.paren < |s| && s[h.paren] == '('
  }

  predicate CoreIn(s: string, p: nat, c: Core) {
    HeadIn(s, p, c.head) && c.head.paren < c.close < c.stop <= |s|
  }

  /** The first alternative, `function\s*(?<name>\w+)?\s*`, and the `\s*` before `(`, at offset `p`. */
  function StatementHead(s: string, p: nat): (h: Option<Head>)
    ensures h.Some? ==> HeadIn(s, p, h.value)
  {
    if !LiteralAt(s, p, "function") then None
    else
      var a := RunEnd(s, p + 8, Whitespace);
      var b := RunEnd(s, a, WordChars);
      var c := RunEnd(s, b, Whitespace);
      if c < |s| && s[c] == '(' then Some(Head(Statement, a, b, c)) else None
  }

  /** The second alternative, `(?<name2>\w+)\s*=\s*function`, and the `\s*` before `(`, at offset `p`. */
  function AssignmentHead(s: string, p: nat): (h: Option<Head>)
    ensures h.Some? ==> HeadIn(s, p, h.value)
  {
    if |s| < p then None
    else
      var b := RunEnd(s, p, WordChars);
      var c := RunEnd(s, b, Whitespace);
      if b == p || c == |s| || s[c] != '=' then None
      else
        var d := RunEnd(s, c + 1, Whitespace);
        if !LiteralAt(s, d, "function") then None
        else
          var e := RunEnd(s, d + 8, Whitespace);
          if e < |s| && s[e] == '(' then Some(Head(Assignment, p, b, e)) else None
  }

  /**
   * `\((?<arguments>[^\)]*)\)(?:\s|-|$)` from the `(` of a head: the text
   * up to the first `)`, which must be followed by a whitespace character,
   * a `-` or the end of the text.
   */
  function Complete(s: string, h: Option<Head>): (r: Option<Core>)
    requires h.Some? ==> h.value.paren < |s|
    ensures r.Some? ==> h.Some? && r.value.head == h.value
    ensures r.Some? ==> h.value.paren < r.value.close < r.value.stop <= |s|
  {
    if h.None? then None
    else
      var close := RunEnd(s, h.value.paren + 1, NotCloseParen);
      if close == |s| then None
      else if close + 1 == |s| then Some(Core(h.value, close, close + 1))
      else if IsSpace(s[close + 1]) || s[close + 1] == '-' then Some(Core(h.value, close, close + 2))
      else None
  }

  /** The pattern after the `local ` group at offset `p`: the second alternative is tried only when the first, with the rest of the pattern, fails. */
  function CoreAt(s: string, p: nat): (r: Option<Core>)
    ensures r.Some? ==> CoreIn(s, p, r.value)
  {
    var first := Complete(s, StatementHead(s, p));
    if first.Some? then first else Complete(s, AssignmentHead(s, p))
  }

  /** The groups FunctionRegex reports for a match that starts at offset `k`: the name groups, the argument text, and the length. */
  function Groups(s: string, k: nat, isLocal: bool, c: Core): SigMatch
    requires CoreIn(s, k, c)
  {
    var name := s[c.head.from .. c.head.to];
    SigMatch(isLocal,
             if c.head.spelling == Statement then name else "",
             if c.head.spelling == Assignment then name else "",
             s[c.head.paren + 1 .. c.close],
             c.stop - k)
  }

  /** FunctionRegex anchored at offset `k`: the match with the `local ` group, if there is one, else the match without it. */
  function SigAt(s: string, k: nat): (m: Option<SigMatch>)
    ensures m.Some? ==> 0 < m.value.length && k + m.value.length <= |s|
    ensures m.Some? && m.value.isLocal ==> LiteralAt(s, k, "local ")
  {
    var withLocal := if LiteralAt(s, k, "local ") then CoreAt(s, k + 6) else None;
    var core := if withLocal.Some? then withLocal else CoreAt(s, k);
    if core.None? then None
    else Some(Groups(s, k, withLocal.Some?, core.value))
  }

  /** EndRegex anchored at offset `k`: the length of the match, 3 at the end of the text and 4 otherwise. */
  function EndAt(s: string, k: nat): (n: Option<nat>)
    ensures n.Some? ==> LiteralAt(s, k, "end") && k + n.value <= |s|
    ensures n.Some? ==> n.value == (if k + 3 == |s| then 3 else 4)
  {
    if !LiteralAt(s, k, "end") then None
    else if k + 3 == |s| then Some(3)
    else if IsSpace(s[k + 3]) || s[k + 3] == '-' then Some(4)
    else None
  }

  // ----- What a signature looks like when it is written out -----

  /**
   * A signature as it is written: either spelling, optionally after `local `,
   * with the whitespace it has at the three `\s*` of its alternative.
   */
  datatype Signature = Signature(isLocal: bool, spelling: Spelling, name: string, arguments: string, gaps: Gaps)

  /**
   * The whitespace, possibly none, at the three `\s*` of an alternative: for
   * `function NAME(ARGS)` after `function`, after the name and before `(`;
   * for `NAME = function(ARGS)` before `=`, after `=` and before `(`.
   */
  datatype Gaps = Gaps(first: string, second: string, third: string)

  predicate IsWord(w: string) {
    forall i :: 0 <= i < |w| ==> IsWordChar(w[i])
  }

  /** Whitespace only, or nothing. */
  predicate IsGap(g: string) {
    forall i :: 0 <= i < |g| ==> IsSpace(g[i])
  }

  /** True when the offset `j` is the end of the text, or holds a whitespace character or `-`: what may follow `end` or `)`. */
  predicate DelimiterAt(s: string, j: nat) {
    j == |s| || (j < |s| && (IsSpace(s[j]) || s[j] == '-'))
  }

  /**
   * A signature that can be written out: a word for a name (a non-empty one
   * for the assignment spelling), no `)` in the arguments and whitespace in
   * the gaps. Without a name after `function` the whitespace before `(` is one
   * run, which is written as the first gap.
   */
  predicate Writable(sig: Signature) {
    IsWord(sig.name) && ')' !in sig.arguments && (sig.spelling == Assignment ==> sig.name != "") &&
    IsGap(sig.gaps.first) && IsGap(sig.gaps.second) && IsGap(sig.gaps.third) &&
    (sig.spelling == Statement && sig.name == "" ==> sig.gaps.second == "" && sig.gaps.third == "")
  }

  /** The signature up to its `(`: `function NAME` or `NAME = function`, with its gaps. */
  function Lead(sig: Signature): string {
    var g := sig.gaps;
    match sig.spelling
    case Statement => "function" + g.first + sig.name + g.second + g.third
    case Assignment => sig.name + g.first + "=" + g.second + "function" + g.third
  }

  function Body(sig: Signature): string {
    Lead(sig) + "(" + sig.arguments + ")"
  }

  function Render(sig: Signature): string {
    (if sig.isLocal then "local " else "") + Body(sig)
  }

  /** The match FunctionRegex is expected to report for a signature written out at offset `k` of `s`: one more character when a delimiter follows. */
  function Expected(sig: Signature, s: string, k: nat): SigMatch {
    Matched(sig, Past(s, k + |Render(sig)|) - k)
  }

  /** The groups FunctionRegex reports for a signature: `name` for the first spelling, `name2` for the second, and a match `length` long. */
  function Matched(sig: Signature, length: nat): SigMatch {
    SigMatch(sig.isLocal,
             if sig.spelling == Statement then sig.name else "",
             if sig.spelling == Assignment then sig.name else "",
             sig.arguments,
             length)
  }

  /** The offset just past a delimiter at `j`: the regexes consume the delimiter character, if there is one. */
  function Past(s: string, j: nat): nat {
    if j == |s| then j else j + 1
  }

  // ----- Reading a written-out signature back -----
  //
  // The proofs below work in two stages: a written-out signature is first
  // taken apart into the literals at the offsets that the matchers look at,
  // and the matchers are then evaluated on those facts alone.

  lemma {:induction false} MatchesChars(s: string, k: nat, w: string, i: nat)
    requires k + |w| <= |s| && MatchesFrom(s, k, w, i)
    ensures forall m :: i <= m < |w| ==> s[k + m] == w[m]
    decreases |w| - i
  {
    if i < |w| {
      MatchesChars(s, k, w, i + 1);
    }
  }

  lemma {:induction false} CharsMatch(s: string, k: nat, w: string, i: nat)
    requires k + |w| <= |s|
    requires forall m :: i <= m < |w| ==> s[k + m] == w[m]
    ensures MatchesFrom(s, k, w, i)
    decreases |w| - i
  {
    if i < |w| {
      CharsMatch(s, k, w, i + 1);
    }
  }

  /** The characters of a literal that occurs at `q`. */
  lemma CharsAt(s: string, q: nat, w: string)
    requires LiteralAt(s, q, w)
    ensures forall m :: q <= m < q + |w| ==> s[m] == w[m - q]
  {
    MatchesChars(s, q, w, 0);
    forall m | q <= m < q + |w| ensures s[m] == w[m - q] {
      assert s[q + (m - q)] == w[m - q];
    }
  }

  /** A literal occurs wherever its characters do. */
  lemma LiteralIs(s: string, q: nat, w: string)
    requires q + |w| <= |s| && forall m :: 0 <= m < |w| ==> s[q + m] == w[m]
    ensures LiteralAt(s, q, w)
  {
    CharsMatch(s, q, w, 0);
  }

  /** A literal that occurs at `k` is the slice of the text there. */
  lemma SliceOf(s: string, k: nat, w: string)
    requires LiteralAt(s, k, w)
    ensures s[k .. k + |w|] == w
  {
    MatchesChars(s, k, w, 0);
    assert forall m :: 0 <= m < |w| ==> s[k .. k + |w|][m] == w[m];
  }

  /** The character at offset `p` of a literal that occurs at `q`. */
  lemma CharOf(s: string, q: nat, w: string, p: nat, c: char)
    requires LiteralAt(s, q, w) && q <= p < q + |w| && w[p - q] == c
    ensures p < |s| && s[p] == c
  {
    MatchesChars(s, q, w, 0);
    assert s[q + (p - q)] == w[p - q];
  }

  /** The literal `v` that a literal occurring at `q` holds at its position `i`, which is offset `p` of `s`. */
  lemma SubLiteral(s: string, q: nat, w: string, p: nat, i: nat, v: string)
    requires LiteralAt(s, q, w) && p == q + i && i + |v| <= |w| && w[i .. i + |v|] == v
    ensures LiteralAt(s, p, v)
  {
    MatchesChars(s, q, w, 0);
    forall m | 0 <= m < |v| ensures s[p + m] == v[m] {
      assert w[i .. i + |v|][m] == w[i + m];
      assert s[q + (i + m)] == w[i + m];
    }
    LiteralIs(s, p, v);
  }


  /** The characters of a gap that occurs at `q` are whitespace. */
  lemma GapAt(s: string, q: nat, g: string)
    requires LiteralAt(s, q, g) && IsGap(g)
    ensures q + |g| <= |s| && forall m :: q <= m < q + |g| ==> IsSpace(s[m])
  {
    CharsAt(s, q, g);
  }

  /** A gap followed by a character that is not whitespace is a maximal whitespace run. */
  lemma GapRunAt(s: string, q: nat, g: string)
    requires LiteralAt(s, q, g) && IsGap(g)
    requires q + |g| < |s| && !IsSpace(s[q + |g|])
    ensures RunEnd(s, q, Whitespace) == q + |g|
  {
    GapAt(s, q, g);
    RunEndIs(s, q, q + |g|, Whitespace);
  }

  /** Two gaps one after the other, followed by a character that is not whitespace, are one maximal whitespace run. */
  lemma GapsRunAt(s: string, q: nat, g: string, h: string)
    requires LiteralAt(s, q, g) && IsGap(g) && LiteralAt(s, q + |g|, h) && IsGap(h)
    requires q + |g| + |h| < |s| && !IsSpace(s[q + |g| + |h|])
    ensures RunEnd(s, q, Whitespace) == q + |g| + |h|
  {
    GapAt(s, q, g);
    GapAt(s, q + |g|, h);
    RunEndIs(s, q, q + |g| + |h|, Whitespace);
  }

  /** Where the first character is not `l`, the `local ` group cannot match. */
  lemma NotLocalAt(s: string, k: nat)
    requires k < |s| && s[k] != 'l'
    ensures !LiteralAt(s, k, "local ")
  {
  }

  /** `(ARGS)` followed by a delimiter completes a head whose `(` is at `paren`. */
  lemma CompleteAt(s: string, h: Head, paren: nat, arguments: string)
    requires h.paren == paren && paren < |s|
    requires LiteralAt(s, paren + 1, arguments) && ')' !in arguments
    requires paren + 1 + |arguments| < |s| && s[paren + 1 + |arguments|] == ')'
    requires DelimiterAt(s, paren + 1 + |arguments| + 1)
    ensures Complete(s, Some(h)) == Some(Core(h, paren + 1 + |arguments|, Past(s, paren + 1 + |arguments| + 1)))
  {
    CharsAt(s, paren + 1, arguments);
    RunEndIs(s, paren + 1, paren + 1 + |arguments|, NotCloseParen);
  }

  /** A word followed by a character that is not a word character is a maximal word run. */
  lemma WordRunAt(s: string, q: nat, w: string)
    requires LiteralAt(s, q, w) && IsWord(w)
    requires q + |w| < |s| && !IsWordChar(s[q + |w|])
    ensures RunEnd(s, q, WordChars) == q + |w|
  {
    CharsAt(s, q, w);
    RunEndIs(s, q, q + |w|, WordChars);
  }

  /** The offset of the name of a signature body written out at offset `q`. */
  function NameFrom(sig: Signature, q: nat): nat {
    match sig.spelling
    case Statement => q + 8 + |sig.gaps.first|
    case Assignment => q
  }

  /** The offset of the `(` of a signature body written out at offset `q`. */
  function ParenOf(sig: Signature, q: nat): nat {
    var g := sig.gaps;
    match sig.spelling
    case Statement => q + 8 + |g.first| + |sig.name| + |g.second| + |g.third|
    case Assignment => q + |sig.name| + |g.first| + 1 + |g.second| + 8 + |g.third|
  }

  /** The lead of a signature ends where its `(` is. */
  lemma LeadEnds(sig: Signature, q: nat)
    ensures ParenOf(sig, q) == q + |Lead(sig)|
  {
  }

  /** A signature body ends just past its `)`. */
  lemma BodyEnds(sig: Signature, q: nat)
    ensures BodyEnd(sig, q) == q + |Body(sig)|
  {
    LeadEnds(sig, q);
  }

  /** The offset of the `)` of a signature body written out at offset `q`. */
  function CloseOf(sig: Signature, q: nat): nat {
    ParenOf(sig, q) + 1 + |sig.arguments|
  }

  /** The offset just past the `)` of a signature body written out at offset `q`. */
  function BodyEnd(sig: Signature, q: nat): nat {
    CloseOf(sig, q) + 1
  }

  /** The head FunctionRegex finds for a signature body written out at offset `q`. */
  function HeadOf(sig: Signature, q: nat): Head {
    Head(sig.spelling, NameFrom(sig, q), NameFrom(sig, q) + |sig.name|, ParenOf(sig, q))
  }

  /** The core FunctionRegex finds for a signature body written out at offset `q`. */
  function CoreOf(s: string, sig: Signature, q: nat): Core {
    Core(HeadOf(sig, q), CloseOf(sig, q), Past(s, BodyEnd(sig, q)))
  }

  /** The literals of `function NAME` and its gaps at offset `q`. */
  predicate StatementLaid(s: string, q: nat, sig: Signature) {
    var g, a := sig.gaps, q + 8 + |sig.gaps.first|;
    LiteralAt(s, q, "function") && LiteralAt(s, q + 8, g.first) && LiteralAt(s, a, sig.name) &&
    LiteralAt(s, a + |sig.name|, g.second) && LiteralAt(s, a + |sig.name| + |g.second|, g.third)
  }

  /** The literals of `NAME = function` and its gaps at offset `q`. */
  predicate AssignmentLaid(s: string, q: nat, sig: Signature) {
    var g, e := sig.gaps, q + |sig.name| + |sig.gaps.first|;
    LiteralAt(s, q, sig.name) && LiteralAt(s, q + |sig.name|, g.first) && e < |s| && s[e] == '=' &&
    LiteralAt(s, e + 1, g.second) && LiteralAt(s, e + 1 + |g.second|, "function") &&
    LiteralAt(s, e + 1 + |g.second| + 8, g.third)
  }

  /** `(ARGS)` at offset `p`. */
  predicate ParensLaid(s: string, p: nat, arguments: string) {
    p < |s| && s[p] == '(' && LiteralAt(s, p + 1, arguments) &&
    p + 1 + |arguments| < |s| && s[p + 1 + |arguments|] == ')'
  }

  /** The literals of a signature body at offset `q`, as the matchers look at them. */
  predicate Laid(s: string, q: nat, sig: Signature) {
    (match sig.spelling
     case Statement => StatementLaid(s, q, sig)
     case Assignment => AssignmentLaid(s, q, sig)) &&
    ParensLaid(s, ParenOf(sig, q), sig.arguments)
  }

  /** A literal that occurs at `q` is its two halves, the second at offset `p`. */
  lemma Concat(s: string, q: nat, a: string, b: string, p: nat)
    requires LiteralAt(s, q, a + b) && p == q + |a|
    ensures LiteralAt(s, q, a) && LiteralAt(s, p, b)
  {
    SubLiteral(s, q, a + b, q, 0, a);
    SubLiteral(s, q, a + b, p, |a|, b);
  }

  /** A lead followed by `(ARGS)` at offset `q`, taken apart; `p` is where the `(` is. */
  lemma Parenthesized(s: string, q: nat, lead: string, arguments: string, p: nat)
    requires LiteralAt(s, q, lead + "(" + arguments + ")") && p == q + |lead|
    ensures LiteralAt(s, q, lead) && ParensLaid(s, p, arguments)
  {
    Concat(s, q, lead + "(" + arguments, ")", p + 1 + |arguments|);
    Concat(s, q, lead + "(", arguments, p + 1);
    Concat(s, q, lead, "(", p);
    CharOf(s, p, "(", p, '(');
    CharOf(s, p + 1 + |arguments|, ")", p + 1 + |arguments|, ')');
  }

  /** `function NAME` with its gaps at offset `q`, taken apart. */
  lemma StatementLead(s: string, q: nat, sig: Signature)
    requires sig.spelling == Statement && LiteralAt(s, q, Lead(sig))
    ensures StatementLaid(s, q, sig)
  {
    var g, n := sig.gaps, sig.name;
    var a := q + 8 + |g.first|;
    assert Lead(sig) == "function" + g.first + n + g.second + g.third;
    Concat(s, q, "function" + g.first + n + g.second, g.third, a + |n| + |g.second|);
    Concat(s, q, "function" + g.first + n, g.second, a + |n|);
    Concat(s, q, "function" + g.first, n, a);
    Concat(s, q, "function", g.first, q + 8);
  }

  /** `NAME = function` with its gaps at offset `q`, taken apart. */
  lemma AssignmentLead(s: string, q: nat, sig: Signature)
    requires sig.spelling == Assignment && LiteralAt(s, q, Lead(sig))
    ensures AssignmentLaid(s, q, sig)
  {
    var g, n := sig.gaps, sig.name;
    var e := q + |n| + |g.first|;
    assert Lead(sig) == n + g.first + "=" + g.second + "function" + g.third;
    Concat(s, q, n + g.first + "=" + g.second + "function", g.third, e + 1 + |g.second| + 8);
    Concat(s, q, n + g.first + "=" + g.second, "function", e + 1 + |g.second|);
    Concat(s, q, n + g.first + "=", g.second, e + 1);
    Concat(s, q, n + g.first, "=", e);
    Concat(s, q, n, g.first, q + |n|);
    CharOf(s, e, "=", e, '=');
  }

  lemma BodyLaid(s: string, q: nat, sig: Signature)
    requires LiteralAt(s, q, Body(sig))
    ensures Laid(s, q, sig)
  {
    LeadEnds(sig, q);
    Parenthesized(s, q, Lead(sig), sig.arguments, ParenOf(sig, q));
    if sig.spelling == Statement {
      StatementLead(s, q, sig);
    } else {
      AssignmentLead(s, q, sig);
    }
  }

  /** The first alternative, evaluated from the ends of the runs it takes. */
  lemma StatementHeadIs(s: string, p: nat, a: nat, b: nat, c: nat)
    requires LiteralAt(s, p, "function")
    requires RunEnd(s, p + 8, Whitespace) == a && RunEnd(s, a, WordChars) == b && RunEnd(s, b, Whitespace) == c
    requires c < |s| && s[c] == '('
    ensures StatementHead(s, p) == Some(Head(Statement, a, b, c))
  {
  }

  /** The first alternative at a written-out `function NAME`: the name, then the `(` after the gaps. */
  lemma StatementHeadAt(s: string, q: nat, sig: Signature)
    requires sig.spelling == Statement && Writable(sig) && StatementLaid(s, q, sig)
    requires ParenOf(sig, q) < |s| && s[ParenOf(sig, q)] == '('
    ensures StatementHead(s, q) == Some(HeadOf(sig, q))
  {
    var g, n := sig.gaps, sig.name;
    var a := q + 8 + |g.first|;
    var b := a + |n|;
    var p := ParenOf(sig, q);
    assert p == b + |g.second| + |g.third|;
    GapAt(s, b, g.second);
    GapAt(s, b + |g.second|, g.third);
    if n == [] {
      assert b == p;
    } else {
      CharOf(s, a, n, a, n[0]);
      if g.second == [] && g.third == [] {
        assert b == p;
      }
    }
    assert !IsSpace(s[a]) && !IsWordChar(s[b]);
    GapRunAt(s, q + 8, g.first);
    WordRunAt(s, a, n);
    GapsRunAt(s, b, g.second, g.third);
    StatementHeadIs(s, q, a, b, p);
  }

  /** At a written-out `NAME = function`, the first alternative fails: where it expects `(`, the text holds `=`. */
  lemma StatementHeadFails(s: string, q: nat, sig: Signature)
    requires sig.spelling == Assignment && Writable(sig) && AssignmentLaid(s, q, sig)
    ensures StatementHead(s, q) == None
  {
    NameEnd(s, q, sig);
    AssignmentParts(s, q, sig);
    NoStatementAt(s, q, sig.name, sig.gaps.first);
  }

  /** The first alternative fails at a word, a gap and `=`. */
  lemma NoStatementAt(s: string, q: nat, n: string, g: string)
    requires IsWord(n) && IsGap(g) && LiteralAt(s, q, n) && LiteralAt(s, q + |n|, g)
    requires q + |n| + |g| < |s| && s[q + |n| + |g|] == '='
    requires q + |n| < |s| && (IsSpace(s[q + |n|]) || s[q + |n|] == '=')
    ensures StatementHead(s, q) == None
  {
    var b := q + |n|;
    var e := b + |g|;
    if LiteralAt(s, q, "function") {
      CharsAt(s, q, "function");
      CharsAt(s, q, n);
      assert |n| >= 8;
      if |n| == 8 {
        GapRunAt(s, q + 8, g);
        RunEndIs(s, e, e, WordChars);
        RunEndIs(s, e, e, Whitespace);
      } else {
        assert IsWordChar(s[q + 8]);
        RunEndIs(s, q + 8, q + 8, Whitespace);
        RunEndIs(s, q + 8, b, WordChars);
        GapRunAt(s, b, g);
      }
    }
  }

  /** What follows the name of a written-out `NAME = function`: its gap, or the `=` when there is none. */
  lemma NameEnd(s: string, q: nat, sig: Signature)
    requires sig.spelling == Assignment && Writable(sig) && AssignmentLaid(s, q, sig)
    ensures q + |sig.name| < |s| && (IsSpace(s[q + |sig.name|]) || s[q + |sig.name|] == '=')
    ensures sig.gaps.first == [] ==> s[q + |sig.name|] == '='
  {
    GapAt(s, q + |sig.name|, sig.gaps.first);
  }

  /** The second alternative, evaluated from the ends of the runs it takes. */
  lemma AssignmentHeadIs(s: string, p: nat, b: nat, c: nat, d: nat, e: nat)
    requires p <= |s| && RunEnd(s, p, WordChars) == b && b != p
    requires RunEnd(s, b, Whitespace) == c && c < |s| && s[c] == '='
    requires RunEnd(s, c + 1, Whitespace) == d && LiteralAt(s, d, "function")
    requires RunEnd(s, d + 8, Whitespace) == e && e < |s| && s[e] == '('
    ensures AssignmentHead(s, p) == Some(Head(Assignment, p, b, e))
  {
  }

  /** The literals of a written-out `NAME = function`, one by one. */
  lemma AssignmentParts(s: string, q: nat, sig: Signature)
    requires sig.spelling == Assignment && Writable(sig) && AssignmentLaid(s, q, sig)
    ensures var n, g := sig.name, sig.gaps;
      IsWord(n) && IsGap(g.first) && IsGap(g.second) && IsGap(g.third) &&
      LiteralAt(s, q, n) && LiteralAt(s, q + |n|, g.first) &&
      q + |n| + |g.first| < |s| && s[q + |n| + |g.first|] == '=' &&
      LiteralAt(s, q + |n| + |g.first| + 1, g.second) &&
      LiteralAt(s, q + |n| + |g.first| + 1 + |g.second|, "function") &&
      LiteralAt(s, q + |n| + |g.first| + 1 + |g.second| + 8, g.third)
  {
  }

  /** The second alternative at a name, a gap, `=`, a gap, `function`, a gap and `(` at `p`. */
  lemma AssignmentHeadFrom(s: string, q: nat, n: string, g: Gaps, p: nat)
    requires IsWord(n) && n != [] && IsGap(g.first) && IsGap(g.second) && IsGap(g.third)
    requires LiteralAt(s, q, n) && LiteralAt(s, q + |n|, g.first)
    requires q + |n| + |g.first| < |s| && s[q + |n| + |g.first|] == '='
    requires LiteralAt(s, q + |n| + |g.first| + 1, g.second)
    requires LiteralAt(s, q + |n| + |g.first| + 1 + |g.second|, "function")
    requires LiteralAt(s, q + |n| + |g.first| + 1 + |g.second| + 8, g.third)
    requires p == q + |n| + |g.first| + 1 + |g.second| + 8 + |g.third| && p < |s| && s[p] == '('
    ensures AssignmentHead(s, q) == Some(Head(Assignment, q, q + |n|, p))
  {
    var b := q + |n|;
    var e := b + |g.first|;
    var f := e + 1 + |g.second|;
    GapAt(s, b, g.first);
    assert !IsWordChar(s[b]);
    WordRunAt(s, q, n);
    GapRunAt(s, b, g.first);
    CharOf(s, f, "function", f, 'f');
    GapRunAt(s, e + 1, g.second);
    GapRunAt(s, f + 8, g.third);
    AssignmentHeadIs(s, q, b, e, f, p);
  }

  /** The second alternative at a written-out `NAME = function`: the name, `=`, `function` and the `(`, each after its gap. */
  lemma AssignmentHeadAt(s: string, q: nat, sig: Signature)
    requires sig.spelling == Assignment && Writable(sig) && AssignmentLaid(s, q, sig)
    requires ParenOf(sig, q) < |s| && s[ParenOf(sig, q)] == '('
    ensures AssignmentHead(s, q) == Some(HeadOf(sig, q))
  {
    AssignmentParts(s, q, sig);
    AssignmentHeadFrom(s, q, sig.name, sig.gaps, ParenOf(sig, q));
  }

  /** Neither alternative matches where the text holds neither a word character nor the end of the text. */
  lemma NoCoreAt(s: string, p: nat)
    requires p < |s| && !IsWordChar(s[p])
    ensures CoreAt(s, p) == None
  {
    assert !LiteralAt(s, p, "function");
    RunEndIs(s, p, p, WordChars);
  }

  /** A written-out body without `local` is not taken for one with the `local ` group. */
  lemma BodyNotLocal(s: string, q: nat, sig: Signature)
    requires Writable(sig) && Laid(s, q, sig)
    ensures !LiteralAt(s, q, "local ") || CoreAt(s, q + 6) == None
  {
    if sig.spelling == Statement {
      StatementNotLocal(s, q, sig);
    } else {
      AssignmentNotLocal(s, q, sig);
    }
  }

  /**
   * Without `local`, a written-out `NAME = function` is not mistaken for one
   * that has the `local ` group: the `local ` can only be the name `local`
   * and the first character of the gap after it, and neither alternative
   * matches at the whitespace or the `=` that follows.
   */
  lemma AssignmentNotLocal(s: string, q: nat, sig: Signature)
    requires sig.spelling == Assignment && Writable(sig) && AssignmentLaid(s, q, sig)
    ensures !LiteralAt(s, q, "local ") || CoreAt(s, q + 6) == None
  {
    if LiteralAt(s, q, "local ") {
      var g, n := sig.gaps, sig.name;
      var b := q + |n|;
      var e := b + |g.first|;
      NameEnd(s, q, sig);
      CharsAt(s, q, "local ");
      CharsAt(s, q, n);
      GapAt(s, b, g.first);
      assert |n| == 5;
      assert g.first != [];
      if q + 6 < e {
        assert IsSpace(s[q + 6]);
      } else {
        assert s[q + 6] == '=';
      }
      NoCoreAt(s, q + 6);
    }
  }

  lemma StatementNotLocal(s: string, q: nat, sig: Signature)
    requires sig.spelling == Statement && StatementLaid(s, q, sig)
    ensures !LiteralAt(s, q, "local ")
  {
    CharOf(s, q, "function", q, 'f');
    NotLocalAt(s, q);
  }

  /** When the first alternative matches, it is the match. */
  lemma FirstAlternative(s: string, q: nat, h: Head, c: Core)
    requires StatementHead(s, q) == Some(h) && Complete(s, Some(h)) == Some(c)
    ensures CoreAt(s, q) == Some(c)
  {
  }

  /** When the first alternative fails, the second one is tried. */
  lemma SecondAlternative(s: string, q: nat, h: Head, c: Core)
    requires StatementHead(s, q) == None && AssignmentHead(s, q) == Some(h) && Complete(s, Some(h)) == Some(c)
    ensures CoreAt(s, q) == Some(c)
  {
  }

  /** A written-out body followed by a delimiter matches the part of FunctionRegex after the `local ` group. */
  lemma BodyAt(s: string, q: nat, sig: Signature)
    requires Writable(sig) && Laid(s, q, sig) && DelimiterAt(s, BodyEnd(sig, q))
    ensures CoreAt(s, q) == Some(CoreOf(s, sig, q))
  {
    var p := ParenOf(sig, q);
    CompleteAt(s, HeadOf(sig, q), p, sig.arguments);
    if sig.spelling == Statement {
      StatementHeadAt(s, q, sig);
      FirstAlternative(s, q, HeadOf(sig, q), CoreOf(s, sig, q));
    } else {
      AssignmentHeadAt(s, q, sig);
      StatementHeadFails(s, q, sig);
      SecondAlternative(s, q, HeadOf(sig, q), CoreOf(s, sig, q));
    }
  }

  lemma SigAtLocal(s: string, k: nat, isLocal: bool, c: Core)
    requires isLocal && LiteralAt(s, k, "local ") && CoreAt(s, k + 6) == Some(c)
    ensures CoreIn(s, k, c) && SigAt(s, k) == Some(Groups(s, k, isLocal, c))
  {
  }

  lemma SigAtPlain(s: string, k: nat, isLocal: bool, c: Core)
    requires !isLocal && (!LiteralAt(s, k, "local ") || CoreAt(s, k + 6) == None)
    requires CoreAt(s, k) == Some(c)
    ensures CoreIn(s, k, c) && SigAt(s, k) == Some(Groups(s, k, isLocal, c))
  {
  }

  /** The groups of a core whose name and arguments are those of a signature, as known literals. */
  lemma GroupsAre(s: string, k: nat, sig: Signature, from: nat, paren: nat, stop: nat)
    requires k <= from && from + |sig.name| <= paren < |s| && s[paren] == '('
    requires paren + 1 + |sig.arguments| < stop <= |s|
    requires LiteralAt(s, from, sig.name) && LiteralAt(s, paren + 1, sig.arguments)
    ensures CoreIn(s, k, Core(Head(sig.spelling, from, from + |sig.name|, paren), paren + 1 + |sig.arguments|, stop))
    ensures Groups(s, k, sig.isLocal, Core(Head(sig.spelling, from, from + |sig.name|, paren), paren + 1 + |sig.arguments|, stop))
         == Matched(sig, stop - k)
  {
    SliceOf(s, from, sig.name);
    SliceOf(s, paren + 1, sig.arguments);
  }

  /** The name of a signature body written out at offset `q` lies before its `(`. */
  lemma NameLaid(s: string, q: nat, sig: Signature)
    requires Laid(s, q, sig)
    ensures LiteralAt(s, NameFrom(sig, q), sig.name) && NameFrom(sig, q) + |sig.name| <= ParenOf(sig, q)
    ensures ParensLaid(s, ParenOf(sig, q), sig.arguments)
  {
  }

  /** The groups of a signature body written out at offset `q`, for a match that starts at `k`. */
  lemma GroupsOf(s: string, k: nat, q: nat, sig: Signature)
    requires k <= q && Laid(s, q, sig) && DelimiterAt(s, BodyEnd(sig, q))
    ensures CoreIn(s, k, CoreOf(s, sig, q))
    ensures Groups(s, k, sig.isLocal, CoreOf(s, sig, q)) == Matched(sig, Past(s, BodyEnd(sig, q)) - k)
  {
    var from, paren, stop := NameFrom(sig, q), ParenOf(sig, q), Past(s, BodyEnd(sig, q));
    NameLaid(s, q, sig);
    assert CoreOf(s, sig, q) == Core(Head(sig.spelling, from, from + |sig.name|, paren), paren + 1 + |sig.arguments|, stop);
    GroupsAre(s, k, sig, from, paren, stop);
  }

  lemma LocalParts(s: string, k: nat, sig: Signature)
    requires sig.isLocal && LiteralAt(s, k, Render(sig)) && DelimiterAt(s, k + |Render(sig)|)
    ensures LiteralAt(s, k, "local ") && LiteralAt(s, k + 6, Body(sig))
    ensures DelimiterAt(s, BodyEnd(sig, k + 6)) && Expected(sig, s, k) == Matched(sig, Past(s, BodyEnd(sig, k + 6)) - k)
  {
    assert Render(sig) == "local " + Body(sig);
    BodyEnds(sig, k + 6);
    Concat(s, k, "local ", Body(sig), k + 6);
  }

  /** A written-out body at offset `q`, followed by a delimiter: the core FunctionRegex finds there and its groups. */
  lemma BodyCore(s: string, k: nat, q: nat, sig: Signature)
    requires k <= q && Writable(sig) && LiteralAt(s, q, Body(sig)) && DelimiterAt(s, BodyEnd(sig, q))
    ensures Laid(s, q, sig) && CoreAt(s, q) == Some(CoreOf(s, sig, q)) && CoreIn(s, k, CoreOf(s, sig, q))
    ensures Groups(s, k, sig.isLocal, CoreOf(s, sig, q)) == Matched(sig, Past(s, BodyEnd(sig, q)) - k)
  {
    BodyLaid(s, q, sig);
    GroupsOf(s, k, q, sig);
    BodyAt(s, q, sig);
  }

  lemma LocalSignatureAt(s: string, k: nat, sig: Signature)
    requires sig.isLocal && Writable(sig) && LiteralAt(s, k, Render(sig)) && DelimiterAt(s, k + |Render(sig)|)
    ensures SigAt(s, k) == Some(Expected(sig, s, k))
  {
    LocalCore(s, k, sig);
    SigAtLocal(s, k, sig.isLocal, CoreOf(s, sig, k + 6));
  }

  /** A local signature at `k`: `local ` there, and after it the core of an alternative whose groups are the ones expected. */
  lemma LocalCore(s: string, k: nat, sig: Signature)
    requires sig.isLocal && Writable(sig) && LiteralAt(s, k, Render(sig)) && DelimiterAt(s, k + |Render(sig)|)
    ensures LiteralAt(s, k, "local ") && CoreAt(s, k + 6) == Some(CoreOf(s, sig, k + 6)) && CoreIn(s, k, CoreOf(s, sig, k + 6))
    ensures Groups(s, k, sig.isLocal, CoreOf(s, sig, k + 6)) == Expected(sig, s, k)
  {
    LocalParts(s, k, sig);
    BodyCore(s, k, k + 6, sig);
  }

  lemma PlainParts(s: string, k: nat, sig: Signature)
    requires !sig.isLocal && LiteralAt(s, k, Render(sig)) && DelimiterAt(s, k + |Render(sig)|)
    ensures LiteralAt(s, k, Body(sig))
    ensures DelimiterAt(s, BodyEnd(sig, k)) && Expected(sig, s, k) == Matched(sig, Past(s, BodyEnd(sig, k)) - k)
  {
    assert Render(sig) == Body(sig);
    BodyEnds(sig, k);
  }

  lemma PlainSignatureAt(s: string, k: nat, sig: Signature)
    requires !sig.isLocal && Writable(sig) && LiteralAt(s, k, Render(sig)) && DelimiterAt(s, k + |Render(sig)|)
    ensures SigAt(s, k) == Some(Expected(sig, s, k))
  {
    PlainParts(s, k, sig);
    BodyCore(s, k, k, sig);
    BodyNotLocal(s, k, sig);
    SigAtPlain(s, k, sig.isLocal, CoreOf(s, sig, k));
    assert SigAt(s, k) == Some(Groups(s, k, sig.isLocal, CoreOf(s, sig, k)));
    assert Groups(s, k, sig.isLocal, CoreOf(s, sig, k)) == Matched(sig, Past(s, BodyEnd(sig, k)) - k);
  }

  /** FunctionRegex at offset `k` of a text that holds a written-out signature there, followed by a delimiter. */
  lemma SignatureAt(s: string, k: nat, sig: Signature)
    requires Writable(sig) && LiteralAt(s, k, Render(sig)) && DelimiterAt(s, k + |Render(sig)|)
    ensures SigAt(s, k) == Some(Expected(sig, s, k))
  {
    if sig.isLocal {
      LocalSignatureAt(s, k, sig);
    } else {
      PlainSignatureAt(s, k, sig);
    }
  }

  lemma LiteralIn(pre: string, w: string, rest: string)
    ensures LiteralAt(pre + w + rest, |pre|, w)
  {
    LiteralIs(pre + w + rest, |pre|, w);
  }

  /**
   * FunctionRegex reads back a written-out signature, wherever it stands in
   * the text, when a delimiter or the end of the text follows it.
   */
  lemma SignatureRoundTrip(pre: string, sig: Signature, rest: string)
    requires Writable(sig)
    requires rest == [] || IsSpace(rest[0]) || rest[0] == '-'
    ensures SigAt(pre + Render(sig) + rest, |pre|)
         == Some(SigMatch(sig.isLocal,
                          if sig.spelling == Statement then sig.name else "",
                          if sig.spelling == Assignment then sig.name else "",
                          sig.arguments,
                          |Render(sig)| + (if rest == [] then 0 else 1)))
  {
    WrittenOut(pre, sig, rest);
    SignatureAt(pre + Render(sig) + rest, |pre|, sig);
  }

  lemma WrittenOut(pre: string, sig: Signature, rest: string)
    requires rest == [] || IsSpace(rest[0]) || rest[0] == '-'
    ensures LiteralAt(pre + Render(sig) + rest, |pre|, Render(sig))
    ensures DelimiterAt(pre + Render(sig) + rest, |pre| + |Render(sig)|)
    ensures Expected(sig, pre + Render(sig) + rest, |pre|)
         == SigMatch(sig.isLocal,
                     if sig.spelling == Statement then sig.name else "",
                     if sig.spelling == Assignment then sig.name else "",
                     sig.arguments,
                     |Render(sig)| + (if rest == [] then 0 else 1))
  {
    var s, k, r := pre + Render(sig) + rest, |pre|, Render(sig);
    LiteralIn(pre, r, rest);
    if rest != [] {
      assert s[k + |r|] == rest[0];
    }
  }

  /** EndRegex reads back an `end` followed by a delimiter or the end of the text. */
  lemma EndRoundTrip(pre: string, rest: string)
    requires rest == [] || IsSpace(rest[0]) || rest[0] == '-'
    ensures EndAt(pre + "end" + rest, |pre|) == Some(if rest == [] then 3 else 4)
  {
    var s := pre + "end" + rest;
    LiteralIn(pre, "end", rest);
    if rest != [] {
      assert s[|pre| + 3] == rest[0];
    }
  }
}
