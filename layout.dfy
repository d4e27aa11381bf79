/**
 * Lua text laid out as functions, each written out as a signature, the
 * functions nested in it and its `end`, with other text (statements,
 * expressions, comments, whitespace) before each function and before each
 * `end`, and what the scan of GlobalFunctionParser
 * (src/LuaMinifier/Services/GlobalFunctionParser.cs:44-86) finds in it: every
 * function written out with its `end` is found, at the offset where it is
 * written, with the functions written inside it as its nested functions, in
 * order, provided neither regex matches anywhere in that other text (`Plain`).
 * A function whose `end` is missing is not found, and neither is anything
 * written inside it; an `end` that closes no function ends the scan.
 *
 * The proofs evaluate `Frame` over a table of the text piece by piece: the
 * text between the pieces, each signature, and each `end`.
 */
module Layout {
  import opened Wrappers
  import opened Text
  import opened Patterns
  import opened Descriptor
  import opened Forest
  import opened Scanner

  /** A function written out: its signature, the functions written inside it, and the text before its `end`. */
  datatype Tree = Tree(sig: Signature, body: seq<Item>, gap: string)

  /** A function written out after some other text. */
  datatype Item = Item(space: string, tree: Tree)

  /** The text of a written-out function, from its signature through its `end`. */
  function Out(w: Tree): string
    decreases w
  {
    Render(w.sig) + Items(w.body) + w.gap + "end"
  }

  /** The text of functions written out one after the other, each after the text before it. */
  function Items(items: seq<Item>): string
    decreases items
  {
    if items == [] then "" else items[0].space + Out(items[0].tree) + Items(items[1..])
  }

  /** The text that comes first in `items` followed by `gap`. */
  function FirstSpace(items: seq<Item>, gap: string): string {
    if items == [] then gap else items[0].space
  }

  /**
   * A signature that EndRegex matches too: `end = function(ARGS)` with
   * whitespace after the name, where the test for `end` at :66 succeeds at
   * the offset of the signature itself.
   */
  predicate Quirky(sig: Signature) {
    sig.spelling == Assignment && !sig.isLocal && sig.name == "end" && sig.gaps.first != []
  }

  /** Text that begins with whitespace. */
  predicate SpaceFirst(s: string) {
    s != [] && IsSpace(s[0])
  }

  /**
   * A function laid out so that every piece ends where the next begins: a
   * signature that can be written out and is not also an `end`, whitespace
   * right after it, and, after each nested function, text that `Quiet`
   * accepts and that is not empty, as EndRegex needs its delimiter there.
   */
  predicate SoundTree(w: Tree)
    decreases w
  {
    Writable(w.sig) && !Quirky(w.sig) && SpaceFirst(FirstSpace(w.body, w.gap)) &&
    (w.body != [] ==> w.gap != [] && Quiet(w.gap)) && SoundItems(w.body)
  }

  /** Sound functions, each after some text, which is not empty and which `Quiet` accepts when it follows another function. */
  predicate SoundItems(items: seq<Item>)
    decreases items
  {
    items == [] ||
    (SoundTree(items[0].tree) &&
     (|items| > 1 ==> items[1].space != [] && Quiet(items[1].space)) && SoundItems(items[1..]))
  }

  /**
   * A sound function with only whitespace between its pieces: whitespace
   * after its signature, between the functions nested in it and before its
   * `end`.
   */
  predicate BlankTree(w: Tree)
    decreases w
  {
    Writable(w.sig) && !Quirky(w.sig) && w.gap != [] && IsGap(w.gap) &&
    FirstSpace(w.body, w.gap) != [] && BlankItems(w.body)
  }

  /** Functions with only whitespace between their pieces, each after whitespace, and after some whitespace when it follows another. */
  predicate BlankItems(items: seq<Item>)
    decreases items
  {
    items == [] ||
    (IsGap(items[0].space) && BlankTree(items[0].tree) &&
     (|items| > 1 ==> items[1].space != []) && BlankItems(items[1..]))
  }

  /** Neither FunctionRegex nor EndRegex matches at offset `m` of `lua`. */
  ghost predicate Silent(lua: string, m: nat) {
    SigAt(lua, m).None? && EndAt(lua, m).None?
  }

  /** Text of `lua` from `a` up to `b` in which neither FunctionRegex nor EndRegex matches at any offset. */
  ghost predicate Plain(lua: string, a: nat, b: nat) {
    forall m :: a <= m < b ==> Silent(lua, m)
  }

  /** A function written out at `k` of `lua` whose text before each nested function and before its `end` is `Plain`, and so on inside. */
  ghost predicate PlainTree(lua: string, k: nat, w: Tree)
    decreases w
  {
    match w
    case Tree(sig, body, gap) =>
      PlainItems(lua, SigEnd(sig, k), body) && Plain(lua, ItemsEnd(body, SigEnd(sig, k)), ItemsEnd(body, SigEnd(sig, k)) + |gap|)
  }

  /** Functions written out from `p` of `lua`, each after text that is `Plain`, and each `PlainTree`. */
  ghost predicate PlainItems(lua: string, p: nat, items: seq<Item>)
    decreases items
  {
    items == [] ||
    (Plain(lua, p, p + |items[0].space|) && PlainTree(lua, p + |items[0].space|, items[0].tree) &&
     PlainItems(lua, TreeEnd(items[0].tree, p + |items[0].space|), items[1..]))
  }

  /** The character at offset `j`, if there is one: the delimiter EndRegex takes after an `end`. */
  function Follow(lua: string, j: nat): string {
    if j < |lua| then [lua[j]] else []
  }

  /** The offset where a signature written out at `k` ends. */
  function SigEnd(sig: Signature, k: nat): (r: nat)
    ensures k < r
  {
    BodyEnd(sig, if sig.isLocal then k + 6 else k)
  }

  /** The offset where a function written out at `k` ends, just past its `end`. */
  function TreeEnd(w: Tree, k: nat): (r: nat)
    ensures k < r
    decreases w
  {
    ItemsEnd(w.body, SigEnd(w.sig, k)) + |w.gap| + 3
  }

  /** The offset where functions written out from `p` end. */
  function ItemsEnd(items: seq<Item>, p: nat): (r: nat)
    ensures p <= r
    decreases items
  {
    if items == [] then p else ItemsEnd(items[1..], TreeEnd(items[0].tree, p + |items[0].space|))
  }

  /** The header of a signature written out at `k`: the match there, the name written and the arguments it lists. */
  function HeaderFor(sig: Signature, lua: string, k: nat): Header {
    Header(Matched(sig, Past(lua, SigEnd(sig, k)) - k), sig.name, ArgumentList(sig.arguments))
  }

  /** The text of `lua` from `k` up to `j`, when both lie in it. */
  function Span(lua: string, k: nat, j: nat): (r: string)
    ensures k <= j <= |lua| ==> r == lua[k .. j]
  {
    if k <= j <= |lua| then lua[k .. j] else ""
  }

  /**
   * The function the scan finds for `w` written out at offset `k` of `lua`:
   * it starts there, carries the header of its signature, holds its own text
   * and the character after it, and has the functions written inside it as
   * its nested functions.
   */
  function Value(w: Tree, lua: string, k: nat): Func
    decreases w
  {
    Func(k, HeaderFor(w.sig, lua, k), Span(lua, k, Past(lua, TreeEnd(w, k))), Values(w.body, lua, SigEnd(w.sig, k)))
  }

  /** The functions the scan finds for `items` written out at offset `p` of `lua`. */
  function Values(items: seq<Item>, lua: string, p: nat): seq<Func>
    decreases items
  {
    if items == [] then []
    else [Value(items[0].tree, lua, p + |items[0].space|)] + Values(items[1..], lua, TreeEnd(items[0].tree, p + |items[0].space|))
  }

  /** What may follow an `end` that the scan stops or closes at: the end of the text, or whitespace that no `=` follows. */
  predicate Closes(lua: string, j: nat) {
    j == |lua| ||
    (j < |lua| && IsSpace(lua[j]) && (RunEnd(lua, j, Whitespace) == |lua| || lua[RunEnd(lua, j, Whitespace)] != '='))
  }

  /** Text that may follow an `end`, as `Closes` says, on its own. */
  predicate Quiet(rest: string) {
    rest == [] || (IsSpace(rest[0]) && (RunEnd(rest, 0, Whitespace) == |rest| || rest[RunEnd(rest, 0, Whitespace)] != '='))
  }

  /** The text `w` stands in `s` at offset `k`. */
  predicate Written(s: string, k: nat, w: string) {
    k + |w| <= |s| && forall i {:trigger Glyph(w, i)} :: 0 <= i < |w| ==> s[k + i] == Glyph(w, i)
  }

  /** The character at `i` of `w`. */
  function Glyph(w: string, i: nat): char
    requires i < |w|
  {
    w[i]
  }

  // ----- The pieces of the text, one at a time -----

  /** Text that stands at `k` occurs there as a literal. */
  lemma WrittenIs(s: string, k: nat, w: string)
    requires Written(s, k, w)
    ensures LiteralAt(s, k, w)
  {
    forall m | 0 <= m < |w| ensures s[k + m] == w[m] {
      assert s[k + m] == Glyph(w, m);
    }
    LiteralIs(s, k, w);
  }

  /** The first character of text that stands at `k`. */
  lemma FirstOf(s: string, k: nat, w: string)
    requires Written(s, k, w) && w != []
    ensures k < |s| && s[k] == w[0]
  {
    assert s[k + 0] == Glyph(w, 0);
  }

  /** Two pieces of text one after the other, taken apart at `q`. */
  lemma Split2(s: string, p: nat, x: string, a: string, b: string, q: nat)
    requires Written(s, p, x) && x == a + b && q == p + |a|
    ensures Written(s, p, a) && Written(s, q, b)
  {
    forall i | 0 <= i < |a| ensures s[p + i] == a[i] {
      assert s[p + i] == Glyph(x, i);
      assert x[i] == a[i];
    }
    forall i | 0 <= i < |b| ensures s[q + i] == b[i] {
      assert s[p + (|a| + i)] == Glyph(x, |a| + i);
      assert x[|a| + i] == b[i];
    }
  }

  /** Three pieces of text one after the other, taken apart at `q` and `j`. */
  lemma Split3(s: string, p: nat, x: string, a: string, b: string, c: string, q: nat, j: nat)
    requires Written(s, p, x) && x == a + b + c && q == p + |a| && j == q + |b|
    ensures Written(s, p, a) && Written(s, q, b) && Written(s, j, c)
  {
    Split2(s, p, x, a + b, c, j);
    Split2(s, p, a + b, a, b, q);
  }

  /** Neither regex matches at whitespace. */
  lemma SpaceAt(s: string, a: nat)
    requires a < |s| && IsSpace(s[a])
    ensures SigAt(s, a) == None && EndAt(s, a) == None
  {
    NotLocalAt(s, a);
    NoCoreAt(s, a);
  }

  /** Whitespace that stands at `p` is whitespace character by character. */
  lemma GapWritten(s: string, p: nat, g: string)
    requires Written(s, p, g) && IsGap(g)
    ensures p + |g| <= |s| && forall m :: p <= m < p + |g| ==> IsSpace(s[m])
  {
    WrittenIs(s, p, g);
    GapAt(s, p, g);
  }

  /** Whitespace that stands at `p` is `Plain`. */
  lemma GapPlain(s: string, p: nat, g: string)
    requires Written(s, p, g) && IsGap(g)
    ensures Plain(s, p, p + |g|)
  {
    GapWritten(s, p, g);
    forall m | p <= m < p + |g| ensures SigAt(s, m).None? && EndAt(s, m).None? {
      SpaceAt(s, m);
    }
  }

  /** The scan passes over `Plain` text, whatever function is open. */
  lemma {:induction false} SkipPlain(lua: string, t: Table, a: nat, b: nat, open: Option<Pending>, acc: seq<Func>)
    requires Tabulates(lua, t) && a <= b <= |lua| && Plain(lua, a, b)
    requires open.Some? ==> open.value.start <= a
    ensures Frame(lua, t, a, open, acc) == Frame(lua, t, b, open, acc)
    decreases b - a
  {
    if a < b {
      assert Silent(lua, a);
      assert t.sig[a] == HeaderAt(SigAt(lua, a));
      assert t.end[a] == EndAt(lua, a);
      FrameAtOther(lua, t, a, open, acc);
      EndStepOn(lua, t, a, a, open, acc);
      SkipPlain(lua, t, a + 1, b, open, acc);
    }
  }

  /** At an `end` that `Closes` follows, EndRegex matches and FunctionRegex does not. */
  lemma EndNotSignature(s: string, e: nat)
    requires LiteralAt(s, e, "end") && Closes(s, e + 3)
    ensures SigAt(s, e) == None && EndAt(s, e) == Some(if e + 3 == |s| then 3 else 4)
  {
    CharsAt(s, e, "end");
    NotLocalAt(s, e);
    assert !LiteralAt(s, e, "function");
    if e + 3 == |s| {
      RunEndIs(s, e, e + 3, WordChars);
    } else {
      WordRunAt(s, e, "end");
    }
  }

  /** The same, as a table of the text holds it. */
  lemma EndInTable(lua: string, t: Table, e: nat)
    requires Tabulates(lua, t) && Written(lua, e, "end") && Closes(lua, e + 3)
    ensures e < |lua| && t.sig[e] == None && t.end[e] == Some(if e + 3 == |lua| then 3 else 4)
  {
    WrittenIs(lua, e, "end");
    EndNotSignature(lua, e);
    assert t.sig[e] == HeaderAt(SigAt(lua, e));
    assert t.end[e] == EndAt(lua, e);
  }

  /** With no function open, an `end` ends the scan, one before it. */
  lemma StopAtEnd(lua: string, t: Table, e: nat, acc: seq<Func>)
    requires Tabulates(lua, t) && Written(lua, e, "end") && Closes(lua, e + 3)
    ensures Frame(lua, t, e, None, acc) == Done(acc, e - 1)
  {
    EndInTable(lua, t, e);
    FrameAtOther(lua, t, e, None, acc);
    EndStepStray(lua, t, e, e, acc);
  }

  /** With a function open, an `end` closes it, through the delimiter after the `end`. */
  lemma CloseAtEnd(lua: string, t: Table, e: nat, p: Pending, acc: seq<Func>)
    requires Tabulates(lua, t) && Written(lua, e, "end") && Closes(lua, e + 3) && p.start <= e
    ensures Past(lua, e + 3) - 1 < |lua|
    ensures Frame(lua, t, e, Some(p), acc) ==
            Frame(lua, t, Past(lua, e + 3), None, acc + [Close(lua, p, Past(lua, e + 3) - 1)])
  {
    EndInTable(lua, t, e);
    FrameAtOther(lua, t, e, Some(p), acc);
    EndStepClose(lua, t, e, e, p, acc, e + t.end[e].value - 1);
  }

  /** A written-out signature that is not `Quirky` is not taken for an `end`. */
  lemma RenderNotEnd(s: string, k: nat, sig: Signature)
    requires Writable(sig) && !Quirky(sig) && LiteralAt(s, k, Render(sig))
    ensures EndAt(s, k) == None
  {
    if sig.isLocal {
      CharOf(s, k, Render(sig), k, 'l');
    } else {
      assert Render(sig) == Body(sig);
      BodyLaid(s, k, sig);
      if sig.spelling == Statement {
        CharOf(s, k, "function", k, 'f');
      } else if LiteralAt(s, k, "end") {
        var n := sig.name;
        NameEnd(s, k, sig);
        CharsAt(s, k, n);
        CharsAt(s, k, "end");
        if |n| > 3 {
          assert IsWordChar(s[k + 3]);
        } else if |n| == 3 {
          assert n == "end";
        }
      }
    }
  }

  /** A written-out signature begins with a word character: `l`, `f` or the first character of its name. */
  lemma RenderLeads(s: string, k: nat, sig: Signature)
    requires Writable(sig) && LiteralAt(s, k, Render(sig))
    ensures k < |s| && IsWordChar(s[k])
  {
    if sig.isLocal {
      CharOf(s, k, Render(sig), k, 'l');
    } else {
      assert Render(sig) == Body(sig);
      BodyLaid(s, k, sig);
      if sig.spelling == Statement {
        CharOf(s, k, "function", k, 'f');
      } else {
        CharOf(s, k, sig.name, k, sig.name[0]);
      }
    }
  }

  // ----- Taking the text apart -----

  /** A written-out function is its signature, the functions inside it, its gap and its `end`. */
  lemma OutIs(w: Tree)
    ensures Out(w) == Render(w.sig) + Items(w.body) + w.gap + "end"
  {
  }

  /** Functions written out one after the other are the first one, after its whitespace, and the others. */
  lemma ItemsIs(items: seq<Item>)
    requires items != []
    ensures Items(items) == items[0].space + Out(items[0].tree) + Items(items[1..])
  {
  }

  /** A signature written out at `k` ends after its text. */
  lemma SigEnds(sig: Signature, k: nat)
    ensures SigEnd(sig, k) == k + |Render(sig)|
  {
    BodyEnds(sig, if sig.isLocal then k + 6 else k);
  }

  /** A function written out at `k` ends after its text. */
  lemma {:induction false} TreeEnds(w: Tree, k: nat)
    ensures TreeEnd(w, k) == k + |Out(w)|
    decreases w, 1
  {
    OutIs(w);
    SigEnds(w.sig, k);
    ItemsEnds(w.body, SigEnd(w.sig, k));
  }

  /** Functions written out from `p` end after their text. */
  lemma {:induction false} ItemsEnds(items: seq<Item>, p: nat)
    ensures ItemsEnd(items, p) == p + |Items(items)|
    decreases items, 0
  {
    if items != [] {
      ItemsIs(items);
      TreeEnds(items[0].tree, p + |items[0].space|);
      ItemsEnds(items[1..], TreeEnd(items[0].tree, p + |items[0].space|));
    }
  }

  /** A written-out function, taken apart into its signature, the functions inside it, its gap and its `end`. */
  lemma OutAt(s: string, k: nat, w: Tree)
    requires Written(s, k, Out(w))
    ensures var p := SigEnd(w.sig, k);
      Written(s, k, Render(w.sig)) && Written(s, p, Items(w.body)) &&
      Written(s, ItemsEnd(w.body, p), w.gap) && Written(s, ItemsEnd(w.body, p) + |w.gap|, "end")
  {
    var r, i := Render(w.sig), Items(w.body);
    var p := SigEnd(w.sig, k);
    OutIs(w);
    SigEnds(w.sig, k);
    ItemsEnds(w.body, p);
    Split3(s, k, Out(w), r + i, w.gap, "end", ItemsEnd(w.body, p), ItemsEnd(w.body, p) + |w.gap|);
    Split2(s, k, r + i, r, i, p);
  }

  /** The signature of a function written out at `k`. */
  lemma RenderIn(s: string, k: nat, w: Tree)
    requires Written(s, k, Out(w))
    ensures Written(s, k, Render(w.sig))
  {
    OutAt(s, k, w);
  }

  /** The functions inside a function written out at `k`, after its signature. */
  lemma BodyIn(s: string, k: nat, w: Tree, p: nat)
    requires Written(s, k, Out(w)) && p == SigEnd(w.sig, k)
    ensures Written(s, p, Items(w.body))
  {
    OutAt(s, k, w);
  }

  /** The whitespace before the `end` of a function written out at `k`. */
  lemma GapIn(s: string, k: nat, w: Tree, g: nat)
    requires Written(s, k, Out(w)) && g == ItemsEnd(w.body, SigEnd(w.sig, k))
    ensures Written(s, g, w.gap)
  {
    OutAt(s, k, w);
  }

  /** The `end` of a function written out at `k`. */
  lemma EndIn(s: string, k: nat, w: Tree, e: nat)
    requires Written(s, k, Out(w)) && e == ItemsEnd(w.body, SigEnd(w.sig, k)) + |w.gap|
    ensures Written(s, e, "end")
  {
    OutAt(s, k, w);
  }

  /** The first of functions written out one after the other, after its whitespace, and the others, taken apart. */
  lemma ItemsAt(s: string, p: nat, items: seq<Item>, q: nat, j: nat)
    requires items != [] && Written(s, p, Items(items))
    requires q == p + |items[0].space| && j == TreeEnd(items[0].tree, q)
    ensures Written(s, p, items[0].space) && Written(s, q, Out(items[0].tree)) && Written(s, j, Items(items[1..]))
  {
    ItemsIs(items);
    TreeEnds(items[0].tree, q);
    Split3(s, p, Items(items), items[0].space, Out(items[0].tree), Items(items[1..]), q, j);
  }

  /** The first of functions written out at `p`, after its whitespace. */
  lemma HeadIn(s: string, p: nat, items: seq<Item>, q: nat)
    requires items != [] && Written(s, p, Items(items)) && q == p + |items[0].space|
    ensures Written(s, q, Out(items[0].tree))
  {
    ItemsAt(s, p, items, q, TreeEnd(items[0].tree, q));
  }

  /** The functions written out after the first of those at `p`. */
  lemma TailIn(s: string, p: nat, items: seq<Item>, j: nat)
    requires items != [] && Written(s, p, Items(items)) && j == TreeEnd(items[0].tree, p + |items[0].space|)
    ensures Written(s, j, Items(items[1..]))
  {
    ItemsAt(s, p, items, p + |items[0].space|, j);
  }

  /** A written-out function begins with a word character. */
  lemma LeadsWithWord(s: string, k: nat, w: Tree)
    requires SoundTree(w) && Written(s, k, Out(w))
    ensures k < |s| && IsWordChar(s[k])
  {
    OutAt(s, k, w);
    WrittenIs(s, k, Render(w.sig));
    RenderLeads(s, k, w.sig);
  }

  /**
   * Text that `Quiet` accepts, followed by the end of the text or by a word
   * character, as after it a function or an `end` begins: what follows an
   * `end` there.
   */
  lemma QuietAt(s: string, j: nat, g: string)
    requires Written(s, j, g) && Quiet(g)
    requires j + |g| == |s| || (g != [] && j + |g| < |s| && IsWordChar(s[j + |g|]))
    ensures Closes(s, j)
  {
    if g != [] {
      var r := RunEnd(g, 0, Whitespace);
      RunEndAll(g, 0, Whitespace);
      forall m | j <= m < j + r ensures IsSpace(s[m]) {
        assert s[j + (m - j)] == Glyph(g, m - j);
      }
      if r < |g| {
        assert s[j + r] == Glyph(g, r);
        RunEndIs(s, j, j + r, Whitespace);
      } else {
        RunEndIs(s, j, j + r, Whitespace);
      }
      assert s[j + 0] == Glyph(g, 0);
    }
  }

  /** The text of a function written out at `k` and ending at `j`, through the delimiter after it. */
  lemma SourceAt(s: string, k: nat, x: string, j: nat)
    requires Written(s, k, x) && j == k + |x|
    ensures Past(s, j) <= |s| && s[k .. Past(s, j)] == x + Follow(s, j)
  {
    forall m | 0 <= m < |x| ensures s[k .. j][m] == x[m] {
      assert s[k + m] == Glyph(x, m);
    }
    assert s[k .. j] == x;
    if j < |s| {
      assert s[k .. j + 1] == s[k .. j] + [s[j]];
    }
  }

  // ----- The scan over written-out functions -----

  /** The scan from `a` with no function open and `acc` found goes on as the scan from `b` with `mid` found. */
  ghost predicate Reaches(lua: string, t: Table, a: nat, acc: seq<Func>, b: nat, mid: seq<Func>)
    requires Fits(lua, t)
  {
    Frame(lua, t, a, None, acc) == Frame(lua, t, b, None, mid)
  }

  /** The scan from `a` with no function open and `acc` found ends with `found`, its cursor at `c`. */
  ghost predicate Ends(lua: string, t: Table, a: nat, acc: seq<Func>, found: seq<Func>, c: int)
    requires Fits(lua, t)
  {
    Frame(lua, t, a, None, acc) == Done(found, c)
  }

  /** A signature at `k` whose nested scan stops at `cursor`, before the `end` of the function: the scan goes on from there with the function open. */
  lemma OpenStep(lua: string, t: Table, k: nat, h: Header, n: nat, kids: seq<Func>, e: nat, acc: seq<Func>)
    requires Fits(lua, t) && k < |lua| && t.sig[k] == Some(h) && t.end[k].None? && k < e
    requires k + h.m.length == n && Ends(lua, t, n, [], kids, e - 1)
    ensures Frame(lua, t, k, None, acc) == Frame(lua, t, e, Some(Pending(k, h, kids)), acc)
  {
    FrameAtSignature(lua, t, k, None, acc, h);
    EndStepOn(lua, t, k, e - 1, Some(Pending(k, h, kids)), acc);
  }

  /** The functions `acc` found so far, then those the scan finds for `items` written out at `p`. */
  function Found(acc: seq<Func>, items: seq<Item>, lua: string, p: nat): seq<Func> {
    acc + Values(items, lua, p)
  }

  /** The scan reaches past the first of written-out functions and then finds the others: it finds them all. */
  lemma LinkFound(lua: string, t: Table, a: nat, b: nat, c: int, acc: seq<Func>, items: seq<Item>, p: nat, q: nat, j: nat)
    requires Fits(lua, t) && items != [] && q == p + |items[0].space| && j == TreeEnd(items[0].tree, q)
    requires Reaches(lua, t, a, acc, b, acc + [Value(items[0].tree, lua, q)])
    requires Ends(lua, t, b, acc + [Value(items[0].tree, lua, q)], Found(acc + [Value(items[0].tree, lua, q)], items[1..], lua, j), c)
    ensures Ends(lua, t, a, acc, Found(acc, items, lua, p), c)
  {
    ValuesIs(acc, items, lua, p, q, j);
  }

  /** The functions found after `acc` for functions written out at `p`: the first one, then the others. */
  lemma ValuesIs(acc: seq<Func>, items: seq<Item>, lua: string, p: nat, q: nat, j: nat)
    requires items != [] && q == p + |items[0].space| && j == TreeEnd(items[0].tree, q)
    ensures Found(acc + [Value(items[0].tree, lua, q)], items[1..], lua, j) == Found(acc, items, lua, p)
  {
    ValuesFirst(items, lua, p);
    Regroup(acc, [Value(items[0].tree, lua, q)], Values(items[1..], lua, j));
  }

  /** The functions found for functions written out at `p`: the first one, then the others. */
  lemma ValuesFirst(items: seq<Item>, lua: string, p: nat)
    requires items != []
    ensures Values(items, lua, p) == [Value(items[0].tree, lua, p + |items[0].space|)] + Values(items[1..], lua, TreeEnd(items[0].tree, p + |items[0].space|))
  {
  }

  /** With nothing found before them, the functions found are those of the written-out functions alone. */
  lemma FoundFirst(items: seq<Item>, lua: string, p: nat)
    ensures Found([], items, lua, p) == Values(items, lua, p)
  {
  }

  /** Concatenation regroups. */
  lemma Regroup(a: seq<Func>, b: seq<Func>, c: seq<Func>)
    ensures a + b + c == a + (b + c)
  {
  }

  /** FunctionRegex at a written-out signature at `k` that ends at `p`, before whitespace. */
  lemma SignatureEndsAt(s: string, k: nat, sig: Signature, p: nat)
    requires Writable(sig) && LiteralAt(s, k, Render(sig)) && p == SigEnd(sig, k) && p < |s| && IsSpace(s[p])
    ensures SigAt(s, k) == Some(Expected(sig, s, k)) && k + Expected(sig, s, k).length == p + 1
  {
    SigEnds(sig, k);
    SignatureAt(s, k, sig);
  }

  /** The function closed through `last`, one before `Past` of the end of its text, is the one `Value` names. */
  lemma ValueIs(lua: string, w: Tree, k: nat, last: nat, kids: seq<Func>)
    requires k <= last < |lua| && last == Past(lua, TreeEnd(w, k)) - 1
    requires kids == Values(w.body, lua, SigEnd(w.sig, k))
    ensures Close(lua, Pending(k, HeaderFor(w.sig, lua, k), kids), last) == Value(w, lua, k)
  {
  }

  /** The function found for a written-out function holds its text through its `end` and the character after it. */
  lemma ValueText(w: Tree, lua: string, k: nat)
    requires Written(lua, k, Out(w))
    ensures Value(w, lua, k).source == Out(w) + Follow(lua, TreeEnd(w, k))
  {
    TreeEnds(w, k);
    SourceAt(lua, k, Out(w), TreeEnd(w, k));
  }

  /** Functions written out one after the other begin with the text before the first. */
  lemma ItemsLead(items: seq<Item>)
    requires items != [] && items[0].space != []
    ensures Items(items) != [] && Items(items)[0] == items[0].space[0]
  {
    ItemsIs(items);
  }

  /** Whitespace follows the signature of a sound function. */
  lemma SpaceAfter(s: string, k: nat, w: Tree)
    requires SoundTree(w) && Written(s, k, Out(w))
    ensures SigEnd(w.sig, k) < |s| && IsSpace(s[SigEnd(w.sig, k)])
  {
    var p := SigEnd(w.sig, k);
    if w.body != [] {
      BodyIn(s, k, w, p);
      ItemsLead(w.body);
      FirstOf(s, p, Items(w.body));
      assert SpaceFirst(w.body[0].space);
    } else {
      GapIn(s, k, w, p);
      FirstOf(s, p, w.gap);
    }
  }

  /** The header read off the match at a written-out signature names the function as written. */
  lemma HeaderForIs(sig: Signature, s: string, k: nat)
    requires IsWord(sig.name)
    ensures HeaderOf(Expected(sig, s, k)) == HeaderFor(sig, s, k)
  {
    NameOfMatched(sig, Expected(sig, s, k).length);
    SigEnds(sig, k);
  }

  /** At a written-out function, the table holds the header of its signature and no `end`, and whitespace follows the signature. */
  lemma SignatureRead(lua: string, t: Table, k: nat, w: Tree, n: nat)
    requires Tabulates(lua, t) && TreeAt(lua, k, w, n)
    ensures k < |lua| && t.sig[k] == Some(HeaderFor(w.sig, lua, k)) && t.end[k].None?
    ensures k + Expected(w.sig, lua, k).length == SigEnd(w.sig, k) + 1
  {
    var sig := w.sig;
    var p := SigEnd(sig, k);
    assert p < |lua| && IsSpace(lua[p]) by {
      SpaceAfter(lua, k, w);
    }
    assert LiteralAt(lua, k, Render(sig)) by {
      RenderIn(lua, k, w);
      WrittenIs(lua, k, Render(sig));
    }
    SignatureEndsAt(lua, k, sig, p);
    assert t.sig[k] == HeaderAt(SigAt(lua, k));
    HeaderForIs(sig, lua, k);
    RenderNotEnd(lua, k, sig);
    assert t.end[k] == EndAt(lua, k);
  }

  // ----- Layouts with only whitespace between their pieces -----

  /** Whitespace alone is text that `Quiet` accepts. */
  lemma BlankQuiet(g: string)
    requires IsGap(g)
    ensures Quiet(g)
  {
    if g != [] {
      RunEndIs(g, 0, |g|, Whitespace);
    }
  }

  /** A function with only whitespace between its pieces is sound. */
  lemma {:induction false} BlankSound(w: Tree)
    requires BlankTree(w)
    ensures SoundTree(w)
    decreases w, 1
  {
    BlankQuiet(w.gap);
    BlankItemsSound(w.body);
  }

  /** Functions with only whitespace between their pieces are sound. */
  lemma {:induction false} BlankItemsSound(items: seq<Item>)
    requires BlankItems(items)
    ensures SoundItems(items)
    decreases items, 0
  {
    if items != [] {
      BlankSound(items[0].tree);
      if |items| > 1 {
        BlankQuiet(items[1].space);
      }
      BlankItemsSound(items[1..]);
    }
  }

  /** The whitespace between the pieces of a function written out at `k` is `Plain`. */
  lemma {:induction false} BlankPlain(lua: string, k: nat, w: Tree)
    requires BlankTree(w) && Written(lua, k, Out(w))
    ensures PlainTree(lua, k, w)
    decreases w, 1
  {
    var p := SigEnd(w.sig, k);
    var g := ItemsEnd(w.body, p);
    OutAt(lua, k, w);
    BlankItemsPlain(lua, p, w.body);
    GapPlain(lua, g, w.gap);
  }

  /** The whitespace between and inside functions written out from `p` is `Plain`. */
  lemma {:induction false} BlankItemsPlain(lua: string, p: nat, items: seq<Item>)
    requires BlankItems(items) && Written(lua, p, Items(items))
    ensures PlainItems(lua, p, items)
    decreases items, 0
  {
    if items != [] {
      var q := p + |items[0].space|;
      var j := TreeEnd(items[0].tree, q);
      ItemsAt(lua, p, items, q, j);
      GapPlain(lua, p, items[0].space);
      BlankPlain(lua, q, items[0].tree);
      BlankItemsPlain(lua, j, items[1..]);
    }
  }

  // The layouts the scan lemmas below start from, each named once so that a
  // lemma hands its facts on to the next whole.

  /** A sound function written out at `k`, ending at `n`, that `Closes` follows, with `Plain` text between its pieces. */
  ghost predicate TreeAt(lua: string, k: nat, w: Tree, n: nat) {
    SoundTree(w) && Written(lua, k, Out(w)) && PlainTree(lua, k, w) && n == TreeEnd(w, k) && Closes(lua, n)
  }

  /** Sound functions written out at `p`, with `Plain` text between their pieces, the first of them ending at `j`, which `Closes` follows. */
  ghost predicate HeadAt(lua: string, p: nat, items: seq<Item>, j: nat) {
    items != [] && SoundItems(items) && Written(lua, p, Items(items)) && PlainItems(lua, p, items) &&
    j == TreeEnd(items[0].tree, p + |items[0].space|) && Closes(lua, j)
  }

  /**
   * Sound functions written out at `p` and ending at `g`, then `Plain` text
   * and, at `e`, an `end` that ends at `n` and that `Closes` follows; the
   * text is not empty and `Quiet` accepts it when it follows a function.
   */
  ghost predicate ListAt(lua: string, p: nat, items: seq<Item>, gap: string, g: nat, e: nat, n: nat) {
    SoundItems(items) && (items != [] ==> gap != [] && Quiet(gap)) &&
    Written(lua, p, Items(items)) && PlainItems(lua, p, items) && g == ItemsEnd(items, p) &&
    Written(lua, g, gap) && e == g + |gap| && Plain(lua, g, e) &&
    Written(lua, e, "end") && n == e + 3 && Closes(lua, n)
  }

  /** Sound functions written out at `p` and ending at `g`, then `Plain` text through the end of the text, which `Quiet` accepts when it follows a function. */
  ghost predicate ForestAt(lua: string, p: nat, items: seq<Item>, trail: string, g: nat) {
    SoundItems(items) && (items != [] ==> Quiet(trail)) &&
    Written(lua, p, Items(items)) && PlainItems(lua, p, items) && g == ItemsEnd(items, p) &&
    Written(lua, g, trail) && g + |trail| == |lua| && Plain(lua, g, |lua|)
  }

  /** The functions inside a function written out at `k`, and what follows them up to its `end`. */
  lemma BodyAt(lua: string, k: nat, w: Tree, n: nat, p: nat, g: nat, e: nat)
    requires TreeAt(lua, k, w, n) && p == SigEnd(w.sig, k) && g == ItemsEnd(w.body, p) && e == g + |w.gap|
    ensures ListAt(lua, p, w.body, w.gap, g, e, n) && p + 1 <= p + |FirstSpace(w.body, w.gap)| && k < p < e
  {
    BodyIn(lua, k, w, p);
    GapIn(lua, k, w, g);
    EndIn(lua, k, w, e);
  }

  /** The first of several functions written out at `p`, after its whitespace. */
  lemma HeadTree(lua: string, p: nat, items: seq<Item>, j: nat)
    requires HeadAt(lua, p, items, j)
    ensures TreeAt(lua, p + |items[0].space|, items[0].tree, j) && Plain(lua, p, p + |items[0].space|)
  {
    HeadIn(lua, p, items, p + |items[0].space|);
    PlainHead(lua, p, items);
  }

  /** The text before the first of functions written out from `p`, that function and the others, each `Plain` where `PlainItems` says. */
  lemma PlainHead(lua: string, p: nat, items: seq<Item>)
    requires items != [] && PlainItems(lua, p, items)
    ensures Plain(lua, p, p + |items[0].space|) && PlainTree(lua, p + |items[0].space|, items[0].tree)
    ensures PlainItems(lua, TreeEnd(items[0].tree, p + |items[0].space|), items[1..])
  {
  }

  /**
   * A written-out function at `k`, ending at `n`, that `Closes` follows: the
   * scan there, with no function open, finds it and goes on after the
   * delimiter that follows its `end`.
   */
  lemma {:induction false} TreeScan(lua: string, t: Table, k: nat, w: Tree, n: nat, acc: seq<Func>)
    requires Tabulates(lua, t) && TreeAt(lua, k, w, n)
    ensures Reaches(lua, t, k, acc, Past(lua, n), acc + [Value(w, lua, k)])
    decreases w, 3
  {
    var p := SigEnd(w.sig, k);
    var e := ItemsEnd(w.body, p) + |w.gap|;
    var h := HeaderFor(w.sig, lua, k);
    var kids := Values(w.body, lua, p);
    TreeOpens(lua, t, k, w, n, acc, p, ItemsEnd(w.body, p), e, h, kids);
    TreeCloses(lua, t, k, w, n, e, h, kids, acc);
  }

  /** The scan at a written-out function reads its signature and the functions inside it, and stops at its `end` with the function open. */
  lemma {:induction false} TreeOpens(lua: string, t: Table, k: nat, w: Tree, n: nat, acc: seq<Func>, p: nat, g: nat, e: nat, h: Header, kids: seq<Func>)
    requires Tabulates(lua, t) && TreeAt(lua, k, w, n)
    requires p == SigEnd(w.sig, k) && g == ItemsEnd(w.body, p) && e == g + |w.gap|
    requires h == HeaderFor(w.sig, lua, k) && kids == Values(w.body, lua, p)
    ensures k < e && e + 3 == n && Written(lua, e, "end")
    ensures Frame(lua, t, k, None, acc) == Frame(lua, t, e, Some(Pending(k, h, kids)), acc)
    decreases w, 2
  {
    BodyAt(lua, k, w, n, p, g, e);
    assert t.sig[k] == Some(h) && t.end[k].None? && k < |lua| && k + h.m.length == p + 1 by {
      SignatureRead(lua, t, k, w, n);
    }
    BodyScan(lua, t, k, h, p, w.body, w.gap, g, e, n, acc);
    FoundFirst(w.body, lua, p);
  }

  /** A signature at `k` read up to `p`, and the functions inside it written out after it: the scan stops at the `end` with the function open. */
  lemma {:induction false} BodyScan(lua: string, t: Table, k: nat, h: Header, p: nat, body: seq<Item>, gap: string, g: nat, e: nat, n: nat, acc: seq<Func>)
    requires Tabulates(lua, t) && ListAt(lua, p, body, gap, g, e, n) && p + 1 <= p + |FirstSpace(body, gap)| && k < p < e
    requires k < |lua| && t.sig[k] == Some(h) && t.end[k].None? && k + h.m.length == p + 1
    ensures Frame(lua, t, k, None, acc) == Frame(lua, t, e, Some(Pending(k, h, Found([], body, lua, p))), acc)
    decreases body, 5
  {
    ListScan(lua, t, p, p + 1, body, gap, g, e, n, []);
    OpenStep(lua, t, k, h, p + 1, Found([], body, lua, p), e, acc);
  }

  /** The `end` of a written-out function closes it, as `Value` says. */
  lemma TreeCloses(lua: string, t: Table, k: nat, w: Tree, n: nat, e: nat, h: Header, kids: seq<Func>, acc: seq<Func>)
    requires Tabulates(lua, t) && TreeAt(lua, k, w, n)
    requires k <= e && e + 3 == n && Written(lua, e, "end")
    requires h == HeaderFor(w.sig, lua, k) && kids == Values(w.body, lua, SigEnd(w.sig, k))
    ensures Frame(lua, t, e, Some(Pending(k, h, kids)), acc) == Frame(lua, t, Past(lua, n), None, acc + [Value(w, lua, k)])
  {
    CloseAtEnd(lua, t, e, Pending(k, h, kids), acc);
    TreeEnds(w, k);
    SourceAt(lua, k, Out(w), n);
    ValueIs(lua, w, k, Past(lua, n) - 1, kids);
  }

  /** The scan from inside the whitespace before the first of several written-out functions finds that one. */
  lemma {:induction false} ItemScan(lua: string, t: Table, p: nat, a: nat, items: seq<Item>, q: nat, j: nat, acc: seq<Func>)
    requires Tabulates(lua, t) && HeadAt(lua, p, items, j) && q == p + |items[0].space| && p <= a <= q
    ensures Reaches(lua, t, a, acc, Past(lua, j), acc + [Value(items[0].tree, lua, q)])
    decreases items, 1
  {
    PlainHead(lua, p, items);
    SkipPlain(lua, t, a, p + |items[0].space|, None, acc);
    HeadScan(lua, t, p, items, j, acc);
  }

  /** The scan at the first of several written-out functions finds it. */
  lemma {:induction false} HeadScan(lua: string, t: Table, p: nat, items: seq<Item>, j: nat, acc: seq<Func>)
    requires Tabulates(lua, t) && HeadAt(lua, p, items, j)
    ensures Reaches(lua, t, p + |items[0].space|, acc, Past(lua, j), acc + [Value(items[0].tree, lua, p + |items[0].space|)])
    decreases items, 0
  {
    HeadTree(lua, p, items, j);
    TreeScan(lua, t, p + |items[0].space|, items[0].tree, j, acc);
  }

  /** After written-out functions that text and an `end`, or text through the end of the text, follow: what follows an `end` there. */
  lemma ClosesAfter(lua: string, j: nat, items: seq<Item>, gap: string, g: nat)
    requires SoundItems(items) && Written(lua, j, Items(items)) && g == ItemsEnd(items, j)
    requires Quiet(gap) && Written(lua, g, gap)
    requires items != [] ==> items[0].space != [] && Quiet(items[0].space)
    requires items == [] ==> (gap != [] && g + |gap| < |lua| && IsWordChar(lua[g + |gap|])) || g + |gap| == |lua|
    ensures Closes(lua, j)
  {
    if items != [] {
      ClosesAtItem(lua, j, items);
    } else {
      QuietAt(lua, j, gap);
    }
  }

  /** Before the text that comes before a written-out function: what follows an `end` there. */
  lemma ClosesAtItem(lua: string, j: nat, items: seq<Item>)
    requires items != [] && SoundItems(items) && Written(lua, j, Items(items))
    requires items[0].space != [] && Quiet(items[0].space)
    ensures Closes(lua, j)
  {
    var q := j + |items[0].space|;
    ItemsAt(lua, j, items, q, TreeEnd(items[0].tree, q));
    LeadsWithWord(lua, q, items[0].tree);
    QuietAt(lua, j, items[0].space);
  }

  /** After the first of written-out functions that whitespace and an `end` follow: the first, the rest, and what follows the first. */
  lemma NextInList(lua: string, p: nat, items: seq<Item>, gap: string, g: nat, e: nat, n: nat, j: nat)
    requires ListAt(lua, p, items, gap, g, e, n) && items != []
    requires j == TreeEnd(items[0].tree, p + |items[0].space|)
    ensures HeadAt(lua, p, items, j) && ListAt(lua, j, items[1..], gap, g, e, n)
    ensures Past(lua, j) == j + 1 && j + 1 <= j + |FirstSpace(items[1..], gap)|
  {
    TailIn(lua, p, items, j);
    FirstOf(lua, e, "end");
    ClosesAfter(lua, j, items[1..], gap, g);
  }

  /** After the first of written-out functions that whitespace through the end of the text follows: the first, the rest, and what follows the first. */
  lemma NextInForest(lua: string, p: nat, items: seq<Item>, trail: string, g: nat, j: nat)
    requires ForestAt(lua, p, items, trail, g) && items != []
    requires j == TreeEnd(items[0].tree, p + |items[0].space|)
    ensures HeadAt(lua, p, items, j) && ForestAt(lua, j, items[1..], trail, g)
    ensures j <= Past(lua, j) <= j + |FirstSpace(items[1..], trail)|
  {
    TailIn(lua, p, items, j);
    ClosesAfter(lua, j, items[1..], trail, g);
    if j < |lua| {
      assert 1 <= |FirstSpace(items[1..], trail)| by {
        if items[1..] == [] {
          assert trail != [] by {
            assert g == j;
          }
        }
      }
    }
  }

  /**
   * Written-out functions at `p`, ending at `g`, then whitespace and an `end`
   * at `e` that `Closes` follows: the scan from `a`, inside the first
   * whitespace, finds them in order and stops one before the `end`.
   */
  lemma {:induction false} ListScan(lua: string, t: Table, p: nat, a: nat, items: seq<Item>, gap: string, g: nat, e: nat, n: nat, acc: seq<Func>)
    requires Tabulates(lua, t) && ListAt(lua, p, items, gap, g, e, n) && p <= a <= p + |FirstSpace(items, gap)|
    ensures Ends(lua, t, a, acc, Found(acc, items, lua, p), e - 1)
    decreases items, 4
  {
    if items == [] {
      ListEnds(lua, t, p, a, items, gap, g, e, n, acc);
    } else {
      var q := p + |items[0].space|;
      var j := TreeEnd(items[0].tree, q);
      ListHead(lua, t, p, a, items, gap, g, e, n, acc, q, j);
      ListTail(lua, t, p, a, items, gap, g, e, n, acc, q, j);
    }
  }

  /** The scan past the first of written-out functions before whitespace and an `end` finds the others. */
  lemma {:induction false} ListTail(lua: string, t: Table, p: nat, a: nat, items: seq<Item>, gap: string, g: nat, e: nat, n: nat, acc: seq<Func>, q: nat, j: nat)
    requires Tabulates(lua, t) && items != [] && q == p + |items[0].space| && j == TreeEnd(items[0].tree, q)
    requires ListAt(lua, j, items[1..], gap, g, e, n) && j + 1 <= j + |FirstSpace(items[1..], gap)|
    requires Reaches(lua, t, a, acc, j + 1, acc + [Value(items[0].tree, lua, q)])
    ensures Ends(lua, t, a, acc, Found(acc, items, lua, p), e - 1)
    decreases items, 3
  {
    ListScan(lua, t, j, j + 1, items[1..], gap, g, e, n, acc + [Value(items[0].tree, lua, q)]);
    LinkFound(lua, t, a, j + 1, e - 1, acc, items, p, q, j);
  }

  /** No functions, whitespace at `p` and then an `end` at `e`: the scan from `a` inside the whitespace stops one before the `end`. */
  lemma ListEnds(lua: string, t: Table, p: nat, a: nat, items: seq<Item>, gap: string, g: nat, e: nat, n: nat, acc: seq<Func>)
    requires Tabulates(lua, t) && ListAt(lua, p, items, gap, g, e, n) && items == [] && p <= a <= p + |FirstSpace(items, gap)|
    ensures Ends(lua, t, a, acc, Found(acc, items, lua, p), e - 1)
  {
    SkipPlain(lua, t, a, e, None, acc);
    StopAtEnd(lua, t, e, acc);
    assert Found(acc, items, lua, p) == acc;
  }

  /** The first of written-out functions before whitespace and an `end`: the scan reads it, and the rest are laid out as `ListScan` needs them. */
  lemma ListHead(lua: string, t: Table, p: nat, a: nat, items: seq<Item>, gap: string, g: nat, e: nat, n: nat, acc: seq<Func>, q: nat, j: nat)
    requires Tabulates(lua, t) && ListAt(lua, p, items, gap, g, e, n) && items != [] && p <= a <= p + |FirstSpace(items, gap)|
    requires q == p + |items[0].space| && j == TreeEnd(items[0].tree, q)
    ensures ListAt(lua, j, items[1..], gap, g, e, n) && j + 1 <= j + |FirstSpace(items[1..], gap)|
    ensures Reaches(lua, t, a, acc, j + 1, acc + [Value(items[0].tree, lua, q)])
    decreases items, 2
  {
    NextInList(lua, p, items, gap, g, e, n, j);
    ItemScan(lua, t, p, a, items, q, j, acc);
  }

  /**
   * Written-out functions at `p`, ending at `g`, then whitespace through the
   * end of the text: the scan from `a`, inside the first whitespace, finds
   * them in order and ends at the end of the text.
   */
  lemma {:induction false} ForestScan(lua: string, t: Table, p: nat, a: nat, items: seq<Item>, trail: string, g: nat, acc: seq<Func>)
    requires Tabulates(lua, t) && ForestAt(lua, p, items, trail, g) && p <= a <= p + |FirstSpace(items, trail)|
    ensures Ends(lua, t, a, acc, Found(acc, items, lua, p), |lua|)
    decreases items, 4
  {
    if items == [] {
      ForestEnds(lua, t, p, a, items, trail, g, acc);
    } else {
      var q := p + |items[0].space|;
      var j := TreeEnd(items[0].tree, q);
      ForestHead(lua, t, p, a, items, trail, g, acc, q, j);
      ForestTail(lua, t, p, a, items, trail, g, acc, q, j);
    }
  }

  /** The scan past the first of written-out functions before whitespace through the end of the text finds the others. */
  lemma {:induction false} ForestTail(lua: string, t: Table, p: nat, a: nat, items: seq<Item>, trail: string, g: nat, acc: seq<Func>, q: nat, j: nat)
    requires Tabulates(lua, t) && items != [] && q == p + |items[0].space| && j == TreeEnd(items[0].tree, q)
    requires ForestAt(lua, j, items[1..], trail, g) && j <= Past(lua, j) <= j + |FirstSpace(items[1..], trail)|
    requires Reaches(lua, t, a, acc, Past(lua, j), acc + [Value(items[0].tree, lua, q)])
    ensures Ends(lua, t, a, acc, Found(acc, items, lua, p), |lua|)
    decreases items, 3
  {
    ForestScan(lua, t, j, Past(lua, j), items[1..], trail, g, acc + [Value(items[0].tree, lua, q)]);
    LinkFound(lua, t, a, Past(lua, j), |lua|, acc, items, p, q, j);
  }

  /** No functions and whitespace through the end of the text: the scan from inside it ends at the end of the text. */
  lemma ForestEnds(lua: string, t: Table, p: nat, a: nat, items: seq<Item>, trail: string, g: nat, acc: seq<Func>)
    requires Tabulates(lua, t) && ForestAt(lua, p, items, trail, g) && items == [] && p <= a <= p + |FirstSpace(items, trail)|
    ensures Ends(lua, t, a, acc, Found(acc, items, lua, p), |lua|)
  {
    SkipPlain(lua, t, a, |lua|, None, acc);
    assert Found(acc, items, lua, p) == acc;
  }

  /** The first of written-out functions before whitespace through the end of the text: the scan reads it, and the rest are laid out as `ForestScan` needs them. */
  lemma ForestHead(lua: string, t: Table, p: nat, a: nat, items: seq<Item>, trail: string, g: nat, acc: seq<Func>, q: nat, j: nat)
    requires Tabulates(lua, t) && ForestAt(lua, p, items, trail, g) && items != [] && p <= a <= p + |FirstSpace(items, trail)|
    requires q == p + |items[0].space| && j == TreeEnd(items[0].tree, q)
    ensures ForestAt(lua, j, items[1..], trail, g) && j <= Past(lua, j) <= j + |FirstSpace(items[1..], trail)|
    ensures Reaches(lua, t, a, acc, Past(lua, j), acc + [Value(items[0].tree, lua, q)])
    decreases items, 2
  {
    NextInForest(lua, p, items, trail, g, j);
    ItemScan(lua, t, p, a, items, q, j, acc);
  }
}
