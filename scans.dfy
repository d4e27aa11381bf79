/**
 * What the scan of a whole text (ParseFunctions,
 * src/LuaMinifier/Services/GlobalFunctionParser.cs:13-18 with the loop at
 * :44-86) gives on texts of a known shape: every function written out with
 * its `end` is found, whatever other text lies between the functions and
 * inside them as long as neither regex matches in it, a function whose
 * `end` is missing is not, an `end`
 * that closes no function ends the scan, a text without any `end` yields no
 * function, and `end = function()` at the end of the text is the case where
 * `Substring` is handed a length past the text.
 */
module Scans {
  import opened Wrappers
  import opened Text
  import opened Patterns
  import opened Descriptor
  import opened Forest
  import opened Scanner
  import opened Layout

  /** A text stands in itself from its start. */
  lemma WrittenWhole(s: string)
    ensures Written(s, 0, s)
  {
    forall i | 0 <= i < |s| ensures s[0 + i] == Glyph(s, i) {
    }
  }

  /** Whitespace after an `end`, as `Closes` takes it, is text after that offset that `Quiet` accepts. */
  lemma QuietCloses(s: string, j: nat)
    requires j <= |s|
    ensures Closes(s, j) <==> Quiet(s[j..])
  {
    if j < |s| {
      assert s[j..][0] == s[j];
      RunEndShift(s, j, 0, Whitespace);
      var r := RunEnd(s[j..], 0, Whitespace);
      if r < |s[j..]| {
        assert s[j..][r] == s[j + r];
      }
    }
  }

  /**
   * Sound functions written out one after the other from the start of the
   * text, then other text through its end, with neither regex matching in
   * the text between and inside them or in the text after them: the scan
   * finds each of them, where it is written, with the functions written
   * inside it as its nested functions, and ends at the end of the text.
   */
  lemma ScanFinds(items: seq<Item>, trail: string)
    requires SoundItems(items) && (items != [] ==> Quiet(trail))
    requires PlainItems(Items(items) + trail, 0, items)
    requires Plain(Items(items) + trail, |Items(items)|, |Items(items) + trail|)
    ensures var lua := Items(items) + trail;
      Scan(lua) == Done(Values(items, lua, 0), |lua|)
  {
    var lua := Items(items) + trail;
    var g := ItemsEnd(items, 0);
    ItemsEnds(items, 0);
    WrittenWhole(lua);
    Split2(lua, 0, lua, Items(items), trail, g);
    ForestScan(lua, TableOf(lua), 0, 0, items, trail, g, []);
    FoundFirst(items, lua, 0);
  }

  /**
   * A sound function written out without its `end`, with neither regex
   * matching in the text between its pieces: the scan reads its signature
   * and the functions inside it, runs off the end of the text waiting for
   * the `end`, and finds nothing, not even the functions written inside it;
   * the cursor it leaves is one past the end of the text.
   */
  lemma Unterminated(w: Tree)
    requires SoundTree(w) && PlainTree(Render(w.sig) + Items(w.body) + w.gap, 0, w)
    ensures var lua := Render(w.sig) + Items(w.body) + w.gap;
      Scan(lua) == Done([], |lua| + 1)
  {
    var lua := Render(w.sig) + Items(w.body) + w.gap;
    var t := TableOf(lua);
    var p := SigEnd(w.sig, 0);
    var g := ItemsEnd(w.body, p);
    OpenText(w, lua, p, g);
    SignatureIn(lua, t, 0, w.sig, p);
    RunsOff(lua, t, HeaderFor(w.sig, lua, 0), p, w.body, w.gap, g);
  }

  /** The text of a sound function without its `end`, taken apart: its signature, then the functions inside it and text through the end of the text. */
  lemma OpenText(w: Tree, lua: string, p: nat, g: nat)
    requires SoundTree(w) && lua == Render(w.sig) + Items(w.body) + w.gap && PlainTree(lua, 0, w)
    requires p == SigEnd(w.sig, 0) && g == ItemsEnd(w.body, p)
    ensures Written(lua, 0, Render(w.sig)) && ForestAt(lua, p, w.body, w.gap, g)
    ensures p < |lua| && IsSpace(lua[p])
  {
    SigEnds(w.sig, 0);
    ItemsEnds(w.body, p);
    WrittenWhole(lua);
    Split3(lua, 0, lua, Render(w.sig), Items(w.body), w.gap, p, g);
    if w.body != [] {
      ItemsLead(w.body);
      FirstOf(lua, p, Items(w.body));
      assert SpaceFirst(w.body[0].space);
    } else {
      FirstOf(lua, p, w.gap);
    }
  }

  /** A written-out signature at `k` that whitespace follows, as the table holds it: its header, and no `end`. */
  lemma SignatureIn(lua: string, t: Table, k: nat, sig: Signature, p: nat)
    requires Tabulates(lua, t) && Writable(sig) && !Quirky(sig) && Written(lua, k, Render(sig))
    requires p == SigEnd(sig, k) && p < |lua| && IsSpace(lua[p])
    ensures k < |lua| && t.sig[k] == Some(HeaderFor(sig, lua, k)) && t.end[k].None?
    ensures k + HeaderFor(sig, lua, k).m.length == p + 1
  {
    WrittenIs(lua, k, Render(sig));
    SignatureEndsAt(lua, k, sig, p);
    HeaderForIs(sig, lua, k);
    RenderNotEnd(lua, k, sig);
    assert t.sig[k] == HeaderAt(SigAt(lua, k));
    assert t.end[k] == EndAt(lua, k);
  }

  /** A signature at offset 0, then functions and text through the end of the text: the scan waits for an `end` past the text. */
  lemma RunsOff(lua: string, t: Table, h: Header, p: nat, body: seq<Item>, gap: string, g: nat)
    requires Tabulates(lua, t) && ForestAt(lua, p, body, gap, g) && FirstSpace(body, gap) != []
    requires 0 < |lua| && t.sig[0] == Some(h) && t.end[0].None? && h.m.length == p + 1
    ensures Frame(lua, t, 0, None, []) == Done([], |lua| + 1)
  {
    ForestScan(lua, t, p, p + 1, body, gap, g, []);
    FrameAtSignature(lua, t, 0, None, [], h);
    EndStepOn(lua, t, 0, |lua|, Some(Pending(0, h, Found([], body, lua, p))), []);
  }

  /**
   * Sound functions written out from the start of the text, then other text
   * and an `end` that closes none of them, with neither regex matching in
   * the text between and inside the functions or before the `end`: the scan
   * finds those functions and stops one before that `end`, whatever follows
   * it, provided `Quiet` accepts it.
   */
  lemma StrayEnd(items: seq<Item>, gap: string, rest: string)
    requires SoundItems(items) && (items != [] ==> gap != [] && Quiet(gap)) && Quiet(rest)
    requires PlainItems(Items(items) + gap + "end" + rest, 0, items)
    requires Plain(Items(items) + gap + "end" + rest, |Items(items)|, |Items(items)| + |gap|)
    ensures Scan(Items(items) + gap + "end" + rest) ==
            Done(Values(items, Items(items) + gap + "end" + rest, 0), |Items(items)| + |gap| - 1)
  {
    StrayScan(items, gap, rest, Items(items) + gap + "end" + rest, |Items(items)|, |Items(items)| + |gap|);
  }

  /** Functions, other text, an `end` and then text that `Quiet` accepts: the scan from the start of the text stops one before that `end`. */
  lemma StrayScan(items: seq<Item>, gap: string, rest: string, lua: string, g: nat, e: nat)
    requires SoundItems(items) && (items != [] ==> gap != [] && Quiet(gap)) && Quiet(rest)
    requires lua == Items(items) + gap + "end" + rest && g == |Items(items)| && e == g + |gap|
    requires PlainItems(lua, 0, items) && Plain(lua, |Items(items)|, |Items(items)| + |gap|)
    ensures Scan(lua) == Done(Values(items, lua, 0), |Items(items)| + |gap| - 1)
  {
    ItemsEnds(items, 0);
    StrayText(items, gap, rest, lua, g, e);
    QuietWritten(lua, e + 3, rest);
    StrayLayout(items, gap, lua, g, e);
    ListFromStart(lua, items, gap, g, e);
  }

  /** Functions, other text and an `end` that `Closes` follows, each where it stands: the layout `ListScan` reads from the start of the text. */
  lemma StrayLayout(items: seq<Item>, gap: string, lua: string, g: nat, e: nat)
    requires SoundItems(items) && (items != [] ==> gap != [] && Quiet(gap))
    requires Written(lua, 0, Items(items)) && Written(lua, g, gap) && Written(lua, e, "end")
    requires Closes(lua, e + 3)
    requires g == ItemsEnd(items, 0) && g == |Items(items)| && e == g + |gap|
    requires PlainItems(lua, 0, items) && Plain(lua, |Items(items)|, |Items(items)| + |gap|)
    ensures ListAt(lua, 0, items, gap, g, e, e + 3)
  {
  }

  /** Functions, other text, an `end` and what follows it, taken apart. */
  lemma StrayText(items: seq<Item>, gap: string, rest: string, lua: string, g: nat, e: nat)
    requires lua == Items(items) + gap + "end" + rest && g == |Items(items)| && e == g + |gap|
    ensures Written(lua, 0, Items(items)) && Written(lua, g, gap) && Written(lua, e, "end")
    ensures Written(lua, e + 3, rest) && e + 3 + |rest| == |lua|
  {
    WrittenWhole(lua);
    Split3(lua, 0, lua, Items(items), gap, "end" + rest, g, e);
    Split2(lua, e, "end" + rest, "end", rest, e + 3);
  }

  /** Text that `Quiet` accepts, through the end of the text: what may follow an `end` there. */
  lemma QuietWritten(s: string, j: nat, rest: string)
    requires Written(s, j, rest) && j + |rest| == |s| && Quiet(rest)
    ensures Closes(s, j)
  {
    forall i | 0 <= i < |rest| ensures s[j..][i] == rest[i] {
      assert s[j + i] == Glyph(rest, i);
    }
    assert s[j..] == rest;
    QuietCloses(s, j);
  }

  /** Functions from the start of the text, then other text and an `end`: the scan finds them and stops one before the `end`. */
  lemma ListFromStart(lua: string, items: seq<Item>, gap: string, g: nat, e: nat)
    requires ListAt(lua, 0, items, gap, g, e, e + 3)
    ensures Scan(lua) == Done(Values(items, lua, 0), e - 1)
  {
    ListScan(lua, TableOf(lua), 0, 0, items, gap, g, e, e + 3, []);
    FoundFirst(items, lua, 0);
  }

  // ----- What each function found holds -----

  /**
   * One function found, as the one written out at offset `k` as `w`, leaving
   * aside the functions nested in it: it starts at `k`, has the name, the
   * `local` flag and the arguments its signature spells, and holds its text
   * from its signature through its `end` once trimmed as ParseInnerFunction
   * trims it (:78).
   */
  ghost predicate Shows(v: Func, w: Tree, k: nat) {
    v.start == k && v.header.name == w.sig.name && v.header.m.isLocal == w.sig.isLocal &&
    v.header.arguments == ArgumentList(w.sig.arguments) && Trim(v.source, Whitespace) == Out(w)
  }

  /**
   * The functions `vs` are the written-out functions `items`, laid out from
   * offset `p`, one for one and in order, and the children of each are the
   * functions written out in its body, laid out after its signature.
   */
  ghost predicate Finds(vs: seq<Func>, items: seq<Item>, p: nat)
    decreases items
  {
    if items == [] then vs == []
    else
      var w, k := items[0].tree, p + |items[0].space|;
      vs != [] && Shows(vs[0], w, k) &&
      Finds(vs[0].children, w.body, SigEnd(w.sig, k)) && Finds(vs[1..], items[1..], TreeEnd(w, k))
  }

  /** The function found for one written out at `k` holds, once trimmed, its text from its signature through its `end`. */
  lemma ValueTrimmed(w: Tree, lua: string, k: nat)
    requires SoundTree(w) && Written(lua, k, Out(w)) && Closes(lua, TreeEnd(w, k))
    ensures Trim(Value(w, lua, k).source, Whitespace) == Out(w)
  {
    var n := TreeEnd(w, k);
    var o := Out(w);
    ValueText(w, lua, k);
    LeadsWithWord(lua, k, w);
    FirstOf(lua, k, o);
    OutIs(w);
    assert o[|o| - 1] == 'd';
    if n < |lua| {
      assert Follow(lua, n) == [lua[n]];
    }
    TrimAround(o, Follow(lua, n), Whitespace);
  }

  // The layouts below are those of the Layout module with the `Plain` text
  // left out: which functions are found once the scan has gone through does
  // not depend on it.

  /** A sound function written out at `k`, ending at `n`, that `Closes` follows. */
  ghost predicate TreeWritten(lua: string, k: nat, w: Tree, n: nat) {
    SoundTree(w) && Written(lua, k, Out(w)) && n == TreeEnd(w, k) && Closes(lua, n)
  }

  /** Sound functions written out at `p` and ending at `g`, then text and, at `e`, an `end` that ends at `n` and that `Closes` follows. */
  ghost predicate ListWritten(lua: string, p: nat, items: seq<Item>, gap: string, g: nat, e: nat, n: nat) {
    SoundItems(items) && (items != [] ==> gap != [] && Quiet(gap)) &&
    Written(lua, p, Items(items)) && g == ItemsEnd(items, p) &&
    Written(lua, g, gap) && e == g + |gap| && Written(lua, e, "end") && n == e + 3 && Closes(lua, n)
  }

  /** Sound functions written out at `p` and ending at `g`, then text through the end of the text. */
  ghost predicate ForestWritten(lua: string, p: nat, items: seq<Item>, trail: string, g: nat) {
    SoundItems(items) && (items != [] ==> Quiet(trail)) &&
    Written(lua, p, Items(items)) && g == ItemsEnd(items, p) && Written(lua, g, trail) && g + |trail| == |lua|
  }

  /** Each of `items`, laid out from `p`, is a function written out where it starts, through its `end`. */
  ghost predicate TreesAt(lua: string, p: nat, items: seq<Item>)
    decreases items
  {
    items == [] ||
    (TreeWritten(lua, p + |items[0].space|, items[0].tree, TreeEnd(items[0].tree, p + |items[0].space|)) &&
     TreesAt(lua, TreeEnd(items[0].tree, p + |items[0].space|), items[1..]))
  }

  /** The functions inside a function written out at `k`, and what follows them up to its `end`. */
  lemma BodyWritten(lua: string, k: nat, w: Tree, n: nat, p: nat, g: nat, e: nat)
    requires TreeWritten(lua, k, w, n) && p == SigEnd(w.sig, k) && g == ItemsEnd(w.body, p) && e == g + |w.gap|
    ensures ListWritten(lua, p, w.body, w.gap, g, e, n)
  {
    BodyIn(lua, k, w, p);
    GapIn(lua, k, w, g);
    EndIn(lua, k, w, e);
  }

  /** The first of written-out functions that text and an `end` follow, and the rest. */
  lemma NextWritten(lua: string, p: nat, items: seq<Item>, gap: string, g: nat, e: nat, n: nat, j: nat)
    requires ListWritten(lua, p, items, gap, g, e, n) && items != []
    requires j == TreeEnd(items[0].tree, p + |items[0].space|)
    ensures TreeWritten(lua, p + |items[0].space|, items[0].tree, j) && ListWritten(lua, j, items[1..], gap, g, e, n)
  {
    Layout.HeadIn(lua, p, items, p + |items[0].space|);
    TailIn(lua, p, items, j);
    FirstOf(lua, e, "end");
    ClosesAfter(lua, j, items[1..], gap, g);
  }

  /** The first of written-out functions that text through the end of the text follows, and the rest. */
  lemma NextGrown(lua: string, p: nat, items: seq<Item>, trail: string, g: nat, j: nat)
    requires ForestWritten(lua, p, items, trail, g) && items != []
    requires j == TreeEnd(items[0].tree, p + |items[0].space|)
    ensures TreeWritten(lua, p + |items[0].space|, items[0].tree, j) && ForestWritten(lua, j, items[1..], trail, g)
  {
    Layout.HeadIn(lua, p, items, p + |items[0].space|);
    TailIn(lua, p, items, j);
    ClosesAfter(lua, j, items[1..], trail, g);
  }

  /** Written-out functions before other text and an `end`: each is written out where it starts. */
  lemma {:induction false} ListTrees(lua: string, p: nat, items: seq<Item>, gap: string, g: nat, e: nat, n: nat)
    requires ListWritten(lua, p, items, gap, g, e, n)
    ensures TreesAt(lua, p, items)
    decreases items
  {
    if items != [] {
      var j := TreeEnd(items[0].tree, p + |items[0].space|);
      NextWritten(lua, p, items, gap, g, e, n, j);
      ListTrees(lua, j, items[1..], gap, g, e, n);
    }
  }

  /** Written-out functions before other text through the end of the text: each is written out where it starts. */
  lemma {:induction false} ForestTrees(lua: string, p: nat, items: seq<Item>, trail: string, g: nat)
    requires ForestWritten(lua, p, items, trail, g)
    ensures TreesAt(lua, p, items)
    decreases items
  {
    if items != [] {
      var j := TreeEnd(items[0].tree, p + |items[0].space|);
      NextGrown(lua, p, items, trail, g, j);
      ForestTrees(lua, j, items[1..], trail, g);
    }
  }

  /** A written-out function at `k`: the function found for it shows it, and so do those found inside it. */
  lemma {:induction false} TreeFinds(lua: string, k: nat, w: Tree, n: nat)
    requires TreeWritten(lua, k, w, n)
    ensures Shows(Value(w, lua, k), w, k) && Finds(Value(w, lua, k).children, w.body, SigEnd(w.sig, k))
    decreases w, 1
  {
    TreeShows(lua, k, w, n);
    TreeKids(lua, k, w, n);
    ItemsFinds(lua, SigEnd(w.sig, k), w.body);
  }

  /** A written-out function at `k`: the function found for it shows it. */
  lemma TreeShows(lua: string, k: nat, w: Tree, n: nat)
    requires TreeWritten(lua, k, w, n)
    ensures Shows(Value(w, lua, k), w, k)
  {
    ValueTrimmed(w, lua, k);
  }

  /** A written-out function at `k`: each function in its body is written out where it starts. */
  lemma TreeKids(lua: string, k: nat, w: Tree, n: nat)
    requires TreeWritten(lua, k, w, n)
    ensures TreesAt(lua, SigEnd(w.sig, k), w.body)
  {
    var p := SigEnd(w.sig, k);
    var g := ItemsEnd(w.body, p);
    BodyWritten(lua, k, w, n, p, g, g + |w.gap|);
    ListTrees(lua, p, w.body, w.gap, g, g + |w.gap|, n);
  }

  /** Functions each written out where it starts: the functions found for them are they. */
  lemma {:induction false} ItemsFinds(lua: string, p: nat, items: seq<Item>)
    requires TreesAt(lua, p, items)
    ensures Finds(Values(items, lua, p), items, p)
    decreases items, 0
  {
    if items != [] {
      TreesHead(lua, p, items);
      TreeFinds(lua, p + |items[0].space|, items[0].tree, TreeEnd(items[0].tree, p + |items[0].space|));
      ItemsFinds(lua, TreeEnd(items[0].tree, p + |items[0].space|), items[1..]);
      FindsFirst(items, lua, p);
    }
  }

  /** The first of functions each written out where it starts, and the rest. */
  lemma TreesHead(lua: string, p: nat, items: seq<Item>)
    requires items != [] && TreesAt(lua, p, items)
    ensures TreeWritten(lua, p + |items[0].space|, items[0].tree, TreeEnd(items[0].tree, p + |items[0].space|))
    ensures TreesAt(lua, TreeEnd(items[0].tree, p + |items[0].space|), items[1..])
  {
  }

  /** `Finds` for the functions found for `items`, from the first and the rest. */
  lemma FindsFirst(items: seq<Item>, lua: string, p: nat)
    requires items != []
    requires Shows(Value(items[0].tree, lua, p + |items[0].space|), items[0].tree, p + |items[0].space|)
    requires Finds(Value(items[0].tree, lua, p + |items[0].space|).children, items[0].tree.body, SigEnd(items[0].tree.sig, p + |items[0].space|))
    requires Finds(Values(items[1..], lua, TreeEnd(items[0].tree, p + |items[0].space|)), items[1..], TreeEnd(items[0].tree, p + |items[0].space|))
    ensures Finds(Values(items, lua, p), items, p)
  {
    ValuesSplit(items, lua, p);
    FindsCons(Values(items, lua, p), items, p);
  }

  /** The functions found for `items`: the one for the first, then those for the rest. */
  lemma ValuesSplit(items: seq<Item>, lua: string, p: nat)
    requires items != []
    ensures var vs, w, q := Values(items, lua, p), items[0].tree, p + |items[0].space|;
      vs != [] && vs[0] == Value(w, lua, q) && vs[1..] == Values(items[1..], lua, TreeEnd(w, q))
  {
    ValuesFirst(items, lua, p);
  }

  /** `Finds` for a first function and the rest. */
  lemma FindsCons(vs: seq<Func>, items: seq<Item>, p: nat)
    requires items != [] && vs != []
    requires var w, k := items[0].tree, p + |items[0].space|;
      Shows(vs[0], w, k) && Finds(vs[0].children, w.body, SigEnd(w.sig, k)) && Finds(vs[1..], items[1..], TreeEnd(w, k))
    ensures Finds(vs, items, p)
  {
  }

  /**
   * Sound functions written out from the start of the text, then other text
   * through its end, with neither regex matching in the text between and
   * inside them or after them: the functions the scan finds are they, one
   * for one and in order, each where it is written, with the name, `local`
   * flag and arguments its signature spells, its text from its signature
   * through its `end`, and the functions written out in its body for
   * children.
   */
  lemma FoundAsWritten(items: seq<Item>, trail: string)
    requires SoundItems(items) && (items != [] ==> Quiet(trail))
    requires PlainItems(Items(items) + trail, 0, items)
    requires Plain(Items(items) + trail, |Items(items)|, |Items(items) + trail|)
    ensures var lua := Items(items) + trail;
      Scan(lua).Done? && Finds(Scan(lua).found, items, 0)
  {
    var lua := Items(items) + trail;
    var g := ItemsEnd(items, 0);
    ScanFinds(items, trail);
    ItemsEnds(items, 0);
    WrittenWhole(lua);
    Split2(lua, 0, lua, Items(items), trail, g);
    ForestTrees(lua, 0, items, trail, g);
    ItemsFinds(lua, 0, items);
  }

  /** The same with only whitespace between the pieces of the functions and after them. */
  lemma FoundAsLaid(items: seq<Item>, trail: string)
    requires BlankItems(items) && IsGap(trail)
    ensures var lua := Items(items) + trail;
      Scan(lua).Done? && Finds(Scan(lua).found, items, 0)
  {
    var lua := Items(items) + trail;
    var g := ItemsEnd(items, 0);
    ItemsEnds(items, 0);
    WrittenWhole(lua);
    Split2(lua, 0, lua, Items(items), trail, g);
    BlankItemsSound(items);
    BlankQuiet(trail);
    BlankItemsPlain(lua, 0, items);
    GapPlain(lua, g, trail);
    FoundAsWritten(items, trail);
  }

  /** With no `end` anywhere in the table, a scan from `c` finds no more functions than it was given. */
  lemma {:induction false} FrameNoEnd(lua: string, t: Table, c: nat, open: Option<Pending>, acc: seq<Func>)
    requires Fits(lua, t) && (open.Some? ==> open.value.start <= c)
    requires forall i :: 0 <= i < |lua| ==> t.end[i].None?
    ensures Frame(lua, t, c, open, acc).Done? && Frame(lua, t, c, open, acc).found == acc
    decreases |lua| - c, 1
  {
    if c < |lua| {
      if t.sig[c].Some? {
        var h := t.sig[c].value;
        FrameNoEnd(lua, t, c + h.m.length, None, []);
        var nested := Frame(lua, t, c + h.m.length, None, []);
        EndStepNoEnd(lua, t, c, nested.cursor, Some(Pending(c, h, nested.found)), acc);
      } else {
        EndStepNoEnd(lua, t, c, c, open, acc);
      }
    }
  }

  /** The same for the test for `end` at `c`, with the cursor at `cursor`. */
  lemma {:induction false} EndStepNoEnd(lua: string, t: Table, c: nat, cursor: int, open: Option<Pending>, acc: seq<Func>)
    requires Fits(lua, t) && c < |lua| && c <= cursor && (open.Some? ==> open.value.start <= c)
    requires forall i :: 0 <= i < |lua| ==> t.end[i].None?
    ensures EndStep(lua, t, c, cursor, open, acc).Done? && EndStep(lua, t, c, cursor, open, acc).found == acc
    decreases |lua| - c, 0
  {
    FrameNoEnd(lua, t, cursor + 1, open, acc);
  }

  /** A text in which EndRegex matches nowhere: the scan succeeds and finds no function. */
  lemma NoEndFindsNothing(lua: string)
    requires forall i :: 0 <= i < |lua| ==> EndAt(lua, i).None?
    ensures Scan(lua).Done? && Scan(lua).found == []
  {
    var t := TableOf(lua);
    forall i | 0 <= i < |lua| ensures t.end[i].None? {
      assert t.end[i] == EndAt(lua, i);
    }
    FrameNoEnd(lua, t, 0, None, []);
  }

  /**
   * A signature that EndRegex matches too (`end = function(ARGS)` with
   * whitespace after the name) as the whole text: FunctionRegex matches all
   * of it and moves the cursor to the end of the text, and the `end` tested
   * at the offset the iteration began from then closes through three
   * characters past the end of the text, where `Substring` throws.
   */
  lemma QuirkyAtEnd(sig: Signature)
    requires Writable(sig) && Quirky(sig)
    ensures Scan(Render(sig)).OutOfRange?
  {
    var lua := Render(sig);
    var t := TableOf(lua);
    QuirkyEnd(sig);
    WholeSignature(sig);
    assert t.sig[0] == HeaderAt(SigAt(lua, 0));
    assert t.end[0] == EndAt(lua, 0);
    OpensAndCloses(lua, t, HeaderOf(Matched(sig, |lua|)));
  }

  /** EndRegex matches at the start of a `Quirky` signature, with the whitespace after the name as its delimiter. */
  lemma QuirkyEnd(sig: Signature)
    requires Writable(sig) && Quirky(sig)
    ensures EndAt(Render(sig), 0) == Some(4)
  {
    var g := sig.gaps;
    var rest := g.first + "=" + g.second + "function" + g.third + "(" + sig.arguments + ")";
    assert Render(sig) == [] + "end" + rest;
    assert rest[0] == g.first[0];
    EndRoundTrip([], rest);
  }

  /** A written-out signature as the whole text: FunctionRegex matches all of it. */
  lemma WholeSignature(sig: Signature)
    requires Writable(sig)
    ensures SigAt(Render(sig), 0) == Some(Matched(sig, |Render(sig)|))
  {
    SignatureRoundTrip([], sig, []);
    assert [] + Render(sig) + [] == Render(sig);
  }

  /** A signature match over the whole text and an `end` at offset 0: the `end` closes past the text. */
  lemma OpensAndCloses(lua: string, t: Table, h: Header)
    requires Fits(lua, t) && 0 < |lua| && t.sig[0] == Some(h) && h.m.length == |lua| && t.end[0] == Some(4)
    ensures Frame(lua, t, 0, None, []) == OutOfRange
  {
    FrameAtSignature(lua, t, 0, None, [], h);
    EndStepClose(lua, t, 0, |lua|, Pending(0, h, []), [], |lua| + 3);
  }

  /**
   * `end = function()` as the whole text: the match is 16 characters long,
   * and the `end` found at offset 0 closes through offset 19.
   */
  lemma QuirkOutOfRange()
    ensures Scan("end = function()").OutOfRange?
  {
    var sig := Signature(false, Assignment, "end", "", Gaps(" ", " ", ""));
    assert Render(sig) == "end = function()";
    assert Writable(sig) by {
      assert forall i :: 0 <= i < |sig.name| ==> IsWordChar(sig.name[i]);
    }
    QuirkyAtEnd(sig);
  }
}
