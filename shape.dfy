/**
 * Where the functions the scan finds lie in the text: each at a FunctionRegex
 * match whose header it carries, with its text the piece of the text from
 * there through its `end`, its nested functions inside it after its
 * signature, and every two functions of one list one after the other, in
 * the order of the text.
 */
module Shape {
  import opened Wrappers
  import opened Patterns
  import opened Descriptor
  import opened Forest
  import opened Scanner

  /** The offset of the last character of the text of `v`. */
  function LastOf(v: Func): int {
    v.start + |v.source| - 1
  }

  /**
   * `v` lies in `lua` as the table `t` reads it: it starts at a signature and
   * has the header found there, its text is the piece of `lua` from there and
   * holds at least the signature, it was closed by an `end` that EndRegex
   * matches at or after its start and that reaches no further than its text,
   * and its nested functions lie after the signature and within its text.
   */
  ghost predicate Placed(lua: string, t: Table, v: Func)
    decreases v, 1
  {
    v.start < |t.sig| && t.sig[v.start] == Some(v.header) &&
    v.header.m.length <= |v.source| && v.start + |v.source| <= |lua| &&
    v.source == lua[v.start .. v.start + |v.source|] &&
    ClosedBy(t, v.start, LastOf(v)) &&
    Chain(lua, t, v.children, v.start + v.header.m.length, LastOf(v))
  }

  /**
   * Some EndRegex match at an offset `c` from `start` on ends by `last`: the
   * scan closes a function at `cursor + n - 1` for an `end` of length `n`
   * tested at `c`, with the cursor at or after `c`.
   */
  ghost predicate ClosedBy(t: Table, start: nat, last: int) {
    exists c :: start <= c < |t.end| && t.end[c].Some? && c + t.end[c].value - 1 <= last
  }

  /**
   * The functions `vs` lie in `lua` between offsets `lo` and `hi` (through
   * `hi`), and each of them ends before the next one starts.
   */
  ghost predicate Chain(lua: string, t: Table, vs: seq<Func>, lo: int, hi: int)
    decreases vs, 0
  {
    (forall i :: 0 <= i < |vs| ==> lo <= vs[i].start && LastOf(vs[i]) <= hi && Placed(lua, t, vs[i])) &&
    (forall i, j :: 0 <= i < j < |vs| ==> LastOf(vs[i]) < vs[j].start)
  }

  /** The function whose `end` is awaited lies at a signature, and the functions read inside it so far end by `hi`. */
  ghost predicate Awaiting(lua: string, t: Table, p: Pending, hi: int) {
    p.start < |t.sig| && t.sig[p.start] == Some(p.header) && p.start + p.header.m.length - 1 <= hi &&
    Chain(lua, t, p.children, p.start + p.header.m.length, hi)
  }

  lemma ChainWider(lua: string, t: Table, vs: seq<Func>, lo: int, hi: int, wider: int)
    requires Chain(lua, t, vs, lo, hi) && hi <= wider
    ensures Chain(lua, t, vs, lo, wider)
  {
  }

  lemma ChainAppend(lua: string, t: Table, vs: seq<Func>, lo: int, hi: int, v: Func)
    requires Chain(lua, t, vs, lo, v.start - 1) && lo <= v.start && LastOf(v) <= hi && Placed(lua, t, v)
    ensures Chain(lua, t, vs + [v], lo, hi)
  {
    var ws := vs + [v];
    assert forall i :: 0 <= i < |vs| ==> ws[i] == vs[i];
    assert ws[|vs|] == v;
  }

  /** A function closed at `last` by the `end` tested at `c` lies in the text. */
  lemma ClosePlaced(lua: string, t: Table, p: Pending, c: nat, cursor: int, last: nat)
    requires Fits(lua, t) && Awaiting(lua, t, p, cursor) && p.start <= c <= cursor <= last < |lua|
    requires t.end[c].Some? && last == cursor + t.end[c].value - 1
    ensures Placed(lua, t, Close(lua, p, last)) && LastOf(Close(lua, p, last)) == last
  {
    var v := Close(lua, p, last);
    assert ClosedBy(t, p.start, last) by {
      assert p.start <= c < |t.end| && t.end[c].Some? && c + t.end[c].value - 1 <= last;
    }
    ChainWider(lua, t, p.children, p.start + p.header.m.length, cursor, last);
  }

  /**
   * A scan from `c` that ends normally returns the closed functions it was
   * given followed by the ones it closes, and all of them lie in the text, in
   * order, from `lo` through the cursor it returns.
   */
  lemma {:induction false} FrameChain(lua: string, t: Table, c: nat, open: Option<Pending>, acc: seq<Func>, lo: int)
    requires Fits(lua, t) && lo <= c
    requires open.Some? ==> open.value.start <= c && lo <= open.value.start && Awaiting(lua, t, open.value, c - 1)
    requires Chain(lua, t, acc, lo, (if open.Some? then open.value.start else c) - 1)
    ensures var r := Frame(lua, t, c, open, acc);
      r.Done? ==> acc <= r.found && Chain(lua, t, r.found, lo, r.cursor)
    decreases |lua| - c, 3
  {
    var bound := if open.Some? then open.value.start else c;
    if |lua| <= c {
      ChainWider(lua, t, acc, lo, bound - 1, c);
    } else if t.sig[c].Some? {
      SignatureChain(lua, t, c, open, acc, lo, t.sig[c].value);
    } else {
      FrameAtOther(lua, t, c, open, acc);
      if open.Some? {
        ChainWider(lua, t, open.value.children, open.value.start + open.value.header.m.length, c - 1, c);
      }
      EndStepChain(lua, t, c, c, open, acc, lo);
    }
  }

  /** The same for an iteration that starts at a signature. */
  lemma {:induction false} SignatureChain(lua: string, t: Table, c: nat, open: Option<Pending>, acc: seq<Func>, lo: int, h: Header)
    requires Fits(lua, t) && lo <= c && c < |lua| && t.sig[c] == Some(h)
    requires open.Some? ==> open.value.start <= c && lo <= open.value.start
    requires Chain(lua, t, acc, lo, (if open.Some? then open.value.start else c) - 1)
    ensures var r := Frame(lua, t, c, open, acc);
      r.Done? ==> acc <= r.found && Chain(lua, t, r.found, lo, r.cursor)
    decreases |lua| - c, 2
  {
    FrameAtSignature(lua, t, c, open, acc, h);
    var nested := Frame(lua, t, c + h.m.length, None, []);
    FrameChain(lua, t, c + h.m.length, None, [], c + h.m.length);
    if nested.Done? {
      ChainWider(lua, t, acc, lo, (if open.Some? then open.value.start else c) - 1, c - 1);
      AwaitingNested(lua, t, c, h, nested.found, nested.cursor);
      EndStepChain(lua, t, c, nested.cursor, Some(Pending(c, h, nested.found)), acc, lo);
    }
  }

  /** The functions nested in one that starts at a signature lie after its match. */
  lemma AwaitingNested(lua: string, t: Table, c: nat, h: Header, found: seq<Func>, cursor: int)
    requires Fits(lua, t) && c < |lua| && t.sig[c] == Some(h) && c + h.m.length - 1 <= cursor
    requires Chain(lua, t, found, c + h.m.length, cursor)
    ensures Awaiting(lua, t, Pending(c, h, found), cursor)
  {
  }

  /** The same for the test for `end` at `c`, with the cursor at `cursor`. */
  lemma {:induction false} EndStepChain(lua: string, t: Table, c: nat, cursor: int, open: Option<Pending>, acc: seq<Func>, lo: int)
    requires Fits(lua, t) && c < |lua| && c <= cursor && lo <= c
    requires open.Some? ==> open.value.start <= c && lo <= open.value.start && Awaiting(lua, t, open.value, cursor)
    requires Chain(lua, t, acc, lo, (if open.Some? then open.value.start else c) - 1)
    ensures var r := EndStep(lua, t, c, cursor, open, acc);
      r.Done? ==> acc <= r.found && Chain(lua, t, r.found, lo, r.cursor)
    decreases |lua| - c, 1
  {
    var bound := if open.Some? then open.value.start else c;
    if t.end[c].None? {
      EndStepOn(lua, t, c, cursor, open, acc);
      if open.None? {
        ChainWider(lua, t, acc, lo, c - 1, cursor);
      }
      FrameChain(lua, t, cursor + 1, open, acc, lo);
    } else if open.None? {
      EndStepStray(lua, t, c, cursor, acc);
      ChainWider(lua, t, acc, lo, c - 1, cursor - 1);
    } else {
      CloseChain(lua, t, c, cursor, open.value, acc, lo);
    }
  }

  /** The same for an `end` at `c` that closes the function `p`. */
  lemma {:induction false} CloseChain(lua: string, t: Table, c: nat, cursor: int, p: Pending, acc: seq<Func>, lo: int)
    requires Fits(lua, t) && c < |lua| && c <= cursor && lo <= c && t.end[c].Some?
    requires p.start <= c && lo <= p.start && Awaiting(lua, t, p, cursor)
    requires Chain(lua, t, acc, lo, p.start - 1)
    ensures var r := EndStep(lua, t, c, cursor, Some(p), acc);
      r.Done? ==> acc <= r.found && Chain(lua, t, r.found, lo, r.cursor)
    decreases |lua| - c, 0
  {
    var last := cursor + t.end[c].value - 1;
    EndStepClose(lua, t, c, cursor, p, acc, last);
    if last < |lua| {
      var v := Close(lua, p, last);
      ClosePlaced(lua, t, p, c, cursor, last);
      ChainAppend(lua, t, acc, lo, last, v);
      FrameChain(lua, t, last + 1, None, acc + [v], lo);
      var r := Frame(lua, t, last + 1, None, acc + [v]);
      if r.Done? {
        assert acc <= acc + [v] <= r.found;
      }
    }
  }

  /**
   * The functions a scan of the whole text finds lie in it, in order, and so
   * do, inside each of them, the functions nested in it.
   */
  lemma ScanChain(lua: string)
    ensures Scan(lua).Done? ==> Chain(lua, TableOf(lua), Scan(lua).found, 0, Scan(lua).cursor)
  {
    FrameChain(lua, TableOf(lua), 0, None, [], 0);
  }

  /**
   * What `Placed` says in terms of the text: the function starts at a
   * FunctionRegex match and carries the name and the arguments read off it,
   * its text is the piece of the text from its start through its last
   * character, and an `end` that EndRegex matches at or after its start
   * reaches no further than that character.
   */
  lemma PlacedAtSignature(lua: string, v: Func)
    requires Placed(lua, TableOf(lua), v)
    ensures SigAt(lua, v.start) == Some(v.header.m) && v.header == HeaderOf(v.header.m)
    ensures v.source == lua[v.start .. LastOf(v) + 1]
    ensures exists c :: v.start <= c < |lua| && EndAt(lua, c).Some? && c + EndAt(lua, c).value - 1 <= LastOf(v)
  {
    PlacedIn(lua, TableOf(lua), v);
  }

  /** The same for any table of the text. */
  lemma PlacedIn(lua: string, t: Table, v: Func)
    requires Tabulates(lua, t) && Placed(lua, t, v)
    ensures SigAt(lua, v.start) == Some(v.header.m) && v.header == HeaderOf(v.header.m)
    ensures v.source == lua[v.start .. LastOf(v) + 1]
    ensures exists c :: v.start <= c < |lua| && EndAt(lua, c).Some? && c + EndAt(lua, c).value - 1 <= LastOf(v)
  {
    TableHeader(lua, t, v.start);
    assert t.sig[v.start] == HeaderAt(SigAt(lua, v.start));
    var c :| v.start <= c < |t.end| && t.end[c].Some? && c + t.end[c].value - 1 <= LastOf(v);
    assert t.end[c] == EndAt(lua, c);
  }
}
