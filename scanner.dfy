/**
 * The scan of GlobalFunctionParser (src/LuaMinifier/Services/GlobalFunctionParser.cs):
 * one pass over the text that opens a function at each FunctionRegex match,
 * reads its nested functions by recursion, and closes it at the next
 * EndRegex match.
 *
 * `Frame` is the scan as a value: one recursion step per loop iteration of
 * ParseInnerFunction, with the open function and the closed functions so far
 * as parameters. It reads the two regexes off a `Table` of their matches at
 * every offset, and `Scan` is `Frame` from offset 0 over the table of the
 * text. The method `ParseInnerFunction` is the loop itself, which runs the
 * regexes and builds `LuaFunction` objects, and is proved to build exactly
 * what `Frame` says.
 */
module Scanner {
  import opened Wrappers
  import opened Text
  import opened Patterns
  import opened Descriptor
  import opened Models
  import opened Forest

  /** A function whose signature was read and whose `end` is not found yet, with the functions read inside it. */
  datatype Pending = Pending(start: nat, header: Header, children: seq<Func>)

  /**
   * How a scan ends: the functions it closed and the cursor it leaves, or the
   * `ArgumentOutOfRangeException` that `Substring` throws when an `end`
   * reaches past the text.
   */
  datatype Scanned = Done(found: seq<Func>, cursor: int) | OutOfRange

  /** What FunctionRegex (with the header read off its match) and EndRegex report at each offset of a text. */
  datatype Table = Table(sig: seq<Option<Header>>, end: seq<Option<nat>>)

  /** A table for a text of the length of `lua`, whose matches are not empty and whose signature matches lie within the text. */
  predicate Fits(lua: string, t: Table) {
    |t.sig| == |lua| && |t.end| == |lua| &&
    (forall i :: 0 <= i < |lua| && t.sig[i].Some? ==> 0 < t.sig[i].value.m.length && i + t.sig[i].value.m.length <= |lua|) &&
    (forall i :: 0 <= i < |lua| && t.end[i].Some? ==> 0 < t.end[i].value)
  }

  /** The table holds what the two regexes report at each offset of `lua`. */
  ghost predicate Tabulates(lua: string, t: Table) {
    Fits(lua, t) &&
    (forall i {:trigger SigAt(lua, i)} :: 0 <= i < |lua| ==> t.sig[i] == HeaderAt(SigAt(lua, i))) &&
    (forall i {:trigger EndAt(lua, i)} :: 0 <= i < |lua| ==> t.end[i] == EndAt(lua, i))
  }

  /** The header of a match, if there is one. */
  function HeaderAt(m: Option<SigMatch>): Option<Header> {
    if m.Some? then Some(HeaderOf(m.value)) else None
  }

  /** The header the table holds at a signature is the one read off the match there. */
  lemma TableHeader(lua: string, t: Table, i: nat)
    requires Tabulates(lua, t) && i < |lua| && t.sig[i].Some?
    ensures t.sig[i].value == HeaderOf(t.sig[i].value.m)
  {
    assert t.sig[i] == HeaderAt(SigAt(lua, i));
  }

  /** The table of `lua`. */
  function TableOf(lua: string): (t: Table)
    ensures Tabulates(lua, t)
  {
    Table(seq(|lua|, i requires 0 <= i < |lua| => HeaderAt(SigAt(lua, i))), seq(|lua|, i requires 0 <= i < |lua| => EndAt(lua, i)))
  }

  /** The finished function for `p`, whose `end` ends at offset `last`, with its text from its start to there. */
  function Close(lua: string, p: Pending, last: nat): Func
    requires p.start <= last < |lua|
  {
    Func(p.start, p.header, lua[p.start .. last + 1], p.children)
  }

  /**
   * The loop of ParseInnerFunction from cursor `c`, with `open` the function
   * whose `end` is awaited and `acc` the functions closed so far: at a
   * signature, the nested functions are scanned from the end of the match,
   * and the scan goes on where they stop.
   */
  function Frame(lua: string, t: Table, c: nat, open: Option<Pending>, acc: seq<Func>): (r: Scanned)
    requires Fits(lua, t) && (open.Some? ==> open.value.start <= c)
    ensures r.Done? ==> r.cursor >= c - 1
    decreases |lua| - c, 1
  {
    if |lua| <= c then Done(acc, c)
    else
      var h := t.sig[c];
      if h.Some? then
        var nested := Frame(lua, t, c + h.value.m.length, None, []);
        if nested.OutOfRange? then OutOfRange
        else EndStep(lua, t, c, nested.cursor, Some(Pending(c, h.value, nested.found)), acc)
      else EndStep(lua, t, c, c, open, acc)
  }

  /**
   * The second half of an iteration: EndRegex is tried at the offset `c` where
   * the iteration began, although the cursor may have moved on to `cursor`.
   * With no function open, the `end` belongs to the caller and the scan
   * returns one before the cursor, so that the caller's increment lands on it.
   */
  function EndStep(lua: string, t: Table, c: nat, cursor: int, open: Option<Pending>, acc: seq<Func>): (r: Scanned)
    requires Fits(lua, t) && c < |lua| && c <= cursor
    requires open.Some? ==> open.value.start <= c
    ensures r.Done? ==> r.cursor >= c - 1
    decreases |lua| - c, 0
  {
    var n := t.end[c];
    if n.None? then Frame(lua, t, cursor + 1, open, acc)
    else if open.None? then Done(acc, cursor - 1)
    else
      var last := cursor + n.value - 1;
      if |lua| < last + 1 then OutOfRange
      else Frame(lua, t, last + 1, None, acc + [Close(lua, open.value, last)])
  }

  /**
   * The scan of the whole text: ParseInnerFunction from offset 0, with no
   * function open. It stops before the end of the text only at an `end`
   * that closes no function, one before it.
   */
  function Scan(lua: string): (r: Scanned)
    ensures r.Done? && r.cursor < |lua| ==> 0 <= r.cursor + 1 < |lua| && EndAt(lua, r.cursor + 1).Some?
  {
    ScanStops(lua, TableOf(lua));
    Frame(lua, TableOf(lua), 0, None, [])
  }

  /** The scan from offset 0 over a table of the text stops before its end only one before an EndRegex match. */
  lemma ScanStops(lua: string, t: Table)
    requires Tabulates(lua, t)
    ensures var r := Frame(lua, t, 0, None, []);
      r.Done? && r.cursor < |lua| ==> 0 <= r.cursor + 1 < |lua| && EndAt(lua, r.cursor + 1).Some?
  {
    FrameStops(lua, t, 0, None, []);
    var r := Frame(lua, t, 0, None, []);
    if r.Done? && r.cursor < |lua| {
      assert t.end[r.cursor + 1] == EndAt(lua, r.cursor + 1);
    }
  }

  /**
   * The open function of the loop: its fields so far, and its
   * `ChildFunctions`, which lie among `below` and hold the functions read
   * inside it.
   */
  ghost predicate Opened(f: LuaFunction, p: Pending, parent: LuaFunction?, level: nat, below: set<LuaFunction>)
    reads f, below
  {
    f.Name == p.header.name && f.Arguments == p.header.arguments && f.IsLocal == p.header.m.isLocal &&
    f.StartIndex == p.start && f.ParentFunction == parent && f.Depth == DepthFor(level) &&
    f !in below && Holds(f.ChildFunctions, p.children, f, level + 1, below)
  }

  /** A new function for a FunctionRegex match at `startIndex`: its name, its arguments and whether it is local. */
  method FunctionMatchToLuaFunction(startIndex: int, functionKeywordMatch: SigMatch) returns (currentFunction: LuaFunction)
    ensures fresh(currentFunction)
    ensures currentFunction.Name == NameOf(functionKeywordMatch)
    ensures currentFunction.Arguments == ArgumentList(functionKeywordMatch.arguments)
    ensures currentFunction.IsLocal == functionKeywordMatch.isLocal && currentFunction.StartIndex == startIndex
    ensures currentFunction.LuaString == None && currentFunction.ParentFunction == null
    ensures currentFunction.ChildFunctions == [] && currentFunction.Depth == 0
  {
    var isLocalFunction := functionKeywordMatch.isLocal;
    var functionName := NameOf(functionKeywordMatch);
    currentFunction := new LuaFunction(functionName);
    currentFunction.StartIndex := startIndex;
    currentFunction.IsLocal := isLocalFunction;
    currentFunction.Arguments := ArgumentList(functionKeywordMatch.arguments);
  }

  lemma AncestryCons(f: LuaFunction, p: LuaFunction?, chain: seq<LuaFunction>)
    requires Ancestry(p, chain) && f.ParentFunction == p
    ensures Ancestry(f, [f] + chain)
  {
    var longer := [f] + chain;
    assert forall i :: 1 <= i < |longer| ==> longer[i] == chain[i - 1];
  }

  /**
   * The function a signature opens, before its nested functions are read: made
   * by FunctionMatchToLuaFunction from the match, with `parentFunction` for
   * its parent, and so one generation below it.
   */
  method NewFunction(lua: string, parentFunction: LuaFunction?, cursor: nat, m: SigMatch,
                     ghost chain: seq<LuaFunction>, ghost t: Table) returns (f: LuaFunction)
    requires Tabulates(lua, t) && cursor < |lua| && t.sig[cursor].Some? && t.sig[cursor].value.m == m
    requires Ancestry(parentFunction, chain)
    ensures fresh(f) && f.LuaString == None && f.StartIndex == cursor && f.IsLocal == m.isLocal
    ensures f.Name == t.sig[cursor].value.name && f.Arguments == t.sig[cursor].value.arguments
    ensures f.ParentFunction == parentFunction && f.Depth == DepthFor(|chain|) && Ancestry(f, [f] + chain)
  {
    TableHeader(lua, t, cursor);
    f := FunctionMatchToLuaFunction(cursor, m);
    f.SetParentFunction(parentFunction, chain);
    AncestryCons(f, parentFunction, chain);
  }

  /** The first half of an iteration at a signature: the function it opens, with the functions nested in it. */
  method OpenFunction(lua: string, parentFunction: LuaFunction?, cursor: nat, m: SigMatch,
                      ghost chain: seq<LuaFunction>, ghost t: Table)
      returns (f: LuaFunction, after: int, ok: bool, ghost below: set<LuaFunction>)
    requires Tabulates(lua, t) && cursor < |lua| && t.sig[cursor].Some? && t.sig[cursor].value.m == m
    requires Ancestry(parentFunction, chain)
    ensures fresh(f) && f.LuaString == None
    ensures ok == Frame(lua, t, cursor + m.length, None, []).Done?
    ensures ok ==> after == Frame(lua, t, cursor + m.length, None, []).cursor
    ensures ok ==> Opened(f, Pending(cursor, t.sig[cursor].value, Frame(lua, t, cursor + m.length, None, []).found), parentFunction, |chain|, below)
    ensures ok ==> fresh(below)
    decreases |lua| - cursor, 0
  {
    f := NewFunction(lua, parentFunction, cursor, m, chain, t);
    var children;
    children, after, ok, below := ParseInnerFunction(lua, f, cursor + m.length, [f] + chain, t);
    if ok {
      f.ChildFunctions := children;
    }
  }

  /**
   * The first half of an iteration of ParseInnerFunction at `cursor`: at a
   * FunctionRegex match, the function it opens, with its nested functions,
   * replaces the open one; the scan then stands at the test for `end` at
   * `cursor`, with the cursor moved to `after`.
   */
  method ReadSignature(lua: string, parentFunction: LuaFunction?, cursor: nat, ghost chain: seq<LuaFunction>, ghost t: Table,
                       current: LuaFunction?, ghost open: Option<Pending>, ghost acc: seq<Func>, ghost below: set<LuaFunction>)
      returns (next: LuaFunction?, after: int, ok: bool, ghost nextOpen: Option<Pending>, ghost nextBelow: set<LuaFunction>)
    requires Tabulates(lua, t) && cursor < |lua| && Ancestry(parentFunction, chain)
    requires open.Some? ==> open.value.start <= cursor
    ensures !ok ==> Frame(lua, t, cursor, open, acc) == OutOfRange
    ensures ok ==> cursor <= after && (nextOpen.Some? ==> nextOpen.value.start <= cursor)
    ensures ok ==> Frame(lua, t, cursor, open, acc) == EndStep(lua, t, cursor, after, nextOpen, acc)
    ensures ok && t.sig[cursor].None? ==> next == current && nextOpen == open && nextBelow == below && after == cursor
    ensures ok && t.sig[cursor].Some? ==>
      next != null && nextOpen.Some? && fresh(next) && fresh(nextBelow) &&
      Opened(next, nextOpen.value, parentFunction, |chain|, nextBelow)
    decreases |lua| - cursor, 1
  {
    next, after, ok, nextOpen, nextBelow := current, cursor, true, open, below;
    var functionKeywordMatch := MatchFunction(lua, cursor, t);
    if functionKeywordMatch.Some? {
      FrameAtSignature(lua, t, cursor, open, acc, t.sig[cursor].value);
      var f; ghost var fBelow;
      f, after, ok, fBelow := OpenFunction(lua, parentFunction, cursor, functionKeywordMatch.value, chain, t);
      if ok {
        next, nextBelow := f, fBelow;
        nextOpen := Some(Pending(cursor, t.sig[cursor].value, Frame(lua, t, cursor + functionKeywordMatch.value.length, None, []).found));
      }
    } else {
      FrameAtOther(lua, t, cursor, open, acc);
    }
  }

  /** An iteration that starts at a signature: the nested scan, then the test for `end` at the same offset. */
  lemma FrameAtSignature(lua: string, t: Table, c: nat, open: Option<Pending>, acc: seq<Func>, h: Header)
    requires Fits(lua, t) && c < |lua| && t.sig[c] == Some(h)
    requires open.Some? ==> open.value.start <= c
    ensures var nested := Frame(lua, t, c + h.m.length, None, []);
      if nested.OutOfRange? then Frame(lua, t, c, open, acc) == OutOfRange
      else c <= nested.cursor && Frame(lua, t, c, open, acc) == EndStep(lua, t, c, nested.cursor, Some(Pending(c, h, nested.found)), acc)
  {
  }

  /** An iteration that starts anywhere else goes straight to the test for `end`. */
  lemma FrameAtOther(lua: string, t: Table, c: nat, open: Option<Pending>, acc: seq<Func>)
    requires Fits(lua, t) && c < |lua| && t.sig[c].None?
    requires open.Some? ==> open.value.start <= c
    ensures Frame(lua, t, c, open, acc) == EndStep(lua, t, c, c, open, acc)
  {
  }

  /** No `end` at the offset: the scan goes on one past the cursor. */
  lemma EndStepOn(lua: string, t: Table, c: nat, cursor: int, open: Option<Pending>, acc: seq<Func>)
    requires Fits(lua, t) && c < |lua| && c <= cursor && t.end[c].None?
    requires open.Some? ==> open.value.start <= c
    ensures EndStep(lua, t, c, cursor, open, acc) == Frame(lua, t, cursor + 1, open, acc)
  {
  }

  /** An `end` with no function open returns the functions closed so far. */
  lemma EndStepStray(lua: string, t: Table, c: nat, cursor: int, acc: seq<Func>)
    requires Fits(lua, t) && c < |lua| && c <= cursor && t.end[c].Some?
    ensures EndStep(lua, t, c, cursor, None, acc) == Done(acc, cursor - 1)
  {
  }

  /** An `end` with a function open closes it at `last`, unless `last` is past the text. */
  lemma EndStepClose(lua: string, t: Table, c: nat, cursor: int, p: Pending, acc: seq<Func>, last: int)
    requires Fits(lua, t) && c < |lua| && c <= cursor && p.start <= c && t.end[c].Some?
    requires last == cursor + t.end[c].value - 1
    ensures |lua| < last + 1 ==> EndStep(lua, t, c, cursor, Some(p), acc) == OutOfRange
    ensures last < |lua| ==> EndStep(lua, t, c, cursor, Some(p), acc) == Frame(lua, t, last + 1, None, acc + [Close(lua, p, last)])
  {
  }

  /**
   * A scan that ends normally before the end of the text stops one before an
   * `end` that closes no function: the loop returns only at the end of the
   * text or there.
   */
  lemma {:induction false} FrameStops(lua: string, t: Table, c: nat, open: Option<Pending>, acc: seq<Func>)
    requires Fits(lua, t) && (open.Some? ==> open.value.start <= c)
    ensures var r := Frame(lua, t, c, open, acc);
      r.Done? && r.cursor < |lua| ==> 0 <= r.cursor + 1 < |lua| && t.end[r.cursor + 1].Some?
    decreases |lua| - c, 1
  {
    if |lua| > c {
      if t.sig[c].Some? {
        var h := t.sig[c].value;
        FrameAtSignature(lua, t, c, open, acc, h);
        var nested := Frame(lua, t, c + h.m.length, None, []);
        if nested.Done? {
          EndStepStops(lua, t, c, nested.cursor, Some(Pending(c, h, nested.found)), acc);
        }
      } else {
        FrameAtOther(lua, t, c, open, acc);
        EndStepStops(lua, t, c, c, open, acc);
      }
    }
  }

  /** The same for the test for `end` at `c`: with no function open, the `end` there is where it stops. */
  lemma {:induction false} EndStepStops(lua: string, t: Table, c: nat, cursor: int, open: Option<Pending>, acc: seq<Func>)
    requires Fits(lua, t) && c < |lua| && c <= cursor
    requires open.Some? ==> open.value.start <= c
    ensures var r := EndStep(lua, t, c, cursor, open, acc);
      r.Done? && r.cursor < |lua| ==>
        (0 <= r.cursor + 1 < |lua| && t.end[r.cursor + 1].Some?) || (open.None? && r.cursor == cursor - 1 && t.end[c].Some?)
    decreases |lua| - c, 0
  {
    if t.end[c].None? {
      EndStepOn(lua, t, c, cursor, open, acc);
      FrameStops(lua, t, cursor + 1, open, acc);
    } else if open.None? {
      EndStepStray(lua, t, c, cursor, acc);
    } else {
      var last := cursor + t.end[c].value - 1;
      EndStepClose(lua, t, c, cursor, open.value, acc, last);
      if last < |lua| {
        FrameStops(lua, t, last + 1, None, acc + [Close(lua, open.value, last)]);
      }
    }
  }

  /**
   * The second half of an iteration at the `end` of the open function
   * `current`, whose EndRegex match at `start` is `n` long: the cursor moves
   * to the last character of the match, and the function gets its text from
   * its start to there and joins the closed functions, unless that is past
   * the text, where `Substring` throws.
   */
  method CloseFunction(lua: string, current: LuaFunction, start: nat, cursor: int, n: nat, functions: seq<LuaFunction>,
                       ghost t: Table, ghost p: Pending, ghost below: set<LuaFunction>, ghost acc: seq<Func>,
                       ghost made: set<LuaFunction>, ghost parent: LuaFunction?, ghost level: nat)
      returns (last: int, ok: bool, closed: seq<LuaFunction>, ghost closedAcc: seq<Func>, ghost closedMade: set<LuaFunction>)
    requires Fits(lua, t) && start < |lua| && start <= cursor && p.start <= start && t.end[start] == Some(n)
    requires Opened(current, p, parent, level, below) && current !in made
    requires Holds(functions, acc, parent, level, made)
    modifies current`LuaString
    ensures last == cursor + n - 1 && ok == (last < |lua|)
    ensures !ok ==> EndStep(lua, t, start, cursor, Some(p), acc) == OutOfRange
    ensures ok ==> closed == functions + [current] && closedAcc == acc + [Close(lua, p, last)] && closedMade == made + {current} + below
    ensures ok ==> EndStep(lua, t, start, cursor, Some(p), acc) == Frame(lua, t, last + 1, None, closedAcc)
    ensures ok ==> Holds(closed, closedAcc, parent, level, closedMade)
  {
    EndStepClose(lua, t, start, cursor, p, acc, cursor + n - 1);
    last := cursor + n - 1;
    closed, closedAcc, closedMade := functions, acc, made;
    ok := last < |lua|;
    if ok {
      current.LuaString := Some(Trim(lua[current.StartIndex .. last + 1], Whitespace));
      closed, closedAcc, closedMade := functions + [current], acc + [Close(lua, p, last)], made + {current} + below;
      HoldsClose(functions, acc, parent, level, made, current, Close(lua, p, last), below);
    }
  }

  /** `FunctionRegex.Match(lua.Substring(cursor))`: what the table holds for `cursor`. */
  method MatchFunction(lua: string, cursor: nat, ghost t: Table) returns (m: Option<SigMatch>)
    requires Tabulates(lua, t) && cursor < |lua|
    ensures m.Some? == t.sig[cursor].Some? && (m.Some? ==> m.value == t.sig[cursor].value.m)
  {
    m := SigAt(lua, cursor);
  }

  /** `EndRegex.Match(lua.Substring(cursor))`: what the table holds for `cursor`. */
  method MatchEnd(lua: string, cursor: nat, ghost t: Table) returns (n: Option<nat>)
    requires Tabulates(lua, t) && cursor < |lua|
    ensures n == t.end[cursor]
  {
    n := EndAt(lua, cursor);
  }

  /** Objects made since the call began, together. */
  twostate lemma FreshUnion(new made: set<LuaFunction>, new f: LuaFunction, new below: set<LuaFunction>, new more: set<LuaFunction>)
    requires fresh(made) && fresh(f) && fresh(below) && more == made + {f} + below
    ensures fresh(more)
  {
  }

  /**
   * The scan from `cursorIndex` for the functions nested in `parentFunction`
   * (null at the top), whose ancestors are `chain`. `ok` is false where the
   * source throws. Otherwise the objects it returns, with all the objects
   * nested in them, are new, hold what `Frame` finds, and are linked to their
   * parents with the depths their nesting gives.
   */
  method ParseInnerFunction(lua: string, parentFunction: LuaFunction?, cursorIndex: nat,
                            ghost chain: seq<LuaFunction>, ghost t: Table)
      returns (functions: seq<LuaFunction>, cursor: int, ok: bool, ghost made: set<LuaFunction>)
    requires Tabulates(lua, t) && cursorIndex <= |lua|
    requires Ancestry(parentFunction, chain)
    ensures ok == Frame(lua, t, cursorIndex, None, []).Done?
    ensures ok ==> cursor == Frame(lua, t, cursorIndex, None, []).cursor
    ensures ok ==> Holds(functions, Frame(lua, t, cursorIndex, None, []).found, parentFunction, |chain|, made)
    ensures ok ==> fresh(made)
    decreases |lua| - cursorIndex, 2
  {
    functions, made := [], {};
    var current: LuaFunction? := null;
    ghost var open: Option<Pending> := None;
    ghost var below: set<LuaFunction> := {};
    ghost var acc: seq<Func> := [];
    cursor := cursorIndex;
    while cursor < |lua|
      invariant cursorIndex <= cursor
      invariant open.Some? ==> open.value.start <= cursor
      invariant Frame(lua, t, cursorIndex, None, []) == Frame(lua, t, cursor, open, acc)
      invariant Ancestry(parentFunction, chain)
      invariant Holds(functions, acc, parentFunction, |chain|, made) && fresh(made)
      invariant (current == null) == open.None?
      invariant current != null ==>
        Opened(current, open.value, parentFunction, |chain|, below) && fresh(current) && fresh(below) && current !in made
      decreases |lua| - cursor
    {
      var start := cursor;
      var nestedOk;
      current, cursor, nestedOk, open, below := ReadSignature(lua, parentFunction, start, chain, t, current, open, acc, below);
      if !nestedOk {
        ok := false;
        return;
      }
      var endKeywordMatch := MatchEnd(lua, start, t);
      if endKeywordMatch.None? {
        EndStepOn(lua, t, start, cursor, open, acc);
        cursor := cursor + 1;
        continue;
      }
      if current == null {
        EndStepStray(lua, t, start, cursor, acc);
        cursor := cursor - 1;
        ok := true;
        return;
      }
      var closed;
      ghost var before := made;
      cursor, closed, functions, acc, made :=
        CloseFunction(lua, current, start, cursor, endKeywordMatch.value, functions, t, open.value, below, acc, made, parentFunction, |chain|);
      if !closed {
        ok := false;
        return;
      }
      FreshUnion(before, current, below, made);
      current := null;
      open := None;
      cursor := cursor + 1;
    }
    ok := true;
  }

  /** All functions of the text, read from its start; `ok` is false where the source throws. */
  method ParseFunctions(lua: string) returns (functions: seq<LuaFunction>, ok: bool, ghost made: set<LuaFunction>)
    ensures ok == Scan(lua).Done?
    ensures ok ==> Holds(functions, Scan(lua).found, null, 0, made) && fresh(made)
  {
    var cursorIndex;
    functions, cursorIndex, ok, made := ParseInnerFunction(lua, null, 0, [], TableOf(lua));
  }
}
