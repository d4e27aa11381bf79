/**
 * The functions the scanner finds, as values, and how `LuaFunction` objects
 * stand for them: each object holds one function, and the objects in its
 * `ChildFunctions` hold the functions nested in it.
 *
 * Terms: objects *hold* values (`Holds`) when they are one for one, with the
 * same fields, parent and depth, and their children hold the nested values.
 */
module Forest {
  import opened Wrappers
  import opened Text
  import opened Patterns
  import opened Descriptor
  import opened Models

  /**
   * A function whose `end` was found, as the scan sees it: the offset where
   * its signature starts, the header of the FunctionRegex match there, its text from that
   * offset through its `end`, and the functions nested in it.
   */
  datatype Func = Func(start: nat, header: Header, source: string, children: seq<Func>)

  /**
   * The objects `fs`, and the objects below them, all among `fp`, hold the
   * functions `vs` one for one: each object has `parent` for its parent and
   * the depth of a function with `level` ancestors.
   */
  ghost predicate Holds(fs: seq<LuaFunction>, vs: seq<Func>, parent: LuaFunction?, level: nat, fp: set<LuaFunction>)
    reads fp
    decreases vs, 1
  {
    |fs| == |vs| && forall i :: 0 <= i < |fs| ==> NodeHolds(fs[i], vs[i], parent, level, fp)
  }

  /**
   * One object of `Holds`: it has the name, arguments and locality of the
   * header of `v`, starts where `v` starts, holds the text of `v` trimmed, and
   * its `ChildFunctions` hold the children of `v`.
   */
  ghost predicate NodeHolds(o: LuaFunction, v: Func, parent: LuaFunction?, level: nat, fp: set<LuaFunction>)
    reads fp
    decreases v, 0
  {
    o in fp && Describes(o, v) && o.ParentFunction == parent && o.Depth == DepthFor(level) &&
    Holds(o.ChildFunctions, v.children, o, level + 1, fp)
  }

  /** The fields of `o` that FunctionMatchToLuaFunction and the `end` of `v` set. */
  ghost predicate Describes(o: LuaFunction, v: Func)
    reads o
  {
    o.Name == v.header.name && o.Arguments == v.header.arguments && o.IsLocal == v.header.m.isLocal &&
    o.StartIndex == v.start && o.LuaString == Some(Trim(v.source, Whitespace))
  }

  /** What holds among some objects holds among more of them. */
  lemma {:induction false} HoldsGrow(fs: seq<LuaFunction>, vs: seq<Func>, parent: LuaFunction?, level: nat,
                                     fp: set<LuaFunction>, more: set<LuaFunction>)
    requires Holds(fs, vs, parent, level, fp) && fp <= more
    ensures Holds(fs, vs, parent, level, more)
    decreases vs
  {
    forall i | 0 <= i < |fs|
      ensures NodeHolds(fs[i], vs[i], parent, level, more)
    {
      var o, v := fs[i], vs[i];
      assert NodeHolds(o, v, parent, level, fp);
      HoldsGrow(o.ChildFunctions, v.children, o, level + 1, fp, more);
    }
  }

  /** The last object of a list holds the last function, and the others hold the others. */
  lemma HoldsSplit(fs: seq<LuaFunction>, vs: seq<Func>, parent: LuaFunction?, level: nat, fp: set<LuaFunction>)
    requires Holds(fs, vs, parent, level, fp) && fs != []
    ensures |fs| == |vs| && NodeHolds(fs[|fs| - 1], vs[|vs| - 1], parent, level, fp)
    ensures Holds(fs[..|fs| - 1], vs[..|vs| - 1], parent, level, fp)
  {
    var n := |fs| - 1;
    assert forall i :: 0 <= i < n ==> fs[..n][i] == fs[i] && vs[..n][i] == vs[i];
  }

  /** One more object holding one more function. */
  lemma HoldsAppend(fs: seq<LuaFunction>, vs: seq<Func>, parent: LuaFunction?, level: nat, fp: set<LuaFunction>,
                    o: LuaFunction, v: Func)
    requires Holds(fs, vs, parent, level, fp) && NodeHolds(o, v, parent, level, fp)
    ensures Holds(fs + [o], vs + [v], parent, level, fp)
  {
    var gs, ws := fs + [o], vs + [v];
    assert forall i :: 0 <= i < |fs| ==> gs[i] == fs[i] && ws[i] == vs[i];
  }

  /** One more object, whose descendants are `below`, holding one more function. */
  lemma HoldsClose(fs: seq<LuaFunction>, vs: seq<Func>, parent: LuaFunction?, level: nat, fp: set<LuaFunction>,
                   o: LuaFunction, v: Func, below: set<LuaFunction>)
    requires Holds(fs, vs, parent, level, fp) && Holds(o.ChildFunctions, v.children, o, level + 1, below)
    requires Describes(o, v) && o.ParentFunction == parent && o.Depth == DepthFor(level)
    ensures Holds(fs + [o], vs + [v], parent, level, fp + {o} + below)
  {
    var more := fp + {o} + below;
    HoldsGrow(fs, vs, parent, level, fp, more);
    HoldsGrow(o.ChildFunctions, v.children, o, level + 1, below, more);
    HoldsAppend(fs, vs, parent, level, more, o, v);
  }
}
