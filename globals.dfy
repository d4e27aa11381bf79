/**
 * GlobalFunctions: the functions of a parsed forest that can be called from
 * anywhere, listed parent before nested function and in the order of the
 * text. A function counts as global when it has no parent or is not
 * declared `local`; the functions nested in a function are always searched,
 * whether that function is itself global or not.
 *
 * Terms: a *picture* (`Node`, `Pictures`) is a ghost value that copies the
 * object forest, each object with the outcome of the global test, so that
 * the listing can be specified without reading the heap.
 */
module Globals {
  import opened Models
  import opened Forest

  /** The test GetGlobalFunctions applies to each function it visits. */
  predicate IsGlobal(o: LuaFunction)
    reads o
  {
    o.ParentFunction == null || !o.IsLocal
  }

  /**
   * A picture of one object of a forest as a value: the object, whether it
   * passes the test, and the pictures of the objects in its `ChildFunctions`.
   */
  datatype Node = Node(obj: LuaFunction, global: bool, kids: seq<Node>)

  /** `ns` pictures the objects `fs` and all the objects below them, all among `fp`. */
  ghost predicate Pictures(fs: seq<LuaFunction>, ns: seq<Node>, fp: set<LuaFunction>)
    reads fp
    decreases ns
  {
    |fs| == |ns| &&
    forall i :: 0 <= i < |fs| ==>
      fs[i] == ns[i].obj && fs[i] in fp && ns[i].global == IsGlobal(fs[i]) &&
      Pictures(fs[i].ChildFunctions, ns[i].kids, fp)
  }

  /** The picture of the objects `fs` of a forest that holds `vs`. */
  ghost function PictureOf(fs: seq<LuaFunction>, vs: seq<Func>, fp: set<LuaFunction>): seq<Node>
    reads fp
    decreases vs
  {
    if fs == [] || vs == [] then []
    else
      var o, v := fs[|fs| - 1], vs[|vs| - 1];
      PictureOf(fs[..|fs| - 1], vs[..|vs| - 1], fp) +
      [if o in fp then Node(o, IsGlobal(o), PictureOf(o.ChildFunctions, v.children, fp)) else Node(o, false, [])]
  }

  /** One more pictured object. */
  lemma PicturesSnoc(fs: seq<LuaFunction>, ns: seq<Node>, fp: set<LuaFunction>, o: LuaFunction, kids: seq<Node>)
    requires Pictures(fs, ns, fp) && o in fp && Pictures(o.ChildFunctions, kids, fp)
    ensures Pictures(fs + [o], ns + [Node(o, IsGlobal(o), kids)], fp)
  {
    var gs, ms := fs + [o], ns + [Node(o, IsGlobal(o), kids)];
    assert forall i :: 0 <= i < |fs| ==> gs[i] == fs[i] && ms[i] == ns[i];
  }

  /** The last pictured object, and the others. */
  lemma PicturesSplit(fs: seq<LuaFunction>, ns: seq<Node>, fp: set<LuaFunction>)
    requires Pictures(fs, ns, fp) && fs != []
    ensures |fs| == |ns| && Pictures(fs[..|fs| - 1], ns[..|ns| - 1], fp)
  {
    var n := |fs| - 1;
    assert forall i :: 0 <= i < n ==> fs[..n][i] == fs[i] && ns[..n][i] == ns[i];
  }

  /** Every forest that holds some functions has its picture. */
  lemma {:induction false} PictureOfHolds(fs: seq<LuaFunction>, vs: seq<Func>, parent: LuaFunction?, level: nat, fp: set<LuaFunction>)
    requires Holds(fs, vs, parent, level, fp)
    ensures Pictures(fs, PictureOf(fs, vs, fp), fp)
    decreases vs
  {
    if fs != [] {
      var n := |fs| - 1;
      var o, v := fs[n], vs[n];
      HoldsSplit(fs, vs, parent, level, fp);
      PictureOfHolds(fs[..n], vs[..n], parent, level, fp);
      PictureOfHolds(o.ChildFunctions, v.children, o, level + 1, fp);
      PicturesSnoc(fs[..n], PictureOf(fs[..n], vs[..n], fp), fp, o, PictureOf(o.ChildFunctions, v.children, fp));
      assert fs[..n] + [o] == fs;
    }
  }

  /** The pictured objects, each followed by those nested in it (pre-order). */
  function Listing(ns: seq<Node>): (r: seq<Node>)
    ensures |ns| <= |r|
    decreases ns
  {
    if ns == [] then []
    else
      var n := ns[|ns| - 1];
      Listing(ns[..|ns| - 1]) + [n] + Listing(n.kids)
  }

  /** The objects of the pictures `ls` that pass the test, in the order of `ls`. */
  function Kept(ls: seq<Node>): (r: seq<LuaFunction>)
    ensures |r| <= |ls|
  {
    if ls == [] then []
    else
      var n := ls[|ls| - 1];
      Kept(ls[..|ls| - 1]) + (if n.global then [n.obj] else [])
  }

  /** The objects of the pictures `ls`, in order. */
  function Objects(ls: seq<Node>): (r: seq<LuaFunction>)
    ensures |r| == |ls| && forall k :: 0 <= k < |ls| ==> r[k] == ls[k].obj
  {
    seq(|ls|, k requires 0 <= k < |ls| => ls[k].obj)
  }

  /** Keeping in two parts is keeping in each part. */
  lemma {:induction false} KeptAppend(a: seq<Node>, b: seq<Node>)
    ensures Kept(a + b) == Kept(a) + Kept(b)
    decreases |b|
  {
    if b == [] {
      assert a + b == a;
    } else {
      var n := |b| - 1;
      assert (a + b)[..|a + b| - 1] == a + b[..n] && (a + b)[|a + b| - 1] == b[n];
      KeptAppend(a, b[..n]);
    }
  }

  /** An object is kept exactly when one of the pictures of it passes the test. */
  lemma {:induction false} KeptMembers(ls: seq<Node>, o: LuaFunction)
    ensures o in Kept(ls) <==> exists k :: 0 <= k < |ls| && ls[k].obj == o && ls[k].global
    decreases |ls|
  {
    if ls != [] {
      var n := |ls| - 1;
      KeptMembers(ls[..n], o);
      assert forall k :: 0 <= k < n ==> ls[..n][k] == ls[k];
    }
  }

  /** What `Pictures` says of object `i`. */
  lemma PicturedAt(fs: seq<LuaFunction>, ns: seq<Node>, fp: set<LuaFunction>, i: nat)
    requires Pictures(fs, ns, fp) && i < |fs|
    ensures fs[i] == ns[i].obj && ns[i].global == IsGlobal(fs[i]) && Pictures(fs[i].ChildFunctions, ns[i].kids, fp)
  {
  }

  /** Listing one more object lists it and then the objects below it. */
  lemma ListingStep(ns: seq<Node>, i: nat)
    requires i < |ns|
    ensures Listing(ns[..i + 1]) == Listing(ns[..i]) + [ns[i]] + Listing(ns[i].kids)
  {
    assert ns[..i + 1][..i] == ns[..i];
  }

  /**
   * Visiting object `i` of a forest keeps it when it passes the test, and
   * then keeps what is kept below it.
   */
  lemma KeptStep(ns: seq<Node>, i: nat)
    requires i < |ns|
    ensures Kept(Listing(ns[..i + 1])) ==
            Kept(Listing(ns[..i])) + (if ns[i].global then [ns[i].obj] else []) + Kept(Listing(ns[i].kids))
  {
    ListingStep(ns, i);
    KeptAppend(Listing(ns[..i]), [ns[i]]);
    KeptAppend(Listing(ns[..i]) + [ns[i]], Listing(ns[i].kids));
    assert [ns[i]][..0] == [];
  }

  /** Each picture the listing holds pictures its object as the forest has it. */
  lemma {:induction false} ListingPictured(fs: seq<LuaFunction>, ns: seq<Node>, fp: set<LuaFunction>)
    requires Pictures(fs, ns, fp)
    ensures forall k :: 0 <= k < |Listing(ns)| ==>
      Listing(ns)[k].obj in fp && Listing(ns)[k].global == IsGlobal(Listing(ns)[k].obj)
    decreases ns
  {
    if ns != [] {
      var n := |ns| - 1;
      assert Pictures(fs[..n], ns[..n], fp) by {
        assert forall i :: 0 <= i < n ==> fs[..n][i] == fs[i] && ns[..n][i] == ns[i];
      }
      ListingPictured(fs[..n], ns[..n], fp);
      ListingPictured(fs[n].ChildFunctions, ns[n].kids, fp);
      var front, below := Listing(ns[..n]), Listing(ns[n].kids);
      var all := Listing(ns);
      assert all == front + [ns[n]] + below;
      forall k | 0 <= k < |all|
        ensures all[k].obj in fp && all[k].global == IsGlobal(all[k].obj)
      {
        if k < |front| {
          assert all[k] == front[k];
        } else if k > |front| {
          assert all[k] == below[k - |front| - 1];
        }
      }
    }
  }

  /**
   * GetGlobalFunctions on values: what it returns for a forest that holds
   * `vs`; `top` says whether the functions of `vs` have no parent.
   */
  function GlobalsOf(vs: seq<Func>, top: bool): seq<Func>
    decreases vs
  {
    if vs == [] then []
    else
      var v := vs[|vs| - 1];
      GlobalsOf(vs[..|vs| - 1], top) + (if top || !v.header.m.isLocal then [v] else []) + GlobalsOf(v.children, false)
  }

  /** Every root function is global, local or not. */
  lemma {:induction false} RootsAreGlobal(vs: seq<Func>)
    ensures forall i :: 0 <= i < |vs| ==> vs[i] in GlobalsOf(vs, true)
    decreases |vs|
  {
    if vs != [] {
      var n := |vs| - 1;
      RootsAreGlobal(vs[..n]);
      assert forall i :: 0 <= i < n ==> vs[..n][i] == vs[i];
    }
  }

  /** Below the roots, only functions that are not local are global. */
  lemma {:induction false} NestedGlobalsNotLocal(vs: seq<Func>)
    ensures forall w :: w in GlobalsOf(vs, false) ==> !w.header.m.isLocal
    decreases vs
  {
    if vs != [] {
      var n := |vs| - 1;
      NestedGlobalsNotLocal(vs[..n]);
      NestedGlobalsNotLocal(vs[n].children);
    }
  }

  /** The objects `os` hold the fields of the functions `ws`, one for one. */
  ghost predicate Corresponds(os: seq<LuaFunction>, ws: seq<Func>)
    reads os
  {
    |os| == |ws| && forall i :: 0 <= i < |os| ==> Describes(os[i], ws[i])
  }

  lemma CorrespondsAppend(os: seq<LuaFunction>, ws: seq<Func>, os': seq<LuaFunction>, ws': seq<Func>)
    requires Corresponds(os, ws) && Corresponds(os', ws')
    ensures Corresponds(os + os', ws + ws')
  {
    var a, b := os + os', ws + ws';
    assert forall i :: 0 <= i < |os| ==> a[i] == os[i] && b[i] == ws[i];
    assert forall i :: |os| <= i < |a| ==> a[i] == os'[i - |os|] && b[i] == ws'[i - |os|];
  }

  /**
   * The global objects of a forest hold the global functions of the values
   * it holds, in the same order: an object with a parent is kept exactly
   * when the function it holds is not local.
   */
  lemma {:induction false} GlobalsHeld(fs: seq<LuaFunction>, vs: seq<Func>, ns: seq<Node>, parent: LuaFunction?, level: nat,
                                       fp: set<LuaFunction>)
    requires Holds(fs, vs, parent, level, fp) && Pictures(fs, ns, fp)
    ensures Corresponds(Kept(Listing(ns)), GlobalsOf(vs, parent == null))
    decreases vs
  {
    if fs != [] {
      var n := |fs| - 1;
      var o, v := fs[n], vs[n];
      HoldsSplit(fs, vs, parent, level, fp);
      PicturesSplit(fs, ns, fp);
      PicturedAt(fs, ns, fp, n);
      GlobalsHeld(fs[..n], vs[..n], ns[..n], parent, level, fp);
      GlobalsHeld(o.ChildFunctions, v.children, ns[n].kids, o, level + 1, fp);
      KeptStep(ns, n);
      assert ns[..n + 1] == ns && vs[..n + 1] == vs;
      var mine := if ns[n].global then [ns[n].obj] else [];
      var kept := if parent == null || !v.header.m.isLocal then [v] else [];
      assert Corresponds(mine, kept);
      CorrespondsAppend(Kept(Listing(ns[..n])), GlobalsOf(vs[..n], parent == null), mine, kept);
      CorrespondsAppend(Kept(Listing(ns[..n])) + mine, GlobalsOf(vs[..n], parent == null) + kept,
                        Kept(Listing(ns[n].kids)), GlobalsOf(v.children, false));
    }
  }

  /**
   * GetGlobalFunctions: the objects of the forest `functions`, listed parent
   * first, that pass the test. It changes no object.
   */
  method GetGlobalFunctions(functions: seq<LuaFunction>, ghost ns: seq<Node>, ghost fp: set<LuaFunction>)
    returns (globalFunctions: seq<LuaFunction>)
    requires Pictures(functions, ns, fp)
    ensures globalFunctions == Kept(Listing(ns))
    decreases ns
  {
    globalFunctions := [];
    var i := 0;
    while i < |functions|
      invariant i <= |functions|
      invariant globalFunctions == Kept(Listing(ns[..i]))
    {
      var fn := functions[i];
      PicturedAt(functions, ns, fp, i);
      KeptStep(ns, i);
      if fn.ParentFunction == null || !fn.IsLocal {
        globalFunctions := globalFunctions + [fn];
      }
      var nested := GetGlobalFunctions(fn.ChildFunctions, ns[i].kids, fp);
      globalFunctions := globalFunctions + nested;
      i := i + 1;
    }
    assert ns[..i] == ns;
  }

  /**
   * GlobalFunctions: for the root functions ParseFunctions returns, every
   * object of the forest that has no parent or is not local, each before
   * those nested in it, and nothing else; they hold the fields of GlobalsOf
   * of the functions found, one for one.
   */
  method GlobalFunctions(parsedRootFunctions: seq<LuaFunction>, ghost vs: seq<Func>, ghost fp: set<LuaFunction>)
    returns (globalFunctions: seq<LuaFunction>, ghost picture: seq<Node>)
    requires Holds(parsedRootFunctions, vs, null, 0, fp)
    ensures Pictures(parsedRootFunctions, picture, fp) && globalFunctions == Kept(Listing(picture))
    ensures forall o :: o in globalFunctions <==> o in Objects(Listing(picture)) && IsGlobal(o)
    ensures Corresponds(globalFunctions, GlobalsOf(vs, true))
  {
    picture := PictureOf(parsedRootFunctions, vs, fp);
    PictureOfHolds(parsedRootFunctions, vs, null, 0, fp);
    globalFunctions := GetGlobalFunctions(parsedRootFunctions, picture, fp);
    GlobalsHeld(parsedRootFunctions, vs, picture, null, 0, fp);
    ListingPictured(parsedRootFunctions, picture, fp);
    forall o
      ensures o in globalFunctions <==> o in Objects(Listing(picture)) && IsGlobal(o)
    {
      KeptMembers(Listing(picture), o);
    }
  }
}
