/**
 * The `LuaFunction` node (src/LuaMinifier/Models/LuaFunction.cs): the
 * description of one function of the Lua text, linked to the function it is
 * nested in and to the functions nested in it.
 */
module Models {
  import opened Wrappers

  /**
   * `Depth` as CalculateDepth computes it for a node whose parent starts an
   * ancestor chain of `ancestors` nodes: the walk counts the parent's chain
   * and starts at -1, so a node without a parent and a direct child of a
   * root both get 0.
   */
  function DepthFor(ancestors: nat): nat {
    if ancestors == 0 then 0 else ancestors - 1
  }

  /**
   * `chain` lists `p`, its parent, that node's parent and so on, up to a node
   * without a parent; it is empty when `p` is null. Such a chain is finite by
   * construction.
   */
  ghost predicate Ancestry(p: LuaFunction?, chain: seq<LuaFunction>)
    reads chain`ParentFunction
  {
    if chain == [] then p == null
    else
      p == chain[0] && chain[|chain| - 1].ParentFunction == null &&
      forall i :: 0 <= i < |chain| - 1 ==> chain[i].ParentFunction == chain[i + 1]
  }

  class LuaFunction {
    var Name: string
    /** The argument names; `LuaArgument` is not part of this model, so an argument is its name. */
    var Arguments: seq<string>
    /** The source text of the function, `None` (null) until its `end` is found. */
    var LuaString: Option<string>
    var StartIndex: int
    var IsLocal: bool
    /** The backing field `_parentFunction`; it is assigned through SetParentFunction only. */
    var ParentFunction: LuaFunction?
    var ChildFunctions: seq<LuaFunction>
    var Depth: int

    /** `new LuaFunction(name)`, with the property initialisers of the class. */
    constructor (name: string)
      ensures Name == name && Arguments == [] && LuaString == None && StartIndex == 0 && !IsLocal
      ensures ParentFunction == null && ChildFunctions == [] && Depth == 0
    {
      Name := name;
      Arguments := [];
      LuaString := None;
      StartIndex := 0;
      IsLocal := false;
      ParentFunction := null;
      ChildFunctions := [];
      Depth := 0;
    }

    /**
     * The do-while walk up the parent chain. It ends only because the chain
     * from `ParentFunction` is finite and acyclic, which `chain` witnesses.
     */
    method CalculateDepth(ghost chain: seq<LuaFunction>) returns (depth: int)
      requires Ancestry(ParentFunction, chain)
      ensures depth == DepthFor(|chain|)
    {
      var parent := ParentFunction;
      depth := -1;
      ghost var i := 0;
      while true
        invariant i <= |chain| && (i == 0 || i < |chain|)
        invariant depth == i - 1
        invariant parent == if i < |chain| then chain[i] else null
        decreases |chain| - i
      {
        depth := depth + 1;
        if i + 1 < |chain| {
          assert chain[i].ParentFunction == chain[i + 1];
        }
        parent := if parent == null then null else parent.ParentFunction;
        if parent == null {
          break;
        }
        i := i + 1;
      }
    }

    /**
     * The `ParentFunction` setter: store the parent, then recompute `Depth`.
     * The walk would not end if this node were among its new ancestors.
     */
    method SetParentFunction(value: LuaFunction?, ghost chain: seq<LuaFunction>)
      requires Ancestry(value, chain) && this !in chain
      modifies this`ParentFunction, this`Depth
      ensures ParentFunction == value && Depth == DepthFor(|chain|)
    {
      ParentFunction := value;
      Depth := CalculateDepth(chain);
    }
  }

  /** The chain above a node is the chain of its parent with the parent in front. */
  lemma AncestryTail(p: LuaFunction, chain: seq<LuaFunction>)
    requires Ancestry(p, chain)
    ensures chain != [] && Ancestry(p.ParentFunction, chain[1..])
  {
    var tail := chain[1..];
    assert forall i :: 0 <= i < |tail| ==> tail[i] == chain[i + 1];
  }

  /** Only one chain starts at a node, so the depth the walk computes does not depend on the witness. */
  lemma {:induction false} AncestryUnique(p: LuaFunction?, c1: seq<LuaFunction>, c2: seq<LuaFunction>)
    requires Ancestry(p, c1) && Ancestry(p, c2)
    ensures c1 == c2
    decreases |c1|
  {
    if p != null {
      AncestryTail(p, c1);
      AncestryTail(p, c2);
      AncestryUnique(p.ParentFunction, c1[1..], c2[1..]);
      assert c1 == [p] + c1[1..] && c2 == [p] + c2[1..];
    }
  }

  /** A chain that ends at a node without a parent never visits a node twice. */
  lemma {:induction false} AncestryAcyclic(p: LuaFunction?, chain: seq<LuaFunction>)
    requires Ancestry(p, chain)
    ensures forall i, j :: 0 <= i < j < |chain| ==> chain[i] != chain[j]
    decreases |chain|
  {
    if p != null {
      AncestryTail(p, chain);
      AncestryAcyclic(p.ParentFunction, chain[1..]);
      forall j | 0 < j < |chain|
        ensures chain[0] != chain[j]
      {
        if chain[0] == chain[j] {
          var rest := chain[j..];
          assert forall i :: 0 <= i < |rest| ==> rest[i] == chain[j + i];
          assert Ancestry(p, rest);
          AncestryUnique(p, chain, chain[j..]);
        }
      }
      forall i, j | 0 < i < j < |chain|
        ensures chain[i] != chain[j]
      {
        assert chain[i] == chain[1..][i - 1] && chain[j] == chain[1..][j - 1];
      }
    }
  }

  /**
   * The depth a child of `p` gets: 0 when `p` is a root, and one more than
   * the depth of `p` itself otherwise. So a root and its children share
   * depth 0, and only from there on does each generation add one.
   */
  lemma DepthStep(p: LuaFunction, chain: seq<LuaFunction>)
    requires Ancestry(p, chain)
    ensures DepthFor(|chain|) == (if p.ParentFunction == null then 0 else DepthFor(|chain| - 1) + 1)
  {
    AncestryTail(p, chain);
    if p.ParentFunction == null {
      assert |chain[1..]| == 0;
    }
  }

  /**
   * Setting parents on a root, a child and a grandchild gives the depths 0, 0
   * and 1; giving the grandchild's parent a new parent later leaves the
   * grandchild's `Depth` as it was, although a fresh walk now finds 0.
   */
  method DepthsOfThreeGenerations() returns (root: int, child: int, grandchild: int, stale: int, walked: int)
    ensures root == 0 && child == 0 && grandchild == 1
    ensures stale == 1 && walked == 0
  {
    var r := new LuaFunction("r");
    var c := new LuaFunction("c");
    var g := new LuaFunction("g");
    r.SetParentFunction(null, []);
    c.SetParentFunction(r, [r]);
    g.SetParentFunction(c, [c, r]);
    root, child, grandchild := r.Depth, c.Depth, g.Depth;
    c.SetParentFunction(null, []);
    stale := g.Depth;
    walked := g.CalculateDepth([c]);
  }
}
