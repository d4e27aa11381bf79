/**
 * The inputs of src/LuaMinifier.Test/GlobalFunctionParserTests.cs, scanned:
 * for each, what the scan finds (where each function starts, its name,
 * whether it is local, its arguments, its text once trimmed and the
 * functions nested in it) is what the test expects.
 */
module Cases {
  import opened Text
  import opened Patterns
  import opened Descriptor
  import opened Forest
  import opened Scanner
  import opened Globals
  import opened Layout
  import opened Scans

  /** `Finds` for a single function. */
  lemma FindsOne(vs: seq<Func>, items: seq<Item>, p: nat)
    requires |items| == 1 && Finds(vs, items, p)
    ensures var w, k := items[0].tree, p + |items[0].space|;
      |vs| == 1 && Shows(vs[0], w, k) && Finds(vs[0].children, w.body, SigEnd(w.sig, k))
  {
    assert items[1..] == [];
  }

  /** `Finds` for two functions, one after the other; the second is the first of the rest. */
  lemma FindsTwo(vs: seq<Func>, items: seq<Item>, p: nat)
    requires |items| == 2 && Finds(vs, items, p)
    ensures |vs| == 2
    ensures Shows(vs[0], items[0].tree, p + |items[0].space|)
    ensures Finds(vs[0].children, items[0].tree.body, SigEnd(items[0].tree.sig, p + |items[0].space|))
    ensures Shows(vs[1..][0], items[1..][0].tree, TreeEnd(items[0].tree, p + |items[0].space|) + |items[1..][0].space|)
    ensures Finds(vs[1..][0].children, items[1..][0].tree.body,
                  SigEnd(items[1..][0].tree.sig, TreeEnd(items[0].tree, p + |items[0].space|) + |items[1..][0].space|))
  {
    FindsHead(vs, items, p);
    FindsOne(vs[1..], items[1..], TreeEnd(items[0].tree, p + |items[0].space|));
  }

  /** `Finds` for a first function and the rest. */
  lemma FindsHead(vs: seq<Func>, items: seq<Item>, p: nat)
    requires items != [] && Finds(vs, items, p)
    ensures var w, k := items[0].tree, p + |items[0].space|;
      vs != [] && Shows(vs[0], w, k) && Finds(vs[0].children, w.body, SigEnd(w.sig, k)) &&
      Finds(vs[1..], items[1..], TreeEnd(w, k))
  {
  }

  /** A line break is whitespace. */
  lemma LineBreak()
    ensures IsGap("\n") && "\n" != []
  {
    assert "\n"[0] == '\n';
  }

  /** A sound function written out alone: the scan finds just it, at offset 0. */
  lemma Single(w: Tree)
    requires BlankTree(w)
    ensures Scan(Out(w)).Done? && |Scan(Out(w)).found| == 1
    ensures Shows(Scan(Out(w)).found[0], w, 0) && Finds(Scan(Out(w)).found[0].children, w.body, SigEnd(w.sig, 0))
  {
    Alone(w);
    FoundAsLaid([Item("", w)], "");
    FindsOne(Scan(Out(w)).found, [Item("", w)], 0);
  }

  /** A sound function by itself is a sound layout whose text is the function's. */
  lemma Alone(w: Tree)
    requires BlankTree(w)
    ensures BlankItems([Item("", w)]) && Items([Item("", w)]) + "" == Out(w)
  {
    AloneSound(w);
    AloneText(w);
  }

  /** A lone function laid out blank, as the one item of a list. */
  lemma AloneSound(w: Tree)
    requires BlankTree(w)
    ensures BlankItems([Item("", w)])
  {
    var items := [Item("", w)];
    assert items[1..] == [];
  }

  /** A lone function, written out as the one item of a list, is its own text. */
  lemma AloneText(w: Tree)
    ensures Items([Item("", w)]) + "" == Out(w)
  {
    var items := [Item("", w)];
    assert items[1..] == [];
    ItemsIs(items);
    Pad(Out(w));
  }

  /** A hint for the verifier: empty pieces around `x` leave `x`. */
  lemma Pad(x: string)
    ensures "" + x + "" + "" == x
  {
  }

  /** A sound function with nothing nested in it, written out alone: what the scan finds for it, field by field. */
  lemma Flat(w: Tree)
    requires BlankTree(w) && w.body == []
    ensures var r := Scan(Out(w));
      r.Done? && |r.found| == 1 && r.found[0].start == 0 && r.found[0].header.name == w.sig.name &&
      r.found[0].header.m.isLocal == w.sig.isLocal && r.found[0].header.arguments == ArgumentList(w.sig.arguments) &&
      Trim(r.found[0].source, Whitespace) == Out(w) && r.found[0].children == []
  {
    Single(w);
  }

  /** A sound function with one function nested in it, itself with nothing nested in it: what the scan finds, field by field. */
  lemma Nested(w: Tree)
    requires BlankTree(w) && |w.body| == 1 && w.body[0].tree.body == []
    ensures var r := Scan(Out(w));
      var c, k := w.body[0].tree, |Render(w.sig)| + |w.body[0].space|;
      r.Done? && |r.found| == 1 && r.found[0].start == 0 && r.found[0].header.name == w.sig.name &&
      r.found[0].header.m.isLocal == w.sig.isLocal && r.found[0].header.arguments == ArgumentList(w.sig.arguments) &&
      Trim(r.found[0].source, Whitespace) == Out(w) && |r.found[0].children| == 1 &&
      r.found[0].children[0].start == k && r.found[0].children[0].header.name == c.sig.name &&
      r.found[0].children[0].header.m.isLocal == c.sig.isLocal &&
      r.found[0].children[0].header.arguments == ArgumentList(c.sig.arguments) &&
      Trim(r.found[0].children[0].source, Whitespace) == Out(c) && r.found[0].children[0].children == []
  {
    Single(w);
    SigEnds(w.sig, 0);
    FindsOne(Scan(Out(w)).found[0].children, w.body, SigEnd(w.sig, 0));
  }

  /** Two sound functions with nothing nested in them, the second on the line after the first: what the scan finds, field by field. */
  lemma FlatPair(w1: Tree, w2: Tree)
    requires BlankTree(w1) && BlankTree(w2) && w1.body == [] && w2.body == []
    ensures var r := Scan(Out(w1) + "\n" + Out(w2));
      var k := |Out(w1)| + 1;
      r.Done? && |r.found| == 2 &&
      r.found[0].start == 0 && r.found[0].header.name == w1.sig.name &&
      r.found[0].header.m.isLocal == w1.sig.isLocal && r.found[0].header.arguments == ArgumentList(w1.sig.arguments) &&
      Trim(r.found[0].source, Whitespace) == Out(w1) && r.found[0].children == [] &&
      r.found[1].start == k && r.found[1].header.name == w2.sig.name &&
      r.found[1].header.m.isLocal == w2.sig.isLocal && r.found[1].header.arguments == ArgumentList(w2.sig.arguments) &&
      Trim(r.found[1].source, Whitespace) == Out(w2) && r.found[1].children == []
  {
    var lua := Out(w1) + "\n" + Out(w2);
    var items := [Item("", w1), Item("\n", w2)];
    PairFound(w1, w2);
    var vs := Scan(lua).found;
    FindsTwo(vs, items, 0);
    TreeEnds(w1, 0);
    assert items[1..][0] == Item("\n", w2);
  }

  /** The scan of two sound functions, the second on the line after the first. */
  lemma PairFound(w1: Tree, w2: Tree)
    requires BlankTree(w1) && BlankTree(w2)
    ensures var lua := Out(w1) + "\n" + Out(w2);
      Scan(lua).Done? && Finds(Scan(lua).found, [Item("", w1), Item("\n", w2)], 0)
  {
    var items := [Item("", w1), Item("\n", w2)];
    LineBreak();
    PairLaid(w1, w2, "\n");
    assert Items(items) + "" == Out(w1) + "\n" + Out(w2);
    FoundAsLaid(items, "");
  }

  /** Two sound functions, the second after some whitespace: sound, and written out one after the other. */
  lemma PairLaid(w1: Tree, w2: Tree, space: string)
    requires BlankTree(w1) && BlankTree(w2) && IsGap(space) && space != []
    ensures var items := [Item("", w1), Item(space, w2)];
      BlankItems(items) && Items(items) == Out(w1) + space + Out(w2)
  {
    PairSound(w1, w2, space);
    PairText(w1, w2, space);
  }

  /** Two functions laid out blank, the second after whitespace, as a list of two items. */
  lemma PairSound(w1: Tree, w2: Tree, space: string)
    requires BlankTree(w1) && BlankTree(w2) && IsGap(space) && space != []
    ensures BlankItems([Item("", w1), Item(space, w2)])
  {
    var items := [Item("", w1), Item(space, w2)];
    assert items[1..] == [Item(space, w2)] && items[1..][1..] == [];
  }

  /** Two functions, written out as a list of two items, are their texts with the whitespace between. */
  lemma PairText(w1: Tree, w2: Tree, space: string)
    ensures Items([Item("", w1), Item(space, w2)]) == Out(w1) + space + Out(w2)
  {
    var items := [Item("", w1), Item(space, w2)];
    assert items[1..] == [Item(space, w2)] && items[1..][1..] == [];
    ItemsIs(items);
    ItemsIs(items[1..]);
    Tidy(Out(w1), space, Out(w2));
  }

  /** A hint for the verifier: the same concatenation, regrouped. */
  lemma Tidy(x: string, y: string, z: string)
    ensures "" + x + (y + z + "") == x + y + z
  {
  }

  /** A space is whitespace. */
  lemma Blank()
    ensures IsGap(" ")
  {
    assert " "[0] == ' ';
  }

  /** The argument text of :111, split as GetArguments splits it. */
  lemma TwoArguments()
    ensures ArgumentList("argument1, argument2") == ["argument1", "argument2"]
  {
    var names := ["argument1", "argument2"];
    assert IsWord(names[0]) && IsWord(names[1]);
    assert Listed(names) == "argument1, argument2";
    ArgumentsRoundTrip(names);
  }

  /** GetGlobalFunctions over one root with one nested function that is not local: both, root first. */
  lemma NestedGlobals(vs: seq<Func>)
    requires |vs| == 1 && |vs[0].children| == 1 && vs[0].children[0].children == [] && !vs[0].children[0].header.m.isLocal
    ensures GlobalsOf(vs, true) == [vs[0], vs[0].children[0]]
  {
    var cs := vs[0].children;
    assert vs[..0] == [] && cs[..0] == [];
    assert GlobalsOf(cs, false) == [cs[0]];
  }

  /** GetGlobalFunctions over one root with one nested function that is local: the root alone. */
  lemma NestedLocalGlobals(vs: seq<Func>)
    requires |vs| == 1 && |vs[0].children| == 1 && vs[0].children[0].children == [] && vs[0].children[0].header.m.isLocal
    ensures GlobalsOf(vs, true) == [vs[0]]
  {
    var cs := vs[0].children;
    assert vs[..0] == [] && cs[..0] == [];
    assert GlobalsOf(cs, false) == [];
  }

  /** `function NAME(ARGS)`, `local` or not, with the usual spacing. */
  lemma StatementSig(isLocal: bool, name: string, args: string)
    requires IsWord(name) && name != [] && ')' !in args
    ensures var sig := Signature(isLocal, Statement, name, args, Gaps(" ", "", ""));
      Writable(sig) && !Quirky(sig) && Render(sig) == (if isLocal then "local function " else "function ") + name + "(" + args + ")"
  {
    Blank();
  }

  /** `NAME = function()` with `third` before the parenthesis, for a name other than `end`. */
  lemma AssignmentSig(name: string, third: string)
    requires IsWord(name) && name != [] && name != "end" && IsGap(third)
    ensures var sig := Signature(false, Assignment, name, "", Gaps(" ", " ", third));
      Writable(sig) && !Quirky(sig) && Render(sig) == name + " " + "=" + " " + "function" + third + "(" + "" + ")"
  {
    Blank();
  }

  /** A function with nothing inside it, whitespace before its `end`. */
  lemma FlatLaid(sig: Signature, gap: string)
    requires Writable(sig) && !Quirky(sig) && gap != [] && IsGap(gap)
    ensures BlankTree(Tree(sig, [], gap)) && Out(Tree(sig, [], gap)) == Render(sig) + gap + "end"
  {
  }

  /** A function with one function inside it. */
  lemma NestLaid(sig: Signature, space: string, c: Tree, gap: string)
    requires Writable(sig) && !Quirky(sig) && gap != [] && IsGap(gap) && space != [] && IsGap(space) && BlankTree(c)
    ensures var w := Tree(sig, [Item(space, c)], gap);
      BlankTree(w) && Out(w) == (Render(sig) + space) + (Out(c) + gap + "end")
  {
    var items := [Item(space, c)];
    assert items[1..] == [];
    assert Items(items) == space + Out(c) + "";
    Regroup(Render(sig), space, Out(c), gap);
  }

  /** A hint for the verifier: the same concatenation, regrouped. */
  lemma Regroup(a: string, b: string, c: string, d: string)
    ensures a + (b + c + "") + d + "end" == (a + b) + (c + d + "end")
  {
  }

  // ----- The inputs -----
  /** `function myFunction()` and `end` on the next line (:40-60). */
  lemma ParsesGlobalFunction()
    ensures var r := Scan("function myFunction()\nend");
      r.Done? && |r.found| == 1 && r.found[0].start == 0 &&
      r.found[0].header.name == "myFunction" && !r.found[0].header.m.isLocal &&
      r.found[0].header.arguments == [] && r.found[0].children == [] &&
      Trim(r.found[0].source, Whitespace) == "function myFunction()\nend"
  {
    var w := Tree(Signature(false, Statement, "myFunction", "", Gaps(" ", "", "")), [], "\n");
    GlobalFunctionLaid();
    Flat(w);
    BlankPiece("");
  }

  /** The layout of the input of :40-60. */
  lemma GlobalFunctionLaid()
    ensures var w := Tree(Signature(false, Statement, "myFunction", "", Gaps(" ", "", "")), [], "\n");
      BlankTree(w) && Out(w) == "function myFunction()\nend"
  {
    LineBreak();
    assert IsWord("myFunction");
    StatementSig(false, "myFunction", "");
    FlatLaid(Signature(false, Statement, "myFunction", "", Gaps(" ", "", "")), "\n");
    GlobalFunctionText();
  }

  /** The text of the input of :40-60, from its pieces. */
  lemma GlobalFunctionText()
    ensures "function " + "myFunction" + "(" + "" + ")" + "\n" + "end" == "function myFunction()\nend"
  {
  }

  /** `local function myFunction()` and `end` on the next line (:63-83). */
  lemma ParsesLocalGlobalFunction()
    ensures var r := Scan("local function myFunction()\nend");
      r.Done? && |r.found| == 1 && r.found[0].start == 0 &&
      r.found[0].header.name == "myFunction" && r.found[0].header.m.isLocal &&
      r.found[0].header.arguments == [] && r.found[0].children == [] &&
      Trim(r.found[0].source, Whitespace) == "local function myFunction()\nend"
  {
    var w := Tree(Signature(true, Statement, "myFunction", "", Gaps(" ", "", "")), [], "\n");
    LocalGlobalFunctionLaid();
    Flat(w);
    BlankPiece("");
  }

  /** The layout of the input of :63-83. */
  lemma LocalGlobalFunctionLaid()
    ensures var w := Tree(Signature(true, Statement, "myFunction", "", Gaps(" ", "", "")), [], "\n");
      BlankTree(w) && Out(w) == "local function myFunction()\nend"
  {
    LineBreak();
    assert IsWord("myFunction");
    StatementSig(true, "myFunction", "");
    FlatLaid(Signature(true, Statement, "myFunction", "", Gaps(" ", "", "")), "\n");
    LocalGlobalFunctionText();
  }

  /** The text of the input of :63-83, from its pieces. */
  lemma LocalGlobalFunctionText()
    ensures "local function " + "myFunction" + "(" + "" + ")" + "\n" + "end" == "local function myFunction()\nend"
  {
  }

  /** `myFunction = function ()`, a space before the parenthesis, and `end` on the next line (:86-106). */
  lemma ParsesVariableStyleGlobalFunction()
    ensures var r := Scan("myFunction = function ()\nend");
      r.Done? && |r.found| == 1 && r.found[0].start == 0 &&
      r.found[0].header.name == "myFunction" && !r.found[0].header.m.isLocal &&
      r.found[0].header.arguments == [] && r.found[0].children == [] &&
      Trim(r.found[0].source, Whitespace) == "myFunction = function ()\nend"
  {
    var w := Tree(Signature(false, Assignment, "myFunction", "", Gaps(" ", " ", " ")), [], "\n");
    VariableStyleGlobalFunctionLaid();
    Flat(w);
    BlankPiece("");
  }

  /** The layout of the input of :86-106. */
  lemma VariableStyleGlobalFunctionLaid()
    ensures var w := Tree(Signature(false, Assignment, "myFunction", "", Gaps(" ", " ", " ")), [], "\n");
      BlankTree(w) && Out(w) == "myFunction = function ()\nend"
  {
    LineBreak();
    Blank();
    assert IsWord("myFunction");
    AssignmentSig("myFunction", " ");
    FlatLaid(Signature(false, Assignment, "myFunction", "", Gaps(" ", " ", " ")), "\n");
    VariableStyleGlobalFunctionText();
  }

  /** The text of the input of :86-106, from its pieces. */
  lemma VariableStyleGlobalFunctionText()
    ensures "myFunction" + " " + "=" + " " + "function" + " " + "(" + "" + ")" + "\n" + "end" == "myFunction = function ()\nend"
  {
  }

  /** `function myFunction(argument1, argument2)` and `end` on the next line (:109-135). */
  lemma ParsesGlobalFunctionWithArguments()
    ensures var r := Scan("function myFunction(argument1, argument2)\nend");
      r.Done? && |r.found| == 1 && r.found[0].start == 0 &&
      r.found[0].header.name == "myFunction" && !r.found[0].header.m.isLocal &&
      r.found[0].header.arguments == ["argument1", "argument2"] && r.found[0].children == [] &&
      Trim(r.found[0].source, Whitespace) == "function myFunction(argument1, argument2)\nend"
  {
    var w := Tree(Signature(false, Statement, "myFunction", "argument1, argument2", Gaps(" ", "", "")), [], "\n");
    GlobalFunctionWithArgumentsLaid();
    Flat(w);
    TwoArguments();
  }

  /** The layout of the input of :109-135. */
  lemma GlobalFunctionWithArgumentsLaid()
    ensures var w := Tree(Signature(false, Statement, "myFunction", "argument1, argument2", Gaps(" ", "", "")), [], "\n");
      BlankTree(w) && Out(w) == "function myFunction(argument1, argument2)\nend"
  {
    LineBreak();
    assert IsWord("myFunction");
    assert ')' !in "argument1, argument2";
    StatementSig(false, "myFunction", "argument1, argument2");
    FlatLaid(Signature(false, Statement, "myFunction", "argument1, argument2", Gaps(" ", "", "")), "\n");
    GlobalFunctionWithArgumentsText();
  }

  /** The text of the input of :109-135, from its pieces. */
  lemma GlobalFunctionWithArgumentsText()
    ensures "function " + "myFunction" + "(" + "argument1, argument2" + ")" + "\n" + "end" == "function myFunction(argument1, argument2)\nend"
  {
    ArgumentsHead();
    ArgumentsTail();
  }

  /** A hint for the verifier: the line up to the arguments, as one literal. */
  lemma ArgumentsHead()
    ensures "function " + "myFunction" + "(" == "function myFunction("
  {
  }

  /** A hint for the verifier: the rest of the text, as one literal. */
  lemma ArgumentsTail()
    ensures "function myFunction(" + "argument1, argument2" + ")" + "\n" + "end" == "function myFunction(argument1, argument2)\nend"
  {
  }

  /** Two functions, the second on the line after the first ends (:138-169). */
  lemma ParsesMultipleGlobalFunction()
    ensures var r := Scan("function myFunction1()\nend\nfunction myFunction2()\nend");
      r.Done? && |r.found| == 2 &&
      r.found[0].start == 0 && r.found[0].header.name == "myFunction1" && !r.found[0].header.m.isLocal &&
      r.found[0].header.arguments == [] && r.found[0].children == [] &&
      Trim(r.found[0].source, Whitespace) == "function myFunction1()\nend" &&
      r.found[1].start == 27 && r.found[1].header.name == "myFunction2" && !r.found[1].header.m.isLocal &&
      r.found[1].header.arguments == [] && r.found[1].children == [] &&
      Trim(r.found[1].source, Whitespace) == "function myFunction2()\nend"
  {
    var w1 := Tree(Signature(false, Statement, "myFunction1", "", Gaps(" ", "", "")), [], "\n");
    var w2 := Tree(Signature(false, Statement, "myFunction2", "", Gaps(" ", "", "")), [], "\n");
    MultipleGlobalFunctionLaid();
    FlatPair(w1, w2);
    BlankPiece("");
  }

  /** The layout of the input of :138-169. */
  lemma MultipleGlobalFunctionLaid()
    ensures var w1 := Tree(Signature(false, Statement, "myFunction1", "", Gaps(" ", "", "")), [], "\n");
      var w2 := Tree(Signature(false, Statement, "myFunction2", "", Gaps(" ", "", "")), [], "\n");
      BlankTree(w1) && BlankTree(w2) && Out(w1) == "function myFunction1()\nend" && Out(w2) == "function myFunction2()\nend" &&
      Out(w1) + "\n" + Out(w2) == "function myFunction1()\nend\nfunction myFunction2()\nend"
  {
    LineBreak();
    assert IsWord("myFunction1") && IsWord("myFunction2");
    StatementSig(false, "myFunction1", "");
    StatementSig(false, "myFunction2", "");
    FlatLaid(Signature(false, Statement, "myFunction1", "", Gaps(" ", "", "")), "\n");
    FlatLaid(Signature(false, Statement, "myFunction2", "", Gaps(" ", "", "")), "\n");
    MultipleFirstText();
    MultipleSecondText();
    MultipleHead();
    MultipleText();
  }

  /** A hint for the verifier: the first function of :138-169, as one literal. */
  lemma MultipleFirstText()
    ensures "function " + "myFunction1" + "(" + "" + ")" + "\n" + "end" == "function myFunction1()\nend"
  {
  }

  /** A hint for the verifier: the second function of :138-169, as one literal. */
  lemma MultipleSecondText()
    ensures "function " + "myFunction2" + "(" + "" + ")" + "\n" + "end" == "function myFunction2()\nend"
  {
  }

  /** A hint for the verifier: the first function and its line break, as one literal. */
  lemma MultipleHead()
    ensures "function myFunction1()\nend" + "\n" == "function myFunction1()\nend\n"
  {
  }

  /** The text of the input of :138-169, from its two functions. */
  lemma MultipleText()
    ensures "function myFunction1()\nend\n" + "function myFunction2()\nend" == "function myFunction1()\nend\nfunction myFunction2()\nend"
  {
  }

  /** `function myFunction1()`, then on its own line `function myFunction2() end`, then `end` (:172-206). */
  lemma ParsesNestedFunctions()
    ensures var r := Scan("function myFunction1()\n\tfunction myFunction2() end\nend");
      r.Done? && |r.found| == 1 &&
      r.found[0].start == 0 && r.found[0].header.name == "myFunction1" && !r.found[0].header.m.isLocal &&
      r.found[0].header.arguments == [] &&
      Trim(r.found[0].source, Whitespace) == "function myFunction1()\n\tfunction myFunction2() end\nend" &&
      |r.found[0].children| == 1 &&
      r.found[0].children[0].start == 24 && r.found[0].children[0].header.name == "myFunction2" &&
      !r.found[0].children[0].header.m.isLocal && r.found[0].children[0].header.arguments == [] &&
      Trim(r.found[0].children[0].source, Whitespace) == "function myFunction2() end" &&
      r.found[0].children[0].children == []
  {
    var c := Tree(Signature(false, Statement, "myFunction2", "", Gaps(" ", "", "")), [], " ");
    var w := Tree(Signature(false, Statement, "myFunction1", "", Gaps(" ", "", "")), [Item("\n\t", c)], "\n");
    NestedFunctionsLaid();
    Nested(w);
    BlankPiece("");
  }

  /** The layout of the input of :172-206. */
  lemma NestedFunctionsLaid()
    ensures var c := Tree(Signature(false, Statement, "myFunction2", "", Gaps(" ", "", "")), [], " ");
      var w := Tree(Signature(false, Statement, "myFunction1", "", Gaps(" ", "", "")), [Item("\n\t", c)], "\n");
      BlankTree(w) && |Render(w.sig)| == 22 && Out(c) == "function myFunction2() end" &&
      Out(w) == "function myFunction1()\n\tfunction myFunction2() end\nend"
  {
    LineBreak();
    Blank();
    Indent();
    assert IsWord("myFunction1") && IsWord("myFunction2");
    StatementSig(false, "myFunction1", "");
    StatementSig(false, "myFunction2", "");
    var c := Tree(Signature(false, Statement, "myFunction2", "", Gaps(" ", "", "")), [], " ");
    FlatLaid(c.sig, " ");
    NestLaid(Signature(false, Statement, "myFunction1", "", Gaps(" ", "", "")), "\n\t", c, "\n");
    NestedFunctionsHead();
    NestedFunctionsTail();
    NestedFunctionsText();
  }

  /** A hint for the verifier: the first line of :172-206 and its indent, as one literal. */
  lemma NestedFunctionsHead()
    ensures "function " + "myFunction1" + "(" + "" + ")" + "\n\t" == "function myFunction1()\n\t"
  {
  }

  /** A hint for the verifier: the nested function and the final `end` of :172-206, as literals. */
  lemma NestedFunctionsTail()
    ensures "function " + "myFunction2" + "(" + "" + ")" + " " + "end" == "function myFunction2() end"
    ensures "function myFunction2() end" + "\n" + "end" == "function myFunction2() end\nend"
  {
  }

  /** The text of the input of :172-206, from the line of its first function and the rest. */
  lemma NestedFunctionsText()
    ensures "function myFunction1()\n\t" + "function myFunction2() end\nend" == "function myFunction1()\n\tfunction myFunction2() end\nend"
  {
  }

  /** `myFunction1 = function()`, then on its own line `myFunction2 = function() end`, then `end` (:209-243). */
  lemma ParsesVariableStyleNestedFunctions()
    ensures var r := Scan("myFunction1 = function()\n\tmyFunction2 = function() end\nend");
      r.Done? && |r.found| == 1 &&
      r.found[0].start == 0 && r.found[0].header.name == "myFunction1" && !r.found[0].header.m.isLocal &&
      r.found[0].header.arguments == [] &&
      Trim(r.found[0].source, Whitespace) == "myFunction1 = function()\n\tmyFunction2 = function() end\nend" &&
      |r.found[0].children| == 1 &&
      r.found[0].children[0].start == 26 && r.found[0].children[0].header.name == "myFunction2" &&
      !r.found[0].children[0].header.m.isLocal && r.found[0].children[0].header.arguments == [] &&
      Trim(r.found[0].children[0].source, Whitespace) == "myFunction2 = function() end" &&
      r.found[0].children[0].children == []
  {
    var c := Tree(Signature(false, Assignment, "myFunction2", "", Gaps(" ", " ", "")), [], " ");
    var w := Tree(Signature(false, Assignment, "myFunction1", "", Gaps(" ", " ", "")), [Item("\n\t", c)], "\n");
    VariableStyleNestedFunctionsLaid();
    Nested(w);
    BlankPiece("");
  }

  /** The layout of the input of :209-243. */
  lemma VariableStyleNestedFunctionsLaid()
    ensures var c := Tree(Signature(false, Assignment, "myFunction2", "", Gaps(" ", " ", "")), [], " ");
      var w := Tree(Signature(false, Assignment, "myFunction1", "", Gaps(" ", " ", "")), [Item("\n\t", c)], "\n");
      BlankTree(w) && |Render(w.sig)| == 24 && Out(c) == "myFunction2 = function() end" &&
      Out(w) == "myFunction1 = function()\n\tmyFunction2 = function() end\nend"
  {
    LineBreak();
    Blank();
    Indent();
    assert IsWord("myFunction1") && IsWord("myFunction2");
    assert IsGap("");
    AssignmentSig("myFunction1", "");
    AssignmentSig("myFunction2", "");
    var c := Tree(Signature(false, Assignment, "myFunction2", "", Gaps(" ", " ", "")), [], " ");
    FlatLaid(c.sig, " ");
    NestLaid(Signature(false, Assignment, "myFunction1", "", Gaps(" ", " ", "")), "\n\t", c, "\n");
    VariableStyleNestedFunctionsHead();
    VariableStyleNestedFunctionsTail();
    VariableStyleNestedFunctionsText();
  }

  /** A hint for the verifier: the first line of the input and its indent, as one literal. */
  lemma VariableStyleNestedFunctionsHead()
    ensures "myFunction1" + " " + "=" + " " + "function" + "" + "(" + "" + ")" + "\n\t" == "myFunction1 = function()\n\t"
  {
  }

  /** A hint for the verifier: the nested function and the final `end`, as literals. */
  lemma VariableStyleNestedFunctionsTail()
    ensures "myFunction2" + " " + "=" + " " + "function" + "" + "(" + "" + ")" + " " + "end" == "myFunction2 = function() end"
    ensures "myFunction2 = function() end" + "\n" + "end" == "myFunction2 = function() end\nend"
  {
  }

  /** The text of the input of :209-243, from the line of its first function and the rest. */
  lemma VariableStyleNestedFunctionsText()
    ensures "myFunction1 = function()\n\t" + "myFunction2 = function() end\nend" == "myFunction1 = function()\n\tmyFunction2 = function() end\nend"
  {
  }

  /**
   * `function myFunction1()`, then on its own line `local function
   * myFunction2() end`, then `end` (:246-280): the nested function is found,
   * and is local; GetGlobalFunctions leaves it out.
   */
  lemma NestedLocalFunctionNotParsedAsGlobal()
    ensures var r := Scan("function myFunction1()\n\tlocal function myFunction2() end\nend");
      r.Done? && |r.found| == 1 &&
      r.found[0].start == 0 && r.found[0].header.name == "myFunction1" && !r.found[0].header.m.isLocal &&
      r.found[0].header.arguments == [] &&
      Trim(r.found[0].source, Whitespace) == "function myFunction1()\n\tlocal function myFunction2() end\nend" &&
      |r.found[0].children| == 1 &&
      r.found[0].children[0].start == 24 && r.found[0].children[0].header.name == "myFunction2" &&
      r.found[0].children[0].header.m.isLocal && r.found[0].children[0].header.arguments == [] &&
      Trim(r.found[0].children[0].source, Whitespace) == "local function myFunction2() end" &&
      r.found[0].children[0].children == [] &&
      GlobalsOf(r.found, true) == [r.found[0]]
  {
    var c := Tree(Signature(true, Statement, "myFunction2", "", Gaps(" ", "", "")), [], " ");
    var w := Tree(Signature(false, Statement, "myFunction1", "", Gaps(" ", "", "")), [Item("\n\t", c)], "\n");
    NestedLocalFunctionLaid();
    Nested(w);
    BlankPiece("");
    NestedLocalGlobals(Scan(Out(w)).found);
  }

  /** The layout of the input of :246-280. */
  lemma NestedLocalFunctionLaid()
    ensures var c := Tree(Signature(true, Statement, "myFunction2", "", Gaps(" ", "", "")), [], " ");
      var w := Tree(Signature(false, Statement, "myFunction1", "", Gaps(" ", "", "")), [Item("\n\t", c)], "\n");
      BlankTree(w) && |Render(w.sig)| == 22 && Out(c) == "local function myFunction2() end" &&
      Out(w) == "function myFunction1()\n\tlocal function myFunction2() end\nend"
  {
    LineBreak();
    Blank();
    Indent();
    assert IsWord("myFunction1") && IsWord("myFunction2");
    StatementSig(false, "myFunction1", "");
    StatementSig(true, "myFunction2", "");
    var c := Tree(Signature(true, Statement, "myFunction2", "", Gaps(" ", "", "")), [], " ");
    FlatLaid(c.sig, " ");
    NestLaid(Signature(false, Statement, "myFunction1", "", Gaps(" ", "", "")), "\n\t", c, "\n");
    NestedLocalFunctionHead();
    NestedLocalFunctionTail();
    NestedLocalFunctionText();
  }

  /** A hint for the verifier: the first line of the input and its indent, as one literal. */
  lemma NestedLocalFunctionHead()
    ensures "function " + "myFunction1" + "(" + "" + ")" + "\n\t" == "function myFunction1()\n\t"
  {
  }

  /** A hint for the verifier: the nested local function and the final `end`, as literals. */
  lemma NestedLocalFunctionTail()
    ensures "local function " + "myFunction2" + "(" + "" + ")" + " " + "end" == "local function myFunction2() end"
    ensures "local function myFunction2() end" + "\n" + "end" == "local function myFunction2() end\nend"
  {
  }

  /** The text of the input of :246-280, from the line of its first function and the rest. */
  lemma NestedLocalFunctionText()
    ensures "function myFunction1()\n\t" + "local function myFunction2() end\nend" == "function myFunction1()\n\tlocal function myFunction2() end\nend"
  {
  }

  /**
   * `function() end`, with no name (GlobalFunctionParser.cs:10, :91): the
   * `name` group is empty, so the name is taken from `name2`, which is empty
   * as well.
   */
  lemma AnonymousFunction()
    ensures var r := Scan("function() end");
      r.Done? && |r.found| == 1 && r.found[0].start == 0 &&
      r.found[0].header.name == "" && !r.found[0].header.m.isLocal &&
      r.found[0].header.arguments == [] && r.found[0].children == [] &&
      Trim(r.found[0].source, Whitespace) == "function() end"
  {
    var w := Tree(Signature(false, Statement, "", "", Gaps("", "", "")), [], " ");
    AnonymousLaid();
    Flat(w);
    BlankPiece("");
  }

  /** The layout of `function() end`. */
  lemma AnonymousLaid()
    ensures var w := Tree(Signature(false, Statement, "", "", Gaps("", "", "")), [], " ");
      BlankTree(w) && Out(w) == "function() end"
  {
    Blank();
    var sig := Signature(false, Statement, "", "", Gaps("", "", ""));
    assert Writable(sig);
    FlatLaid(sig, " ");
    assert Render(sig) == "function()";
  }

  /**
   * The input of :172-206 again (:283-318): GetGlobalFunctions gives the
   * root, then the function nested in it, which is not local.
   */
  lemma NestedGlobalFunctionParsedAsGlobal()
    ensures var r := Scan("function myFunction1()\n\tfunction myFunction2() end\nend");
      r.Done? && |r.found| == 1 && |r.found[0].children| == 1 &&
      GlobalsOf(r.found, true) == [r.found[0], r.found[0].children[0]] &&
      r.found[0].header.name == "myFunction1" && r.found[0].children[0].header.name == "myFunction2"
  {
    ParsesNestedFunctions();
    NestedGlobals(Scan("function myFunction1()\n\tfunction myFunction2() end\nend").found);
  }

  /** A line break then a tab is whitespace. */
  lemma Indent()
    ensures IsGap("\n\t") && "\n\t" != []
  {
    assert "\n\t"[0] == '\n' && "\n\t"[1] == '\t';
  }
}
