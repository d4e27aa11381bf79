# LuaMinifier function scanner, modelled in Dafny

LuaMinifier finds the functions of a Lua script without a full parser.
`GlobalFunctionParser` walks the text one character at a time and tries two
patterns at each offset:

- `FunctionRegex` matches a signature in three spellings: `function NAME(ARGS)`,
  `local function NAME(ARGS)` and `NAME = function(ARGS)`;
- `EndRegex` matches the keyword `end`.

A signature opens a `LuaFunction` and the scan recurses into its body. An
`end` closes the open function, which gets its text and joins the list of
the current level. An `end` met when no function is open hands the cursor
back to the enclosing level. `GlobalFunctions` then lists, in pre-order,
the functions that can be called from anywhere: the roots, and every nested
function not declared `local`. `LuaFunction` keeps a `Depth` that its
`ParentFunction` setter recomputes by walking up the parent chain.

The project has these modules:

- `Text`: the character classes (`\w`, `\s`, the space that `Trim(' ')`
  drops), `Trim`, and `Split`/`Join` on a separator.
- `Patterns`: `SigAt` and `EndAt`, the two regexes anchored at one offset,
  with the backtracking order of the .NET engine. They are read back on
  written-out signatures (`Signature`, `Render`).
- `Descriptor`: the name and the argument list that
  `FunctionMatchToLuaFunction` reads off a match.
- `Models`: the `LuaFunction` class, with its constructor, its
  `ParentFunction` setter and the do-while `CalculateDepth` walk.
- `Forest`: `Func`, a found function as a value, and `Holds`, which links a
  forest of `LuaFunction` objects to a forest of values.
- `Scanner`: `Frame`/`EndStep`/`Scan`, the scan as a pure function.
  `ParseInnerFunction` and `ParseFunctions` are the imperative loop with
  its shared cursor, proved to build the objects that `Scan` describes.
- `Shape`: where the functions a scan finds lie in the text. Each one starts
  at a signature match and is closed by an EndRegex match within its text,
  and siblings follow one another in text order.
- `Globals`: `GetGlobalFunctions` as the imperative `foreach`/`AddRange`
  recursion, specified by a pre-order listing of a pure picture of the
  object forest. It is related to `GlobalsOf` on the values.
- `Layout`: Lua text laid out as functions written one after another
  (`Tree`, `Item`, `Out`), and how `Frame` reads each piece of such a text:
  the whitespace, each signature, each `end`.
- `Scans`: what the scan of a whole text gives on those layouts. Between
  the pieces of the functions (before each function, after each signature,
  before each `end`) there may be any other text, statements, expressions,
  comments or whitespace, in which neither regex matches at any offset
  (`Plain`). Every function written out with its `end` is found where it is
  written, with its name, `local` flag, arguments, trimmed text and nested
  functions. A function without its `end` is not found. An `end` that closes
  no function ends the scan. A text with no `end` gives no function.
  `end = function()` at the end of the text is the `Substring` failure.
- `Cases`: the inputs of the unit tests, scanned, with the functions the
  tests expect.

The cursor is the same `int` throughout, as the `ref` parameter is in the
source. Every arithmetic step of the source is kept:

- `+= length` after a signature;
- `+= length - 1`, then the loop's `++`, at an `end`;
- `--` on a stray `end`.

The `end` test after a signature is made at the offset where the iteration
began, not at the advanced cursor, as in the source. A consequence is that
`Substring` can be handed a length past the text, for instance for
`end = function()` at the very end of the script. The model reports that
case as `ok == false` (`Scanned.OutOfRange`).

## Model

| member | source | states |
|---|---|---|
| Models.LuaFunction.constructor | src/LuaMinifier/Models/LuaFunction.cs:9-36 | `new LuaFunction(name)` has that name, no arguments, no text, start 0, not local, no parent, no children and depth 0 |
| Models.LuaFunction.CalculateDepth | src/LuaMinifier/Models/LuaFunction.cs:38-50 | the do-while walk returns 0 without a parent, and otherwise the number of ancestors minus one; it terminates on any finite chain of ancestors |
| Models.LuaFunction.SetParentFunction | src/LuaMinifier/Models/LuaFunction.cs:19-27 | setting the parent stores it and sets `Depth` to the depth of the new ancestor chain; only those two fields change; the chain must be finite and must not contain the node |
| Models.AncestryUnique | src/LuaMinifier/Models/LuaFunction.cs:40-47 | only one ancestor chain starts at a node, so the depth does not depend on the witness chain |
| Models.AncestryAcyclic | src/LuaMinifier/Models/LuaFunction.cs:43-47 | a chain that ends at a node without a parent visits no node twice |
| Models.DepthStep | src/LuaMinifier/Models/LuaFunction.cs:38-50 | a child of a root gets depth 0, like the root; a child of any other node gets one more than that node's depth |
| Models.DepthsOfThreeGenerations | src/LuaMinifier/Models/LuaFunction.cs:19-31 | a root, its child and its grandchild get depths 0, 0 and 1; re-parenting the child leaves the grandchild's `Depth` stale (1) while a new walk gives 0 |
| Patterns.SigAt | src/LuaMinifier/Services/GlobalFunctionParser.cs:10 | a signature match is not empty, lies within the text, and reports `local` only where the text has the literal `local ` |
| Patterns.EndAt | src/LuaMinifier/Services/GlobalFunctionParser.cs:11 | an `end` match starts with the literal `end` and is 3 characters long at the end of the text and 4 otherwise |
| Patterns.SignatureAt | src/LuaMinifier/Services/GlobalFunctionParser.cs:10 | at a written-out signature followed by a delimiter, with any whitespace at the three `\s*` of its alternative, FunctionRegex reports exactly that signature's groups and length |
| Patterns.SignatureRoundTrip | src/LuaMinifier/Services/GlobalFunctionParser.cs:10 | any of the three spellings, with any whitespace the `\s*` of its alternative allow between the tokens, written anywhere in a text and followed by whitespace, `-` or the end of the text, reads back with its `local` flag, its name in the group of its spelling, its arguments, and the written length plus the delimiter |
| Patterns.EndRoundTrip | src/LuaMinifier/Services/GlobalFunctionParser.cs:11 | `end` followed by whitespace, `-` or the end of the text reads back as a 4- or 3-character match |
| Patterns.AssignmentNotLocal | src/LuaMinifier/Services/GlobalFunctionParser.cs:10 | `NAME = function` with no `local` group is not taken as a local function, even when NAME is `local` |
| Descriptor.NameOfMatched | src/LuaMinifier/Services/GlobalFunctionParser.cs:90-97 | the name read off a written-out signature is the name that was written, in either spelling |
| Descriptor.WordNotBlank | src/LuaMinifier/Services/GlobalFunctionParser.cs:91 | a non-empty captured word is never blank, so the blank test never discards a captured name |
| Descriptor.ArgumentsAreNames | src/LuaMinifier/Services/GlobalFunctionParser.cs:99-104 | every argument is non-blank, holds no comma, and has no space at either end |
| Descriptor.KeptNames | src/LuaMinifier/Services/GlobalFunctionParser.cs:101-102 | trimming and dropping blanks yields no more entries than pieces, each one an argument name |
| Descriptor.ArgumentsAppend | src/LuaMinifier/Services/GlobalFunctionParser.cs:99-104 | a comma splits the argument list: the arguments before it, in order, then those after it |
| Descriptor.BlankPiece | src/LuaMinifier/Services/GlobalFunctionParser.cs:99-104 | `()` and `(   )` give an empty argument list |
| Descriptor.ArgumentsRoundTrip | src/LuaMinifier/Services/GlobalFunctionParser.cs:99-106 | a comma-and-space separated list of names reads back as exactly those names, in order |
| Text.TrimShape | src/LuaMinifier/Services/GlobalFunctionParser.cs:78 | a trimmed string is a slice of the original with no droppable character at either end; it is empty exactly when every character is droppable |
| Text.SplitShape | src/LuaMinifier/Services/GlobalFunctionParser.cs:100 | the pieces of a split hold no separator and join back to the original string |
| Text.SplitJoin | src/LuaMinifier/Services/GlobalFunctionParser.cs:100 | joining pieces free of the separator and splitting again gives back the pieces |
| Scanner.FunctionMatchToLuaFunction | src/LuaMinifier/Services/GlobalFunctionParser.cs:88-109 | a new object with the match's name, argument list, `local` flag and the given start index, no text, no parent, no children and depth 0 |
| Scanner.ReadSignature | src/LuaMinifier/Services/GlobalFunctionParser.cs:52-64 | at a signature it opens a new function whose parent, fields, children and depth are those the scan gives, and moves the cursor past the nested functions; elsewhere nothing changes; a failure inside is a failure of the scan |
| Scanner.CloseFunction | src/LuaMinifier/Services/GlobalFunctionParser.cs:76-83 | at an `end` the cursor moves to the last character of the match, and the function gets its trimmed text from its start through there and joins the list; a length past the text is the `Substring` failure |
| Scanner.ParseInnerFunction | src/LuaMinifier/Services/GlobalFunctionParser.cs:44-86 | fails where the scan fails; otherwise returns the cursor the scan leaves and new objects holding exactly the functions the scan closes, with their nested functions, parents and depths |
| Scanner.ParseFunctions | src/LuaMinifier/Services/GlobalFunctionParser.cs:13-18 | fails where the scan of the whole text fails; otherwise the new objects hold exactly the root functions the scan finds, with no parent and depth 0 |
| Scanner.Scan | src/LuaMinifier/Services/GlobalFunctionParser.cs:13-18 | a scan that neither fails nor reaches the end of the text stops one before an offset where EndRegex matches |
| Scanner.FrameStops | src/LuaMinifier/Services/GlobalFunctionParser.cs:44-86 | from any cursor, with or without a function open, the loop returns before the end of the text only one before an offset where the table holds an `end` |
| Scanner.EndStepStops | src/LuaMinifier/Services/GlobalFunctionParser.cs:66-83 | the same after the test for `end`; an `end` met with no function open is itself such a stop, one before the offset the iteration began from |
| Scanner.MatchFunction | src/LuaMinifier/Services/GlobalFunctionParser.cs:53 | returns a FunctionRegex match exactly when the table holds one at the cursor, and then that match |
| Scanner.MatchEnd | src/LuaMinifier/Services/GlobalFunctionParser.cs:66 | returns the EndRegex match length that the table holds at the cursor, or none |
| Shape.ScanChain | src/LuaMinifier/Services/GlobalFunctionParser.cs:44-86 | every function a successful scan finds lies in the text between the start and the final cursor; siblings come one after another in text order; nested functions lie inside their parent after its signature |
| Shape.PlacedAtSignature | src/LuaMinifier/Services/GlobalFunctionParser.cs:57-80 | a found function starts at a FunctionRegex match and carries the name and arguments read off it; its text is the piece of the script from its start through its last character; and EndRegex matches at some offset `c` at or after its start with a length `n` such that `c + n - 1` is at most that last character, which is the last character `cursor + n - 1` of the match for a cursor at or after `c` |
| Layout.TreeScan | src/LuaMinifier/Services/GlobalFunctionParser.cs:50-83 | at a sound function written out at an offset, with `Plain` text between its pieces at every depth (`PlainTree`: neither regex matches there), followed by the end of the text or by whitespace that no `=` follows (`Closes`), the scan with no function open reads the function, as the value for that layout, and goes on just past the whitespace character after its `end`, or at the end of the text |
| Scans.ScanFinds | src/LuaMinifier/Services/GlobalFunctionParser.cs:13-18 | sound functions written one after another from the start of the text, with other text in which neither regex matches before each function, inside each one between its pieces, and after the last one (text that `Quiet` accepts when it follows a function): the scan ends at the end of the text and finds exactly those functions, each as its value at the offset where it is written |
| Scans.FoundAsWritten | src/LuaMinifier/Services/GlobalFunctionParser.cs:52-83 | in that layout, other text included, each function found starts where it is written, has the name, `local` flag and arguments its signature spells, and its text trimmed is the text written from its signature through its `end`; its nested functions are those written in its body, in the same way, in order |
| Scans.Unterminated | src/LuaMinifier/Services/GlobalFunctionParser.cs:44-86 | a sound function written without its `end`, with other text in which neither regex matches between its pieces: the scan finds nothing, not even the functions written inside it, and leaves the cursor one past the end of the text |
| Scans.StrayEnd | src/LuaMinifier/Services/GlobalFunctionParser.cs:70-74 | sound functions with other text in which neither regex matches between and inside them, then such text again, an `end` that closes none of them, and then text that `Quiet` accepts (nothing, or whitespace not followed by `=`): the scan finds those functions and stops one before the `end`; what comes after it is not read |
| Scans.FoundAsLaid | src/LuaMinifier/Services/GlobalFunctionParser.cs:52-83 | the same as `FoundAsWritten` when the text between the pieces is whitespace only, with nothing further to show about it |
| Layout.BlankSound | src/LuaMinifier/Services/GlobalFunctionParser.cs:66 | a function with only whitespace between its pieces is sound: whitespace alone after the `end` of a nested function is text that `Quiet` accepts, so that `end` closes it |
| Layout.BlankPlain | src/LuaMinifier/Services/GlobalFunctionParser.cs:10-11 | neither regex matches in the whitespace between the pieces of a function, at any depth |
| Scans.NoEndFindsNothing | src/LuaMinifier/Services/GlobalFunctionParser.cs:66 | when EndRegex matches nowhere in the text, the scan succeeds and finds no function |
| Scans.QuirkyAtEnd | src/LuaMinifier/Services/GlobalFunctionParser.cs:57-80 | a whole text `end = function(ARGS)` with whitespace after `end`: the `end` tested at the offset the iteration began from closes past the text, and the scan fails as `Substring` does |
| Scans.QuirkOutOfRange | src/LuaMinifier/Services/GlobalFunctionParser.cs:66-80 | the scan of `end = function()` fails: the match is 16 characters long and the `end` at offset 0 closes through offset 19 |
| Text.TrimAround | src/LuaMinifier/Services/GlobalFunctionParser.cs:78 | text that neither starts nor ends with whitespace, followed by whitespace only, trims back to that text |
| Cases.ParsesGlobalFunction | src/LuaMinifier.Test/GlobalFunctionParserTests.cs:40-60 | the scan of `function myFunction()` then `end` finds one function at 0, named `myFunction`, not local, with no arguments and no nested function, whose trimmed text is the input |
| Cases.ParsesLocalGlobalFunction | src/LuaMinifier.Test/GlobalFunctionParserTests.cs:63-83 | the same for `local function myFunction()`, found as local |
| Cases.ParsesVariableStyleGlobalFunction | src/LuaMinifier.Test/GlobalFunctionParserTests.cs:86-106 | the same for `myFunction = function ()`, with a space before the parenthesis |
| Cases.ParsesGlobalFunctionWithArguments | src/LuaMinifier.Test/GlobalFunctionParserTests.cs:109-135 | the same for `function myFunction(argument1, argument2)`, with the arguments `argument1` and `argument2` in that order |
| Cases.ParsesMultipleGlobalFunction | src/LuaMinifier.Test/GlobalFunctionParserTests.cs:138-169 | two functions on successive lines are found at 0 and 27, with their names and texts, neither with nested functions |
| Cases.ParsesNestedFunctions | src/LuaMinifier.Test/GlobalFunctionParserTests.cs:172-206 | one root at 0 whose trimmed text is the whole input, with one nested function at 24 whose trimmed text is `function myFunction2() end` |
| Cases.ParsesVariableStyleNestedFunctions | src/LuaMinifier.Test/GlobalFunctionParserTests.cs:209-243 | the same in the `NAME = function()` spelling, with the nested function at 26 |
| Cases.NestedLocalFunctionNotParsedAsGlobal | src/LuaMinifier.Test/GlobalFunctionParserTests.cs:246-280 | the nested `local function myFunction2() end` is found at 24 and is local, and the global functions of the result are the root alone |
| Cases.NestedGlobalFunctionParsedAsGlobal | src/LuaMinifier.Test/GlobalFunctionParserTests.cs:283-318 | the global functions of the nested input are the root, then the function nested in it |
| Cases.AnonymousFunction | src/LuaMinifier/Services/GlobalFunctionParser.cs:90-97 | `function() end` is found with the empty name: the `name` group is blank, so the name comes from `name2`, which is empty too |
| Globals.GetGlobalFunctions | src/LuaMinifier/Services/GlobalFunctionParser.cs:25-42 | returns the objects of the forest in pre-order that have no parent or are not local; it changes no object |
| Globals.GlobalFunctions | src/LuaMinifier/Services/GlobalFunctionParser.cs:20-23 | an object is returned exactly when it is in the forest and has no parent or is not local; the order is pre-order; the returned objects hold the functions that `GlobalsOf` selects from the values found, one for one |
| Globals.PictureOfHolds | src/LuaMinifier/Services/GlobalFunctionParser.cs:25-42 | a forest of objects that holds found functions has a picture as a value |
| Globals.KeptMembers | src/LuaMinifier/Services/GlobalFunctionParser.cs:33-36 | an object is kept exactly when one of its pictures passes the global test |
| Globals.ListingPictured | src/LuaMinifier/Services/GlobalFunctionParser.cs:29-39 | every entry of the pre-order listing pictures an object of the forest with its global test |
| Globals.GlobalsHeld | src/LuaMinifier/Services/GlobalFunctionParser.cs:29-39 | the global objects of a forest hold the global functions of its values, in the same order |
| Globals.RootsAreGlobal | src/LuaMinifier/Services/GlobalFunctionParser.cs:31-33 | every root function is global, even when declared `local` |
| Globals.NestedGlobalsNotLocal | src/LuaMinifier/Services/GlobalFunctionParser.cs:32-33 | below the roots, a function is global only when it is not declared `local` |

## Left out

- The `-` alternative of the leading `(?:^|-)` group of both regexes is not modelled; the matchers model the `^` branch only, a match that begins at the cursor with the signature or `end` itself. `Regex.Match` searches the whole remaining substring, so the `-` branch can match a `-` at the cursor or later and report a match that starts with it. The scanner applies the length of such a match as if the signature began at the cursor: for `-function f() end` the source opens `f` at offset 0 with a 14-character match that includes the `-`, while the model opens it at offset 1. The trailing `(?:\s|-|$)` is kept.
- Offsets count characters of Dafny's `string`, which are Unicode scalar values. C#'s `StartIndex` and `Substring` count UTF-16 code units, so every offset after a character outside the Basic Multilingual Plane is one less in the model than in the source.
- The .NET regex engine is replaced by hand-written matchers that follow its backtracking order.
- `\w` is taken to be ASCII letters, digits and `_`. `\s`, and the whitespace of `Trim()` and `IsNullOrWhiteSpace`, is taken to be space and tab through carriage return. Unicode letters and separators are not modelled.
- `LuaArgument` is not part of this model: an argument is modelled by its name string.
- The ArgumentOutOfRangeException of `Substring` is modelled as a result flag (`ok == false`, `Scanned.OutOfRange`), not as an exception.
- A `null` `lua` string is not modelled.
- `Depth` follows the code: the number of ancestors minus one, so a child of a root has depth 0. It is not the parent's depth plus one.
- Scanner.ParseInnerFunction, Scanner.ReadSignature, Scanner.CloseFunction: the two regexes are read from `Scanner.Table`, the table of their results at every offset, passed as a ghost parameter. `MatchFunction` and `MatchEnd` still run the matchers themselves.
- Globals.GetGlobalFunctions, Globals.GlobalFunctions: the forest is passed with a ghost picture and a ghost footprint. The objects are assumed to be those `ParseFunctions` built (`Holds`); that two objects of the forest are distinct is not stated.
- The collections are modelled as sequences. `IEnumerable`/`ICollection` laziness and the `List` copies made by `ToList()` are not modelled.
- src/LuaMinifier/LuaParser.cs is not part of this model: it only wires up Autofac.
- src/LuaMinifier/Services/LuaParserService.cs is not part of this model. It calls a `ParseGlobalFunctions` that `GlobalFunctionParser` does not define.
- src/LuaMinifier/Models/SyntaxError.cs is not part of this model: the scanner never raises that exception.
- The test fixture setup (Autofac, NSubstitute, FluentAssertions) is not modelled. Each test input has a lemma in `Cases` about the values the scan finds: their start offsets, names, `local` flags, arguments, trimmed texts and nesting. That the `LuaFunction` objects hold those values, with their parents and depths, is the contract of `ParseFunctions` (`Holds`), not restated per input.
- The layouts of `Scans` are sound ones: whitespace right after each signature, other text in which neither regex matches (`Plain`) before each function and before each `end`, and after each `end` text that `Quiet` accepts: nothing, or whitespace that no `=` follows. A signature that EndRegex matches as well (`end = function(ARGS)` with whitespace after `end`) is left out of them and treated apart (`QuirkyAtEnd`). Text where a regex matches outside the functions' own pieces (a `function` or `end` in a comment or a string, say) and text where a signature or `end` runs into the next word are not covered by these lemmas; `Scan` itself still covers them.
- Scans.StrayEnd: the text after the stray `end` must be accepted by `Quiet`. The scan also stops at a stray `end` followed by other text, `end = 1` for one, unless FunctionRegex matches there; that case is not covered.
- Scans.ScanFinds, Scans.FoundAsWritten: the functions found are stated as values (`Value`, whose text is the piece of the script through the character after `end` when one follows), and `Shows` compares them once trimmed, as `LuaString` is trimmed at :78.
