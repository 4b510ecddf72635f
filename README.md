# gprof2dot, lsprof2dot and xdot in Dafny

This project models the core of an early version of gprof2dot. The
version has three scripts:

- `gprof2dot.py` turns gprof's call graph into a profile of functions and
  calls. It estimates the call times gprof does not give, prunes light
  nodes and edges, and writes Graphviz DOT text.
- `lsprof2dot.py` does the same for cProfile's entries. It keeps its own
  threshold filter in `write_graph`.
- `xdot.py` reads the `_draw_` attributes of Graphviz's xdot output back
  into shapes. It also finds the hyperlink under the mouse.

The modules follow the scripts' structure:

| file | module | models |
|---|---|---|
| `callgraph.dfy` | `CallGraph` | the `Struct` records both parsers build, and `function_total` |
| `profiles.dfy` | `Profiles` | `Call`, `Function`, `Profile`, `add_call`, `add_function`, `estimates`, `prune`, and the passes `write_graph` runs |
| `gprof_parser.dfy` | `GprofParser` | the profile-building part of `GprofParser.parse` |
| `interning.dfy` | `Interning` | dense id interning, as `get_function` and `index` do it |
| `pstats_parser.dfy` | `PstatsParser` | `PstatsParser.get_function` |
| `names.dfy` | `Names` | `strip_function_name` |
| `dot_writer.dfy` | `DotWriter` | `DotWriter`'s text output: `escape`, `id`, `attr_list`, `node`, `edge`, `attr` |
| `lsprof.dfy` | `Lsprof` | `lsprof2dot.Parser`: `index`, `parse_entry`, `parse` |
| `lsprof_graph.dfy` | `LsprofGraph` | the node and edge selection of `lsprof2dot`'s `write_graph` |
| `xdot.dfy` | `XDot` | `Pen`, the shapes, and `XDotAttrParser` |
| `window.dfy` | `Window` | `DotWindow`'s transform, `Hyperlink.hit` and `get_url` |

Three files hold shared helpers:

- `wrappers.dfy` holds `Option` and `Result`.
- `sequences.dfy` holds sequence lemmas.
- `pystr.dfy` holds the Python string built-ins the scripts call, with their edge cases:
  - `str.replace`, and `find` returning -1;
  - slicing and indexing with negative bounds;
  - `isspace`, `isalnum`, `int()`, `str()`, and `float()` on plain decimals.

How state is modelled:

- State the source changes in place is a `class`:
  - the profile's function table and total;
  - the parsers' tables;
  - the DOT writer's output;
  - the xdot parser's cursor;
  - the window's hyperlinks and zoom.
- Each method is proved against a specification function. The properties
  the source promises are proved about those functions as lemmas.
- Values the source copies are datatypes. `Pen.copy` makes a snapshot, so
  a pen held by a shape can never change afterwards.

Times are Python floats. The code only adds, subtracts, compares and takes
`min`/`max` of them, so they are modelled as `real`. A later design of this
tool adds features this version lacks:

- `add_call` keyed by callee id;
- validation that drops dangling calls with a warning;
- cycle integration of totals.

This model follows the code of this version instead.

## Model

| member | source | states |
|---|---|---|
| CallGraph.FunctionTotal | gprof2dot.py:327-341 | the cycle-aware total is non-negative when the times are, and an acyclic function gets at least its own time |
| CallGraph.CycleMembersShareTotal | gprof2dot.py:329-337 | two members of the same cycle are charged the same total, whatever their own times; this holds whether or not the cycle has an entry |
| CallGraph.AcyclicTotalIgnoresCycles | gprof2dot.py:338-341 | a function outside every cycle is charged `self + descendants`, whatever the cycle table holds |
| Profiles.AddCall | gprof2dot.py:34-35 | as written, `add_call` leaves the call list empty and changes no other field |
| Profiles.AddCallLosesCalls | gprof2dot.py:34-35 | after `add_call`, neither the call passed in nor any earlier call is in the list |
| Profiles.AppendCall | gprof2dot.py:374 | appending puts the call last, keeps the earlier calls as a prefix, and changes no other field |
| Profiles.AppendCallKeepsCalls | gprof2dot.py:374 | after an append, the new call and every earlier call are in the list, which extends the old list as a subsequence |
| Profiles.ExactTime | gprof2dot.py:60-69 | a call's exact time stays unknown iff: no time was supplied, the callee ran and took time, and this call is not all of the callee's calls. A time computed here is 0.0 or the callee's total. |
| Profiles.EstimateCall | gprof2dot.py:57-76 | an estimated call keeps its callee and count. Its time is the exact time, and it always has an estimate. The estimate equals the exact time when that is known; otherwise it is the smaller of the caller's and the callee's totals. |
| Profiles.EstimateFunction | gprof2dot.py:56-76 | estimating a function changes only its call list, and keeps its length |
| Profiles.EstimateAll | gprof2dot.py:56-76 | `estimates` keeps the set of function ids |
| Profiles.EstimateAllSpec | gprof2dot.py:56-76 | after `estimates`, every call still leads where it led and has an estimate. A call with no exact time is estimated at no more than its caller's and its callee's totals. |
| Profiles.EstimateAllIdempotent | gprof2dot.py:56-76 | running `estimates` twice gives what running it once gives |
| Profiles.Threshold | gprof2dot.py:79-80 | a fraction between 0 and 1 of a non-negative total is between 0 and the total |
| Profiles.KeptFunctions | gprof2dot.py:82-85 | the functions kept are exactly those whose total reaches the node threshold, unchanged |
| Profiles.PrunedCalls | gprof2dot.py:87-93 | the rebuilt call list is never longer than the old one |
| Profiles.PrunedCallsSpec | gprof2dot.py:87-93 | a call survives iff its callee is kept and its estimate reaches the edge threshold; survivors keep their relative order |
| Profiles.PrunedCallsKeepsSurvivors | gprof2dot.py:87-93 | a call list whose every call survives is left as it is |
| Profiles.PruneAll | gprof2dot.py:78-93 | the ids after `prune` are exactly the ids kept |
| Profiles.PruneAllSpec | gprof2dot.py:78-93 | After `prune`, exactly the heavy functions remain, changed only in their call lists. Each call list is an order-keeping subsequence of the old one. Every call leads to a remaining function and has an estimate at or above the edge threshold. |
| Profiles.PruneAllIdempotent | gprof2dot.py:78-93 | pruning a pruned profile again with the same thresholds changes nothing |
| Profiles.EstimatesEnablePrune | gprof2dot.py:770-771 | after `estimates`, every estimate `prune` reads exists, so running `estimates` before `prune` is safe |
| Profiles.Profile.constructor | gprof2dot.py:40-42 | a new profile has no functions and total 0.0 |
| Profiles.Profile.AddFunction | gprof2dot.py:44-46 | requires a fresh id. The function is stored under its id and nothing else changes; keying by id is preserved. |
| Profiles.Profile.Estimates | gprof2dot.py:48-76 | the table after the in-place loops equals `EstimateAll` of the old table; the total is unchanged |
| Profiles.Profile.Prune | gprof2dot.py:78-93 | the table after both loops equals `PruneAll` of the old table with the thresholds scaled by the total |
| Profiles.Profile.DropLightFunctions | gprof2dot.py:82-85 | deleting over a snapshot of the ids leaves exactly `KeptFunctions` |
| Profiles.Profile.PruneCalls | gprof2dot.py:87-93 | every function's call list becomes `PrunedCalls` of its old list; nothing else changes |
| Profiles.PreparePasses | gprof2dot.py:767-771 | `estimates` then `prune`, with the percentages divided by 100, give `PruneAll(EstimateAll(...))` |
| Interning.Intern | lsprof2dot.py:67-73 | the key maps to the id returned, and every earlier key keeps its id |
| Interning.InternDense | lsprof2dot.py:67-73 | the table stays dense (ids 0..n-1, one key each). A new key gets the table's size and grows it by one; a known key changes nothing. |
| Interning.InternIdempotent | lsprof2dot.py:67-73 | looking a key up twice gives the same id and table as once |
| Interning.InternDistinct | lsprof2dot.py:67-73 | in a dense table, distinct keys get distinct ids |
| PstatsParser.Parser.constructor | gprof2dot.py:387-388 | an empty profile and an empty id table, which are consistent |
| PstatsParser.Parser.GetFunction | gprof2dot.py:395-406 | ids follow `Intern`. A known key returns the function stored under its id, unchanged. A new key gets a fresh `Function(id, name)` under the next id. Ids stay dense, with one function per id, and the profile's total time is untouched. |
| Names.NextBracket | gprof2dot.py:722 | the scan for the character class `[^()]` stops at the first bracket at or after `i`, or at the end |
| Names.RemovePass | gprof2dot.py:722 | one `subn` removes at least two characters per group it counts, and a pass that counts none returns the name unchanged |
| Names.TrimTrailingSpace | gprof2dot.py:727 | what `\s+` consumes before `const`: a prefix that does not end in whitespace |
| Names.SubseqKeepsNoPair | gprof2dot.py:721-733 | deleting characters never creates an opening bracket before a closing one |
| Names.PassIsSubseq | gprof2dot.py:722 | a pass only deletes characters |
| Names.PairHasGroup | gprof2dot.py:722 | an opening bracket before a closing one implies a group the regular expression matches |
| Names.PassFindsGroup | gprof2dot.py:722 | a pass removes something whenever a group exists |
| Names.NoRemovalMeansNoPair | gprof2dot.py:721-724 | the loop's exit test (`not n`) certifies no bracket pair is left |
| Names.RemoveGroupsSpec | gprof2dot.py:721-733 | the repeated passes end with a subsequence of the input that has no bracket pair |
| Names.StripConstIsSubseq | gprof2dot.py:727 | stripping ` const` only deletes characters |
| Names.StripSpecSpec | gprof2dot.py:717-735 | the stripped name is a subsequence of the name, no longer, and has no `(`...`)` or `<`...`>` pair left |
| Names.StripFunctionName | lsprof2dot.py:345-363 | the two rewriting loops around one `sub` compute `StripSpec`, and hence keep its properties |
| GprofParser.ChildCall | gprof2dot.py:368-372 | the call for a child line has its index and count. It has an exact time iff the line has a self time, and that time is self plus descendants. |
| GprofParser.ChildCalls | gprof2dot.py:362-374 | one call per child line, in order |
| GprofParser.EntryFunction | gprof2dot.py:352-374 | the function for an entry has: its index and name; `function_total` as total time; `self` as self time; `called` (or 0) as call count; `called_self` only when both counts were given; one call per child line, each with the line's index and count |
| GprofParser.NamedByEntryChild | gprof2dot.py:362-366 | a placeholder named by one entry's child line is a placeholder of the whole table |
| GprofParser.AddPlaceholdersSpec | gprof2dot.py:362-366 | Adding placeholders touches no function with an entry and removes nothing. Every child without an entry gets a function, and each function written is a placeholder named by a child line. |
| GprofParser.ParseStep | gprof2dot.py:351-376 | one turn of the loop keeps the invariant, and the entry's id is free when `add_function` asserts it |
| GprofParser.ParseDone | gprof2dot.py:343-378 | The final table holds exactly the entries and the indexes child lines name. Each entry gets its `EntryFunction`, and every other function is a named placeholder. It is keyed by id and every call resolves. |
| GprofParser.Parser.constructor | gprof2dot.py:130-133 | the parser holds the given entry and cycle tables and total |
| GprofParser.Parser.BuildFunction | gprof2dot.py:352-374 | the loop body builds `EntryFunction` of the entry, and adds placeholders for callees without an entry |
| GprofParser.Parser.AddChild | gprof2dot.py:363-374 | one child line appends `ChildCall` of the child to the function, and writes a placeholder into the profile exactly when the child has no entry; the total time stays |
| GprofParser.Parser.Parse | gprof2dot.py:343-378 | the returned profile has the total, the functions and placeholders `ParseDone` describes, keyed by id with every call resolving |
| Lsprof.RealMax | lsprof2dot.py:76 | `max` is an upper bound of both arguments and one of them |
| Lsprof.ChildOf | lsprof2dot.py:98-108 | the evidently intended callee record, which the parser does not build: index, count and inline time, with self plus descendants equal to the call's cumulative time |
| Lsprof.ChildAsWrittenDoubleCounts | lsprof2dot.py:104-105 | as written, a callee's self plus descendants is its cumulative time plus its inline time; it exceeds the cumulative time whenever the inline time is positive |
| Lsprof.DerivedTotals | lsprof2dot.py:89-108 | a derived record's total is the entry's cumulative time and `called + called_self == callcount`, but each call's self plus descendants is its cumulative time plus its inline time, as line 105 stores |
| Lsprof.ChildrenOf | lsprof2dot.py:98-108 | one record per sub-entry, in order, each under its label's interned id, with descendants set to the sub-entry's cumulative time as line 105 does; earlier ids are kept and only the labels met are added |
| Lsprof.ChildrenOfDense | lsprof2dot.py:98-108 | interning the callees' labels keeps the ids dense |
| Lsprof.ChildrenOfKeys | lsprof2dot.py:98-108 | the loop over the callees adds to the id table only the labels of callees it met |
| Lsprof.OldRecordsKeep | lsprof2dot.py:98-108 | records made earlier keep their label under their own id and their callee indexes among the ids when the table only grows |
| Lsprof.NewRecordKeeps | lsprof2dot.py:75-110 | the record built for an entry sits under its label's id and its callee indexes are ids handed out |
| Lsprof.EntryOf | lsprof2dot.py:75-110 | the record built is derived from the entry and stored under its label's id. Each child's index is its label's id, and earlier ids are kept. |
| Lsprof.ParseEntryKeeps | lsprof2dot.py:75-110 | `parse_entry` keeps ids dense, records under their own index and label id, and callee indexes among the ids handed out |
| Lsprof.ParseAllKeeps | lsprof2dot.py:63-65 | `parse` keeps those tables well formed |
| Lsprof.ParseAllTotal | lsprof2dot.py:76 | after `parse`, `total` is `RunningMax` of its start over the entries' cumulative times, in order |
| Lsprof.RunningMaxBound | lsprof2dot.py:76 | the running maximum is at least its start and every entry's cumulative time |
| Lsprof.ParseAllTotalBound | lsprof2dot.py:76 | `total` ends at least as large as its start and every entry's cumulative time |
| Lsprof.ParseAllTotalAttained | lsprof2dot.py:76 | `total` ends equal to its start or to some entry's cumulative time, so with the bound it is the running maximum |
| Lsprof.ParseEntryRecords | lsprof2dot.py:75-110 | one `parse_entry` keeps every earlier id and record key, gives the entry's label a record, and every record it changes is derived from the entry |
| Lsprof.ParseAllLabels | lsprof2dot.py:63-110 | after `parse` every entry's label has an id with a record under it |
| Lsprof.ParseAllFunctions | lsprof2dot.py:63-110 | after `parse` every record is an old untouched one or derived from one of the entries |
| Lsprof.Parser.constructor | lsprof2dot.py:44-49 | empty tables, total 0, well formed |
| Lsprof.Parser.Index | lsprof2dot.py:67-73 | `index` is `Intern` on the table and touches nothing else |
| Lsprof.Parser.BuildChildren | lsprof2dot.py:98-108 | the callee records and the id table after the loop are `ChildrenOf` of the table before; the records and total are untouched |
| Lsprof.Parser.ParseEntry | lsprof2dot.py:75-110 | the state after the method is `ParseEntrySpec` of the state before |
| Lsprof.Parser.Parse | lsprof2dot.py:63-65 | the state after the loop is `ParseAllSpec` of the state before |
| LsprofGraph.NodeFor | lsprof2dot.py:409-413 | a function gets a node iff its total percentage reaches the node threshold, and the node carries its index |
| LsprofGraph.EdgeFor | lsprof2dot.py:429-457 | An edge is drawn iff the callee's total percentage reaches the node threshold and, for a timed call, the call's own percentage reaches the edge threshold. The edge runs from the function to the callee with the line's count, and it has a percentage iff the line has times. |
| LsprofGraph.EdgesForMembers | lsprof2dot.py:429-457 | the inner loop records exactly the edges its child lines give |
| LsprofGraph.ItemsAtMembers | lsprof2dot.py:407-457 | a turn of the outer loop records the function's node and, only when that is drawn, its edges, and nothing else |
| LsprofGraph.GraphItemsSound | lsprof2dot.py:407-457 | whatever is recorded came from the turn for one of the functions |
| LsprofGraph.GraphItemsComplete | lsprof2dot.py:407-457 | whatever a visited function's turn records is in the output |
| LsprofGraph.GraphItemsMembers | lsprof2dot.py:407-457 | an item is recorded iff some visited function's turn records it |
| LsprofGraph.NodesIff | lsprof2dot.py:407-413 | a function has a node iff it is visited and its total percentage reaches the node threshold |
| LsprofGraph.NodesIffAll | lsprof2dot.py:406-413 | when the loop visits every function once, as `itervalues()` does, a function has a node iff it is in the table and its total percentage reaches the node threshold |
| LsprofGraph.EdgesSound | lsprof2dot.py:429-457 | Every edge leaves a visited function that has a node and comes from one of its child lines. Its callee's total percentage reaches the node threshold, and a timed edge's percentage reaches the edge threshold. |
| LsprofGraph.EdgesComplete | lsprof2dot.py:429-457 | every child line of a drawn function that passes both thresholds gets its edge |
| LsprofGraph.NodeShowsCallCount | lsprof2dot.py:419-423 | a node for a cProfile entry shows `called + called_self`, the entry's whole call count, and its cumulative time as total percentage |
| LsprofGraph.EdgeCountsInlineTwice | lsprof2dot.py:429-450 | for every call of a record `parse` built, the edge is drawn iff the callee passes the node threshold and the call's cumulative plus inline time passes the edge threshold, and that is the percentage it shows |
| LsprofGraph.EdgeAsWrittenOverCounts | lsprof2dot.py:105 | as written, a leaf call with one second of inline and cumulative time out of one second shows 200 percent |
| LsprofGraph.EdgePercentBounded | lsprof2dot.py:447 | with the corrected records, an edge's percentage is between 0 and 100 when the call's time is within the total |
| LsprofGraph.WriteEdges | lsprof2dot.py:429-457 | the loop with its `continue`s records `EdgesFor` of the child lines |
| LsprofGraph.WriteFunction | lsprof2dot.py:408-457 | a turn of the outer loop records `ItemsAt` for the function: nothing below the node threshold, else its node then its edges |
| LsprofGraph.WriteGraph | lsprof2dot.py:406-457 | the outer loop, visiting every function exactly once in the dictionary's iteration order, records `GraphItems` |
| DotWriter.SpecialIndex | lsprof2dot.py:179-182 | which of the four characters `escape` rewrites a character is, or -1 |
| DotWriter.ReplaceOneChar | lsprof2dot.py:179-182 | replacement `k` turns each character's text after `k` replacements into its text after `k + 1` |
| DotWriter.ReplaceStage | lsprof2dot.py:179-182 | the same for a whole string |
| DotWriter.ReplacedIsEscapedChars | lsprof2dot.py:179-182 | the first `k` `replace` calls equal the one-pass escape of the first `k` specials |
| DotWriter.EscapeIsReplaceChain | lsprof2dot.py:178-183 | `escape` is exactly its four `replace` calls, in their order, inside double quotes |
| DotWriter.EscapeRoundTrip | lsprof2dot.py:178-183 | unescaping the escaped text gives back the string |
| DotWriter.EscapedHasNoRawSpecials | lsprof2dot.py:178-183 | the escaped text has no raw newline or tab, and every double quote in it follows a backslash |
| DotWriter.IdText | lsprof2dot.py:166-176 | `id` fails (raises `TypeError`) iff the value is neither a number nor a string |
| DotWriter.IdRoundTrip | lsprof2dot.py:166-176 | every string id, bare or quoted, reads back as itself |
| DotWriter.IdOut | lsprof2dot.py:166-176 | `id` fails iff the value is unsupported, having written nothing |
| DotWriter.PairsFailIff | lsprof2dot.py:156-163 | the pairs raise iff some name or value from there on is unsupported |
| DotWriter.PairsJoin | lsprof2dot.py:155-163 | with every pair supported, the loop writes the pairs joined by `", "`, led by a separator unless it starts at the first pair |
| DotWriter.AttrListText | lsprof2dot.py:151-164 | no attributes write nothing. Otherwise it raises iff an id is unsupported; if none is, it writes `" ["`, the pairs joined by `", "`, and `"]"`. |
| DotWriter.StatementsEndLines | lsprof2dot.py:131-149 | a statement whose ids are all supported is written whole, starting with a tab and ending with `;` and a newline |
| DotWriter.Writer.constructor | lsprof2dot.py:122-123 | nothing written yet |
| DotWriter.Writer.Write | lsprof2dot.py:185-186 | the text is appended |
| DotWriter.Writer.BeginGraph | lsprof2dot.py:125-126 | `digraph {` and a newline are appended |
| DotWriter.Writer.EndGraph | lsprof2dot.py:128-129 | `}` and a newline are appended |
| DotWriter.Writer.Id | lsprof2dot.py:166-176 | appends `IdOut`'s text and succeeds, or appends nothing and fails |
| DotWriter.Writer.Pair | lsprof2dot.py:157-163 | one turn of the loop appends what `PairOut` gives, up to a failing `id` |
| DotWriter.Writer.AttrList | lsprof2dot.py:151-164 | the loop with its `first` flag appends `AttrListOut`'s text and fails as it does |
| DotWriter.Writer.Node | lsprof2dot.py:137-141 | appends `NodeOut`'s text |
| DotWriter.Writer.Edge | lsprof2dot.py:143-149 | appends `EdgeOut`'s text |
| DotWriter.Writer.Attr | lsprof2dot.py:131-135 | appends `AttrOut`'s text |
| XDot.UnescapeShrinks | xdot.py:135-136 | unescaping never lengthens the text |
| XDot.UnescapePlain | xdot.py:135-136 | text without a backslash is left as it is |
| XDot.SkipSpaces | xdot.py:149-150 | The whitespace loop fails with IndexError iff the cursor is before the start. Otherwise it stops at the first non-space at or after the cursor, or at the end, and every position it passes holds a space. |
| XDot.CodeAt | xdot.py:145-151 | the token holds no space. The cursor lands within the buffer on a non-space or at the end, and moves forward whenever a space follows. |
| XDot.NoSpaceBefore | xdot.py:146-147 | the slice up to the next space holds no space |
| XDot.NumberAt | xdot.py:153-154 | reading a number succeeds iff `int()` accepts the token, and fails only with ValueError |
| XDot.FloatAt | xdot.py:156-157 | reading a float succeeds iff the token is a plain decimal that `float()` accepts |
| XDot.PointAt | xdot.py:159-162 | a point read is the transform of two integers |
| XDot.TextAt | xdot.py:164-171 | reading text fails only with ValueError or IndexError |
| XDot.PointsAt | xdot.py:176-178 | after `count` turns the loop has read exactly `count` points |
| XDot.PointsFailureSticks | xdot.py:176-178 | a failed point read ends the loop: asking for more points fails the same way |
| XDot.PointsStep | xdot.py:176-178 | the points so far plus the point read give the points after one more turn |
| XDot.PolygonAt | xdot.py:173-179 | a polygon read has exactly `n` points, none when `n` is negative |
| XDot.SkipTextOp | xdot.py:188-193 | `c`, `C` and `S` go on with the pen unchanged and no shape |
| XDot.FontOp | xdot.py:194-196 | `F` never stops the loop, fails only with ValueError or IndexError, adds no shape and changes only the pen's font size and name |
| XDot.TextOp | xdot.py:197-202 | `T` never stops the loop, fails only with ValueError or IndexError, and adds one text shape drawn with the current pen, which it leaves unchanged |
| XDot.EllipseOp | xdot.py:203-212 | `E`/`e` add one ellipse with the current pen, filled as asked |
| XDot.BezierOp | xdot.py:213-215 | `B` never stops the loop, fails only with ValueError or IndexError, and adds one Bezier shape with the current pen, which it leaves unchanged |
| XDot.PolygonOp | xdot.py:216-221 | `P`/`p` never stop the loop, fail only with ValueError or IndexError, and add one polygon with the current pen, filled iff the opcode is `P` |
| XDot.StateOpAt | xdot.py:188-196 | `c`, `C`, `S` and `F` never stop the loop and add no shape; only `F` changes the pen, and only its font |
| XDot.DrawingOpAt | xdot.py:197-221 | each drawing opcode adds exactly one shape, drawn with the current pen, whose kind and fill give back the opcode; the pen is left unchanged |
| XDot.OpAt | xdot.py:187-224 | The loop stops iff the opcode is unknown. A turn adds a shape iff the opcode is `T`, `E`, `e`, `B`, `P` or `p`. That shape is drawn with the current pen, and its kind and fill give back the opcode. Only `F` changes the pen, and only its font. |
| XDot.Run | xdot.py:186-225 | the loop guard: at the end of the text the loop returns the shapes so far. Otherwise it takes a turn, and it only ever appends, so the shapes made earlier are a prefix of the result and a later `F` cannot alter them |
| XDot.TakeTurn | xdot.py:187-224 | one turn followed by the rest of the loop keeps the shapes so far as a prefix of the result |
| XDot.ParseFrom | xdot.py:181-225 | `parse` keeps the shapes already made as a prefix of its result |
| XDot.RunFuelEnough | xdot.py:186-224 | more fuel does not change a run that ended without running out, so the fuel bound only cuts off loops that do not end |
| XDot.RunKeepsStroke | xdot.py:186-224 | when every turn keeps the stroke, every shape added strokes like the starting pen |
| XDot.StepKeepsStroke | xdot.py:187-224 | every turn of `parse` keeps colours and line width, and draws new shapes with the current pen |
| XDot.ParseKeepsStroke | xdot.py:181-225 | every shape `parse` makes has the default pen's colours and line width |
| XDot.CodeRoundTrip | xdot.py:145-151 | a space-free token written before a space reads back, and the cursor lands past the whitespace that follows |
| XDot.NumberRoundTrip | xdot.py:153-154 | a number written with `str()` before a space reads back |
| XDot.TextCountRoundTrip | xdot.py:164-165 | the length written in front of a text reads back, and leaves the cursor on the dash |
| XDot.TextRoundTrip | xdot.py:164-171 | a text written as its length, a space, a dash and itself reads back |
| XDot.TextLength | xdot.py:164-168 | the text read has exactly `num` characters when the buffer holds that many after the dash |
| XDot.XDotAttrParser.constructor | xdot.py:134-140 | the buffer is the unescaped text, the cursor is at 0 |
| XDot.XDotAttrParser.ReadCode | xdot.py:145-151 | the token and the new cursor are `CodeAt` of the old cursor |
| XDot.XDotAttrParser.SkipBlanks | xdot.py:149-150 | the whitespace loop ends where `SkipSpaces` says, and fails exactly when `SkipSpaces` does |
| XDot.XDotAttrParser.ReadNumber | xdot.py:153-154 | result and cursor are `NumberAt` |
| XDot.XDotAttrParser.ReadFloat | xdot.py:156-157 | result and cursor are `FloatAt`, so only plain decimals read back |
| XDot.XDotAttrParser.ReadPoint | xdot.py:159-162 | result and cursor are `PointAt` |
| XDot.XDotAttrParser.ReadText | xdot.py:164-171 | result and cursor are `TextAt` |
| XDot.XDotAttrParser.ReadPolygon | xdot.py:173-179 | result and cursor are `PolygonAt` |
| XDot.XDotAttrParser.ReadPoints | xdot.py:176-178 | the `for` loop's points and cursor are `PointsAt` of the old cursor |
| XDot.XDotAttrParser.SkipStyle | xdot.py:188-193 | the step is `SkipTextOp` and the cursor is where it says |
| XDot.XDotAttrParser.SetFont | xdot.py:194-196 | the step is `FontOp` and the cursor is where it says |
| XDot.XDotAttrParser.AddText | xdot.py:197-202 | the step is `TextOp` and the cursor is where it says |
| XDot.XDotAttrParser.AddEllipse | xdot.py:203-212 | the step is `EllipseOp` and the cursor is where it says |
| XDot.XDotAttrParser.AddBezier | xdot.py:213-215 | the step is `BezierOp` and the cursor is where it says |
| XDot.XDotAttrParser.AddPolygon | xdot.py:216-221 | the step is `PolygonOp` and the cursor is where it says |
| XDot.XDotAttrParser.Op | xdot.py:187-224 | the chain of `if`s does what `OpAt` says |
| XDot.XDotAttrParser.Turn | xdot.py:187-224 | one turn of the loop is `StepAt` of the old cursor, and a turn that goes on leaves the cursor where that step says |
| XDot.XDotAttrParser.Advance | xdot.py:186-224 | a turn that ends the loop returns the loop's own result; one that goes on leaves a pen, shapes and cursor from which the rest of the loop, with one turn fewer, gives the same result |
| XDot.XDotAttrParser.Parse | xdot.py:181-225 | the loop returns `ParseFrom` of the starting cursor with the default pen and no shapes |
| Window.BoundingTransform | xdot.py:344-351 | The transform maps the bounding box's top left corner to the origin and its opposite corner to (width, height). Every point of the box lands in that window. |
| Window.MakeHyperlink | xdot.py:233-241 | a point hits the link iff it is at most half the width and half the height from the centre |
| Window.FirstHit | xdot.py:460-463 | the search finds nothing iff no link is hit |
| Window.FirstHitIsFirst | xdot.py:460-463 | a url found belongs to a link that is hit, and no earlier link is hit |
| Window.DotWindow.constructor | xdot.py:260-319 | no links, height 1, zoom 1 |
| Window.DotWindow.GetUrl | xdot.py:455-463 | the point is mapped back to graph coordinates with the y axis flipped, and the result is `FirstHit` of the links |

## Left out

- Reading gprof's text report is left out. It is regular expressions over file lines, with `readline` and `sys.exit`. `GprofParser.Parser` starts from the entry and cycle tables `parse_cg` would build.
- `PstatsParser.__init__` and `parse` are left out because they need the `pstats` library. `get_function_name` is left out because it needs `os.path`; `GetFunction` takes the name as a parameter instead.
- Running cProfile, `execfile` and `Parser.label` (through `inspect`) are left out. The cProfile entries arrive as values whose labels are already made.
- `ColorMap`, `hsl_to_rgb`, `DotWriter.color` and the `%.02f` label formatting are left out: they are floating-point colour arithmetic and text formatting. Nodes and edges are recorded as the numbers their labels and colours are made from.
- `wrap_function_name` is left out because it relies on `textwrap.fill`, which `lsprof2dot` never imports. `DisplayName` models only the `strip` option.
- `DotWriter.graph` in `gprof2dot.py` is left out: it writes node and edge labels and colours directly. The statement helpers it calls are modelled.
- Python floats are left out of `id`. Only integers and strings are given to it as numbers and names.
- `Main.main`'s option parsing and file handling are left out in both scripts.
- The sizes of Python integers are not an issue: they are unbounded, as in the model.
- Identity sharing of `Call` and `Function` objects between tables is left out: they are values in a map. This does not affect the passes, which reach every call through its function.
- The iteration order of Python dictionaries is left out. The `Estimates`, `Prune` and `PruneCalls` loops pick ids in any order and are proved to give the order-independent result. `WriteGraph` takes the order as a parameter.
- LsprofGraph.WriteGraph: the `static_functions` branch is left out. It runs only for a callee without a record, and it reads `child.name`, which `parse_entry` never sets, so it raises. `Resolves` makes every callee have a record, and that branch and the trailing loop over `static_functions` are then dead.
- Division by a zero total is left out. `Percent` requires a non-zero total, where the source raises `ZeroDivisionError`.
- Window.DotWindow.GetUrl: division by a zero zoom is left out. It requires a non-zero `zoom_ratio`, where the source raises `ZeroDivisionError`.
- XDot.XDotAttrParser.Parse: the loop takes a `fuel` bound. The source's loop may not end, because a missing space makes `find` return -1 and sends the cursor back to the start. `RunFuelEnough` shows the bound changes no run that ends in time.
- The message `parse` writes to standard error for an unknown opcode is left out. Only the stop it causes is modelled.
- XDot.FloatAt, XDot.XDotAttrParser.ReadFloat: `float()` is modelled for plain decimal notation only: sign, digits and one optional point, without exponents, `inf` or `nan`.
- `DotWindow.parse` is left out apart from its transform: `pydot` parsing of the graph, the bounding-box text, and collecting shapes and hyperlinks from node and edge attributes. So are the GTK widgets, cairo drawing, the `dot` subprocess and the zoom handlers.
- `Shape.draw` and its subclasses' drawing are left out.

## Findings

| source | as written | input that shows it | evidently intended | confidence | as-written member | corrected member |
|---|---|---|---|---|---|---|
| gprof2dot.py:34-35 | `add_call` sets `calls` to an empty list and ignores its argument | any function with one call, then `add_call(c)`: `calls == []` and `c` is missing | append the call (`calls.append(call)`), as `parse` does inline at line 374 | high, not executed | Profiles.AddCallLosesCalls | Profiles.AppendCallKeepsCalls |
| lsprof2dot.py:105 | a callee's `descendants` is the sub-entry's `totaltime`, which already includes its `inlinetime`, so the edge percentage at line 447 counts the inline time twice | a leaf call with inline and cumulative time 1.0 s out of a total of 1.0 s shows 200 % | `totaltime - inlinetime`, as the entry's own record does at line 92 | high, not executed | LsprofGraph.EdgeCountsInlineTwice | LsprofGraph.EdgePercentBounded |
