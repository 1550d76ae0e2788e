# A verified model of the waend polygon engine and its small client and server cores

This project models, in Dafny, the core of the waend repository (atelier-cartographique/waend).

The centre of it is the *planar* geometry library that waend vendors in its `belgika/planar` directory, which exists twice: once in Python (`polygon.py`, `box.py`) and once as a C extension (`cpolygon.c`, `cvector.c`, `cbox.c` with `planar.h`). A polygon is a list of at least three vertices with cached derived state:
- whether it is convex, which one Graphics Gems IV scan over the edge vectors decides;
- whether it is simple, which a plane sweep decides;
- whether it is degenerate or has duplicate vertices;
- its two y-monotone polylines, its bounding box and its centroid.

Every vertex assignment clears that cache. On top of it sit the winding-number and y-monotone point-in-polygon tests, the tangents from an exterior point, the adaptive quick hull, and an equality that ignores the start vertex and the winding. The C side adds the growable `Vec2Array` vector buffer and the bounding box object.

Around the engine, outside `belgika`, are the small sequential cores of the JavaScript client and server:
- the `Extent` rectangle (`app/lib/Geometry.js`);
- the shell tokenizer (`app/lib/Shell.js`);
- the text cursor (`app/src/Text.js`);
- the visible-layer `Lister` (`app/lib/commands/group/visible.js`);
- the notifier's connection states (`lib/notifier.js`);
- pagination (`routes/endpoints/base.js`);
- width-step selection for media (`routes/media.js`);
- dotted-path properties (`app/lib/Model.js`).

Coordinates are exact reals. Each source file keeps its own form:
- Objects whose fields the source updates in place are classes. These are the C and Python polygons, the C bounding box, `Vec2Array`, `Extent`, `Lister`, `TextCursor`, the notifier states and `Model`.
- Loops are methods with invariants.
- Each method is proved against a reference function, and the properties are proved about those functions:
  - `PolySpec` covers simplicity, the winding number, the fan centroid, vertex triples and tangents.
  - `Classify` covers the convexity scan.
  - `YChains` covers the y-monotone polylines.
  - `Sweep` covers the self-intersection tests.
  - `PyBox` covers bounds.

The C and Python versions of an operation are proved against the same reference function wherever they agree. The places where they differ, and the places where either one differs from what it evidently means, are stated as lemmas.

Modules, one per file: `Wrappers`, `Planar`, `PolySpec`, `Classify`, `YChains`, `Sweep`, `CVector`, `PyBox`, `CBox`, `CHull`, `PyHull`, `CPolygon`, `PyPolygon`, `Geometry`, `JsString`, `Shell`, `Text`, `Visible`, `Notifier`, `Base`, `Media`, `Model`.

## Model

| member | source | states |
|---|---|---|
| Base.OrDefault | routes/endpoints/base.js:94-95 | a parsed value that is neither NaN nor 0 is kept; NaN or 0 gives the default |
| Base.SliceIndex | routes/endpoints/base.js:98 | a slice bound is clamped into [0, len], a negative bound counting from the end |
| Base.JsSlice | routes/endpoints/base.js:98 | the slice is the subsequence between the two clamped bounds, empty when they cross, and never longer than the input |
| Base.CeilDiv | routes/endpoints/base.js:107 | the quotient is the ceiling of n / d: (q-1)*d < n <= q*d for a positive d, mirrored for a negative one |
| Base.Paginate | routes/endpoints/base.js:93-109 | totalCount is the result length; page and pageSize fall back to 0 and 64; a positive page size bounds the page's length, pageCount is the ceiling of len / pageSize, and the results are result[offset .. offset+pageSize) clamped to the list |
| Base.PageSlice | routes/endpoints/base.js:96-98 | page j of size n is exactly result[min(j*n, len) .. min(j*n+n, len)) |
| Base.PagesUpToPrefix | routes/endpoints/base.js:96-98 | reading pages 0 .. k-1 in order gives the first k*n results |
| Base.PagesCoverResult | routes/endpoints/base.js:96-107 | reading pages 0 .. pageCount-1 in order gives back the whole result list |
| Media.StepsAscending | routes/media.js:19-29 | the stored widths strictly ascend |
| Media.GetStep | routes/media.js:129-136 | the step is in [0, STEPS_SZ); for a size at least the smallest width it is the largest index whose width does not exceed the size; a smaller or unparsable size gives the last index |
| Media.GetMedia | routes/media.js:138-147 | the width served is one of the stored widths, at most the requested size when the size reaches the smallest width, and the largest width otherwise |
| Media.GetStepMonotone | routes/media.js:129-136 | a larger request never gets a lower step |
| Model.PathKey | app/lib/Model.js:18-30 | the answer is the value the dotted path reaches through nested objects, or the default when a step meets a non-object or the last key is missing |
| Model.SetPath | app/lib/Model.js:67-92 | set adds the first key to the properties and keeps every other top-level property unchanged |
| Model.RebuildStep | app/lib/Model.js:77-91 | writing the rebuilt lower object into the object at depth i is the set of the path from depth i |
| Model.LookupAfterSet | app/lib/Model.js:59-92 | after set(k, v) the walk of k finds v |
| Model.SetKeepsOtherPaths | app/lib/Model.js:67-92 | set leaves every path that starts with another key as it was |
| Model.SetKeepsSiblings | app/lib/Model.js:83-89 | set keeps the object it walks through, so a sibling of the next key still reads the same |
| Model.Model.constructor | app/lib/Model.js:34-36 | the model holds the given properties |
| Model.Model.Has | app/lib/Model.js:55-57 | has(p) holds exactly when p is a key of the properties |
| Model.Model.Get | app/lib/Model.js:59-61 | get is pathKey over the properties, with the same default rule |
| Model.Model.Set | app/lib/Model.js:67-92 | a one-part key assigns props[key]; a dotted key makes {} of every missing or non-object step and writes the value at the last key |
| Model.WriteAlong | app/lib/Model.js:73-92 | the loop of set over a key of two or more parts produces the set of that path |
| Model.WalkDown | app/lib/Model.js:77-90 | the objects the loop walks through, top first, each the child (or a fresh {}) of the previous one |
| Model.Rebuild | app/lib/Model.js:77-91 | rebuilding the walked objects bottom up gives the set of the whole path |
| Model.GetAfterSet | app/lib/Model.js:59-92 | after set(k, v), get(k) answers v whatever the default |
| Notifier.Uniq | lib/notifier.js:26 | _.uniq leaves a duplicate-free list with exactly the input's members, and a list already free of duplicates unchanged |
| Notifier.Subscribed | lib/notifier.js:21-27 | the channel list after subscribe has no duplicates; an id already listed leaves it as it was, a new id is appended |
| Notifier.SubscribeIdempotent | lib/notifier.js:21-27 | subscribing twice to the same channel is subscribing once |
| Notifier.LookupAsWritten | lib/notifier.js:30-96 | `name in handlers` misses exactly the names that are neither auth, sub nor a property inherited from Object.prototype |
| Notifier.InheritedDispatchAsWritten | lib/notifier.js:90-94 | an inherited name throws exactly for __proto__, __defineGetter__ and __defineSetter__ |
| Notifier.LookupOwn | lib/notifier.js:30-96 | the handler lookup as intended: auth and sub, and nothing else |
| Notifier.ProtoMessageThrows | lib/notifier.js:86-118 | the message ["__proto__"] finds an inherited property and throws as written, and is ignored by the own-property lookup |
| Notifier.State.constructor | lib/notifier.js:77-84 | a new state has the given id, no user and no channels |
| Notifier.State.AuthUser | lib/notifier.js:17-19 | the user becomes the one the token belongs to; the channels stay |
| Notifier.SubscribeAsWritten | lib/notifier.js:21-27 | subscribe as written throws TypeError exactly when the type is no own channel key but names an Object.prototype property; otherwise the type lists the id once and every other type keeps its list |
| Notifier.SubToStringThrows | lib/notifier.js:21-27 | the message ["sub", "toString", "x"] reaches subscribe and throws as written, where subscribing by own keys lists "x" |
| Notifier.State.Subscribe | lib/notifier.js:21-27 | testing own keys only, the channel list of the type becomes the subscribed list and no other type changes; ids stay unique per type; it agrees with the code as written wherever that does not throw |
| Notifier.State.Dispatch | lib/notifier.js:86-96 | auth sets the user from the message's token, sub subscribes to the message's channel, and any other name changes nothing |
| Notifier.FindById | lib/notifier.js:170-174 | _.findIndex answers the first live slot with the id, or -1 exactly when no live slot has it |
| Notifier.Listeners | lib/notifier.js:127-141 | every state listed is live and subscribed to the channel |
| Notifier.ListenersStep | lib/notifier.js:129-139 | one more slot adds its state exactly when it is live and subscribed to the channel |
| Notifier.StateVec.constructor | lib/notifier.js:122-125 | a new vector has no slots and no free indices |
| Notifier.StateVec.RemoveState | lib/notifier.js:167-177 | the slot holding the state is nulled and its index pushed on the free list; a state no slot holds pushes -1 and moves no slot |
| Notifier.StateVec.Create | lib/notifier.js:179-190 | a new state goes to the last freed index when there is one, which is popped, and is pushed as a new slot otherwise |
| Notifier.StateVec.EachChannel | lib/notifier.js:127-141 | the states visited, in slot order, are exactly the live ones subscribed to (type, id) |
| Geometry.Normalized | app/lib/Geometry.js:143-156 | after normalize each axis's two values are in order and are the same two values as before; an extent already in order is unchanged |
| Geometry.Width | app/lib/Geometry.js:236-238 | getWidth is non-negative and is the difference of the two x values, one way or the other |
| Geometry.Height | app/lib/Geometry.js:232-234 | getHeight is non-negative and is the difference of the two y values, one way or the other |
| Geometry.Center | app/lib/Geometry.js:256-260 | getCenter is equidistant from both x values and from both y values |
| Geometry.NormalizedKeepsShape | app/lib/Geometry.js:143-156 | normalize keeps width, height and center, and is idempotent |
| Geometry.Intersects | app/lib/Geometry.js:158-172 | a two-element point is covered exactly when it lies in the closed rectangle; an argument of three or fewer other values never intersects |
| Geometry.IntersectsSymmetric | app/lib/Geometry.js:158-172 | for two rectangles, intersects is symmetric |
| Geometry.IntersectsIffCommonPoint | app/lib/Geometry.js:158-172 | two normal extents intersect exactly when some point lies in both closed rectangles |
| Geometry.Union | app/lib/Geometry.js:174-181 | add takes the smaller minimum and the larger maximum on each axis |
| Geometry.UnionCovers | app/lib/Geometry.js:174-181 | every point of either operand lies in the union |
| Geometry.Bound | app/lib/Geometry.js:183-192 | a point lies in bound's result exactly when it lies in both extents |
| Geometry.BoundOfIntersecting | app/lib/Geometry.js:158-192 | for normal extents, bound is a normal extent exactly when the two intersect |
| Geometry.MaxSquared | app/lib/Geometry.js:211-225 | maxSquare keeps the center, and a normal extent becomes a square whose side is the longer of width and height |
| Geometry.Extent.constructor | app/lib/Geometry.js:113-115 | from an array, the extent is a copy of the four coordinates |
| Geometry.Extent.FromExtent | app/lib/Geometry.js:96-98 | from another extent, the extent is a copy of its array |
| Geometry.Extent.FromSides | app/lib/Geometry.js:102-112 | from an object with top, left, right and bottom, the extent is [left, top, right, bottom] |
| Geometry.Extent.Normalize | app/lib/Geometry.js:143-156 | the extent becomes its normalized form |
| Geometry.Extent.Add | app/lib/Geometry.js:174-181 | the extent becomes the union with the other coordinates |
| Geometry.Extent.MaxSquare | app/lib/Geometry.js:211-225 | the extent becomes its max-squared form |
| JsString.LeadingWhite | app/lib/Shell.js:347 | the white run at the start of a string, measured by trim, ends before the first non-white character |
| JsString.TrailingWhite | app/lib/Shell.js:347 | the white run at the end of a string, measured by trim, starts after the last non-white character |
| JsString.Trim | app/lib/Shell.js:347 | trim leaves the middle of the string between its leading and trailing white runs; what is left is empty exactly for an all-white string, and otherwise starts and ends with a non-white character |
| JsString.Split | app/lib/Shell.js:347 | split gives at least one piece, and no piece holds the separator |
| JsString.SplitCount | app/lib/Shell.js:347-353 | there is exactly one more piece than there are separators in the string |
| JsString.Join | app/lib/Shell.js:347 | joining a single piece gives that piece |
| JsString.JoinSplit | app/lib/Shell.js:347 | joining the pieces of a split with the separator gives back the string |
| JsString.SplitPrefix | app/lib/Shell.js:347 | a prefix free of the separator stays glued to the first piece of what follows |
| JsString.SplitJoin | app/lib/Shell.js:347 | splitting a join of separator-free pieces gives back the pieces |
| Shell.ChunkEnd | app/lib/Shell.js:41-51 | the chunk ends at the first endChar at or after start, or at the end of the input, and holds no endChar |
| Shell.GetCliChunk | app/lib/Shell.js:41-51 | getCliChunk returns the characters from start up to (not including) the first endChar, or to the end of the input |
| Shell.ChunkEndUnique | app/lib/Shell.js:43-47 | any position with no endChar before it and endChar (or the end) at it is where the chunk ends |
| Shell.CliSplit | app/lib/Shell.js:53-76 | cliSplit answers the token reading of the trimmed string |
| Shell.Tokenize | app/lib/Shell.js:54-75 | the loop over the characters produces the token reading from position 0; a quoted token advances past both quotes and a word past the space after it |
| Shell.QuotedStep | app/lib/Shell.js:58-67 | a quoted token taken by the loop continues the token reading two characters past its chunk |
| Shell.WordStep | app/lib/Shell.js:68-72 | a word token taken by the loop continues the token reading one character past its chunk |
| Shell.SpaceStep | app/lib/Shell.js:56-72 | a space between tokens adds nothing |
| Shell.TokensQuoted | app/lib/Shell.js:58-67 | from a quote, the first token is the chunk up to the matching quote |
| Shell.TokensWord | app/lib/Shell.js:68-72 | from a non-space, non-quote character, the first token is the chunk up to the next space |
| Shell.BlankLineHasNoTokens | app/lib/Shell.js:53-76 | a line that is empty or all white space has no tokens |
| Shell.SpacesSkipped | app/lib/Shell.js:56-72 | a run of spaces between tokens is skipped |
| Shell.QuotedToken | app/lib/Shell.js:57-66 | a double-quoted word becomes a single token, without its quotes and with its spaces |
| Shell.QuotedAt | app/lib/Shell.js:57-62 | a token in double quotes is read from its opening quote to its closing one |
| Shell.WordToken | app/lib/Shell.js:68-72 | a word without spaces and without a leading quote, followed by a space, is one token |
| Shell.WordAt | app/lib/Shell.js:68-72 | a word token is read from its first character to the space after it |
| Shell.ExampleQuotedArgument | app/lib/Shell.js:79-82 | 'cmd "arg0 arg1"' reads as the two tokens cmd and arg0 arg1 |
| Shell.ExampleFirstToken | app/lib/Shell.js:82 | the first token of that example is cmd |
| Shell.ExampleSecondToken | app/lib/Shell.js:82 | the second token of that example is arg0 arg1 |
| Shell.StageTokens | app/lib/Shell.js:331-335 | each stage of a pipeline is the token reading of its trimmed segment |
| Shell.Exec | app/lib/Shell.js:346-357 | exec runs one command exactly when the trimmed line holds no pipe character, and otherwise a pipeline with one stage more than there are pipe characters, whose stages are the tokens of the pipe-free segments the trimmed line is joined from |
| Shell.PipeSegmentsUnique | app/lib/Shell.js:346-357 | the pipe-free segments a line is joined from are exactly its split at the pipe character |
| Shell.ExecOneCommand | app/lib/Shell.js:346-357 | a line without a pipe character runs as the one command whose tokens are those of the trimmed line |
| Text.Paragraphs | app/src/Text.js:66-68 | the paragraphs are at least one piece, hold no '\n', and joined with '\n' give back the string |
| Text.NextStep | app/src/Text.js:24-39 | inside a paragraph next hands out its next character and advances i; at a paragraph's end it hands out END_PARAGRAPH and moves to the start of the next one; after the last it hands out END_TEXT and resets to (0, 0); the position stays valid |
| Text.RewindStep | app/src/Text.js:41-59 | rewind decrements i inside a paragraph, stays at (0, 0) at the very start, and otherwise goes to the last character of the previous paragraph (its start when that one is empty), always at a valid position |
| Text.RewindStepAsWritten | app/src/Text.js:41-59 | rewind as written stays valid except that stepping back into an empty paragraph sets i to -1 |
| Text.RewindAsWrittenLeavesText | app/src/Text.js:45-54 | from the start of the third paragraph of "a", "", "b", rewind as written leaves (1, -1), outside the text, where the corrected rewind leaves (1, 0) |
| Text.RewindUndoesNext | app/src/Text.js:24-59 | within a paragraph, rewind after next returns to the same position |
| Text.RunReadsRemaining | app/src/Text.js:24-39 | reading on from any valid position hands out the rest of the paragraphs' characters, each paragraph closed by END_PARAGRAPH and the last by END_TEXT |
| Text.ReadWholeText | app/src/Text.js:24-39 | a read from the start hands out every character of every paragraph in order, then END_TEXT |
| Text.TextValue.constructor | app/src/Text.js:66-68 | a Text keeps its string and its paragraphs, the string split at '\n' |
| Text.TextValue.Cursor | app/src/Text.js:90-92 | cursor() is a fresh cursor at (0, 0) over the text's paragraphs |
| Text.TextCursor.constructor | app/src/Text.js:17-22 | a new cursor starts at (0, 0) |
| Text.TextCursor.Next | app/src/Text.js:24-39 | next hands out the token and moves to the position that NextStep gives |
| Text.TextCursor.Rewind | app/src/Text.js:41-59 | rewind moves to the position that the corrected RewindStep gives, which is always valid |
| Visible.IndexOf | app/lib/commands/group/visible.js:22-24 | _.indexOf answers -1 exactly when x is absent, and otherwise the first index holding x |
| Visible.Without | app/lib/commands/group/visible.js:43-45 | _.without leaves no x and only values of the input |
| Visible.WithoutCounts | app/lib/commands/group/visible.js:43-45 | _.without keeps every other value as often as it occurred, and its length drops by the number of x |
| Visible.SpliceStart | app/lib/commands/group/visible.js:35 | splice starts at idx when idx is within the list, clamped otherwise |
| Visible.InsertPos | app/lib/commands/group/visible.js:30-37 | insert writes at the end when idx is past the length, and at idx when it is within the list |
| Visible.Inserted | app/lib/commands/group/visible.js:30-37 | insert adds exactly one x, at its position, with the old elements before and after it in their order |
| Visible.InsertThenRemove | app/lib/commands/group/visible.js:30-45 | inserting an absent x and removing it gives back the list |
| Visible.WithoutAround | app/lib/commands/group/visible.js:43-45 | dropping the one x between two x-free lists gives their concatenation |
| Visible.WithoutAbsent | app/lib/commands/group/visible.js:43-45 | removing an absent value changes nothing |
| Visible.WithoutConcat | app/lib/commands/group/visible.js:43-45 | _.without distributes over concatenation |
| Visible.Upped | app/lib/commands/group/visible.js:54-71 | up permutes the list; an absent x changes nothing; a non-last x changes places with its successor and nothing else moves; the last x moves to the front |
| Visible.LastToFront | app/lib/commands/group/visible.js:60-66 | moving the last element to the front is a permutation |
| Visible.SwapWithNext | app/lib/commands/group/visible.js:47-69 | exchanging two neighbours is a permutation |
| Visible.SwapMultiset | app/lib/commands/group/visible.js:47-52 | exchanging two elements keeps the multiset |
| Visible.WrapAsWritten | app/lib/commands/group/visible.js:60-66 | the wrap list built as written has the list's length |
| Visible.UpWrapAsWritten | app/lib/commands/group/visible.js:60-66 | the copy loop as written, bounded by length - 2, builds the last element then all but the last two, then a hole |
| Visible.WrapAsWrittenDropsElement | app/lib/commands/group/visible.js:60-66 | moving the last of ["a", "b"] up as written leaves ["b", undefined], where the corrected up leaves ["b", "a"] |
| Visible.Lister.constructor | app/lib/commands/group/visible.js:18-20 | the lister holds a copy of the given list (the JSON round trip of a list of id strings is an equal list) |
| Visible.Lister.Empty | app/lib/commands/group/visible.js:18-20 | without an argument the list defaults to empty |
| Visible.Lister.Index | app/lib/commands/group/visible.js:22-24 | index is _.indexOf on the list |
| Visible.Lister.Has | app/lib/commands/group/visible.js:26-28 | has(x) holds exactly when index(x) is not -1, that is when x is in the list |
| Visible.Lister.At | app/lib/commands/group/visible.js:39-41 | at answers the element at idx, undefined outside the list |
| Visible.Lister.Insert | app/lib/commands/group/visible.js:30-37 | the list becomes the inserted list |
| Visible.Lister.Remove | app/lib/commands/group/visible.js:43-45 | the list loses every occurrence of x |
| Visible.Lister.Swap | app/lib/commands/group/visible.js:47-52 | the two elements change places |
| Visible.Lister.Up | app/lib/commands/group/visible.js:54-71 | the list becomes the corrected up of x, with the wrap copy loop running to length - 1 |
| Visible.Lister.GetList | app/lib/commands/group/visible.js:77-79 | getList answers a fresh array holding the list, not an alias of it |
| Planar.SideAntisymmetric | belgika/planar/planar.h:92-93 | SIDE changes sign when two of its points change places |
| Planar.SideCyclic | belgika/planar/planar.h:92-93 | SIDE is unchanged by a cyclic rotation of its points |
| Planar.SideTranslate | belgika/planar/planar.h:92-93 | SIDE is unchanged when all three points move by the same vector |
| Planar.SideShear | belgika/planar/planar.h:92-93 | moving c along the direction a->b does not change its SIDE |
| Planar.SideZeroIffCollinear | belgika/planar/planar.h:89-93 | for a != b, SIDE(a, b, c) is 0 exactly when c lies on the line through a and b |
| Planar.SegmentsIntersectSymmetric | belgika/planar/planar.h:177-187 | segments_intersect does not depend on which segment is given first |
| Planar.SegmentsIntersectReversed | belgika/planar/planar.h:177-187 | nor on the direction in which either segment is traversed |
| Planar.AdjacentEdgesIntersect | belgika/planar/planar.h:177-187 | two edges sharing an endpoint test as intersecting unless their points are collinear, which is why the simplicity tests skip adjacent edges |
| Planar.CollinearSegmentsDoNotIntersect | belgika/planar/planar.h:177-187 | segments on one line never test as intersecting |
| Planar.SameSideDoesNotIntersect | belgika/planar/planar.h:177-187 | a segment strictly on one side of the other's line does not intersect it |
| Planar.ProperCrossingIntersects | belgika/planar/planar.h:177-187 | two segments that properly cross each other's lines intersect |
| Planar.CompareLexi | belgika/planar/planar.h:190-197 | the comparator answers -1, 0 or 1 |
| Planar.CompareLexiOrder | belgika/planar/planar.h:190-197 | compare_vec_lexi is negative exactly when VEC_LT holds (x first, then y), zero exactly on equal vectors, and positive exactly for the reverse order |
| Planar.CompareLexiAntisymmetric | belgika/planar/planar.h:190-197 | swapping the arguments negates the comparison |
| Planar.CompareLexiTransitive | belgika/planar/planar.h:190-197 | the comparator's order is transitive |
| Planar.FromSeq2 | belgika/planar/planar.h:506-534 | every vertex lies within the box fromSeq2 builds, and each bound is its FLT_MAX start value or the coordinate of some vertex |
| Planar.FromSeq2Tight | belgika/planar/planar.h:516-531 | with at least one vertex and coordinates within ±FLT_MAX, every x and y bound is attained by a vertex |
| Planar.ContainsPointTiles | belgika/planar/planar.h:536-538 | boxes sharing a vertical edge never both contain a point (the half-open test) |
| Planar.ContainsPointTilesVertically | belgika/planar/planar.h:536-538 | nor do boxes stacked one on the other |
| PyBox.Corners | belgika/planar/box.py:213-222 | to_polygon lays out four corners, starting at the minimum with the maximum third |
| PyBox.CornersBounds | belgika/planar/box.py:213-222 | a normal box is the bounding box of the corners of its polygon |
| PyBox.BoundsOfTight | belgika/planar/box.py:48-64 | the box of a non-empty point list encloses every point, each of its four bounds is a coordinate of some point, and it is normal |
| PyBox.BoundsOfLeast | belgika/planar/box.py:48-64 | every box that encloses the points contains the box of the points |
| PyBox.FromPoints | belgika/planar/box.py:48-64 | no point raises ValueError; otherwise the loop that moves the min bound down or else the max bound up yields the box of the points |
| PyBox.ShapesBoundLeast | belgika/planar/box.py:116-144 | the joined box covers each shape's box, and any box covering them all covers it |
| PyBox.FromShapes | belgika/planar/box.py:116-144 | no shape raises ValueError; otherwise the loop over the shapes' boxes yields their joined box |
| PyBox.IsEmptyIffContainsNothing | belgika/planar/box.py:102-193 | a normal box has zero width or zero height exactly when it contains no point |
| PyBox.ContainsOneCorner | belgika/planar/box.py:184-193 | contains_point is half-open: of the four corners of a box with area only (min.x, max.y) is inside |
| PyBox.TwoPointBox | belgika/planar/box.py:48-64 | the box of two points is normal, its sides are the absolute coordinate differences and its center is their midpoint |
| PyBox.FromCenter | belgika/planar/box.py:146-163 | from_center gives a normal box centered at the point whose sides are the absolute width and height |
| PyBox.Inflate | belgika/planar/box.py:165-182 | inflate keeps the center and makes each side the absolute value of the old side plus the amount, so it grows by the amount while that stays non-negative |
| CBox.ShapesBoundInRange | belgika/planar/cbox.c:324-345 | the join of shape boxes whose coordinates lie within ±DBL_MAX stays within that range |
| CBox.ClampedInRange | belgika/planar/cbox.c:324-345 | for such boxes the DBL_MAX start values change nothing in the result |
| CBox.BoxObject.constructor | belgika/planar/cbox.c:107-122 | a freshly allocated box has both corners at the origin |
| CBox.BoxObject.InitFromPoints | belgika/planar/cbox.c:20-93 | no point is the tooShort ValueError and leaves the corners alone; otherwise the loop that moves the max bound up or else the min bound down leaves the box of the points, the same box the Python loop builds |
| CBox.BoxObject.InitFromShapes | belgika/planar/cbox.c:305-354 | no shape is a ValueError; otherwise the corners, started at ±DBL_MAX, become the joined box of the shapes' boxes, pulled inside ±DBL_MAX |
| CBox.FromCenter | belgika/planar/cbox.c:356-386 | from_center takes fabs of width and height, so it builds the same normal box as the Python from_center |
| CBox.Inflate | belgika/planar/cbox.c:388-417 | inflate moves each side out by half the amount, keeping the center and changing width and height by exactly the amount |
| CBox.InflateAgrees | belgika/planar/cbox.c:388-417 | while the inflated sides stay non-negative, the C and the Python inflate build the same box |
| CBox.InflatePastZeroDiffers | belgika/planar/cbox.c:412-415 | shrunk past zero, the C box keeps its corners crossed while the Python one is rebuilt normal |
| CVector.GrowToFits | belgika/planar/cvector.c:1275-1290 | the growth pattern always leaves room for the new size, with at least three spare slots for a non-zero size |
| CVector.InsertIndex | belgika/planar/cvector.c:1360-1368 | insert counts a negative index from the end once, then pulls it into [0, n] |
| CVector.ClampLow | belgika/planar/cvector.c:1423-1427 | the low bound of a slice is pulled into [0, size] |
| CVector.ClampHigh | belgika/planar/cvector.c:1428-1432 | the high bound of a slice is pulled into [low, size] |
| CVector.Assembled | belgika/planar/cvector.c:1484-1498 | the kept head, the copied replacement and the moved tail, each in its slots, make the assigned slice |
| CVector.Vec2Array.constructor | belgika/planar/planar.h:446-468 | a new array holds exactly the given vectors, with as many slots as vectors |
| CVector.Vec2Array.GetItem | belgika/planar/cvector.c:938-950 | the vector at an index in [0, size), and IndexError outside it |
| CVector.Vec2Array.SetItem | belgika/planar/cvector.c:952-976 | an index in [0, size) overwrites that one vector; outside it IndexError and the contents stay the same |
| CVector.Vec2Array.DeleteItem | belgika/planar/cvector.c:1505-1517 | deleting an index outside [0, size) is IndexError and changes nothing; otherwise the vector at the index is removed and the others keep their order |
| CVector.Vec2Array.Resize | belgika/planar/cvector.c:1259-1301 | the buffer is kept when allocated/2 <= newsize <= allocated, and otherwise replaced by one of the growth-pattern size that keeps the common slots; on success size == newsize <= allocated; a slot count that would overflow is a MemoryError that changes nothing |
| CVector.Vec2Array.Append | belgika/planar/cvector.c:1303-1330 | append adds the vector at the end, is an OverflowError at PY_SSIZE_T_MAX, and changes nothing when it fails |
| CVector.Vec2Array.Insert | belgika/planar/cvector.c:1332-1375 | insert puts the vector at the clamped index with the old vectors before and after it in their order |
| CVector.Vec2Array.ShiftIn | belgika/planar/cvector.c:1369-1372 | the memmove up one slot followed by the store leaves the old vectors around the new one |
| CVector.Vec2Array.Slice | belgika/planar/cvector.c:1417-1441 | slice is a fresh array of the vectors in the clamped range, of length ihigh - ilow after clamping |
| CVector.Vec2Array.AssignSlice | belgika/planar/cvector.c:1443-1503 | the clamped range is replaced by the vectors given, and size becomes old size - (ihigh - ilow) + n |
| CVector.Vec2Array.Shrink | belgika/planar/cvector.c:1484-1498 | a replacement shorter than the range: the tail moves down before the resize, then the replacement is copied in |
| CVector.Vec2Array.FillGap | belgika/planar/cvector.c:1495-1498 | copying the replacement between the head and the moved tail completes the assigned slice |
| CVector.Vec2Array.Grow | belgika/planar/cvector.c:1488-1498 | a replacement at least as long as the range: resize first, then move the tail up and copy the replacement in |
| CVector.Vec2Array.SpliceUp | belgika/planar/cvector.c:1491-1498 | after the resize, the tail (its old length only) moves up d slots and the replacement is copied in |
| CVector.Vec2Array.Move | belgika/planar/cvector.c:1485-1493 | memmove copies count vectors from one slot to another and leaves every other slot alone |
| CVector.Vec2Array.CopyIn | belgika/planar/cvector.c:1495-1496 | the replacement vectors land in consecutive slots from the low bound and no other slot changes |
| CVector.Vec2Array.Longest | belgika/planar/cvector.c:1731-1752 | longest is None exactly for an empty array, and otherwise the first vector of greatest length squared |
| CVector.Vec2Array.Shortest | belgika/planar/cvector.c:1754-1775 | shortest is the first vector of least length squared, and None exactly when no vector's length squared is below the DBL_MAX the running minimum starts at (an empty array included) |
| CVector.AssignSliceAsWrittenOverruns | belgika/planar/cvector.c:1491-1494 | with three vectors in four slots, assigning one vector to the empty slice at 0 keeps the buffer, yet the move as written writes slot 4 of a four-slot buffer |
| CVector.TailMoveFits | belgika/planar/cvector.c:1491-1494 | moving the old tail length ends at the new size, which the resize guarantees fits; the count as written moves d vectors more |
| PolySpec.EdgeVecs | belgika/planar/cpolygon.c:485-487 | the C loops walk one edge vector per vertex, edge k running from vertex k to the next vertex, the last edge closing the polygon |
| PolySpec.NextPrev | belgika/planar/cpolygon.c:310-318 | stepping to the next vertex and back (or back and then on) returns to the same vertex on the closed ring |
| PolySpec.NonAdjacentSymmetric | belgika/planar/cpolygon.c:527-587 | whether two edges are far enough apart for the intersection check does not depend on their order |
| PolySpec.TriangleIsSimple | belgika/planar/cpolygon.c:527-587 | a triangle is simple: each pair of its edges shares a vertex, so no pair is checked |
| PolySpec.WindingOutsideSlab | belgika/planar/cpolygon.c:901-923 | a point below every vertex, or on or above every vertex, crosses no edge and winds zero |
| PolySpec.LeftOfCrossingEdge | belgika/planar/cpolygon.c:910-915 | a point strictly left of both ends of an edge crossing its height is on the edge's left, so no upward crossing counts it |
| PolySpec.RightOfCrossingEdge | belgika/planar/cpolygon.c:910-915 | a point on or right of both ends of an edge crossing its height is on the edge's right or on it, so the crossing always counts |
| PolySpec.WindingLeftOfAll | belgika/planar/cpolygon.c:901-923 | a point strictly left of every vertex has winding number zero |
| PolySpec.WindingRightTelescopes | belgika/planar/cpolygon.c:901-923 | right of every vertex each crossing counts, so the partial winding sum is the change in the above-flag since the last vertex |
| PolySpec.WindingRightOfAll | belgika/planar/cpolygon.c:901-923 | a point on or right of every vertex has winding number zero |
| PolySpec.OutsideBoxWindsZero | belgika/planar/cpolygon.c:1064-1076 | outside a box that encloses the vertices the winding number is zero, so the bounding-box shortcut before the winding test never changes the answer |
| PolySpec.Translate | belgika/planar/polygon.py:228-232 | moving every vertex by t, keeping the count and order |
| PolySpec.WindingTranslate | belgika/planar/cpolygon.c:901-923 | moving polygon and point together keeps the winding number |
| PolySpec.UnitSquareWinding | belgika/planar/cpolygon.c:901-923 | the unit square winds once (as -1 in this count) around its center and zero times around (2, 0.5) |
| PolySpec.TriangleCentroid | belgika/planar/cpolygon.c:652-668 | the fan centroid of a triangle with area is the mean of its three vertices |
| PolySpec.FanSumsTranslate | belgika/planar/cpolygon.c:658-666 | moving the polygon leaves the fan areas alone and adds three times the move, weighted by the area, to the weighted sums |
| PolySpec.FanCentroidTranslate | belgika/planar/cpolygon.c:652-668 | the centroid moves with the polygon, and a zero-area polygon stays a division by zero when moved |
| PolySpec.Triples | belgika/planar/cpolygon.c:322-334 | one triple per vertex: the previous vertex, the vertex and the next one |
| PolySpec.FlippedTriples | belgika/planar/cpolygon.c:337-349 | the triples read in the opposite winding, next vertex first |
| PolySpec.RotateMultiset | belgika/planar/cpolygon.c:352-426 | starting the vertex ring elsewhere keeps its multiset |
| PolySpec.ReverseMultiset | belgika/planar/cpolygon.c:352-426 | reversing the vertex list keeps its multiset |
| PolySpec.TriplesRotate | belgika/planar/cpolygon.c:322-334 | the triples of the rotated polygon are its triples rotated the same way |
| PolySpec.FlippedTriplesReverse | belgika/planar/cpolygon.c:337-349 | the flipped triples of the reversed polygon are its triples in reverse order |
| PolySpec.SameShapeRotate | belgika/planar/cpolygon.c:352-426 | polygon equality does not depend on which vertex comes first |
| PolySpec.SameShapeReverse | belgika/planar/cpolygon.c:352-426 | polygon equality does not depend on the winding direction |
| PolySpec.TangentsPrefix | belgika/planar/cpolygon.c:877-894 | the non-convex tangent scan: each of the two tangents it returns is always one of the polygon's vertices |
| PolySpec.TangentsAreTurns | belgika/planar/cpolygon.c:878-893 | a right tangent other than vertex 0 is a vertex where pt passes from the right of the incoming edge to the left of the outgoing one, and a left tangent other than vertex 0 one where it passes the other way |
| Classify.DirAsWrittenUpward | belgika/planar/cpolygon.c:489-490 | the C direction code gives a vertical edge heading to larger y the code 1 instead of -1, and agrees with the intended code on every other edge |
| Classify.FirstNonZero | belgika/planar/cpolygon.c:477-480 | the search for a previous edge stops at the first non-zero edge at or after its start, or at the end when there is none |
| Classify.NonZeroEdges | belgika/planar/polygon.py:251-252 | the scan sees only the non-zero edge vectors, in order |
| Classify.PyEdges | belgika/planar/polygon.py:228-232 | _classify walks one edge per vertex, vertex i minus vertex i - 1 |
| Classify.LastTurn | belgika/planar/cpolygon.c:493-498 | the latest non-zero turn is zero exactly when every turn so far was straight, and is otherwise one of those turns |
| Classify.AgreeStep | belgika/planar/cpolygon.c:494-497 | comparing each turn with the latest non-zero one keeps every pair of turns of one sign, and a turn that disagrees breaks that |
| Classify.RunTracks | belgika/planar/cpolygon.c:485-503 | started on the last edge of a closed chain of non-zero edges, the loop variables hold the reversal count, the edge count and the latest turns of the edges seen, and the loop runs exactly while the turns agree and the reversals stay at most two |
| Classify.RunSkipsZeros | belgika/planar/cpolygon.c:488-502 | zero edges change nothing in the scan |
| Classify.LastNonZeroIsLast | belgika/planar/cpolygon.c:477-480 | the last non-zero edge is the last of the non-zero edges, and zero when there is none |
| Classify.RunOverZeros | belgika/planar/cpolygon.c:485-503 | over edges that are all zero the scan stays at its start, so it counts nothing |
| Classify.ScanDecidesConvexity | belgika/planar/cpolygon.c:485-516 | started on the last non-zero edge, the scan calls the polygon convex exactly when its closed chain of non-zero edges turns one way and reverses its x direction at most twice, and then it has counted every non-zero edge |
| Classify.CScanConvex | belgika/planar/cpolygon.c:461-516 | the corrected Poly_classify scan decides convexity of the polygon's non-zero edge chain, and on a convex polygon counts every non-zero edge |
| Classify.PyScanConvex | belgika/planar/polygon.py:234-276 | the corrected _classify scan decides convexity of the non-zero edges it walks, and on a convex polygon counts every one |
| Classify.RunStopped | belgika/planar/cpolygon.c:485 | once the loop condition fails, later edges change nothing |
| Classify.RunPrefixStep | belgika/planar/cpolygon.c:485-503 | one more edge steps the scan from where the shorter list left it, if it is still running |
| Classify.CDartAsWritten | belgika/planar/cpolygon.c:469-485 | the dart (0,0), (2,-2), (0,2), (-2,-2), (0,0) is not convex, the scan as written calls it convex and the corrected scan does not |
| Classify.DartAsWrittenRun | belgika/planar/cpolygon.c:485-503 | from the dart's first edge the scan as written sees three turns of one sign and two reversals |
| Classify.DartCorrected | belgika/planar/cpolygon.c:485-516 | from the dart's last non-zero edge the scan meets the turn of the other sign and does not call it convex |
| Classify.CSquareAsWritten | belgika/planar/cpolygon.c:489-491 | the square (1,1), (0,1), (0,0), (1,0) is convex, the C direction code makes the scan count three reversals and call it not convex, and the corrected code counts two |
| Classify.SquareRun | belgika/planar/cpolygon.c:485-504 | the square's scan is convex exactly with the corrected direction code |
| Classify.PyDartAsWritten | belgika/planar/polygon.py:245-276 | the dart (2,-2), (0,2), (-2,-2), (0,0), (0,0) is not convex, _classify as written calls it convex because its previous edge is zero, and the corrected scan does not |
| Classify.PyDartRun | belgika/planar/polygon.py:245-272 | from a zero previous edge the Python scan finds no turn of the other sign in the dart |
| CPolygon.InitialFlagsConvex | belgika/planar/cpolygon.c:46-52 | a triangle or a polygon declared convex starts known convex and simple; otherwise convexity is unknown and simplicity is known exactly when it was declared; no centroid or radius is cached |
| CPolygon.ClassifiedFlagsSay | belgika/planar/cpolygon.c:504-522 | classification sets convexity from the scan, sets degeneracy to no counted edge or a zero last turn, and a convex verdict also sets simple and records duplicate vertices as fewer counted edges than vertices; other bits stay |
| CPolygon.CopyForward | belgika/planar/cpolygon.c:966-969 | a forward copy loop puts src[lo .. hi) at buf[p ..) in order and changes no other slot |
| CPolygon.CopyBackward | belgika/planar/cpolygon.c:970-977 | a backward copy loop puts src[hi - 1] down to src[lo] at buf[p ..) and changes no other slot |
| CPolygon.LayOutRising | belgika/planar/cpolygon.c:958-977 | with the lowest vertex before the highest, the three copy loops lay both polylines out at their offsets |
| CPolygon.LayOutFalling | belgika/planar/cpolygon.c:978-997 | with the lowest vertex at or after the highest, the three copy loops lay both polylines out at their offsets |
| CPolygon.LayOutPolylines | belgika/planar/cpolygon.c:958-998 | the buffer holds the left polyline then the right one, whichever of the two runs is left |
| CPolygon.NewPolylines | belgika/planar/cpolygon.c:931-998 | the fresh buffer of size + 2 vertices holds the left y-monotone chain then the right one, with rt where the right one starts |
| CPolygon.CompareTriple | belgika/planar/cpolygon.c:322-334 | the triple comparator answers -1, 0 or 1 |
| CPolygon.CompareTripleOrder | belgika/planar/cpolygon.c:322-334 | the triple comparator is zero exactly on equal triples and antisymmetric |
| CPolygon.CompareTripleTransitive | belgika/planar/cpolygon.c:322-334 | the triple comparator is transitive, so it is a total order fit for qsort |
| CPolygon.SortedFirstLeast | belgika/planar/cpolygon.c:395-396 | a list sorted by the triple order starts with a least triple |
| CPolygon.SortedSameFirst | belgika/planar/cpolygon.c:395-396 | two sorted lists of the same triples start with the same triple |
| CPolygon.TailMultiset | belgika/planar/cpolygon.c:395-405 | lists with the same elements and the same first element have the same rest |
| CPolygon.SortedTail | belgika/planar/cpolygon.c:395-396 | the rest of a sorted list is sorted |
| CPolygon.SortedUnique | belgika/planar/cpolygon.c:395-405 | two sorted lists of the same triples are the same list, so comparing them slot by slot decides whether the triples are the same |
| CPolygon.FlipAll | belgika/planar/cpolygon.c:415-422 | every triple of the list read the other way round, in place |
| CPolygon.FlipAllCount | belgika/planar/cpolygon.c:412-422 | a triple occurs in the flipped list as often as its flip occurs in the list |
| CPolygon.FlipAllMultiset | belgika/planar/cpolygon.c:412-422 | lists with the same triples have flipped lists with the same triples |
| CPolygon.FlipAllSorted | belgika/planar/cpolygon.c:337-349 | a list sorted by compare_vec_triples_reverse, each triple read the other way round, is sorted by compare_vec_triples |
| CPolygon.FastLoopAsWritten | belgika/planar/cpolygon.c:369-375 | the first loop as written stops at the first slot of a whose vertex differs from b's first vertex, and otherwise reads past the buffer |
| CPolygon.FastLoopNeverConfirms | belgika/planar/cpolygon.c:369-378 | the loop as written never reports the vertex lists identical: it stops at a mismatch or, for two all-zero triangles, runs past the buffer |
| CPolygon.CopyOfBuffer | belgika/planar/cpolygon.c:108-119 | the memcpy of a cached split is a fresh buffer with the same points, and there is none when none is cached |
| CPolygon.FlatHexagonConvex | belgika/planar/cpolygon.c:485-516 | six collinear vertices have only zero turns and two reversals, so the scan calls them convex |
| CPolygon.FlatHexagonAsWritten | belgika/planar/cpolygon.c:1012-1025 | the flat hexagon is convex with more than five vertices, so the y-monotone test takes it, and its left polyline is one vertex at the test height, so SIDE(lo - 1, lo, pt) reads before the buffer |
| CPolygon.FlatHexagonExtremes | belgika/planar/cpolygon.c:936-957 | the lowest and highest vertex of the flat hexagon are both vertex 0, the leftmost 0 and the rightmost 5 |
| CPolygon.OneVertexChainOutside | belgika/planar/cpolygon.c:1002-1040 | a polygon whose left polyline is one vertex winds zero around every point, so answering outside agrees with the winding test |
| CPolygon.Polygon.Verts | belgika/planar/planar.h:552-557 | the vertices are the size slots after the first padding slot |
| CPolygon.Polygon.Alloc | belgika/planar/planar.h:542-560 | a new polygon has size + 2 zeroed slots, no flags and nothing cached |
| CPolygon.Polygon.PolyNew | belgika/planar/planar.h:542-560 | fewer than three vertices is a ValueError, and otherwise a fresh zeroed polygon of that size |
| CPolygon.Polygon.New | belgika/planar/cpolygon.c:17-76 | fewer than three points is a ValueError; one that is not a vector a TypeError; otherwise the polygon holds exactly the points, with the flags of InitialFlags and nothing cached |
| CPolygon.Polygon.GetItem | belgika/planar/cpolygon.c:717-725 | the vertex at an index in [0, size), and IndexError outside it |
| CPolygon.Polygon.ClearCachedProperties | belgika/planar/cpolygon.c:728-738 | every flag off and the bounding box and the split dropped; the vertices stay |
| CPolygon.Polygon.SetItem | belgika/planar/cpolygon.c:741-762 | outside [0, size) IndexError, a value that is not a vector TypeError, and then nothing changes; otherwise that one vertex is replaced and every cached property cleared |
| CPolygon.Polygon.DupFirst | belgika/planar/cpolygon.c:310-313 | the slot after the last vertex gets a copy of the first, and the vertices stay |
| CPolygon.Polygon.DupLast | belgika/planar/cpolygon.c:315-318 | the slot before the first vertex gets a copy of the last, and the vertices stay |
| CPolygon.Polygon.ScanEdges | belgika/planar/cpolygon.c:469-503 | the loop over the buffer computes exactly the corrected scan of the polygon's edges |
| CPolygon.Polygon.Classify | belgika/planar/cpolygon.c:461-523 | the flags afterwards are those the scan's verdict sets, and the vertices and the caches stay |
| CPolygon.Polygon.CheckIsSimple | belgika/planar/cpolygon.c:527-587 | simplicity becomes known, and is true exactly when no two non-adjacent edges intersect |
| CPolygon.Polygon.GetIsConvex | belgika/planar/cpolygon.c:594-606 | the cached convexity, or the scan's verdict when it was unknown, and it is cached afterwards |
| CPolygon.Polygon.GetIsSimple | belgika/planar/cpolygon.c:615-628 | the cached simplicity; else true when a classification run finds it convex; else whether no two non-adjacent edges intersect; cached afterwards |
| CPolygon.Polygon.FanSumsOfData | belgika/planar/cpolygon.c:654-666 | the fan loop computes the area-weighted vertex sums and the doubled total area of the fan from vertex 0 |
| CPolygon.Polygon.SettleSimple | belgika/planar/cpolygon.c:642-651 | afterwards convexity and simplicity are known, and simplicity is what the centroid getter goes by |
| CPolygon.Polygon.FanCentroidOfData | belgika/planar/cpolygon.c:653-668 | the buffer loop computes exactly the fan centroid, a division by zero for a zero-area fan |
| CPolygon.Polygon.GetCentroid | belgika/planar/cpolygon.c:636-678 | a simple polygon's fan centroid; None for one that is not simple; ZeroDivisionError for a simple one of zero area |
| CPolygon.Polygon.GetBBox | belgika/planar/cpolygon.c:681-690 | the cached box, computed the first time, encloses every vertex and stays the same afterwards |
| CPolygon.Polygon.WindingTest | belgika/planar/cpolygon.c:901-923 | the point is inside exactly when the winding number is not zero |
| CPolygon.Polygon.ExtremesOfData | belgika/planar/cpolygon.c:936-957 | the scan finds the first lowest, highest, leftmost and rightmost vertex |
| CPolygon.Polygon.SplitYPolylines | belgika/planar/cpolygon.c:925-1000 | the cached buffer holds the left y-monotone chain then the right one, each from the lowest vertex to the highest |
| CPolygon.Polygon.MonotoneTest | belgika/planar/cpolygon.c:1002-1040 | the answer is the one the two binary searches give on the chains, with a one-vertex left chain answered outside |
| CPolygon.Polygon.ContainsPoint | belgika/planar/cpolygon.c:1043-1085 | the radius shortcuts answer first when cached; whenever they do not decide (caches unknown, or the distance between the two radii), a convex polygon of more than five vertices takes the y-monotone test, and every other polygon answers whether its winding number is non-zero, the box test before it never changing that |
| CPolygon.Polygon.IdenticalVerts | belgika/planar/cpolygon.c:369-375 | the loop with both cursors advancing answers whether the vertex lists are identical |
| CPolygon.Polygon.SameTriples | belgika/planar/cpolygon.c:397-422 | the slot-by-slot loop answers whether the sorted lists are equal, the second flipped for the reverse winding |
| CPolygon.Polygon.Equals | belgika/planar/cpolygon.c:352-425 | two polygons are equal exactly when they have the same size and the same vertex list, or the same triples in the same or the opposite winding |
| CPolygon.Polygon.Copy | belgika/planar/cpolygon.c:91-126 | a fresh polygon with the same vertices, flags, centroid and radii, and a fresh copy of a cached split; the box is not carried over |
| CPolygon.Polygon.HullOfPolygon | belgika/planar/cpolygon.c:1327-1331 | a polygon flagged convex is copied; any other is replaced by a convex-flagged hull of at least three of its own vertices |
| CPolygon.Polygon.HullOfPoints | belgika/planar/cpolygon.c:1319-1356 | fewer than three points is a ValueError; otherwise a fresh polygon flagged convex and simple whose vertices are at least three and at most as many as the points, each one of them |
| CPolygon.BoxToPolygon | belgika/planar/cbox.c:486-506 | a fresh polygon on the box's four corners from the minimum, up the left side first, flagged convex and simple |
| Sweep.SweepFromSound | belgika/planar/cpolygon.c:558-576 | whatever the C sweep reports as an intersection is one: a polygon it rejects has two non-adjacent edges that intersect |
| Sweep.SweepAsWrittenSound | belgika/planar/cpolygon.c:527-586 | Poly_check_is_simple as written never calls a simple polygon non-simple |
| Sweep.CheckIsSimpleAsWritten | belgika/planar/cpolygon.c:549-577 | the pointer loops over the open buffer compute exactly the one-event sweep, and a false answer means two non-adjacent edges intersect |
| Sweep.CloseAndTest | belgika/planar/cpolygon.c:559-574 | the inner loop either meets a crossing, or removes the open segments the point ends and leaves the rest for the point's own segment |
| Sweep.SweepAsWrittenMissesCrossing | belgika/planar/cpolygon.c:558-577 | the pentagon (4,0), (0,0), (1,-1), (2,1), (3,-3) has crossing edges, yet in its only sorted order each point closes the one open segment before testing, and the C sweep calls it simple |
| Sweep.CheckIsSimple | belgika/planar/cpolygon.c:527-586 | the corrected check answers simple exactly when no two non-adjacent edges intersect |
| Sweep.PyEvents | belgika/planar/polygon.py:377-378 | two sweep points per edge, one from each end, with the edge's index |
| Sweep.SortedEventsAreEdges | belgika/planar/polygon.py:377-379 | every sorted event is one of the edges, from one end or the other |
| Sweep.EventsCross | belgika/planar/polygon.py:386-391 | two intersecting events whose indices are not neighbours are two non-adjacent edges that intersect |
| Sweep.PyCheckIsSimple | belgika/planar/polygon.py:364-397 | _check_is_simple answers false only for a polygon two of whose non-adjacent edges intersect |
| CHull.PartitionPointCulled | belgika/planar/cpolygon.c:1188-1196 | the partition point has both barycentric coordinates zero, so it is never put in either set |
| CHull.EqualEndsNoArea | belgika/planar/cpolygon.c:1181-1185 | between two equal end points the triangle has no area, so everything is culled |
| CHull.Furthest | belgika/planar/cpolygon.c:1150-1166 | the partition point is the first point of greatest SIDE from the line p0 -> p1, or the first point when none is above -1 |
| CHull.SplitByTriangle | belgika/planar/cpolygon.c:1172-1209 | with a triangle of area, the points of negative v end up at the front, those of negative u only at the back, and at least one point (the partition point) is culled between them; without area everything is culled; the points stay points of the set and nothing outside the range moves |
| CHull.Partition | belgika/planar/cpolygon.c:1147-1248 | the hull receives p0 first, then at least one more point, at most one point per point of the set, each from the set; with p0 == p1 it receives p0 and the partition point only; what was written before stays |
| CHull.Extremes | belgika/planar/cpolygon.c:1258-1267 | the first leftmost and the first rightmost point; they are the same point only when every point has one x |
| CHull.SplitSets | belgika/planar/cpolygon.c:1276-1286 | every point other than the leftmost and rightmost goes to the front when strictly left of the line between them and to the back otherwise |
| CHull.AdaptiveQuickHull | belgika/planar/cpolygon.c:1251-1316 | every hull point is an input point, the hull starts at a leftmost point and passes a rightmost one, and it fits one slot per point for three points or more; one point writes two slots and two points with one x write three, past the end of the buffer |
| CHull.ConvexHull | belgika/planar/cpolygon.c:1339-1343 | fewer than three points is a ValueError before any hull is written; otherwise at least three and at most as many points as the input, each an input point |
| YChains.ExtremesOf | belgika/planar/cpolygon.c:936-957 | the scan of the first k vertices keeps its four indices among those vertices |
| YChains.ExtremesOfBound | belgika/planar/cpolygon.c:936-957 | the scan finds a vertex of least y and a vertex of greatest y |
| YChains.PolylinesEnds | belgika/planar/cpolygon.c:958-998 | both polylines run from the lowest vertex to the highest, with the lengths the buffer offsets assume |
| YChains.CutPieces | belgika/planar/cpolygon.c:966-977 | cutting the ring at two vertices, the middle piece and the two outer ones hold every vertex, the two cut vertices twice |
| YChains.CutCoverUp | belgika/planar/cpolygon.c:966-977 | with the lowest vertex before the highest, the two polylines hold every vertex once and the two end vertices once more |
| YChains.CutCoverDown | belgika/planar/cpolygon.c:986-997 | with the lowest vertex at or after the highest, the two polylines hold every vertex once and the two end vertices once more |
| YChains.PolylinesCover | belgika/planar/cpolygon.c:958-998 | split at the lowest and highest vertex, the polylines share those two and nothing else |
| YChains.ChainsSpan | belgika/planar/cpolygon.c:931-998 | the left and right chains fill the size + 2 slots, both start at the lowest vertex and end at the highest, and hold every vertex once and the two ends once more |
| YChains.SingleVertexChainIsFlat | belgika/planar/cpolygon.c:958-998 | a polyline of one vertex happens only when every vertex has the same y |
| YChains.UpperBound | belgika/planar/cpolygon.c:1017-1024 | the bisection stops where every probe before it is not above pt's height and every one from it on is |
| YChains.BracketSplits | belgika/planar/cpolygon.c:1017-1024 | on a list ascending in y the stopping place splits it into the vertices not above the height and those above it |
| YChains.FirstAbove | belgika/planar/cpolygon.c:1017-1024 | the first index above the height, or the end, with nothing before it above |
| YChains.SearchFindsFirst | belgika/planar/cpolygon.c:1017-1038 | on an ascending list the bisection stops exactly where the linear scan does |
| YChains.ChainTestAsWritten | belgika/planar/cpolygon.c:1012-1039 | the read before the buffer happens exactly when the left polyline is one vertex and pt is at its height; a point below or above the left polyline is outside; on ascending polylines every other answer is ChainInside |
| YChains.ChainTest | belgika/planar/cpolygon.c:1002-1040 | the test with the one-vertex left polyline answered outside: a point below or above is outside, and on ascending polylines the answer is ChainInside |
| YChains.PyChainTest | belgika/planar/polygon.py:586-609 | the only error is IndexError, and on two ascending polylines with the same two end heights the answer is the one bisect_right gives on both, with a point at or below the bottom or above the top outside |
| PyHull.OutsideSides | belgika/planar/polygon.py:925-937 | with the partition point strictly left of p0 -> p1, a point sent to the left list is strictly left of p0 -> pp and one sent to the right list strictly left of pp -> p1, which is what the recursive partitions need |
| PyHull.PartitionPointOutsideNeither | belgika/planar/polygon.py:931-933 | the partition point itself goes to neither list |
| PyHull.FirstLeastX | belgika/planar/polygon.py:858-863 | the leftmost point is a point of the list with no smaller x anywhere in it |
| PyHull.FirstGreatestX | belgika/planar/polygon.py:858-863 | the rightmost point is a point of the list with no greater x anywhere in it |
| PyHull.FindExtremes | belgika/planar/polygon.py:858-863 | the scan from points[0], replacing the leftmost on a strictly smaller x and otherwise the rightmost on a strictly greater x, ends at the first point of least x and the first point of greatest x |
| PyHull.SplitSets | belgika/planar/polygon.py:864-879 | the upper set is exactly the points strictly left of leftmost -> rightmost and the lower set exactly the other points, both without the two extremes |
| PyHull.SetToList | belgika/planar/polygon.py:899-903 | iterating a set yields each of its elements exactly once, in an order left open |
| PyHull.Furthest | belgika/planar/polygon.py:894-904 | no partition point exactly when every point is at SIDE -1 or below; otherwise the partition point is the first point of the list whose SIDE from p0 -> p1 no other point exceeds: every earlier point has a smaller SIDE |
| PyHull.Outside | belgika/planar/polygon.py:910-937 | each list holds only points of the input, each of them in the barycentric region its side names, and is no longer than the input |
| PyHull.OutsideShorter | belgika/planar/polygon.py:931-937 | since the partition point is culled, each list is strictly shorter than the points partitioned |
| PyHull.SplitByTriangle | belgika/planar/polygon.py:910-937 | the loop puts in the left list exactly the points of negative v and in the right list exactly the others of negative u, in order |
| PyHull.NothingOutside | belgika/planar/polygon.py:919-923 | a triangle without area culls every point |
| PyHull.InsertByOrder | belgika/planar/polygon.py:974 | inserting a point adds exactly that point to the multiset of the list |
| PyHull.SortByOrder | belgika/planar/polygon.py:974 | the sort by line order is a permutation of the list |
| PyHull.InsertSorted | belgika/planar/polygon.py:974 | inserting into a list sorted by line order keeps it sorted |
| PyHull.SortByOrderSorted | belgika/planar/polygon.py:972-974 | the sorted list is ordered by line order |
| PyHull.PopNonRight | belgika/planar/polygon.py:980-987 | popping leaves a non-empty prefix of the stack that the new point extends with strict right turns at every vertex |
| PyHull.SortPoints | belgika/planar/polygon.py:968-990 | the chain starts at p0, takes its other points from the list, and followed by p1 turns strictly right at every vertex |
| PyHull.PartitionPoints | belgika/planar/polygon.py:891-966 | for a non-empty list of points on or left of p0 -> p1 the sub-hull has at least two points, starts at p0 and takes its other points from the list |
| PyHull.UpperHull | belgika/planar/polygon.py:880-884 | the first half starts at the leftmost point and takes its other points from the upper set; an empty upper set gives the leftmost point alone |
| PyHull.LowerHull | belgika/planar/polygon.py:885-888 | the second half starts at the rightmost point and takes its other points from the lower set; an empty lower set gives the rightmost point alone |
| PyHull.SinglePointSets | belgika/planar/polygon.py:858-879 | a single point is both extremes and leaves both sets empty |
| PyHull.AdaptiveQuickHull | belgika/planar/polygon.py:847-889 | an empty list is an IndexError and only an empty list fails; otherwise the hull starts at the leftmost point, passes the rightmost one after it, takes every point from the input, and one point gives that point twice |
| PyPolygon.ScanEdgeVectors | belgika/planar/polygon.py:240-272 | the loop over the non-zero edge vectors, started from the last non-zero edge and stopped at the first disagreeing turn, ends in the scan state the edge-list specification gives |
| PyPolygon.ScanExtremes | belgika/planar/polygon.py:287-302 | the loop finds the first lowest, highest, leftmost and rightmost vertex indices the extremes specification gives |
| PyPolygon.ExtremesStrict | belgika/planar/polygon.py:287-302 | an extreme index other than 0 was reached by a strict improvement on vertex 0 |
| PyPolygon.ExtremesOrder | belgika/planar/polygon.py:287-302 | the lowest and the highest vertex differ in y unless they are the same vertex |
| PyPolygon.MakeUpward | belgika/planar/polygon.py:319-322 | the reversal keeps the vertices of the polyline and leaves it running upwards |
| PyPolygon.UpwardRising | belgika/planar/polygon.py:305-322 | with the lowest vertex first, the two slices made upward are the polylines of the C split |
| PyPolygon.UpwardFalling | belgika/planar/polygon.py:312-322 | with the highest vertex first, the two slices made upward are the polylines of the C split |
| PyPolygon.RisingPolylines | belgika/planar/polygon.py:305-311 | the slices and the left choice when the lowest vertex comes first match the C split |
| PyPolygon.FallingPolylines | belgika/planar/polygon.py:312-318 | the slices and the left choice when the highest vertex comes first match the C split |
| PyPolygon.SplitPolylines | belgika/planar/polygon.py:283-322 | the left and right polylines are the left and right y-monotone chains, the same as split_y_polylines in C computes |
| PyPolygon.SumFan | belgika/planar/polygon.py:415-425 | the loop accumulates exactly the fan sums of the vertex-weighted doubled areas from self[0] |
| PyPolygon.PyTriples | belgika/planar/polygon.py:465-470 | the trigram at index i is vertex i - 1 with its two neighbours, one per vertex |
| PyPolygon.PyFlippedTriples | belgika/planar/polygon.py:490-491 | the reversed trigram at index i is that triple with its ends swapped, one per vertex |
| PyPolygon.Back | belgika/planar/polygon.py:465-470 | the list started at its last element, index i holding element i - 1 round |
| PyPolygon.BackMultiset | belgika/planar/polygon.py:465-470 | starting one element earlier keeps the multiset |
| PyPolygon.PyTriplesMultiset | belgika/planar/polygon.py:465-470 | the trigrams are the same multiset as the vertex triples the C comparison sorts |
| PyPolygon.PyFlippedTriplesMultiset | belgika/planar/polygon.py:490-491 | the reversed trigrams are the same multiset as the flipped vertex triples |
| PyPolygon.TagsMember | belgika/planar/polygon.py:465-470 | a trigram carries tag k in the tagged set exactly when it occurs more than k times |
| PyPolygon.TagsEqual | belgika/planar/polygon.py:463-500 | two tagged sets are equal exactly when the lists hold the same trigrams equally often |
| PyPolygon.TagMissing | belgika/planar/polygon.py:479-483 | a tagged trigram of the other polygon missing from self's set proves that the trigram counts differ |
| PyPolygon.TagNext | belgika/planar/polygon.py:466-470 | tagging the next trigram adds it to the tagged set of the prefix with its count so far |
| PyPolygon.FirstFreeTag | belgika/planar/polygon.py:467-469 | the tag loop stops at the number of earlier occurrences of the trigram |
| PyPolygon.TrigramList | belgika/planar/polygon.py:474-491 | one trigram per vertex, forward or reversed |
| PyPolygon.PyTrigram | belgika/planar/polygon.py:465-491 | the trigram built from self[i - 2], self[i - 1] and self[i] is the i-th of the trigram list, forward or reversed |
| PyPolygon.TagTrigrams | belgika/planar/polygon.py:463-470 | the first loop builds exactly the tagged set of self's trigrams |
| PyPolygon.TagTrigramsWithin | belgika/planar/polygon.py:472-499 | a completed loop builds exactly the tagged set of the other polygon's trigrams; an early stop means the trigram multisets differ |
| PyPolygon.ClassifyValues | belgika/planar/polygon.py:234-281 | convexity from the scan, simple only when convex, degeneracy from the scan, and for a convex nondegenerate polygon the duplicate flag and the y-monotone chains; otherwise the old duplicate and polyline caches stay |
| PyPolygon.Polygon.FromPoints | belgika/planar/polygon.py:176-180 | the vertices are the points and every cache is cleared, which for three or more points is a valid polygon |
| PyPolygon.Polygon.New | belgika/planar/polygon.py:78-89 | fewer than three vertices is a ValueError and only that fails; a triangle is convex and simple whatever is given; a given convexity is taken for a larger polygon, true making it simple and splitting its polylines; a given simplicity is taken while still unknown |
| PyPolygon.Polygon.ClearCachedProperties | belgika/planar/polygon.py:182-198 | the vertices stay; a triangle becomes convex and simple, a larger polygon unknown in both, and every other cache unknown |
| PyPolygon.Polygon.SetItem | belgika/planar/polygon.py:439-441 | an index outside -n .. n - 1 is an IndexError that changes nothing; otherwise that vertex, counted from the end when negative, is replaced and every cache cleared, keeping the polygon valid |
| PyPolygon.Polygon.BoundingBox | belgika/planar/polygon.py:200-205 | the box is the tight box of the vertices, encloses them, is cached, and nothing else changes |
| PyPolygon.Polygon.SplitYPolylines | belgika/planar/polygon.py:283-322 | the cached pair becomes the left and right y-monotone chains and nothing else changes |
| PyPolygon.Polygon.Classify | belgika/planar/polygon.py:234-281 | the caches become what classification stores, the polygon stays valid, so after it convex implies simple |
| PyPolygon.Polygon.ConvexProperty | belgika/planar/polygon.py:207-216 | a known convexity is returned without change; otherwise the scan decides it and it is cached |
| PyPolygon.Polygon.CheckIsSimple | belgika/planar/polygon.py:364-397 | the verdict is cached, and a polygon reported not simple has two non-adjacent edges that intersect |
| PyPolygon.Polygon.SimpleProperty | belgika/planar/polygon.py:324-339 | a known simplicity is returned without change; a polygon found convex is simple; a polygon reported not simple has two non-adjacent intersecting edges |
| PyPolygon.Polygon.CentroidProperty | belgika/planar/polygon.py:399-429 | a known centroid is returned unchanged; otherwise the centroid is None exactly when the polygon is not simple, otherwise the fan centroid, or ZeroDivisionError when the area is zero; what is returned is what is cached |
| PyPolygon.Polygon.Equals | belgika/planar/polygon.py:443-500 | equal exactly when the two vertex lists have the same length and the same shape, the vertex triples of one being those of the other, possibly with the winding reversed, so invariant under a rotated start and reversed winding |
| PyPolygon.Polygon.WindingTest | belgika/planar/polygon.py:549-584 | the point is inside exactly when the signed count of crossing edges, the winding number, is not zero |
| PyPolygon.Polygon.MonotoneTest | belgika/planar/polygon.py:586-609 | without split polylines unpacking fails with TypeError, and only then; with ascending polylines the result is the chain bracketing test on the left and right chains |
| PyPolygon.Polygon.PtTangents | belgika/planar/polygon.py:695-720 | the pair is the one the tangent specification over the vertex list gives, starting from self[0] |
| PyPolygon.Polygon.ConvexHullOfPoints | belgika/planar/polygon.py:823-844 | an empty list is an IndexError and a single point a ValueError; otherwise the hull is a valid polygon known convex whose vertices are input points, starting from the first point of least x |
| PyPolygon.Polygon.ConvexHullOfPolygon | belgika/planar/polygon.py:839-844 | a polygon known convex gives a fresh copy with the same vertices and caches; any other the convex hull of its vertices, and a hull is always known convex |
| PyPolygon.Polygon.Copy | belgika/planar/polygon.py:526-539 | a fresh polygon with the same vertices and every cache copied over |
| PyPolygon.Polygon.DeepCopy | belgika/planar/polygon.py:541-545 | the copy with the polylines and the box unknown and every other cache kept |
| PyPolygon.BoxToPolygon | belgika/planar/box.py:213-222 | a valid polygon of the four corners from the minimum, up the left side first, known convex and simple |

## Left out

- Floating point: coordinates are exact reals, so rounding is not modelled. `EPSILON`, `FLT` comparisons and `DBL_MAX` become exact comparisons and exact bounds. NaN and infinity are not modelled.
- A zero-area centroid is modelled as `Err(ZeroDivisionError)` with nothing cached. Python raises `ZeroDivisionError` there. C divides and caches NaN or infinity, which the model does not represent.
- Memory failure is not modelled: `malloc`, `realloc` and `PyMem_Malloc` returning NULL, and every `MemoryError` path. That includes the copy in `Poly_copy` at `cpolygon.c:111` that tests the new polygon instead of the new polyline buffer.
- Memory release is not modelled: that the sweep buffers of `Poly_check_is_simple` are freed on every exit, and the buffers of the y-monotone split and of the hull.
- CPython object plumbing is not modelled: reference counts, free-lists, argument parsing and `repr`.
- The adjustment of negative indices that CPython's sequence protocol makes before `Seq2_getitem`, `Seq2_assitem`, `Poly_getitem` and `Poly_assitem` run is not modelled: `CVector.Vec2Array.GetItem`, `CVector.Vec2Array.SetItem`, `CPolygon.Polygon.GetItem` and `CPolygon.Polygon.SetItem` take the index they are given. `Vec2Array` extend and the scalar vector operations are not modelled.
- The `regular` and `star` polygon constructors use trigonometry, so they are not modelled. They are what fills the radius caches (`min_r2`, `max_r2`). The C polygon keeps those caches as fields, and the radius shortcuts of `Poly_contains_point` are modelled over them, but no modelled operation fills them.
- The Python `_winding` attribute is set by `_classify` but never read, so it is not modelled.
- The qsort of the C sweep and the `list.sort` of the Python sweep are inputs: each sweep takes its sorted event order as a parameter, constrained by a predicate that it is sorted.
- Iterating a Python set may yield its elements in any order, and the model allows every such order.
- The binary-search tangents for large convex polygons (`_left_tan_i_convex`, `_right_tan_i_convex`, `polygon.py:734-800`, and their C counterparts) are not modelled, nor is the dispatch in `tangents_to_point` that chooses them. Only the general O(n) tangent scan is modelled.
- The Python `contains_point` dispatch and the cached barycentric triangle test `_pnp_triangle_test` are not modelled. The C `Poly_contains_point` dispatch is modelled, with the winding and y-monotone tests that the Python one also calls.
- The Python y-monotone polylines are lists of (y, x) tuples. Here they are vertex lists in chain order, reversed to run upward as `polygon.py` does, and the `(py,)` key that `bisect_right` searches with is modelled by comparing heights.
- `CPolygon.Polygon.CheckIsSimple`: the corrected check is the exhaustive test of all pairs of non-adjacent edges, and not a sweep; only the as-written C sweep is modelled as a sweep.
- `Sweep.PyCheckIsSimple`: only soundness is proved (a polygon reported not simple has two non-adjacent edges that cross). Completeness of the two-event sweep is not proved.
- `PyPolygon.Polygon.CheckIsSimple` and `PyPolygon.Polygon.SimpleProperty` inherit that one direction from `Sweep.PyCheckIsSimple`.
- `PyPolygon.Polygon.MonotoneTest`: the answer is related to the chain-bracketing test only when both polylines ascend in y. Otherwise only the possible errors are stated.
- `YChains.ChainTest`, `YChains.PyChainTest`, `CPolygon.Polygon.MonotoneTest` and `PyPolygon.Polygon.MonotoneTest`: the answer is tied to the chain-bracketing test `YChains.ChainInside` (and, for the Python test, to `bisect_right` on both polylines). No lemma relates it to the winding number, so agreement with `WindingNumber != 0` on convex polygons is not proved.
- `CPolygon.Polygon.ContainsPoint`: for a convex polygon of more than five vertices the answer is the y-monotone test. That this equals the winding-number answer the other polygons get is not proved.
- `PolySpec.TangentsPrefix`, `PolySpec.TangentsOf`, `PolySpec.TangentsAreTurns` and `PyPolygon.Polygon.PtTangents`: proved are that each tangent is a vertex, and that a tangent other than vertex 0 is a vertex where pt flips sides the matching way. That the tangents support the polygon is not proved, that is, that every vertex lies on one side of the line from pt for a pt outside a convex polygon.
- `PyHull.AdaptiveQuickHull`: proves the ends and the provenance of the hull points. It does not prove that the hull is convex or that it encloses every input point.
- `CHull.AdaptiveQuickHull` and `CHull.ConvexHull`: the same limits as `PyHull.AdaptiveQuickHull`, plus the sizes the buffer receives.
- `PyHull.PartitionPoints`: requires every point to lie on or left of p0 -> p1. Every call the source makes satisfies this.
- `PyHull.SortByOrder`: the stable `list.sort` is written as a stable insertion sort. Only the sorted order and the permutation are stated, not stability.
- The Python `_split_y_polylines` reverses the two lists in place after storing them as a pair, which the pair sees. Here the reversed lists are stored directly, so aliasing is not modelled.
- `Geometry.Intersects`: `Extent.intersects` widens a two-element argument into a four-element one in place, mutating the caller's array. The model computes on a copy.
- `Visible.Lister.Swap`: requires both indices in range. The JavaScript would otherwise write `undefined` elements past the end, which no caller in the source does.
- Everything in `lib/notifier.js` that is socket I/O is not modelled: `State.prototype.init` with its `close` and `data` handlers, `configure`, `sendChannel` and the channel packs. `eachUser` and `each` are outside the core.
- `token.js`, which is time-based, becomes the `tokenUser` function parameter of `Notifier.State.AuthUser` and `Notifier.State.Dispatch`.
- The route handlers around `paginate` and `getStep` are I/O: the request, the response and the database queries.
- The shell's command execution beyond the pipe split is not modelled: command lookup, the asynchronous stages and the terminal output.
- `Model.PathKey`, `Model.Model.Get`, `Model.Model.Has`, `Model.Model.Set` and `Model.SetPath`: property keys are own keys only, as a plain map. JavaScript's `in` and `obj[k]` also see what every object inherits from Object.prototype. So as written `has("toString")` is true, `get("constructor", d)` answers the `Object` function, and `set("__proto__.x", v)` writes into Object.prototype. None of these is modelled.
- `Model.LookupAfterSet`, `Model.GetAfterSet`, `Model.SetKeepsOtherPaths` and `Model.WalkDown` hold of the model. They hold of the source only for paths whose keys name no Object.prototype property, and only while no object is reachable from the properties along two paths (see the next line). As written, after `set("toString.x", v)` the walk of `toString.x` meets a function and answers the default. `set("__proto__.x", v)` changes the path `x` of every property object.
- `Model.Json` has no arrays, and numbers are integers: property values that are arrays, and fractional numbers, are not modelled.
- `Notifier.Value`: message values are strings, integers or undefined. Booleans, null, objects, arrays and fractional numbers are not modelled. An integer names the key its decimal string does, and stays distinct from that string as a channel id, as `===` keeps it.
- `Notifier.Listeners` and `Notifier.StateVec.EachChannel`: a channel type that names an Object.prototype property is taken as one with no subscribers but those of an own key. As written, `in` finds the inherited function, and `_.indexOf` on it is not modelled.
- `Geometry.Extent.constructor`: an extent built from a Geometry (`Geometry.js:99-101`) takes the extent that `getExtent` computes through the foreign `turf.bbox`, which is not modelled.
- `Model.Model.Set`: property values are trees of values, not shared objects. In the source `currentDict = currentDict[k]` writes through a reference. After `set("a", o); set("b", o); set("a.x", 1)`, the source also changes `b.x` and the caller's `o`, which the model cannot express. The `'set'` event that set emits and the `binder.update` it returns are not modelled either: they belong to the event emitter and to `Bind`, which are not part of this model.
- `Text.NextStep`, `Text.TextCursor.Next` and `Text.TextCursor.Rewind`: a character is a Unicode scalar value, while a JavaScript string is indexed by UTF-16 code units. For a character outside the Basic Multilingual Plane, such as an emoji, `par.length` counts 2 and `next` hands out its two surrogate halves over two calls. The model hands it out whole and counts it 1, and it cannot represent a lone surrogate. The shell tokenizer matches only ASCII delimiters, so its tokens are unaffected.

## Findings

| source | as written | input that shows it | evidently intended | confidence | as-written member | corrected member |
|---|---|---|---|---|---|---|
| app/lib/commands/group/visible.js:60-66 | moving the last element up builds the new list from the last element and then only the first length - 2 others, leaving a hole at the end | up("b") on ["a", "b"] gives ["b", undefined] | the last element moves to the front and the other elements follow it in order | not executed | Visible.WrapAsWrittenDropsElement | Visible.Lister.Up |
| app/src/Text.js:45-54 | rewinding from the start of a paragraph sets i to the previous paragraph's length - 1, which is -1 when that paragraph is empty | paragraphs "a", "", "b" at paragraph 2, character 0 rewinds to (1, -1) | the cursor lands on a position inside the text, (1, 0) for an empty paragraph | not executed | Text.RewindAsWrittenLeavesText | Text.TextCursor.Rewind |
| lib/notifier.js:86-96 | the `in` test on the handler object literal also finds the properties it inherits, so a message named after one is applied as a handler | a message whose name is "__proto__" makes dispatch call a non-function and throw TypeError | only the handlers auth and sub run, and any other name is ignored | not executed | Notifier.ProtoMessageThrows | Notifier.State.Dispatch |
| belgika/planar/cvector.c:1491-1494 | when a slice assignment grows the array, the tail is moved after the resize, with a count taken from the new size, so it moves d elements too many | three vectors in four slots, one vector assigned to the empty slice at 0: the move reaches slot 4 of a four-slot buffer | move the old tail, old size - ihigh elements | not executed | CVector.AssignSliceAsWrittenOverruns | CVector.TailMoveFits |
| belgika/planar/cpolygon.c:469-485 | the scan starts from the closing edge between the last and the first vertex, which is zero when the first vertex is repeated at the end, so the turn onto the first edge is never checked | the dart (0,0), (2,-2), (0,2), (-2,-2), (0,0) is classified convex | the scan starts from the last non-zero edge, so the dart is not convex | not executed | Classify.CDartAsWritten | Classify.CScanConvex |
| belgika/planar/cpolygon.c:489-491 | the x-direction code combines its cases with bit operations, so every vertical edge gets the code 1 and a square's vertical edges count as a reversal | the square (1,1), (0,1), (0,0), (1,0) is classified not convex | code the direction as the ternary chain of polygon.py does, so the square is convex | not executed | Classify.CSquareAsWritten | Classify.CScanConvex |
| belgika/planar/polygon.py:245-272 | the first delta is self[-1] - self[-2], which is zero when the last vertex is repeated, so the turn from the last edge onto the first is never checked | the dart (2,-2), (0,2), (-2,-2), (0,0), (0,0) is classified convex | start from the last non-zero edge, so the dart is not convex | not executed | Classify.PyDartAsWritten | Classify.PyScanConvex |
| belgika/planar/cpolygon.c:549-577 | the sweep has one event per edge, at its first vertex in sorted order, and each event closes every open edge that ends at that vertex before it tests, so some crossing pairs are never checked | the pentagon (4,0), (0,0), (1,-1), (2,1), (3,-3) is reported simple, though edges 0 and 2 cross | report any crossing of non-adjacent edges, as the two-event sweep of polygon.py does | not executed | Sweep.SweepAsWrittenMissesCrossing | Sweep.CheckIsSimple |
| belgika/planar/cpolygon.c:1269-1303 | the hull buffer has one slot per input point, but one point writes two hull points and two points with the same x write three | Polygon.convex_hull(Vec2Array([p])) of a single point writes past the buffer (a list argument is refused by call_from_points first, cpolygon.c:1332-1334) | fewer than three points fail before anything is written | not executed | CHull.AdaptiveQuickHull | CHull.ConvexHull |
| belgika/planar/cpolygon.c:369-375 | the loop that checks for identical vertex lists advances its end pointer along with a_vert and never advances b_vert | two equal all-zero triangles run the loop off the buffer instead of being found identical | step a_vert and b_vert together up to a fixed end | not executed | CPolygon.FastLoopNeverConfirms | CPolygon.Polygon.IdenticalVerts |
| belgika/planar/cpolygon.c:1012-1025 | when the left polyline is one vertex and the point is at its height, the search stops at the first slot and SIDE reads the slot before the polyline | the flat hexagon (0,0), (1,0) ... (5,0) is classified convex, has more than five vertices, and its left polyline is the single vertex (0,0) | a point outside the y range of the edges is outside | not executed | YChains.ChainTestAsWritten | YChains.ChainTest |
| lib/notifier.js:21-27 | `type in state.channels` also finds what the channel map inherits, so no list is created for such a type and `.push` is called on an inherited function | the message ["sub", "toString", "x"] throws TypeError in subscribe | any string names a channel type of its own | not executed | Notifier.SubToStringThrows | Notifier.State.Subscribe |
