# RinSim: dynamic speed shockwaves and the DOT graph serializer, in Dafny

This project models two parts of RinSim, a Java logistics simulator.

**Dynamic speeds** (`DynamicSpeeds.java`). The builder of a dynamic speed generator holds a set of stochastic suppliers. The generator's `generate` simulates traffic shockwaves over the road graph:

- Each shockwave starts at an origin connection.
- It expands upstream, one connection per step.
- It slows each connection it reaches with a `ChangeConnectionSpeedEvent` and restores the speed once the receding front passes.
- The queue of pending steps is drained breadth first.
- An expansion map stops a shockwave from slowing the same connection twice.

The model has three modules:

- `ShockwaveSpec` (`shockwave_spec.dfy`) states what one step, one drained queue, one shockwave and the whole `generate` do, as pure functions.
- `DynamicSpeeds` (`dynamic_speeds.dfy`) holds the builder and the generator as classes. Their methods change the generator's fields in place and are proved to compute what the `ShockwaveSpec` functions describe.
- `ShockwaveProperties` (`shockwave_properties.dfy`) proves properties of the traversal:
  - the stop test;
  - the events of an expanding step;
  - the cycle guard;
  - branching;
  - a bound on the number of events, which also shows the simulation terminates.

Randomness is a stream of numbers `rng: nat -> int` and a counter of the numbers drawn. A stochastic supplier is a function of the number it draws. The draws happen in the order Java makes them.

**DOT serializer** (`DotGraphSerializer.java`). `read` turns the lines of a Graphviz DOT file into a node map and a list of connections. `write` numbers the points and builds the DOT text.

- `JavaText` (`java_text.dfy`) spells out the `String` operations the reader relies on: `indexOf`, `contains`, `split` around a literal separator, and `trim`.
- `DotGraph` (`dot_graph.dfy`) models the serializer as a class:
  - its `read` loop is proved equal to a line-by-line fold;
  - its `write` loops are proved to build the document described by `Document`.
- `DotProperties` (`dot_properties.dfy`) proves what the reader and the writer guarantee, against reference definitions.
- `DotLines` (`dot_lines.dfy`) proves what `read` makes of each line `write` emits: a node line gives back the node's name and its written position, an edge line the two names and the label.

`common.dfy` holds `Option`, `Result` and `Point`.

## Model

DS stands for `scenario-util/src/main/java/com/github/rinde/rinsim/scenario/generator/DynamicSpeeds.java` in the text; the table cells give the full path.

| member | source | states |
|---|---|---|
| DynamicSpeeds.Constant | scenario-util/src/main/java/com/github/rinde/rinsim/scenario/generator/DynamicSpeeds.java:82-83 | a constant stochastic supplier returns its value whatever number it draws |
| DynamicSpeeds.DefaultBehaviour | scenario-util/src/main/java/com/github/rinde/rinsim/scenario/generator/DynamicSpeeds.java:85-92 | the default behaviour factor lies in [0, 1]; it is exactly 1 from 5 km on and exactly 0 up to -1250 m; between 0 and 5 km it is 0.2 + 0.8·x/5000 |
| DynamicSpeeds.DefaultBehaviourMonotone | scenario-util/src/main/java/com/github/rinde/rinsim/scenario/generator/DynamicSpeeds.java:85-92 | the default behaviour never decreases with the distance from the origin |
| DynamicSpeeds.ZeroEventGenerate | scenario-util/src/main/java/com/github/rinde/rinsim/scenario/generator/DynamicSpeeds.java:130-137 | the zero-event generator returns no events, whatever its arguments |
| DynamicSpeeds.SilentIsZeroEvents | scenario-util/src/main/java/com/github/rinde/rinsim/scenario/generator/DynamicSpeeds.java:130-137 | a generator whose behaviour is always 1 or whose expanding speed is always 0 generates what the generator of `zeroEvents()` generates (no events), whenever it does not throw |
| DynamicSpeeds.Builder.constructor | scenario-util/src/main/java/com/github/rinde/rinsim/scenario/generator/DynamicSpeeds.java:189-199 | a fresh builder holds the defaults: 1 shockwave, a random start connection, time 0, no graph, the default behaviour, 3 h event durations, a 1.5 h recede wait, 10 km/h fronts |
| DynamicSpeeds.Builder.NumberOfShockwaves | scenario-util/src/main/java/com/github/rinde/rinsim/scenario/generator/DynamicSpeeds.java:208-211 | sets the shockwave-count supplier and nothing else; returns the builder itself |
| DynamicSpeeds.Builder.StartConnections | scenario-util/src/main/java/com/github/rinde/rinsim/scenario/generator/DynamicSpeeds.java:220-224 | sets the start-connection supplier and nothing else; returns the builder itself |
| DynamicSpeeds.Builder.RandomStartConnections | scenario-util/src/main/java/com/github/rinde/rinsim/scenario/generator/DynamicSpeeds.java:231-234 | clears the start-connection supplier and nothing else; returns the builder itself |
| DynamicSpeeds.Builder.WithGraph | scenario-util/src/main/java/com/github/rinde/rinsim/scenario/generator/DynamicSpeeds.java:241-244 | sets the graph and nothing else; returns the builder itself |
| DynamicSpeeds.Builder.ShockwaveBehaviour | scenario-util/src/main/java/com/github/rinde/rinsim/scenario/generator/DynamicSpeeds.java:256-260 | sets the behaviour supplier and nothing else; returns the builder itself |
| DynamicSpeeds.Builder.ShockwaveExpandingSpeed | scenario-util/src/main/java/com/github/rinde/rinsim/scenario/generator/DynamicSpeeds.java:271-275 | sets the expanding-speed supplier and nothing else; returns the builder itself |
| DynamicSpeeds.Builder.ShockwaveRecedingSpeed | scenario-util/src/main/java/com/github/rinde/rinsim/scenario/generator/DynamicSpeeds.java:286-290 | sets the receding-speed supplier and nothing else; returns the builder itself |
| DynamicSpeeds.Builder.ShockwaveWaitForRecedeDurations | scenario-util/src/main/java/com/github/rinde/rinsim/scenario/generator/DynamicSpeeds.java:298-302 | sets the recede-wait supplier and nothing else; returns the builder itself |
| DynamicSpeeds.Builder.ShockwaveEventDurations | scenario-util/src/main/java/com/github/rinde/rinsim/scenario/generator/DynamicSpeeds.java:310-313 | sets the event-duration supplier and nothing else; returns the builder itself |
| DynamicSpeeds.Builder.CreationTimes | scenario-util/src/main/java/com/github/rinde/rinsim/scenario/generator/DynamicSpeeds.java:322-325 | sets the creation-time supplier and nothing else; returns the builder itself |
| DynamicSpeeds.Builder.Build | scenario-util/src/main/java/com/github/rinde/rinsim/scenario/generator/DynamicSpeeds.java:331-333 | a new generator with the builder's suppliers, nothing drawn yet, an empty expansion map and no leaves |
| DynamicSpeeds.DefaultDynamicSpeedGenerator.constructor | scenario-util/src/main/java/com/github/rinde/rinsim/scenario/generator/DynamicSpeeds.java:357-368 | the generator copies the builder's suppliers and starts its random stream |
| DynamicSpeeds.DefaultDynamicSpeedGenerator.NextLong | scenario-util/src/main/java/com/github/rinde/rinsim/scenario/generator/DynamicSpeeds.java:375 | `rng.nextLong()` yields the next number of the stream and advances the counter by one |
| DynamicSpeeds.DefaultDynamicSpeedGenerator.DrawSample | scenario-util/src/main/java/com/github/rinde/rinsim/scenario/generator/DynamicSpeeds.java:466-477 | draws three numbers: the behaviour factor at the midpoint of the connection, then the expanding speed, then the receding speed |
| DynamicSpeeds.DefaultDynamicSpeedGenerator.CheckStop | scenario-util/src/main/java/com/github/rinde/rinsim/scenario/generator/DynamicSpeeds.java:510-515 | computes the five-way stop test; it draws the event duration only when the factor is not 1 and the forward speed is not 0 |
| DynamicSpeeds.DefaultDynamicSpeedGenerator.OfferUpstream | scenario-util/src/main/java/com/github/rinde/rinsim/scenario/generator/DynamicSpeeds.java:563-574 | offers one step per upstream point other than the connection's destination, in the graph's order |
| DynamicSpeeds.DefaultDynamicSpeedGenerator.SimulateForwardRecedingShockwave | scenario-util/src/main/java/com/github/rinde/rinsim/scenario/generator/DynamicSpeeds.java:465-577 | one step changes the generator's state, returns events, offers steps and throws exactly as `ShockwaveSpec.StepSpec` says |
| DynamicSpeeds.DefaultDynamicSpeedGenerator.ExpandStep | scenario-util/src/main/java/com/github/rinde/rinsim/scenario/generator/DynamicSpeeds.java:519-575 | the expanding branch: the slowdown event, the map entry, the restoration event, then the branching or the dead-end leaf, as `ShockwaveSpec.Expand` says |
| DynamicSpeeds.DefaultDynamicSpeedGenerator.PickStart | scenario-util/src/main/java/com/github/rinde/rinsim/scenario/generator/DynamicSpeeds.java:382-386 | the origin comes from the supplier or is a random connection of the graph; it takes one draw, and throws when there is no graph or the graph is empty |
| DynamicSpeeds.DefaultDynamicSpeedGenerator.SimulateShockwave | scenario-util/src/main/java/com/github/rinde/rinsim/scenario/generator/DynamicSpeeds.java:380-403 | one iteration of the shockwave loop computes `ShockwaveSpec.Shockwave` |
| DynamicSpeeds.DefaultDynamicSpeedGenerator.Drain | scenario-util/src/main/java/com/github/rinde/rinsim/scenario/generator/DynamicSpeeds.java:401-403 | draining the queue computes `ShockwaveSpec.RunShockwave` |
| DynamicSpeeds.DefaultDynamicSpeedGenerator.Generate | scenario-util/src/main/java/com/github/rinde/rinsim/scenario/generator/DynamicSpeeds.java:370-407 | `generate` returns the events of `ShockwaveSpec.Generate`, or the exception it ends with |
| ShockwaveSpec.Incoming | scenario-util/src/main/java/com/github/rinde/rinsim/scenario/generator/DynamicSpeeds.java:555-556 | the upstream points are exactly the sources of the connections into the point |
| ShockwaveSpec.GetConnection | scenario-util/src/main/java/com/github/rinde/rinsim/scenario/generator/DynamicSpeeds.java:568-569 | `getConnection(a, b)` returns a connection of the graph from `a` to `b` |
| ShockwaveSpec.Universe | scenario-util/src/main/java/com/github/rinde/rinsim/scenario/generator/DynamicSpeeds.java:380-403 | the connections a shockwave can touch: the origin and every connection of the graph |
| ShockwaveSpec.Truncate | scenario-util/src/main/java/com/github/rinde/rinsim/scenario/generator/DynamicSpeeds.java:485-497 | the `(long)` cast of a double truncates toward zero |
| ShockwaveSpec.Advance | scenario-util/src/main/java/com/github/rinde/rinsim/scenario/generator/DynamicSpeeds.java:485-497 | a front with speed 0 keeps its timestamp; a moving front at a non-negative time lands on the whole part of its time plus the crossing time `length / speed` |
| ShockwaveSpec.Half | scenario-util/src/main/java/com/github/rinde/rinsim/scenario/generator/DynamicSpeeds.java:500-503 | the long `/ 2` of the jumps truncates toward zero |
| ShockwaveSpec.Reciprocal | scenario-util/src/main/java/com/github/rinde/rinsim/scenario/generator/DynamicSpeeds.java:470 | `1 / factor` is the inverse of a non-zero factor |
| ShockwaveSpec.SilentStops | scenario-util/src/main/java/com/github/rinde/rinsim/scenario/generator/DynamicSpeeds.java:510-511 | with a behaviour that is always 1 or an expanding speed that is always 0, every step stops |
| ShockwaveSpec.Branch | scenario-util/src/main/java/com/github/rinde/rinsim/scenario/generator/DynamicSpeeds.java:563-574 | at most one step per upstream point, each on a connection of the graph |
| ShockwaveSpec.StepSpec | scenario-util/src/main/java/com/github/rinde/rinsim/scenario/generator/DynamicSpeeds.java:465-577 | a step draws 3 or 4 numbers; it emits nothing and offers nothing when it does not expand; an expanding step is on a connection not yet in the map, and records its first event there; it emits at most two events, all on its own connection; the only exception is the missing graph; a silent configuration emits nothing |
| ShockwaveSpec.Expand | scenario-util/src/main/java/com/github/rinde/rinsim/scenario/generator/DynamicSpeeds.java:519-575 | the slowdown event comes first; there are two events exactly when the receding speed is non-zero; a missing graph throws after the events are recorded |
| ShockwaveSpec.StepProgress | scenario-util/src/main/java/com/github/rinde/rinsim/scenario/generator/DynamicSpeeds.java:528-538 | each step either adds a connection to the expansion map or offers no step: the queue loop terminates |
| ShockwaveSpec.DrainedStep | scenario-util/src/main/java/com/github/rinde/rinsim/scenario/generator/DynamicSpeeds.java:401-403 | one step followed by a drained rest of the queue is drained |
| ShockwaveSpec.OfferedInUniverse | scenario-util/src/main/java/com/github/rinde/rinsim/scenario/generator/DynamicSpeeds.java:563-574 | every offered step stays on a connection the shockwave can touch |
| ShockwaveSpec.RunShockwave | scenario-util/src/main/java/com/github/rinde/rinsim/scenario/generator/DynamicSpeeds.java:401-403 | under a silent configuration the drained queue emits nothing |
| ShockwaveSpec.RunDrained | scenario-util/src/main/java/com/github/rinde/rinsim/scenario/generator/DynamicSpeeds.java:401-403 | draining the queue only draws numbers; the expansion map only grows, and its old entries are kept; the only exception is the missing graph; every event is on a connection first reached by this shockwave, whose map entry is its one slowdown event; there are at most two events per such connection |
| ShockwaveSpec.PickOrigin | scenario-util/src/main/java/com/github/rinde/rinsim/scenario/generator/DynamicSpeeds.java:382-386 | picking the origin fails exactly when there is no supplier and the graph is missing or empty, with the matching exception; a random origin is a connection of the graph |
| ShockwaveSpec.ShockwaveFrom | scenario-util/src/main/java/com/github/rinde/rinsim/scenario/generator/DynamicSpeeds.java:389-403 | a shockwave draws its start time and recede wait; the only exception is the missing graph; silent configurations emit nothing |
| ShockwaveSpec.Shockwave | scenario-util/src/main/java/com/github/rinde/rinsim/scenario/generator/DynamicSpeeds.java:380-403 | one shockwave only draws numbers; its only exceptions are the missing and the empty graph; silent configurations emit nothing |
| ShockwaveSpec.Shockwaves | scenario-util/src/main/java/com/github/rinde/rinsim/scenario/generator/DynamicSpeeds.java:379-404 | the loop only draws numbers; its only exceptions are the missing and the empty graph; silent configurations emit nothing |
| ShockwaveSpec.Generate | scenario-util/src/main/java/com/github/rinde/rinsim/scenario/generator/DynamicSpeeds.java:370-407 | it throws the argument exception, carrying the count, exactly when the count is not positive, and then has drawn one number and emitted nothing; at least one number is always drawn; a silent configuration emits nothing |
| ShockwaveProperties.StopTest | scenario-util/src/main/java/com/github/rinde/rinsim/scenario/generator/DynamicSpeeds.java:510-518 | `Stops` is the five-way test of the source; a step emits nothing exactly when one of the five stop conditions holds; it then offers nothing, throws nothing, keeps the map, and records its predecessor as a leaf |
| ShockwaveProperties.ExpandingStepEvents | scenario-util/src/main/java/com/github/rinde/rinsim/scenario/generator/DynamicSpeeds.java:522-551 | an expanding step slows its connection by the factor at the expanding front's midpoint time; it restores the speed with the inverse factor at the receding front's midpoint time, strictly later, exactly when the receding speed is non-zero |
| ShockwaveProperties.RevisitIsSilent | scenario-util/src/main/java/com/github/rinde/rinsim/scenario/generator/DynamicSpeeds.java:514-533 | a connection already in the expansion map emits nothing again, so the cycle branch never runs |
| ShockwaveProperties.SampleDraws | scenario-util/src/main/java/com/github/rinde/rinsim/scenario/generator/DynamicSpeeds.java:466-477 | `SampleStep`: the factor and both speeds of a step depend on the three numbers drawn from the current position of the stream, and on no other |
| ShockwaveProperties.StalledFrontsKeepTime | scenario-util/src/main/java/com/github/rinde/rinsim/scenario/generator/DynamicSpeeds.java:479-503 | `AdvanceFronts`: a front with speed 0 keeps its timestamps and jumps by 0 |
| ShockwaveProperties.MovingFrontAdvance | scenario-util/src/main/java/com/github/rinde/rinsim/scenario/generator/DynamicSpeeds.java:485-503 | `AdvanceFronts`: a moving front at a non-negative time advances by the truncated crossing time `floor(length / speed)`, and its jump is exactly half of that advance, truncated |
| ShockwaveProperties.BranchSteps | scenario-util/src/main/java/com/github/rinde/rinsim/scenario/generator/DynamicSpeeds.java:563-574 | every offered step goes upstream, carries the advanced timestamps and the added distance, and every upstream point except the destination gets one |
| ShockwaveProperties.ExpandingStepBranches | scenario-util/src/main/java/com/github/rinde/rinsim/scenario/generator/DynamicSpeeds.java:555-574 | an expanding step on a graph offers exactly the upstream continuations, and becomes a leaf at a dead end |
| ShockwaveProperties.FirstStep | scenario-util/src/main/java/com/github/rinde/rinsim/scenario/generator/DynamicSpeeds.java:396-398 | `InitialStep`: the first step is on the origin, from the origin, with distance 0, both relative clocks at 0, the expanding front at the start time and the receding front `wait` after it |
| ShockwaveProperties.ShockwaveEventBound | scenario-util/src/main/java/com/github/rinde/rinsim/scenario/generator/DynamicSpeeds.java:401-403 | draining the queue emits at most two events per connection not yet visited |
| ShockwaveProperties.ShockwaveFromEventBound | scenario-util/src/main/java/com/github/rinde/rinsim/scenario/generator/DynamicSpeeds.java:389-403 | a whole shockwave emits at most two events per connection of the graph (and the origin) |
| JavaText.IndexFrom | core/src/main/java/rinde/sim/serializers/DotGraphSerializer.java:49 | `indexOf(pat, from)` is the first occurrence at or after `from`, or -1 when there is none |
| JavaText.IndexOf | core/src/main/java/rinde/sim/serializers/DotGraphSerializer.java:49 | `indexOf(pat)` is the first occurrence, and -1 exactly when there is none |
| JavaText.Pieces | core/src/main/java/rinde/sim/serializers/DotGraphSerializer.java:50 | cutting at a separator gives at least one piece |
| JavaText.DropTrailingEmpty | core/src/main/java/rinde/sim/serializers/DotGraphSerializer.java:50 | `split` drops exactly the trailing empty pieces |
| JavaText.TrimStart | core/src/main/java/rinde/sim/serializers/DotGraphSerializer.java:49 | `trim` drops the leading characters up to space, and no others |
| JavaText.TrimEnd | core/src/main/java/rinde/sim/serializers/DotGraphSerializer.java:49 | `trim` drops the trailing characters up to space, and no others |
| JavaText.Split | core/src/main/java/rinde/sim/serializers/DotGraphSerializer.java:50 | `split` gives the whole text when the separator does not occur; otherwise the cut pieces up to the last non-empty one, every dropped piece being empty |
| JavaText.Trim | core/src/main/java/rinde/sim/serializers/DotGraphSerializer.java:49 | `trim` keeps exactly the part of the text between its leading and its trailing blanks: the trimmed text is a slice of the text, everything before and after that slice is blank (at most `' '`), the slice starts and ends with a non-blank character, and a text of blanks trims to the empty text |
| JavaText.JoinPieces | core/src/main/java/rinde/sim/serializers/DotGraphSerializer.java:50 | the pieces joined with the separator give back the string |
| JavaText.PiecesAvoid | core/src/main/java/rinde/sim/serializers/DotGraphSerializer.java:50 | no piece contains the separator |
| JavaText.TrimPadded | core/src/main/java/rinde/sim/serializers/DotGraphSerializer.java:58-60 | blank padding on either side of a name does not change it |
| JavaText.TrimIdempotent | core/src/main/java/rinde/sim/serializers/DotGraphSerializer.java:49 | trimming twice is trimming once |
| JavaText.IndexOfChar | core/src/main/java/rinde/sim/serializers/DotGraphSerializer.java:49 | `indexOf` of a character finds it right after a prefix free of it |
| JavaText.SplitPair | core/src/main/java/rinde/sim/serializers/DotGraphSerializer.java:50 | splitting `x,y` at `,`, when neither part holds a `,` and `y` is not empty, gives `[x, y]` |
| JavaText.SplitSecond | core/src/main/java/rinde/sim/serializers/DotGraphSerializer.java:61 | the second `"`-separated field of `a"m"b`, when `a` and `m` hold no `"` and `m` is not empty, is `m` |
| JavaText.SplitArrow | core/src/main/java/rinde/sim/serializers/DotGraphSerializer.java:57 | splitting `a->b` at `->`, when `a` holds no `-` and a non-empty `b` no `>`, gives `[a, b]` |
| DotGraph.Find | core/src/main/java/rinde/sim/serializers/DotGraphSerializer.java:62-63 | `get` returns a value exactly for the keys of the map |
| DotGraph.Load | core/src/main/java/rinde/sim/serializers/DotGraphSerializer.java:48-73 | a node line binds its name to its point and changes nothing else; a skipped line changes nothing; an edge line succeeds exactly when the filter array is not null and both names are declared, and fails otherwise with a `NullPointerException`; it then keeps the node map and appends exactly one connection, from the point of its first name to the point of its second, with the default edge data exactly when the stated distance is the points' distance and the stated distance otherwise |
| DotGraph.EdgeData | core/src/main/java/rinde/sim/serializers/DotGraphSerializer.java:69-73 | the default edge data exactly when the stated distance equals the distance between the points, and otherwise a length equal to the stated distance |
| DotGraph.ReadFrom | core/src/main/java/rinde/sim/serializers/DotGraphSerializer.java:47-75 | reading never removes a node name or a connection |
| DotGraph.DotGraphSerializer.constructor | core/src/main/java/rinde/sim/serializers/DotGraphSerializer.java:29-32 | as written: the serializer keeps the array it is given, a null one included |
| DotGraph.DotGraphSerializer.Guarded | core/src/main/java/rinde/sim/serializers/DotGraphSerializer.java:29-32 | as intended: the filter array is never null |
| DotGraph.DotGraphSerializer.NoFilters | core/src/main/java/rinde/sim/serializers/DotGraphSerializer.java:34-36 | the no-argument serializer has an empty filter array |
| DotGraph.DotGraphSerializer.Read | core/src/main/java/rinde/sim/serializers/DotGraphSerializer.java:39-80 | the reading loop computes the line-by-line fold `ReadGraph`; its result depends on the filters only through whether the array is null |
| DotGraph.Round | core/src/main/java/rinde/sim/serializers/DotGraphSerializer.java:99 | `Math.round` is within one half of its argument, halves rounded up |
| DotGraph.NatText | core/src/main/java/rinde/sim/serializers/DotGraphSerializer.java:92 | a node id is written as decimal digits without a leading zero |
| DotGraph.RenderAppend | core/src/main/java/rinde/sim/serializers/DotGraphSerializer.java:92-106 | appending a line to the builder appends its text to the document |
| DotGraph.Document | core/src/main/java/rinde/sim/serializers/DotGraphSerializer.java:86-108 | the document starts with the `digraph genegraph {` header and ends with `}` |
| DotGraph.WriteNodes | core/src/main/java/rinde/sim/serializers/DotGraphSerializer.java:89-95 | the node loop numbers the points in order and appends their node lines, as `DeclareNodes` says |
| DotGraph.WriteArc | core/src/main/java/rinde/sim/serializers/DotGraphSerializer.java:97-107 | one connection appends a node line for an unnumbered target, then the edge line, as `Connect` says |
| DotGraph.WriteArcs | core/src/main/java/rinde/sim/serializers/DotGraphSerializer.java:97-107 | the connection loop appends what `DeclareArcs` says |
| DotGraph.DotGraphSerializer.Write | core/src/main/java/rinde/sim/serializers/DotGraphSerializer.java:83-109 | as written: the built text is the whole document, and nothing reaches the writer |
| DotGraph.DotGraphSerializer.WriteOut | core/src/main/java/rinde/sim/serializers/DotGraphSerializer.java:83-109 | as intended: the writer receives the whole document |
| DotProperties.LineClassification | core/src/main/java/rinde/sim/serializers/DotGraphSerializer.java:48-74 | `ParseLine`: a node line contains `pos=`; an edge line contains `->` and not `pos=`; a line is skipped exactly when it contains neither, and a skipped line changes nothing |
| DotProperties.ParseErrors | core/src/main/java/rinde/sim/serializers/DotGraphSerializer.java:48-61 | `ParseLine`: parsing a line throws only `IndexOutOfBoundsException` or `NumberFormatException`, never a `NullPointerException` |
| DotProperties.NodeLineErrors | core/src/main/java/rinde/sim/serializers/DotGraphSerializer.java:49-52 | `ParseNodeLine`: a node line without `[` throws `IndexOutOfBoundsException`; a parsed node is named by the trimmed text before the first `[`; only out-of-bounds and number-format exceptions occur |
| DotProperties.EdgeLineErrors | core/src/main/java/rinde/sim/serializers/DotGraphSerializer.java:57-61 | `ParseEdgeLine`: an edge line without `->` throws `IndexOutOfBoundsException`; a parsed edge line is an edge; only out-of-bounds and number-format exceptions occur |
| DotProperties.ReadAppend | core/src/main/java/rinde/sim/serializers/DotGraphSerializer.java:47-75 | reading two parts of a file is reading the first and then the second from where it stopped; an exception ends the read |
| DotProperties.ReadNodes | core/src/main/java/rinde/sim/serializers/DotGraphSerializer.java:48-53 | the node map read is the one the node lines alone declare; a later line with the same name wins |
| DotProperties.ReadEdgeCount | core/src/main/java/rinde/sim/serializers/DotGraphSerializer.java:54-73 | a file read without error has one connection per edge line |
| DotProperties.LoadLineEdges | core/src/main/java/rinde/sim/serializers/DotGraphSerializer.java:54-73 | `LoadLine`: a line read without error adds a connection exactly when it is an edge line |
| DotProperties.LoadLineNodes | core/src/main/java/rinde/sim/serializers/DotGraphSerializer.java:48-53 | `LoadLine`: a line read without error changes the node map only by binding a node line's name to its point |
| DotProperties.ReadEdges | core/src/main/java/rinde/sim/serializers/DotGraphSerializer.java:54-73 | in a file read without error, the edge line that comes after `k` earlier edge lines yields connection `k`: between the points its names are bound to when the line is read, with the edge data `EdgeData` gives |
| DotProperties.FirstEdge | core/src/main/java/rinde/sim/serializers/DotGraphSerializer.java:54-73 | when a file starts with an edge line and reads without error, its first connection is the one that line yields |
| DotProperties.NullFiltersWithoutEdges | core/src/main/java/rinde/sim/serializers/DotGraphSerializer.java:65-67 | with a null filter array, a file without edge lines reads as with any filters |
| DotProperties.NullFiltersRejectEdges | core/src/main/java/rinde/sim/serializers/DotGraphSerializer.java:65-67 | with a null filter array, every file with an edge line that would read without error throws a `NullPointerException` |
| DotProperties.NullArrayBreaksRead | core/src/main/java/rinde/sim/serializers/DotGraphSerializer.java:29-32 | a serializer built with a null array cannot read any file with connections |
| DotProperties.RenderLine | core/src/main/java/rinde/sim/serializers/DotGraphSerializer.java:92 | `Render`: every declaration is one line that starts with `node` and ends with a line break |
| DotProperties.DeclareNumbered | core/src/main/java/rinde/sim/serializers/DotGraphSerializer.java:92-94 | a new node line takes the next id; ids stay distinct and below the next one; node lines carry 0, 1, 2, ... in order |
| DotProperties.ConnectNumbered | core/src/main/java/rinde/sim/serializers/DotGraphSerializer.java:100-106 | a connection keeps the numbering |
| DotProperties.ConnectEdge | core/src/main/java/rinde/sim/serializers/DotGraphSerializer.java:99-106 | `Connect`: a connection numbers its target if needed and keeps the other ids; it adds one edge line from the source's id (or `null`) to the target's id, labelled with its length |
| DotProperties.NodesNumbered | core/src/main/java/rinde/sim/serializers/DotGraphSerializer.java:89-95 | `DeclareNodes`: the node loop numbers every point, 0 up to one less than the node count, and writes no edge line |
| DotProperties.ArcsNumbered | core/src/main/java/rinde/sim/serializers/DotGraphSerializer.java:97-107 | the connection loop keeps the numbering |
| DotProperties.ArcsIds | core/src/main/java/rinde/sim/serializers/DotGraphSerializer.java:97-107 | the connection loop keeps every id and numbers every target |
| DotProperties.ArcsEdgeCount | core/src/main/java/rinde/sim/serializers/DotGraphSerializer.java:97-107 | the connection loop writes one edge line per connection |
| DotProperties.DeclarationsNumbered | core/src/main/java/rinde/sim/serializers/DotGraphSerializer.java:89-107 | `write` numbers exactly the nodes and the connection targets, with distinct ids, and writes one edge line per connection |
| DotProperties.NodesByPosition | core/src/main/java/rinde/sim/serializers/DotGraphSerializer.java:89-95 | distinct points are numbered by their position |
| DotProperties.ArcsBetweenKnownPoints | core/src/main/java/rinde/sim/serializers/DotGraphSerializer.java:97-107 | when every end point has an id, the connection loop writes exactly the edge lines, one per connection, between the ids of its ends |
| DotProperties.WriteGraph | core/src/main/java/rinde/sim/serializers/DotGraphSerializer.java:83-108 | for a graph: node `i` is `node<i>`; then each connection has one edge line, from the node line of its source to that of its target, labelled with its length |
| DotProperties.NatTextValue | core/src/main/java/rinde/sim/serializers/DotGraphSerializer.java:92 | a written id reads back as the same number |
| DotProperties.NodeNamesDistinct | core/src/main/java/rinde/sim/serializers/DotGraphSerializer.java:92 | different ids give different node names |
| DotLines.NodeName | core/src/main/java/rinde/sim/serializers/DotGraphSerializer.java:92 | a written node name is not empty, starts and ends with a non-blank character, and holds none of `[`, `"`, `-`, `>`, `p` |
| DotLines.NameTrimmed | core/src/main/java/rinde/sim/serializers/DotGraphSerializer.java:49 | trimming a written node name leaves it unchanged |
| DotLines.NodeFields | core/src/main/java/rinde/sim/serializers/DotGraphSerializer.java:48-53 | a line with `pos=`, whose name stands before the first `[` and whose second `"`-field splits at `,` into two numbers, reads as that node at that point |
| DotLines.NodeLineParse | core/src/main/java/rinde/sim/serializers/DotGraphSerializer.java:48-53 | a line shaped like a written node line reads as a node line with its name and the point `Double.parseDouble` makes of its two coordinate texts |
| DotLines.NodeLineReadsBack | core/src/main/java/rinde/sim/serializers/DotGraphSerializer.java:48-53 | a node line `write` emits (line 92), read without its line break, names `node<id>` at the point parsed from the written coordinates, which are a third of the point's |
| DotLines.EdgeFields | core/src/main/java/rinde/sim/serializers/DotGraphSerializer.java:54-61 | a line with `->` and no `pos=` reads as an edge between the trimmed names around the arrow (the second one up to its `[`), with the second `"`-field as distance |
| DotLines.EdgeLineParse | core/src/main/java/rinde/sim/serializers/DotGraphSerializer.java:54-61 | a line shaped like a written edge line reads as an edge line between its two names with the distance parsed from its label |
| DotLines.EdgeLineReadsBack | core/src/main/java/rinde/sim/serializers/DotGraphSerializer.java:54-61 | an edge line `write` emits (line 106) between two numbered points, read without its line break, goes from `node<from>` to `node<to>` with the distance parsed from the rounded label |

## Left out

- Random numbers: `MersenneTwister` is a stream of numbers given as a parameter. The seeds passed to `generate` do not reach it in the source either.
- `getRandomConnection(rng)` belongs to the graph implementation, which is not part of this model. It is modelled as one draw taken modulo the number of connections.
- `Graph` and `TableGraph`/`MultimapGraph`: the graph is a sequence of connections. Their internals are not part of this model:
  - the duplicate-connection checks of `addConnection`;
  - the copy made by `merge`;
  - iteration order beyond the order of the sequence.
- `affectedGraph` (DS:353, 393, 537) is written and never read, so it is not modelled. The scenario length, which every step carries, is never read either.
- Doubles are `real`s. The model has no rounding, no NaN and no infinities.
- Reciprocal: `1 / factor` with a zero factor gives infinity in Java and 0 in the model.
- Longs are unbounded integers. 64-bit overflow of the timestamps is not modelled.
- The queue is not a shared object that steps offer into. Each step returns the steps it offers, and the loop appends them to the queue in the same order.
- `Double.parseDouble`, the double-to-string concatenation, `Point.toString` and `Point.distance` are parameters:
  - `Number(text, num)` fails on the text the parser refuses;
  - `Render` uses `fmt` and `show`;
  - `EdgeData` uses `dist`.
- Null end points: `Point.distance(null, …)` throws. The model reports an undeclared name as `NullPointer` at the same point of the line.
- `SerializerFilter.filterOut` is a parameter without side effects. Its `continue` never skips a connection in the source, so the filters cannot change what is read.
- Round trip: `read(write(g))` does not give `g` back in the source, and the model states no such law. In `DotGraphSerializer.java`, `write` places a node at a third of its coordinates (line 92), rounds labels to one decimal (line 99) and writes no edge data. The model proves instead what `read` makes of each line `write` emits (`DotLines`).
- I/O: the reader is a sequence of lines, as `readLine` yields them. The writer is the string that reaches it. `IOException` is not modelled.
- The two loops of `write` and the loop body over connections are separate methods in the model (`WriteNodes`, `WriteArcs`, `WriteArc`), each proved against its function. The source has them inline.
- Where the source and its documentation disagree, the model follows the source:
  - the first step of a shockwave has relative timestamps 0 (DS:396-398);
  - a front with speed 0 emits no events at all, because speed 0 is a stop condition (DS:510);
  - the default behaviour rises over 5 km, not over the 1 km its comment states (DS:85-94).

## Findings

| source | as written | input that shows it | evidently intended | confidence | as-written member | corrected member |
|---|---|---|---|---|---|---|
| core/src/main/java/rinde/sim/serializers/DotGraphSerializer.java:83-109 | `write` builds the document in a `StringBuilder` and never writes it or flushes `out` | any graph: the document has at least the header and `}`, and the writer receives the empty string | write the built string to the writer | not executed | DotGraph.DotGraphSerializer.Write | DotGraph.DotGraphSerializer.WriteOut |
| core/src/main/java/rinde/sim/serializers/DotGraphSerializer.java:29-32 | the null check assigns the empty array to the parameter, so the field keeps a null array | `new DotGraphSerializer((SerializerFilter[]) null)`, then `read` of a file with a declared node and an edge line between declared nodes (DotProperties.NullArrayBreaksRead) | `this.filters = new SerializerFilter<?>[0]` when the argument is null | not executed | DotGraph.DotGraphSerializer.constructor | DotGraph.DotGraphSerializer.Guarded |
