# icb, verified

`icb` builds a code graph of a Go or Scala web application and answers questions about it: what a
route executes, which tables it touches, which guard protects it, how two nodes are connected. This
project models the parts of it that take shortcuts, share state or interpret programs, and proves
that they mean what the documentation says. `dafny verify dfyconfig.toml` checks everything.

| module | models |
|---|---|
| `Text`, `Ordering`, `Patterns`, `Wrappers`, `CodeGraph` | the string and sorting functions of Go's library that are used, and the graph |
| `FlowTree`, `Flow`, `FlowBuild` | `internal/flow`: expansion with memo, cycle cut, call merging, pruning and depth limit, against plain reachability |
| `TableIndex`, `SchemaView` | `internal/views`: the table index over all flows, and the search around a table |
| `SequenceDiagram`, `ParBlocks`, `RouteDiagram` | `internal/mermaid/sequence.go`: the diagram printer, its par blocks, and its output for built flows |
| `Paths`, `PathSearch` | `Graph.Paths`: the recursive query with its string encodings, decoding and resolution |
| `Reachability`, `MethodScopes`, `Roles`, `Guards` | `internal/analysis/methods.go`, `auth.go`: control flow analyses against the runs of a handler |
| `Closures` | the fixpoints `findGuards`, `redirectingFuncs` and `reachesSink` |
| `Evaluator` | `internal/analysis/values.go`: the abstract interpreter of strings |
| `Positional`, `RouteMatch`, `Columns` | SQL parameters, route scores, byte and UTF-16 columns |
| `Runs`, `LiveHolder`, `LiveStatus` | runs of transition systems; `internal/live`: readers, re-analyses, `Close` and status subscribers in every interleaving |
| `LspConn` | `internal/lsp`: callers, read loop and `fail` in every interleaving |
| `Watch` | `internal/watch`: snapshots and the reporting loop, over any ticks |

Code that changes things step by step is a class or a method with loops here too, proved equal to a
specification function or against a stated property; the protocols are transition systems whose steps
are the critical sections, and claims about them hold for every finite sequence of steps. In those,
an action that is not possible in a state changes nothing.

Where the code and its claims part, the project says exactly where:

* `Paths` keeps visited nodes in one string, cut by character 31. The string test finds a node exactly
  when its pieces stand in a row among those of the visited IDs (`Paths.MarkedExactly`), so a path is
  found exactly when none of its nodes passes for visited (`Paths.FoundExactly`); without that character
  in IDs none does (`Paths.PlainIsUnhidden`), with it a path can be missed (`Paths.SeparatorHidesPath`).
* A par block has one section per branch, in the sense the branches are ordered by, exactly when the
  labels are canonical (`ParBlocks.SectionsExactly`). The labels the extractors write are
  (`ParBlocks.WrittenAreCanonical`); "1", "01", "1" are not, and make three sections
  (`ParBlocks.LabelsCanSplit`).
* `charIndex` agrees with `utf16Col` exactly on lines that are well-formed UTF-8 up to a stray last
  byte (`Columns.AgreeExactly`).
* The analyzing flag is up while no re-analysis is under way exactly when the last one to end ended
  after `Close` (`LiveHolder.AnalyzingLeftOn`), which can happen (`LiveHolder.AnalyzingCanBeLeftOn`); then it
  stays up until a re-analysis ends by failing (`LiveHolder.LeftOnUntilFailure`, `LiveHolder.FailureTakesItDown`).
* With `PruneSinks` a function has a step for each call that reaches a sink, unless a call cycle can be reached by that
  call or the flow was cut (`FlowBuild.CallsAreShown`); the sinks themselves are never missing.
* The evaluator answers without `{?}` exactly when a value is made of constants, without cycles, at most 12 steps away
  and with at most 32 combinations at each node, and its strings do not spell `{?}` (`Evaluator.GivenUpExactly`).
* A call that ended is still in `pending` exactly when it could not be written and neither a response
  nor `fail` has come for it (`LspConn.PendingAfterEnd`), which can happen (`LspConn.UnwrittenLingers`).

## Model

| member | source | states |
|---|---|---|
| FlowTree.BranchesAreOrdered | internal/flow/flow.go:196-209 | comparing branches is a total preorder: numbers first, the rest by name |
| FlowTree.NumbersComeFirst | internal/flow/flow.go:196-209 | "1" comes before "2", and every number before "each" |
| FlowTree.NumberedInOrder | internal/flow/flow.go:163-194 | in a group, numbered branches stand in the order of their numbers, and "each" behind them |
| FlowTree.GroupedPermutes | internal/flow/flow.go:163-194 | grouping parallel calls loses and invents no step |
| FlowTree.GroupedBlocks | internal/flow/flow.go:163-194 | each group becomes one contiguous block, its branches in order |
| FlowTree.GroupedStable | internal/flow/flow.go:163-194 | members of one branch keep their order |
| FlowTree.GroupParallel | internal/flow/flow.go:166-194 | the placeholder algorithm computes exactly that grouping |
| FlowTree.PlaceGroups | internal/flow/flow.go:183-193 | its second loop: placeholders are replaced by their sorted groups |
| CodeGraph.OutInOrder | internal/graph/query.go:108-140 | each edge of the kinds from a node gives one neighbour, in call-site order, with the node it leads to |
| Flow.FindChild | internal/flow/flow.go:141-144 | finds the step of a callee if there is one |
| Flow.AddTables | internal/flow/flow.go:226-236 | a sink's children are the tables it queries, in order |
| Flow.Builder.Expand | internal/flow/flow.go:103-161 | from any memo: no step only when the call can be dropped for good, otherwise a faithful subtree that shows the calls it should; new nodes are explored, bodies unique, refs and leads justified; the depth limit is not needed for termination |
| Flow.Builder.ExpandBody | internal/flow/flow.go:124-160 | a function that is looked into: all its calls are handled, grouped, and kept or dropped as a whole |
| Flow.Builder.ExpandCalls | internal/flow/flow.go:132-155 | after the loop every executing call of the node has been handled |
| Flow.Builder.ExpandCall | internal/flow/flow.go:137-155 | one neighbour: skipped when it does not run, counted on the step it has, or expanded |
| Flow.Builder.ExpandNew | internal/flow/flow.go:145-154 | a new callee's subtree is appended and `leads` updated without breaking the memo's meaning |
| Flow.AddLead | internal/flow/flow.go:149-154 | noting that a caller leads to a sink, when what it calls is one or leads to one, keeps the memo true |
| Flow.ProgressTrans | internal/flow/flow.go:95-101 | what two expansions in a row guarantee together |
| Flow.MergeCall | internal/flow/flow.go:141-144 | merging keeps one step per callee, counting its call sites |
| Flow.AddCall | internal/flow/flow.go:145-154 | appending keeps call-site order, distinct callees and justified tags |
| Flow.FinishKept | internal/flow/flow.go:159-160 | a kept node's body is well-formed: grouped, in call-site order, below its ancestors |
| Flow.KeptCallsShown | internal/flow/flow.go:103-161 | the calls that the level of pruning keeps are all among the children |
| Flow.SettledCloses | internal/flow/flow.go:149-158 | a function left without `leads` calls no sink and only functions left so as well, unless it is on a call cycle |
| Flow.GivenUpLeadsNowhere | internal/flow/flow.go:120-158 | such a function reaches no sink, when following its calls never leads into a cycle |
| Flow.CompleteFinished | internal/flow/flow.go:132-160 | so no call is dropped that leads to a sink without cycles |
| Flow.FinishDropped | internal/flow/flow.go:156-158 | dropping a subtree without leads loses no sink |
| Flow.ShortcutOk | internal/flow/flow.go:105-131 | the five cases that look no further are sound |
| Flow.TreeSinksReached | internal/flow/flow.go:62-161 | a sink shown in a tree is reached by executing calls through expandable nodes |
| FlowBuild.SinkShown | internal/flow/flow.go:103-161 | a sink reachable by a call chain is shown, whatever memo, cycle cut, merging and pruning did |
| FlowBuild.SinksExact | internal/flow/flow.go:62-161 | without a depth cut the sinks shown are exactly those reached |
| FlowBuild.StepsJustified | internal/flow/flow.go:103-161 | every ref has its body in the same tree, pruned steps lead to a sink, cuts are recorded |
| FlowBuild.CallsAreShown | internal/flow/flow.go:20-30 | the steps below a function are its calls: all with `PruneNone`, all of module code and sinks with `PruneModule`, with `PruneSinks` those that reach a sink, unless call cycles or a cut are met |
| FlowBuild.NextKept | internal/flow/flow.go:81-90 | the same for the handlers of the route |
| FlowBuild.CutFlowShows | internal/flow/flow.go:62-161 | even when cut, a flow shows every sink that a function with a body in it calls, and, with a limit above one, every sink that a handler calls |
| FlowBuild.Build | internal/flow/flow.go:62-93 | errors, defaults, and a tree that is faithful at all prune levels and limits: it has the calls, handlers and sinks it should and no others; never cut when the limit is at least the number of nodes |
| TableIndex.Indexer.Walk | internal/flow/flow.go:248-257 | visits the steps in preorder, extending each table's entries by the route's new operations |
| TableIndex.Indexer.Visit | internal/views/views.go:106-115 | a table step is listed unless its table and operation were seen in this route |
| TableIndex.Routes | internal/views/views.go:92-98 | the route nodes once each, by file, line and ID |
| TableIndex.RoutesAreOrdered | internal/views/views.go:96-98 | that order is total |
| TableIndex.TreeShows | internal/flow/flow.go:226-236 | table steps appear exactly under the sinks with a queries edge to them |
| TableIndex.RouteOps | internal/views/views.go:100-116 | one route lists the operations its flow performs on a table, each once |
| TableIndex.IndexExact | internal/views/views.go:89-118 | a route and operation are listed under a table iff the route reaches a sink performing it there |
| TableIndex.IndexSound | internal/views/views.go:89-118 | nothing is listed that no route performs, even when flows were cut |
| TableIndex.ListedOnce | internal/views/views.go:89-118 | with distinct route names nothing is listed twice |
| TableIndex.TableRoutes | internal/views/views.go:91-118 | the index is one block per route in route order; it lists only what some route performs, and all of it when no flow is cut |
| TableIndex.IndexRoute | internal/views/views.go:100-116 | builds one route's flow and appends its block under each table |
| SchemaView.WithinStep | internal/views/views.go:32-49 | a node is within d+1 foreign keys iff within d or joined to one that is |
| SchemaView.Round | internal/views/views.go:33-48 | a round adds exactly the neighbours of the frontier |
| SchemaView.Expand | internal/views/views.go:35-46 | both directions of a node's foreign keys |
| SchemaView.Include | internal/views/views.go:30-49 | includes exactly the nodes within `depth` foreign keys |
| SchemaView.ER | internal/views/views.go:19-81 | the tables drawn are those asked for, once each in listing order and with their columns; the keys are exactly those between them, once each |
| SchemaView.Draw | internal/views/views.go:55-79 | tables in listing order with their columns and keys |
| SchemaView.Columns | internal/views/views.go:61-68 | a table's columns in the order of their edges |
| SequenceDiagram.OpeningNests | internal/mermaid/sequence.go:105-118 | par, and, end between two siblings keep the nesting |
| SequenceDiagram.WalkNests | internal/mermaid/sequence.go:102-152 | what is printed for a step leaves every nesting as it was |
| SequenceDiagram.AlternativesNest | internal/mermaid/sequence.go:131-140 | alt, else and end of an interface call match |
| SequenceDiagram.Nests | internal/mermaid/sequence.go:29-40 | the whole diagram parses |
| SequenceDiagram.SkeletonParses | internal/mermaid/sequence.go:74-87 | participants may stand anywhere |
| SequenceDiagram.WalkDraws | internal/mermaid/sequence.go:102-152 | the messages printed for a step are the calls below it, in preorder: tables left out, interface calls replaced by their implementations |
| SequenceDiagram.AlternativesDraw | internal/mermaid/sequence.go:130-140 | each implementation is called behind a heading with its name |
| SequenceDiagram.DrawsCalls | internal/mermaid/sequence.go:29-40 | the messages and headings of the diagram are the calls of the tree, each from its caller's lane to its own |
| SequenceDiagram.Printer.Emit | internal/mermaid/mermaid.go:32-34 | appends a line and nothing else |
| SequenceDiagram.Printer.LaneFor | internal/mermaid/sequence.go:74-87 | a lane is declared when first used and never again |
| SequenceDiagram.Printer.Numbered | internal/mermaid/sequence.go:69-72 | the next number gets the message's node |
| SequenceDiagram.Printer.SendMessage | internal/mermaid/sequence.go:162-180 | one message to the step's lane, declared before |
| SequenceDiagram.Printer.Sink | internal/mermaid/sequence.go:183-198 | one message to the external system's lane |
| SequenceDiagram.Printer.Call | internal/mermaid/sequence.go:145-146 | a message, then the calls behind it |
| SequenceDiagram.Printer.Walk | internal/mermaid/sequence.go:102-152 | prints exactly the specified lines, and participants |
| SequenceDiagram.Printer.WalkChild | internal/mermaid/sequence.go:106-147 | one iteration: the opening, then the child |
| SequenceDiagram.Printer.Open | internal/mermaid/sequence.go:107-118 | ends, opens or continues a par block |
| SequenceDiagram.Printer.CallChild | internal/mermaid/sequence.go:119-147 | dispatch, sink or plain call |
| SequenceDiagram.Printer.CallAlternatives | internal/mermaid/sequence.go:130-140 | one alternative per implementation |
| SequenceDiagram.Printer.CallAlternative | internal/mermaid/sequence.go:131-139 | alt or else, the message, and the calls behind it |
| SequenceDiagram.Printer.PrintRoot | internal/mermaid/sequence.go:31-37 | the head of the diagram, then each handler's message and calls |
| SequenceDiagram.Sequence | internal/mermaid/sequence.go:29-40 | the diagram parses; its messages are the calls of the tree, numbered 1 to n with `IDs` naming their nodes; each lane is declared once before use |
| ParBlocks.OpeningSays | internal/mermaid/sequence.go:107-118 | par is printed exactly before a group's start, and before a further section |
| ParBlocks.GroupOpensOnce | internal/flow/flow.go:163-194 | a grouped list opens one par block per group, at its first member |
| ParBlocks.SectionsExactly | internal/mermaid/sequence.go:107-118 | siblings in blocks have one section per branch exactly when no two labels stand for the same branch |
| ParBlocks.BranchHasOneSection | internal/flow/flow.go:163-209 | a grouped list has one section per branch exactly when the labels of the calls are canonical |
| ParBlocks.WrittenAreCanonical | extractors/scala/src/main/scala/icb/scala/Extractor.scala:245-247 | labels "1", "2", ... and "each" are canonical, so they never split a branch |
| ParBlocks.LabelsCanSplit | internal/flow/flow.go:196-209 | calls of three functions in branches "1", "01" and "1" make three sections |
| ParBlocks.WalkIsOwnAndChildren | internal/mermaid/sequence.go:102-152 | a step's lines are its own, with each child's lines behind what opens it |
| ParBlocks.OneParPerGroup | internal/mermaid/sequence.go:105-118 | among a step's own lines there is one par line per group of its calls |
| ParBlocks.OneLinePerBranch | internal/mermaid/sequence.go:105-118 | and one par or and line per branch, when no branch has two sections |
| RouteDiagram.BodyIsWellFormed | internal/flow/flow.go:103-161 | every body inside a flow tree is faithful where it stands |
| RouteDiagram.BodyIsWalked | internal/mermaid/sequence.go:102-152 | the lines of every body below a walked step are printed as a whole, but for interface calls, which are printed as what they dispatch to |
| RouteDiagram.FlowGroupsOpenOnce | internal/mermaid/sequence.go:102-152 | in the diagram of a built flow, each function's lines stand as a whole, with one par line of its own per group of its calls, at the group's first member |
| RouteDiagram.FlowBranchesShareSection | internal/mermaid/sequence.go:102-152 | and one section per branch exactly when its labels are canonical: then its own par and and lines are one per branch |
| RouteDiagram.SinksAreDrawn | internal/mermaid/sequence.go:22-40 | the diagram of a flow that was not cut has a message for exactly the sinks that the route reaches |
| Paths.MarkedExactly | internal/graph/query.go:174-193 | the `instr` test finds an ID exactly when its pieces stand in a row among those of the visited IDs |
| Paths.MarkIsMembership | internal/graph/query.go:174-193 | on lists of IDs without the separator it is list membership for exactly the IDs without it |
| Paths.SeparatorHidesPath | internal/graph/query.go:174-193 | a concrete graph where an ID with it hides a path |
| Paths.RowsUpToArePaths | internal/graph/query.go:184-193 | the query's rows are the encodings of walked paths |
| Paths.SuffixDistance | internal/graph/query.go:176-183 | the rest of a path bounds a node's backward distance |
| Paths.SimpleIsWalked | internal/graph/query.go:184-193 | no prefix of an acyclic path in range is pruned whose nodes do not pass for visited |
| Paths.PlainIsUnhidden | internal/graph/query.go:171-173 | with no separator in IDs no node of an acyclic path passes for visited |
| Paths.WalkedIsSimple | internal/graph/query.go:184-193 | a walked path is chained, acyclic and in range |
| Paths.NoDeeperRows | internal/graph/query.go:184-193 | the recursion ends by itself at the depth limit |
| Paths.FoundExactly | internal/graph/query.go:149-194 | a path is found exactly when it is acyclic, in range and none of its nodes passes for visited |
| Paths.AllFoundExactly | internal/graph/query.go:149-194 | all acyclic paths in range are found exactly when that holds of each; without separators in IDs it does |
| Paths.FoundPaths | internal/graph/query.go:149-194 | exactly those paths, once each, shortest first |
| Paths.AnswersAreFound | internal/graph/query.go:194 | the rows returned are the edge-ID strings of the first ones |
| PathSearch.DecodedParts | internal/graph/query.go:207 | splitting an edge-ID string gives the IDs written |
| PathSearch.DecodeRow | internal/graph/query.go:206-214 | parsing them back succeeds and gives the path's IDs |
| PathSearch.DecodeRows | internal/graph/query.go:199-216 | the same for all rows |
| PathSearch.DistinctIds | internal/graph/query.go:225-234 | collects every edge ID once |
| PathSearch.ResolvePaths | internal/graph/query.go:224-254 | turns ID paths into the edge paths they encode |
| PathSearch.OmittedAreLonger | internal/graph/query.go:149-150 | the limit omits no path shorter than a returned one |
| PathSearch.KeptPaths | internal/graph/query.go:194 | what the limit keeps of the paths found |
| PathSearch.FindPaths | internal/graph/query.go:151-222 | distinct acyclic paths, shortest first; a path is missing only when one of its nodes passes for visited, which no ID without the separator does, or for the limit, and then is not shorter |
| Reachability.Marker.Visit | internal/analysis/methods.go:135-151 | marks a set closed under successors, and only what is reached |
| Reachability.MarkedIsReachable | internal/analysis/methods.go:122-158 | marking from one start finds exactly what it reaches |
| MethodScopes.MethodConditions | internal/analysis/methods.go:72-92 | exactly the ifs that test the request method |
| MethodScopes.ReachableBlocks | internal/analysis/methods.go:122-158 | exactly the blocks some run for the method visits |
| MethodScopes.MarkFromRoots | internal/analysis/methods.go:151-157 | visiting from the entry and the recover block finds exactly the executed blocks |
| MethodScopes.ComparedVerbs | internal/analysis/methods.go:48-53 | the compared methods, once each |
| MethodScopes.MethodScope | internal/analysis/methods.go:41-62 | a scope for exactly the functions that test the method, listing for each block the methods it runs under |
| MethodScopes.UncomparedAlike | internal/analysis/methods.go:17-25 | methods a function does not compare run the same blocks |
| MethodScopes.AttributesRoundTrip | internal/flow/flow.go:211-224 | scopes written as attributes and read by `runs` keep a call iff some run for the method reaches it, and every call when the method is "" or "ANY" |
| MethodScopes.BlocksFor | internal/analysis/auth.go:480-496 | exactly the blocks that run for a method, and all of them when it is not known or never branched on |
| Guards.DenialMeansFailure | internal/analysis/auth.go:290-314 | the deny successor is the one taken exactly when the guard's result says no |
| Guards.RegionWalker.Visit | internal/analysis/auth.go:334-350 | collects what is reachable until it meets the allowed path |
| Guards.ExitRegion | internal/analysis/auth.go:316-352 | exits iff nothing reachable from the denial is on the allowed path, and then returns exactly what is reachable |
| Guards.HasWork | internal/analysis/auth.go:388-401 | found iff a call in the region can reach a sink |
| Guards.DominatesWork | internal/analysis/auth.go:404-438 | true iff all other work comes after the guard call by dominance |
| Guards.DeniedRole | internal/analysis/auth.go:278-284 | the strongest of the guard's role and those checked by the conditions that lead to the denial |
| Guards.GuardEnforced | internal/analysis/auth.go:253-288 | accepts the first test that denies without work when the guard dominates all work, with the strongest role checked on the way; otherwise says why each test was passed over |
| Guards.WorkComesAfterGuard | internal/analysis/auth.go:404-438 | on every run for the method, work is preceded by the guard call |
| Guards.NoWorkAfterDenial | internal/analysis/auth.go:316-352 | once the failing branch is taken no work is executed |
| Guards.GuardRequired | internal/analysis/auth.go:212-233 | over exactly the blocks that run for the method: the first test that is not passed over is accepted, with the strongest role, and then protects every run in both ways; none is accepted only when every block is passed over |
| Closures.FindGuards | internal/analysis/auth.go:87-115 | the domain is the least set with the seeds, closed under calling a guard |
| Closures.CalledRole | internal/analysis/auth.go:104-109 | a role is found iff a guard is called, and it is the strongest of theirs |
| Closures.LeastGuardsAreUnique | internal/analysis/auth.go:100-114 | that set does not depend on the visiting order or on roles |
| Closures.RedirectingFuncs | internal/analysis/navigation.go:120-152 | the least set of functions that redirect themselves or call one that does |
| Closures.ReachesSink | internal/analysis/auth.go:545-571 | the least set with the sinks' callers, closed under callers |
| Closures.LeastIsUnique | internal/analysis/navigation.go:124-152 | the result does not depend on the visiting order |
| Evaluator.Union | internal/analysis/values.go:536-543 | appends what is new, in order |
| Evaluator.ConcatAll | internal/analysis/values.go:523-534 | all concatenations, or `{?}` when there would be too many |
| Evaluator.LimitKeeps | internal/analysis/values.go:545-550 | limiting leaves at most 32 patterns and keeps every string they match |
| Evaluator.MatchesConcat | internal/analysis/values.go:523-534 | concatenated patterns match concatenated strings |
| Evaluator.PairFrom | internal/analysis/values.go:523-534 | every result is one of the left and one of the right |
| Evaluator.Evaluator.Str | internal/analysis/values.go:61-139 | the value of `Eval` for any visited set and depth, and `visited` is restored |
| Evaluator.Evaluator.StrAll | internal/analysis/values.go:83-88 | the union over phi edges or stores |
| Evaluator.Evaluator.Load | internal/analysis/values.go:183-207 | the values stored into a cell, `{?}` when there are none |
| Evaluator.Evaluator.Parameter | internal/analysis/values.go:368-406 | the arguments of all call sites, `{?}` for a missing one |
| Evaluator.EvalBounded | internal/analysis/values.go:56-59 | results are non-empty, distinct and at most 32 |
| Evaluator.EvalSound | internal/analysis/values.go:61-207 | every string of any consistent family is matched by a result, cyclic phis included |
| Evaluator.EvalExact | internal/analysis/values.go:61-207 | a result without `{?}` is a string the value really has |
| Evaluator.PlainIsExact | internal/analysis/values.go:56-59 | on a solution of the equations, results without `{?}` are exactly the value's strings |
| Evaluator.OneTerm | internal/analysis/values.go:61-139 | a value has at most one term, and none when it is cyclic or made of anything unknown |
| Evaluator.OneSolution | internal/analysis/values.go:61-207 | the strings of the term are what every solution of the equations gives the value |
| Evaluator.EvalKnown | internal/analysis/values.go:61-207 | a value whose term is at most 12 high and has at most 32 combinations at each node is evaluated to exactly its strings |
| Evaluator.PlainIsKnown | internal/analysis/values.go:61-207 | and only such values give results without `{?}` |
| Evaluator.GivenUpExactly | internal/analysis/values.go:17-30 | so nothing is given up without cause: a result has no `{?}` exactly when the value is made of constants, without cycles, within both limits, and spells none itself |
| Evaluator.Strings | internal/analysis/values.go:56-59 | all of this for evaluation from scratch; for values made of constants within the limits the result is the set of their strings |
| LiveHolder.StepKeepsInv | internal/live/live.go:98-158 | what every critical section keeps |
| LiveHolder.ReaderNeverHoldsReleased | internal/live/live.go:96-105 | nobody inside `With` holds a released project |
| LiveHolder.ReaderKeepsProject | internal/live/live.go:96-105 | a reader's project stays the same and unreleased until it leaves |
| LiveHolder.EveryProjectAccounted | internal/live/live.go:119-158 | each project is owed by exactly one owner or was released exactly once, also when its analysis ends after `Close` |
| LiveHolder.QuietMeansReleased | internal/live/live.go:119-158 | between re-analyses only the current project is unreleased |
| LiveHolder.GenerationTrails | internal/live/live.go:107-145 | the published generation is at most one behind and never goes back |
| LiveHolder.AnalyzingLeftOn | internal/live/live.go:125-145 | at rest the flag is up iff the last re-analysis ended after `Close` |
| LiveHolder.AnalyzingCanBeLeftOn | internal/live/live.go:133-137 | a run in which that happens |
| LiveHolder.LeftOnUntilFailure | internal/live/live.go:125-145 | the flag so left stays up, whatever happens, until a re-analysis ends by failing |
| LiveHolder.FailureTakesItDown | internal/live/live.go:127-131 | which can happen after `Close` as well |
| LiveHolder.EverythingCanFinish | internal/live/live.go:98-158 | no reachable state is stuck: all can be closed and released |
| LiveStatus.NextKeepsOk | internal/live/live.go:55-83 | what every step of publisher and subscribers keeps |
| LiveStatus.NeverBlocks | internal/live/live.go:70-83 | a send under the lock always finds its channel empty |
| LiveStatus.LatestIsAvailable | internal/live/live.go:53-83 | between publications a subscriber has the latest status unread or has read it |
| LiveStatus.AtMostOneBehind | internal/live/live.go:71-83 | during one, an unread status is the new one or, until served, the one before |
| LiveStatus.ReadsMoveForward | internal/live/live.go:53-83 | statuses are read in order and at most once |
| LiveStatus.PublishSection | internal/live/live.go:71-83 | publishing, then draining and sending channel by channel, leaves the newest status alone in each subscriber's channel |
| LiveStatus.Current.SetStatus | internal/live/live.go:71-83 | afterwards each subscriber's channel holds the new status alone, and the board has made the publication's events |
| LiveStatus.Current.Notify | internal/live/live.go:72-82 | the loop serves each subscriber once |
| LiveStatus.Current.Install | internal/live/live.go:132-141 | the write-locked section of `Reanalyze` is the swap step |
| LiveStatus.Current.Close | internal/live/live.go:149-158 | `Close` is the two closing steps |
| LiveStatus.Current.constructor | internal/live/live.go:87-94 | the first project is current, generation 1 |
| LspConn.StepKeepsInv | internal/lsp/lsp.go:369-477 | what every step of callers, read loop and `fail` keeps |
| LspConn.StepNeverPanics | internal/lsp/lsp.go:369-432 | no step sends on a closed or full channel or closes one twice |
| LspConn.ChannelsAreUsedOnce | internal/lsp/lsp.go:369-477 | no send on a closed channel, no double close, no second send, no waiting send |
| LspConn.AnswersAreOwn | internal/lsp/lsp.go:422-477 | a call gets its own response only, and hears that the server is gone only when it is |
| LspConn.PendingAfterEnd | internal/lsp/lsp.go:456-477 | an ended call is pending exactly when it could not be written, the reader does not hold its response, and its channel was neither sent to nor closed |
| LspConn.UnwrittenLingers | internal/lsp/lsp.go:456-458 | a run in which a call that could not be written is left pending |
| LspConn.UnwrittenIsFailed | internal/lsp/lsp.go:369-383 | and one in which `fail` has removed it |
| LspConn.WaitersAreNotForgotten | internal/lsp/lsp.go:445-477 | a waiting call is pending, held by the reader, or can wake |
| LspConn.FailureWakesEveryone | internal/lsp/lsp.go:369-383 | after `fail` nothing is pending, nothing registers and every waiter wakes whose response the reader does not hold |
| LspConn.Conn.Register | internal/lsp/lsp.go:445-455 | a new ID with a fresh channel, or refusal when closed |
| LspConn.Conn.Take | internal/lsp/lsp.go:422-425 | the reader becomes the only one to use the channel |
| LspConn.FailSection | internal/lsp/lsp.go:369-383 | the steps of `fail` close exactly the pending channels and empty `pending` |
| LspConn.Conn.Fail | internal/lsp/lsp.go:369-383 | closes every pending channel once and empties `pending`, by the steps of the protocol |
| LspConn.Conn.CloseAll | internal/lsp/lsp.go:379-382 | the loop closes each pending channel once |
| LspConn.Conn.constructor | internal/lsp/lsp.go:334 | a new connection has nothing pending |
| Watch.Diff | internal/watch/watch.go:102-117 | exactly the paths added, removed or changed, once each, in order |
| Watch.OneListing | internal/watch/watch.go:115 | a set has one sorted listing, whatever the map order |
| Watch.Merge | internal/watch/watch.go:152-156 | pending paths first, new ones appended |
| Watch.Run | internal/watch/watch.go:122-167 | for any ticks and snapshots, the reports of the loop; the rows below say which these are |
| Watch.NextIsFaithful | internal/watch/watch.go:142-165 | every tick keeps what is known about pending paths |
| Watch.PendingIsWhatChanged | internal/watch/watch.go:149-160 | pending is what was seen changing since the last report, without duplicates, and includes all that differs from it |
| Watch.ReportsAreSettled | internal/watch/watch.go:121-165 | a report needs a scan without change, `Quiet` or longer after the last change |
| Watch.SettledIsReported | internal/watch/watch.go:141-165 | settled changes are reported at the first tick at or after `settleAt`, not before |
| Watch.NothingIsLost | internal/watch/watch.go:119-122 | over a whole run a path seen changing was reported or is pending |
| Watch.ChangeIsNoticed | internal/watch/watch.go:141-156 | a path that stays different from what it was when last reported is pending or reported at the latest when `Interval` has passed |
| Watch.OneChangeOneReport | internal/watch/watch.go:122-165 | files that change once are noticed within `Interval` and reported together, once, at the first tick at least `Quiet` after that |
| Watch.StableIsReported | internal/watch/watch.go:119-122 | whatever happened before, once the files stay every path not as last reported is named in a report within `Interval` and then `Quiet` |
| Positional.TokensAreLossless | internal/analysis/dataaccess.go:62-94 | a query is its tokens |
| Positional.BeforeIsFirst | internal/analysis/dataaccess.go:69-72 | a quoted text ends at the first quote of its kind |
| Positional.NameIsLongest | internal/analysis/dataaccess.go:82-85 | a name goes on as long as it can |
| Positional.Rewrite | internal/analysis/dataaccess.go:66-91 | one token: what it becomes and where it ends |
| Positional.QuotedEnd | internal/analysis/dataaccess.go:69-74 | where a quoted text ends, terminated or not |
| Positional.NameEnd | internal/analysis/dataaccess.go:82-85 | where a name ends |
| Positional.Positional | internal/analysis/dataaccess.go:59-94 | the scanner rewrites the query token by token |
| Positional.NumberedInOrder | internal/analysis/dataaccess.go:59-94 | the i-th parameter becomes `$i`, every other token is copied |
| Positional.NoneLeft | internal/analysis/dataaccess.go:59-94 | the result holds no parameter to rewrite |
| Positional.Idempotent | internal/analysis/dataaccess.go:59-94 | rewriting again changes nothing, unterminated quotes included |
| RouteMatch.MatchScore | internal/analysis/pages.go:238-277 | the score of the way the pattern matches |
| RouteMatch.MatchSegments | internal/analysis/pages.go:245-276 | the loop over segments decides that way |
| RouteMatch.TotalBounds | internal/analysis/pages.go:260-270 | matched segments score at least 1 each and 3 when the same, never more; 3 throughout exactly when all are the same |
| RouteMatch.ScoreSuffix | internal/analysis/pages.go:282-303 | the literals of a match of the pattern's end, 0 when it does not match |
| RouteMatch.ScoresAreRanked | internal/analysis/pages.go:236-303 | a whole match of n segments scores n+2 to 3n, a rest match less than 3n, a suffix match at most n-1 |
| RouteMatch.BestScoreIsLiteral | internal/analysis/pages.go:236-277 | 3n is reached iff the segments are the same, none looking like a rest wildcard |
| RouteMatch.MatchesExactly | internal/analysis/pages.go:236-303 | a pattern scores exactly when it shares a literal segment and all segments fit, up to its rest wildcard, as a whole, or at its end |
| RouteMatch.ScoreBound | internal/analysis/pages.go:238-277 | no pattern scores more |
| RouteMatch.UrlPathIsPath | internal/analysis/pages.go:214-234 | a URL's path is "" or rooted, without host, scheme, query string and fragment, and its own path |
| RouteMatch.UrlPathOf | internal/analysis/pages.go:214-234 | whatever query string and fragment follow, a rooted path is its own, `{?}/` in front becomes a segment, and "" stands for all other URLs |
| RouteMatch.UrlHasParts | internal/analysis/pages.go:216-222 | every URL without a zero byte has these parts |
| RouteMatch.MatchRoute | internal/analysis/pages.go:190-212 | the first best-scoring candidate, none when nothing scores |
| RouteMatch.CandidatesAreScored | internal/analysis/pages.go:194-206 | everything tried is a pattern of a route that serves the method, scored against the path of one of the URLs |
| RouteMatch.TryRoutes | internal/analysis/pages.go:200-209 | the routes that serve the method, for one path |
| RouteMatch.TryPatterns | internal/analysis/pages.go:204-208 | a route's pattern and its variants |
| RouteMatch.WholeBeatsSuffix | internal/analysis/pages.go:279-282 | a suffix match is never chosen over a whole one of the same path |
| Columns.ToUtf16Col | internal/lsp/lsp.go:237-251 | the units of the runes starting before the offset |
| Columns.ToByteCol | internal/lsp/lsp.go:253-267 | the bytes of the runes before the unit |
| Columns.BytesThereAndBack | internal/lsp/lsp.go:237-267 | offset to column and back, on rune boundaries |
| Columns.UnitsThereAndBack | internal/lsp/lsp.go:237-267 | column to offset and back, on rune boundaries |
| Columns.ColumnsAreMonotone | internal/lsp/lsp.go:238-251 | columns grow with offsets, strictly on boundaries |
| Columns.OffsetsAreMonotone | internal/lsp/lsp.go:254-267 | offsets grow with columns, strictly on boundaries |
| Columns.OffsetsRoundUp | internal/lsp/lsp.go:238-251 | an offset inside a rune counts as the next boundary |
| Columns.ColumnsRoundUp | internal/lsp/lsp.go:254-267 | a column inside a surrogate pair counts as its end |
| Columns.CharIndex | ui/src/components/Code.tsx:199-210 | the index after the characters that start before the offset |
| Columns.SameCharacter | ui/src/components/Code.tsx:205-207 | decoding a rune and `codePointAt` agree |
| Columns.AgreeExactly | ui/src/components/Code.tsx:199-210 | both columns agree for all offsets iff the line is well-formed up to a stray last byte |

## Left out

- Flow.Builder.Expand: grouping may move a ref before its body, so the body is proved to be in the tree, not to come earlier.
- FlowBuild.CallsAreShown: under `PruneSinks` a call that leads into a call cycle can be missing although it reaches a sink, so it is promised only for calls that do not: with z calling y, x and a sink, y calling z, and x calling y and a sink, y is given up below z, where its own call of z shows nothing, and x's call of y gets no step. Sinks are never missing.
- FlowBuild.Build: under sink pruning a cut by the depth limit need not be visible in the tree. Of a cut flow only the sinks called by its functions and handlers are promised: with handler h calling a and x, calls a-x, x-y, y-s and a limit of 4, x is expanded below a and y cut there, so the sink s is missing although h-x-y-s fits. Errors of the database and the context are not modelled.
- TableIndex.IndexExact: assumes that call and handled_by edges do not lead to tables and that no flow was cut; the depth is the default of 16.
- PathSearch.FindPaths: SQLite's semantics is modelled as relations over the list of edges, whose order stands for the unspecified order of rows; edge IDs are int64.
- SchemaView.ER: the order in which tables are listed is an input, and the text of the diagram is not modelled.
- RouteDiagram.SinksAreDrawn: assumes that queries edges do not lead to sinks, which the printer would draw under a sink that is a handler or an implementation.
- SequenceDiagram.Sequence: the wording of messages and the escaping of labels; a lane is known by its title, so that two titles can get the same alias is not modelled.
- SequenceDiagram.Printer.Sink: the tables and operations, or the detail, that its message names.
- CodeGraph.OutInOrder: neighbours along incoming edges and the empty list of kinds, which stands for all; `SchemaView` has its own neighbours for foreign keys.
- MethodScopes.AttributesRoundTrip: for blocks reachable under at least one method, for compared methods that are not empty or "*" and contain no commas, and without generic instantiations; every comparison of a request's method counts as deciding the same method.
- MethodScopes.ReachableBlocks: a run starts at the entry or at the recover block, so a panic and what follows it are two runs.
- Guards.GuardRequired: direct guard calls only; a callee may return without calling its guard, so the interprocedural case of `required` promises nothing about runs. The best among several guards is not chosen.
- Guards.ExitRegion: `return region, visit(start)` leaves the order of reading and calling open in Go; the model reads the region after the visit.
- Guards.GuardEnforced: the heuristics for denials and for the role a condition checks are arbitrary functions.
- Closures.FindGuards: the role values depend on the visiting order and are left open; names and configuration that seed guards are inputs.
- Evaluator.EvalSound: constants, `+`, conversions, phi, local and package variables, and parameters; function results (which drop zero values), configured values, library models and slices are opaque, and the zero value of a variable before its first store is not counted. The equation of a variable lists the stores the code looks at, for a package variable those of the package initializer; stores made elsewhere are outside the equations.
- Evaluator.Evaluator.Str: calls, results of tuples and fields are opaque.
- Evaluator.Evaluator.Load: slice elements, fields and configured package variables are opaque.
- LiveStatus.Current.SetStatus: times, durations and error texts of a status; its receivers are concurrent in the events of the board, not in the method.
- LspConn.Conn.Take: JSON decoding, message framing, requests from the server and the `opened` map.
- Watch.Run: file walking, the choice of relevant files and the ticker; ticks and the snapshot at each are arbitrary inputs, and where times matter they do not run backwards.
- Columns.CharIndex: the line as JavaScript gets it is the line with every byte that is not UTF-8 replaced by U+FFFD.
- SSA construction, the call graph, dominators (defined by paths and taken as input), type sets and resource lifetimes outside the two holders.
- Steps of a flow tree are values; the Go code refers to them, but updates none after appending it except for the call count, which is modelled.
- Includes of template definitions, router tracing, entry points, page building, schema parsing, JSON, HTTP and MCP serving, and the user interface other than `charIndex`.
