# A verified model of the Sapo workflow engine

Sapo runs workflows written as nested blocks of tasks, conditions, loops and tries. A parser hoists the
blocks into a flat graph of nodes; an interpreter runs that graph with an explicit stack of frames that can
be written to a checkpoint; a validator inspects the graph; sessions are kept in a store that several
clients share; a scheduler wakes sessions up. This project models those parts in Dafny and proves what they
promise.

Check everything with `dafny verify dfyconfig.toml`.

## How the model is laid out

* `Json`, `Text`, `Ordering`: documents, decimal text, byte order and ranked sets.
* `Blueprint`, `Parser`, `Naming`: the flat graph, the parser that hoists inline bodies into it, and the ids it makes.
* `Machine`, `RunState`, `MainLoop`: the interpreter. `RunState.Run` is the mutable run state with the
  interpreter's methods; each is proved to do what the transition function of the same name in `Machine`
  says. `MainLoop` iterates it.
* `Structured`, `Refinement`: a recursive interpreter over nested programs that knows no frames, and the proof
  that the frame machine on the hoisted graph does the same.
* `Routing`, `Rounds`, `Handlers`, `Waking`, `Endings`: where control goes after a node, what a round does for each
  kind of node and answer, who takes an error, what a resumed session finds, and how a run ends; all of it said in
  the fields of nodes, frames and answers, not in the machine's own terms.
* `FrameStack`, `Parked`, `Nesting`: how the stack may change in a round, how errors are routed, what becomes of an
  error that a `finally` parked, and how the stack of a program mirrors its nesting.
* `Checkpoint`, `Bindings`, `Locals`, `Resume`, `Scoping`: frames as JSON, which loop variables are bound where,
  which other locals a run can bind, and when a suspended session may be stored and resumed without a trace.
* `Validator`, `Reach`, `Acyclic`, `Edges`, `Detour`: reachability, missing targets, control-flow cycles, what they
  say about runs, and what they say of the graph of a program.
* `Sessions`, `RedisStore`, `StoreAgreement`, `Versions`: the in-memory store, the Redis store with its script
  and indexes, their agreement, and optimistic concurrency.
* `Calendar`, `Cron`, `Scheduler`: civil time, the search for the next firing time, and the tick.
* `Context`, `Parallel`: the context with its write journal, and the join of a parallel section.
* `Resp`, `JsonPath`, `Glob`: the RESP2 reader and writer, path reads and writes, and glob matching.

Tasks, conditions, item sources and loop guards are an oracle: any function from the node, the context
variables, the locals, the pass index and an opaque state of the outside world to an answer and a new state.
Whatever is proved holds for every oracle unless the statement says otherwise. Retries of a task happen
inside the oracle.

## Main results

* **The frame machine implements structured programs.** Parsing a nested program and running the flat graph
  visits the same nodes in the same order, leaves the same context and ends the same way as the recursive
  interpreter (`Parser.ParsedProgramRuns`, `Refinement.MachineRefinesStructure`). A `while` loop tests its guard
  only after the first pass, collection loops stop at their limit, and `break` drops inner frames without
  running `finally`: both interpreters say so.
* **The main loop ends.** It ends from every state under every oracle exactly when every named error handler
  exists, and a fresh run activates at most `budget` nodes (`MainLoop`). The measure is lexicographic: budget
  left, weight of the stack, whether control is unsettled.
* **Every edge, route and signal goes where its field says.** An explicit `next` out of a body drops the frames that
  do not hold its target (`Routing.EdgeLeavesBody`); an error goes to the node's own handler, else to the route its
  code has in the innermost try that takes it, else to that try's general catch or cleanup (`Handlers.ErrorIsRouted`);
  a prompt that times out raises its error at the prompt (`Waking.TimedOut`); every run ends in exactly one way
  (`Endings.RunEndsOneWay`).
* **Errors go to the nearest handler, and frames only move forward** (`FrameStack`); on every stack it is known
  what becomes of a parked error, when an error skips a cleanup, and that control falls past none (`Parked`). In
  runs of programs the stack always mirrors the nesting (`Nesting.ProgramNests`).
* **When suspending is invisible.** A session suspended at any depth, stored as JSON and resumed goes on as if the
  answer had been there at once, as long as the open loops bring back the locals its tasks read; if they do not,
  some task tells the difference (`Resume.ResumeIsInvisible`, `Resume.InvisibleIffRestored`). In a structured
  program whose nested loops name their variables apart this covers, at every suspension, tasks that read the loop
  variables around them and any name the program never binds, such as `input`, and that jump, if they do, into open
  bodies or to the top level (`Scoping.ProgramResumes`, `Scoping.HomeLands`).
* **The validator is exact, and means something for runs.** Cycle warnings appear exactly when there is a cycle;
  a node warned unreachable is never activated (`Validator.FindCycles`, `Reach.UnreachableWarnings`). The graph of a
  program has no cycle and no dangling reference (`Acyclic.ValidateProgram`), and some run takes each of its edges
  (`Edges.TargetIsReached`).
* **Generated ids are apart**, so a program whose statements all lack ids is refused for its shape or size only
  (`Naming.GeneratedIdsApart`, `Naming.NamelessAccepted`).
* **The two stores agree** on a sequence of calls exactly when every call is one both support
  (`StoreAgreement.Compare`); conditional writes replace what was loaded, unless the session was removed since
  (`Versions`).
* **Parallel branches do not interfere.** Under every interleaving each branch ends as it would alone, and the join
  depends on those endings only (`Parallel.ScheduleDoesNotMatter`, `Parallel.JoinBranches`).
* **The cron search finds the least matching minute**, and a tick fires exactly what is due (`Cron`, `Scheduler`).
* **Reading inverts writing**, whatever pieces the bytes arrive in (`Resp`), and along any plain path of a
  document (`JsonPath`).

## Where code and expectation part

These are properties one might expect and the code does not have. Each is stated with the condition under
which the code does have it, or with an input that shows the difference.

* An error parked by a `finally` does not always fail the session: it is lost exactly when control then falls off
  the graph, and it may be replaced by that of an outer try (`Parked.ParkedErrorLostIff`).
* An error can skip a `finally`: when no frame from the try up takes it, as that of a try in its catch, or of one
  that only lists other codes. Yet such a try is spared if the innermost loop is one inside it and goes on because a
  loop further out skips errors (`Parked.CleanupSkippedIff`, which is exact).
* A wait inside an inline body has no node to go on with, so its session completes on waking and drops the loops and
  tries that were open, unless the wait names a node or polls a condition (`Scoping.NestedWaitEnds`,
  `Resume.WakesIff`).
* A resumed session has lost the local `error`, and any other local but loop variables, `iteration` and the answer
  (`Resume.CaughtErrorIsForgotten`, `Resume.OtherLocalsForgotten`); tasks that read such a local tell a resumed
  session from one that stayed in memory, and only those (`Resume.InvisibleIffRestored`).
* A node may count as reachable and be activated by no run: a body node whose elder sibling always goes on outside
  the body (`Detour.NeverFollowed`; exactly such a sibling is not followed by the next, `Routing.SiblingIff`). In
  programs, whose body nodes have no such edges, every reference is followed (`Edges.TargetIsReached`).
* A handler that does not exist makes the main loop spin without visiting anything
  (`MainLoop.FreshRunSpins`, `MainLoop.EndsIffHandlersExist`).
* The Redis store refuses unnamed sessions and negative versions and lists at most `max_list` sessions; the
  in-memory store does none of this (`StoreAgreement.AskRedis`, `StoreAgreement.Compare`).
* `remove` of the Redis store reads the status field as a name, but the script writes digits there; the branch
  for a known status is never taken, and all indexes are cleared each time
  (`RedisStore.RedisStateStore.Remove`, `RedisStore.DigitsAreNoName`).
* Across a removal and re-creation a conditional write can replace a session its client never loaded
  (`Versions.RecreatedSessionIsMistaken`, with the exact condition in `Versions.SafeIffUpToDate`).
* `changedSince` is right exactly when, in key order, no newer mark comes before an older one; from zero it always
  is (`Context.RuntimeContext.ChangedSince`).
* A value written through a path is read back through it exactly when the path has no wildcard
  (`JsonPath.ReadBack`). A write can disturb a path that names other steps, as a value that is no array is its
  own `[0]`; exactly when is `JsonPath.KeptIff`.
* The next wake-up time is right exactly unless the least due time of the timers is 0, which reads as no timer
  (`Scheduler.Scheduler.NextWakeMs`).
* The glob matcher is right for all patterns exactly when the text has no `*` (`Glob.ExactIffNoStar`).

## Model

| member | source | states |
|---|---|---|
| Parser.BodyExpander.Expand | src/parser/WorkflowParser.cpp:249-272 | expanding a body of inline nodes succeeds exactly when each is well formed; it returns their ids in order and adds exactly their hoisted nodes, each child after its own descendants |
| Parser.BodyExpander.ParseNode | src/parser/WorkflowParser.cpp:892-956 | a statement of one of four kinds becomes its node with the ids of its bodies, exactly when nothing in it is malformed or an empty body |
| Parser.BodyExpander.BuildCondition | src/parser/WorkflowParser.cpp:563-603 | a condition holds its two expanded bodies, and the `then` body must not be empty |
| Parser.BodyExpander.BuildLoop | src/parser/WorkflowParser.cpp:819-853 | a loop holds its expanded body, which must not be empty, a limit of at least one and a known item-error mode |
| Parser.BodyExpander.BuildTry | src/parser/WorkflowParser.cpp:855-890 | a try holds three expanded bodies, needs a body, and must catch or clean up |
| Parser.ParseNodes | src/parser/WorkflowParser.cpp:1004-1016 | top-level nodes come first in document order, then all hoisted nodes |
| Parser.BuildIndex | src/parser/WorkflowParser.cpp:1018-1024 | the index files every node under its id and refuses a repeated id |
| Parser.ParseWorkflow | src/parser/WorkflowParser.cpp:969-1039 | parsing succeeds exactly when every part is well formed, ids are unique and the node limit holds, and yields the flat graph with `next` edges between top-level neighbours only |
| Parser.IndexHolds | src/parser/WorkflowParser.cpp:1018-1024 | with unique ids the index maps each id to its own node and holds nothing else |
| Parser.CompiledIsEmbedded | src/parser/WorkflowParser.cpp:249-272 | the flat graph of an accepted program holds every nested statement, with no edge leaving an inline body |
| Parser.FlatIsGotoFree | src/parser/WorkflowParser.cpp:1032-1039 | the graph of inline bodies has no `on_error` edges, no empty ids and no empty bodies |
| Parser.ParsedProgramRuns | src/runtime/Interpreter.cpp:512-608 | end to end: parse a nested program, run the flat graph; same visits, context and ending as the recursive interpreter |
| Naming.GeneratedIdsApart | src/parser/WorkflowParser.cpp:249-272 | in a program whose statements all lack ids no two nodes get the same id: from a generated id parent, slot and position can be read off |
| Naming.NamelessAccepted | src/parser/WorkflowParser.cpp:995-1030 | such a program is accepted exactly when it is not empty, within the node limit and well shaped in every part |
| Naming.DescendantsApart | src/parser/WorkflowParser.cpp:249-272 | the ids below a statement are distinct and begin with its own id and a dot |
| Refinement.MachineRefinesStructure | src/runtime/Interpreter.cpp:512-608 | for every goto-free graph of a program and every oracle under which no task jumps, the frame machine and the recursive interpreter agree on visits, context and ending |
| Refinement.SimStmt | src/runtime/Interpreter.cpp:613-801 | running one statement from any plain stack reaches the state its outcome stands for: next sibling, unwound loop, raised error or end |
| Refinement.SimPasses | src/runtime/Interpreter.cpp:865-918 | the loop frame makes the passes of the recursive loop, from any pass on |
| Refinement.SimGuarded | src/runtime/Interpreter.cpp:833-863 | the try frame goes through body, handler and cleanup as the recursive try does |
| Refinement.RaiseIsContinue | src/runtime/Interpreter.cpp:939-1022 | on a stack of loops and tries, an error whose nearest recovering frame is a skipping loop acts as `continue` of the innermost loop |
| Refinement.AtTopLevel | src/runtime/Interpreter.cpp:512-558 | with no frame open, an error, break or continue that nothing took ends the run as the recursive outcome does, and a normal end follows the top-level edge |
| Refinement.DropFrame | src/runtime/Interpreter.cpp:920-994 | a break, continue or error that does not concern the top frame acts as if that frame were not there |
| Structured.CollectionLoopPasses | src/runtime/Interpreter.cpp:865-918 | a collection loop no pass of which leaves it makes exactly min(length, limit) passes with indices 0, 1, 2, ... and then unbinds its variables |
| RunState.Run.ResolveJump | src/runtime/Interpreter.cpp:490-510 | a jump steps the innermost frame that holds the target and drops the frames above it; any other target drops all frames |
| RunState.Run.AdvanceAfterNode | src/runtime/Interpreter.cpp:512-608 | after a node control goes to its escaping edge, its next sibling, or out of the body, through as many closing frames as needed |
| RunState.Run.CompleteFrame | src/runtime/Interpreter.cpp:560-606 | a body that runs out starts the next pass, the next try phase, the branch's end or the frame's resume target |
| RunState.Run.CloseFrame | src/runtime/Interpreter.cpp:816-831 | closing a frame erases its loop variables and advances past its owner |
| RunState.Run.AdvanceTryPhase | src/runtime/Interpreter.cpp:833-863 | body and catch go to a non-empty `finally`; otherwise the frame closes, with a parked error pending again |
| RunState.Run.NextIterationFor | src/runtime/Interpreter.cpp:865-918 | the named or innermost loop makes its next pass, or ends at its limit, length or failing guard; frames above it are gone |
| RunState.Run.NextPass | src/runtime/Interpreter.cpp:878-918 | the guard is tested only between passes, in the locals of the finished pass; its error leaves the engine |
| RunState.Run.FinishLoop | src/runtime/Interpreter.cpp:920-934 | a break closes the named or innermost loop and every frame inside it |
| RunState.Run.HandleError | src/runtime/Interpreter.cpp:939-1022 | the node's own handler, else the innermost recovering frame; a skipping loop continues the innermost loop |
| RunState.Run.RecoverInTry | src/runtime/Interpreter.cpp:948-994 | a routed or general catch takes the error, else `finally` parks it, else the frame closes with it pending |
| RunState.Run.BindError | src/runtime/Interpreter.cpp:957-968 | the error is bound to the local `error` and to the frame's error variable in locals and context |
| RunState.Run.StepLoop | src/runtime/Interpreter.cpp:283-310 | a loop with no items is passed over; otherwise its frame is pushed, bound and entered |
| RunState.Run.StepCondition | src/runtime/Interpreter.cpp:326-345 | the taken branch enters its body, or jumps to its target, or passes on |
| RunState.Run.StepLeaf | src/runtime/Interpreter.cpp:158-241 | a task's answer is obeyed or its error raised, and a resumed node's answer is forgotten |
| RunState.Run.Obey | src/runtime/Interpreter.cpp:713-800 | each of the six signals has the effect the main loop gives it |
| RunState.Run.Round | src/runtime/Interpreter.cpp:613-801 | one round of the main loop is one step of the machine |
| RunState.Run.Drive | src/runtime/Interpreter.cpp:613-801 | the loop of rounds ends in the state the total function `MainLoop.Drive` gives |
| Routing.EdgeLeavesBody | src/runtime/Interpreter.cpp:529-538 | after a body node whose `next` leaves the body control stands at that node, in the innermost frame that holds it or in none |
| Routing.SiblingFollows | src/runtime/Interpreter.cpp:572-580 | any other node that is not the last of its body is followed by its sibling, and nothing else changes |
| Routing.SiblingIff | src/runtime/Interpreter.cpp:529-580 | a body node that is not the last is followed by its sibling exactly when it has no edge out of the body |
| Routing.TopLevelEdge | src/runtime/Interpreter.cpp:515-525 | with no frame open control follows `next`, or the run completes |
| Routing.BodyRunsOut | src/runtime/Interpreter.cpp:598-607 | a branch body that runs out goes to the resume target of its frame, else past its owner |
| Routing.BranchRunsOut | src/runtime/Interpreter.cpp:555-560 | the body of a parallel branch that runs out ends the run, completed if its last node was in the body |
| Routing.LoopRunsOut | src/runtime/Interpreter.cpp:865-918 | a loop body that runs out leads to the next pass with its variables bound, or past the loop at the limit, the length or a failing guard |
| Routing.JumpStands | src/runtime/Interpreter.cpp:490-510 | a jump stands at its target in the innermost frame that holds it, with that loop bound again, or outside all frames |
| Rounds.TaskLeavesBody | src/runtime/Interpreter.cpp:512-540 | the round of a task that continues and whose `next` leaves the body stands at that node and has dropped the frames that do not hold it |
| Rounds.TaskHasSibling | src/runtime/Interpreter.cpp:572-580 | the round of a task that continues inside its body stands at the next sibling |
| Rounds.TaskJumps | src/runtime/Interpreter.cpp:719-722 | the round of a task that jumps stands at the target |
| Rounds.TaskSuspends | src/runtime/Interpreter.cpp:723-760 | a suspended run keeps its frames and waits for a reply exactly if it is a prompt; it will go on at the node named, at the prompt itself, at the successor, or at a node that polls a condition |
| Rounds.TaskTerminates | src/runtime/Interpreter.cpp:761-775 | a terminating task ends the run with success, or as failed at that node under its own error code or the general one |
| Rounds.TaskBreaks | src/runtime/Interpreter.cpp:776-786 | a break leaves the named or innermost loop and drops what is open inside it; outside such a loop the run fails there |
| Rounds.TaskSkipsAhead | src/runtime/Interpreter.cpp:787-797 | a continue starts the next pass of that loop; outside such a loop the run fails there |
| Rounds.BudgetEnds | src/runtime/Interpreter.cpp:655-663 | one activation beyond the budget fails the run at that node and activates nothing |
| Rounds.DisabledIsPassed | src/runtime/Interpreter.cpp:664-674 | a disabled node is counted and listed, does nothing and is passed |
| Rounds.ConditionTakes | src/runtime/Interpreter.cpp:326-345 | a true condition enters its `then` body, else jumps to its true target, else passes on; a false one likewise on the other side |
| Rounds.TryOpens | src/runtime/Interpreter.cpp:313-324 | a try opens its frame, in its body, with its catch, cleanup and routes, and stands at its first node |
| Rounds.LoopOpens | src/runtime/Interpreter.cpp:283-311 | a loop without items is passed; any other opens its frame at pass zero with its variables bound and stands at its first node |
| Rounds.NodeFails | src/runtime/Interpreter.cpp:695-707 | an error of a node is raised at that node, with the changes it made to the context |
| Handlers.ErrorIsRouted | src/runtime/Interpreter.cpp:939-1022 | where every error goes: to the own handler, else into the innermost frame that takes its code, which acts as its routes, catch, cleanup or loop mode say, else to a failure of the run |
| Handlers.RouteTaken | src/runtime/Interpreter.cpp:954-1011 | in the innermost try that takes an error a listed code goes to the existing node its route names, any other to the general catch, else the cleanup parks it, else it is pending behind the try |
| Handlers.UnlistedPassesBy | src/runtime/Interpreter.cpp:958-971 | a try that lists other codes only, or a missing node, is passed over as if it were not there |
| Handlers.LoopSkipsItem | src/runtime/Interpreter.cpp:1012-1019 | an error whose taker is a loop that skips items starts the next pass of the innermost loop |
| Handlers.NobodyHandles | src/runtime/Interpreter.cpp:695-706 | an error that nothing takes fails the run, blamed on the node it names or else on the one that ran |
| Handlers.UnknownNode | src/runtime/Interpreter.cpp:636-651 | control at a missing node is a routing error of the node it came from |
| Waking.TimeoutIsPending | src/runtime/Interpreter.cpp:1153-1163 | a prompt that times out leaves its session at the prompt, with the timeout pending and nothing else changed |
| Waking.TimedOut | src/runtime/Interpreter.cpp:1153-1163 | the next round activates nothing and routes the timeout: to the own handler of the prompt, to the frame that takes it, or to a failure with that code at the prompt |
| Waking.ReplyArrives | src/runtime/Interpreter.cpp:1164-1171 | a reply stands in the local `input` and in the variable of the prompt, which runs again |
| Waking.EventArrives | src/runtime/Interpreter.cpp:1172-1186 | an event or a timer leaves what it carries in the local of that name, `event` for none, and its fields in the context, and the session goes on at its cursor |
| Waking.NothingArrives | src/runtime/Interpreter.cpp:1187-1198 | no reply, or an empty one to a prompt, changes nothing, and the session goes on at its cursor or completes |
| Endings.StepEnds | src/runtime/Interpreter.cpp:613-801 | a round leaves the run going or ends it in one way |
| Endings.RunEndsOneWay | src/runtime/Interpreter.cpp:613-801 | a run fails exactly if it holds a failure, waits exactly if it holds a request, for a reply exactly if that is a prompt; an error thrown by a guard comes with none of these |
| Endings.BranchEndTold | src/runtime/Interpreter.cpp:419-458 | a parallel section takes a branch as failed, waiting or done as its status says |
| MainLoop.StepDescends | src/runtime/Interpreter.cpp:613-801 | every round ends the run or lowers the measure: budget, then stack weight, then settledness |
| MainLoop.Drive | src/runtime/Interpreter.cpp:613-801 | the main loop is total and ends finished whenever named handlers exist |
| MainLoop.DriveWithinBudget | src/runtime/Interpreter.cpp:651-662 | a run with a clean count activates at most `budget` nodes, and the visited list only grows |
| MainLoop.MissingHandlerSpins | src/runtime/Interpreter.cpp:635-649 | control on a missing handler of the current node loops for ever and visits nothing |
| MainLoop.FreshRunSpins | src/runtime/Interpreter.cpp:635-697 | a fresh run whose first task fails and names a missing handler never ends and visits nothing more |
| MainLoop.EndsIffHandlersExist | src/runtime/Interpreter.cpp:613-801 | the main loop ends from every state under every oracle exactly when every named handler exists |
| FrameStack.StepEvolves | src/runtime/Interpreter.cpp:816-1022 | a round leaves all frames beneath the one it acts on unchanged and moves that one forward only, or pushes one frame |
| FrameStack.FrameHistory | src/runtime/Interpreter.cpp:833-934 | as long as a frame stays open, nothing beneath it changes, its index never falls and its try phase never goes back |
| FrameStack.NearestTryHandles | src/runtime/Interpreter.cpp:939-994 | the innermost try still in its body takes the error; frames beneath it are unchanged, none above it could have |
| FrameStack.EndingRunsFinally | src/runtime/Interpreter.cpp:833-863 | a body or catch that falls off its end enters a non-empty `finally`; only from there does control pass the try |
| Parked.AdvanceCarries | src/runtime/Interpreter.cpp:512-608 | control that is done with a node completes the run exactly when it falls off the graph, else rests at a node or at an error thrown by a guard; the pending error is that of the outermost try it passed that had one parked |
| Parked.ParkedErrorLostIff | src/runtime/Interpreter.cpp:833-863 | on every stack, the end of a cleanup with a parked error loses the error and completes the session exactly when control then falls off the graph; otherwise an error is raised in the next round, the parked one or that of the outermost try passed on the way |
| Parked.ParkedErrorCanBeLost | src/runtime/Interpreter.cpp:833-863 | one try in its cleanup without a successor is a state in which the error is lost |
| Parked.AdvanceStops | src/runtime/Interpreter.cpp:512-608 | control that falls through goes no further out than a try that owes a cleanup, unless a loop guard throws on the way |
| Parked.CleanupComesFirst | src/runtime/Interpreter.cpp:613-801 | over whole runs, whatever errors, jumps, breaks and continues happen inside a try, as long as none reaches past it the try stays open until its cleanup starts or the run ends |
| Parked.CleanupSkippedIff | src/runtime/Interpreter.cpp:939-1022 | an error raised anywhere inside a try that owes a cleanup leaves it open, with the cleanup to come or under way, exactly when a frame from the try up takes the error, or an innermost loop inside the try goes on for a skipping loop further out, or the handler of the node stands inside; otherwise the try is dropped or the run fails. A try that takes the error itself goes to its catch, or to its cleanup with the error parked |
| FrameStack.AdvanceUnwinds | src/runtime/Interpreter.cpp:512-608 | advancing only pops frames and moves the one it stops at, however the frame functions call each other |
| Checkpoint.FrameRoundTrip | src/runtime/Context.hpp:309-334 | any frame whose position fits 32 bits is read back from its JSON unchanged |
| Checkpoint.FramesRoundTrip | src/runtime/Context.hpp:309-334 | a whole stack survives a checkpoint |
| Checkpoint.ErrorRoundTrip | src/runtime/Interpreter.cpp:80-110 | a captured error survives its JSON form |
| Bindings.StepGood | src/runtime/Interpreter.cpp:613-801 | under the naming discipline every round keeps the locals equal to what the open loop frames stand for, as long as a jump of that round leads into an open body or to a node that needs no loop variable |
| Bindings.AdvanceGood | src/runtime/Interpreter.cpp:512-608 | whatever frames close on the way, the variables of every loop that stays open are still bound to its pass |
| Bindings.JumpGood | src/runtime/Interpreter.cpp:490-510 | a jump into an open loop rebinds it, and out of loops leaves a node that needs nothing |
| Resume.RelStep | src/runtime/Interpreter.cpp:613-801 | two runs alike in all a task may read stay alike over a round and visit the same nodes, wherever tasks jump |
| Resume.RelDrive | src/runtime/Interpreter.cpp:613-801 | two runs alike in all a task may read end alike and visit the same nodes from there on, as long as jumps lead into open bodies or to nodes that need no loop variable |
| Resume.RebindAgrees | src/runtime/Interpreter.cpp:1124-1128 | binding the frames bottom-up restores every loop variable in scope |
| Resume.ResumedIsReopened | src/runtime/Interpreter.cpp:1116-1211 | a session rebuilt from its checkpoint with an answer is alike to the suspended state given that answer exactly when the frames bring back every other local that may be read |
| Resume.ResumeIsInvisible | src/runtime/Interpreter.cpp:723-760 | a session that suspends at any depth, is stored as JSON and resumed runs to the same ending, context and visits as one that got the answer at once, if the frames bring back the locals that may be read and jumps find what their targets need |
| Resume.InvisibleIffRestored | src/runtime/Interpreter.cpp:1116-1211 | for a session that wakes up at a task, resuming is invisible to all tasks that read a given set of locals, and whose jumps find what their targets need, if and only if the frames bring those locals back |
| Resume.DisagreementShows | src/runtime/Interpreter.cpp:1116-1211 | where the frames do not bring such a local back, tasks that read it end the two runs differently |
| Resume.OtherLocalsForgotten | src/runtime/Interpreter.cpp:1124-1128 | locals other than loop variables and `iteration` come back exactly when they were unset or are the answer |
| Resume.IterationComesBack | src/runtime/Interpreter.cpp:1124-1128 | `iteration` comes back as the pass of the innermost open loop, whether it was still bound or not |
| Resume.CaughtErrorIsForgotten | src/runtime/Interpreter.cpp:948-968 | a catch body that starts with a suspending task still has the local `error` had it stayed in memory, and lacks it when resumed |
| Resume.AnsweredPrompt | src/runtime/Interpreter.cpp:1145-1160 | a session given its reply at once stands where it stood before a prompt without side effects, with the reply among its locals and in its variable, but for the visit |
| Resume.WakesIff | src/runtime/Interpreter.cpp:733-760 | a session that waits for a timer or an event goes on after waking exactly if the node it was to go on with exists; otherwise it completes with its frames open |
| Scoping.ProgramDisciplined | src/runtime/Interpreter.cpp:265-279 | programs with distinct ids whose nested loops name their variables apart obey the naming discipline |
| Scoping.RunIsSteady | src/runtime/Interpreter.cpp:613-801 | every state of every run of a disciplined graph satisfies the binding invariant |
| Locals.RunQuiet | src/runtime/Interpreter.cpp:613-801 | a name that no loop and no try of the graph uses becomes a local in no run by itself |
| Scoping.RunResumes | src/runtime/Interpreter.cpp:1116-1211 | along a run from the entry or from an earlier wake-up, each suspension is invisible if the frames bring back what may be read, and they do for names the run neither starts with nor binds |
| Scoping.ProgramResumes | src/runtime/Interpreter.cpp:1116-1211 | the same for every parsed program with distinct ids whose nested loops name their variables apart, after any number of rounds |
| Scoping.HomeLands | src/runtime/Interpreter.cpp:490-510 | in a program, jumps into open bodies and to the top level find every loop variable their targets need |
| Scoping.NestedWaitEnds | src/runtime/Interpreter.cpp:733-760 | a wait inside an inline body that names no node and polls no condition ends its session on waking |
| Nesting.ProgramInlined | src/parser/WorkflowParser.cpp:249-272 | in the graph of a program edges join top-level nodes only, and bodies hold the others |
| Nesting.StepPlaced | src/runtime/Interpreter.cpp:613-801 | a round keeps every open frame on a body of its owner, every owner in the body of the frame beneath, and control in the body of the top frame |
| Nesting.ProgramNests | src/runtime/Interpreter.cpp:613-801 | so does every run of a program whose tasks jump into open bodies and to the top level only |
| Nesting.NestSealed | src/runtime/Interpreter.cpp:512-608 | on such a stack no body holds an unnamed node and no edge leads out of one |
| Nesting.ProgramCleansUp | src/runtime/Interpreter.cpp:613-801 | in every run of a program, what happens inside a try without reaching past it leaves the try open until its cleanup starts or the run ends |
| Validator.OutgoingTargets | src/parser/BlueprintValidator.cpp:28-106 | lists exactly the named ids a node may lead to, by kind and by its edges |
| Validator.ReachableFrom | src/parser/BlueprintValidator.cpp:108-124 | the explicit-stack search lists exactly the nodes with a path from the entry, each once |
| Validator.MissingTargets | src/parser/BlueprintValidator.cpp:145-155 | one error for every dangling reference; none exactly when every reference exists |
| Validator.CycleFinder.Visit | src/parser/BlueprintValidator.cpp:243-269 | the grey nodes are exactly the path, it is put back, and while nothing is reported finished nodes lead only to earlier finished ones |
| Validator.CycleFinder.Report | src/parser/BlueprintValidator.cpp:249-265 | a reported list is a real cycle without repeated nodes; no two reports have the same text, and there are at most twenty |
| Validator.FindCycles | src/parser/BlueprintValidator.cpp:237-274 | cycle warnings exist exactly when the graph of existing nodes has a cycle, and each is one |
| Validator.FinishedFirstAcyclic | src/parser/BlueprintValidator.cpp:237-274 | a graph all of whose nodes finished before their predecessors has no cycle |
| Reach.AdvanceInside | src/runtime/Interpreter.cpp:512-608 | advancing never leaves a set of nodes that no static reference leaves |
| Reach.StepInside | src/runtime/Interpreter.cpp:613-801 | no round leaves such a set, and any node it activates is in it |
| Reach.ResumedInside | src/runtime/Interpreter.cpp:1116-1211 | neither does a session rebuilt from its checkpoint |
| Reach.RunsStayReachable | src/runtime/Interpreter.cpp:490-608 | without dangling references and dynamic jumps, the cursor is empty or an existing reachable node and every visited node is reachable |
| Reach.UnreachableWarnings | src/parser/BlueprintValidator.cpp:224-235 | warns exactly the enabled unreachable nodes, and no run from the entry ever activates one |
| Acyclic.ProgramIsAcyclic | src/parser/BlueprintValidator.cpp:237-271 | the graph of a program has no control-flow cycle |
| Acyclic.ProgramIsClosed | src/parser/BlueprintValidator.cpp:134-155 | every reference of the graph of a program names a node of it |
| Acyclic.ValidateProgram | src/parser/BlueprintValidator.cpp:126-271 | the validator finds no missing target and no cycle in a program, and warns exactly of its enabled unreachable nodes |
| Edges.TargetIsReached | src/parser/BlueprintValidator.cpp:28-106 | in the graph of a program every reference of an enabled node, and the successor of any node, is activated behind that node in some run without dynamic jumps |
| Edges.GotoIsTaken | src/parser/BlueprintValidator.cpp:28-106 | in any graph a task target, an `on_error` and a branch target are followed in one round of such a run |
| Edges.RouteIsTaken | src/parser/BlueprintValidator.cpp:62-72 | in any graph so is a route of a try, by an error of its code |
| Detour.NeverFollowed | src/parser/BlueprintValidator.cpp:57-61 | the second node of a loop body whose first goes on outside the loop counts as reachable, but no run without dynamic jumps from the loop activates it |
| Edges.DisabledIsIdle | src/runtime/Interpreter.cpp:664-674 | from a disabled node control goes to its successor in every run, so nothing else it refers to is reached through it |
| Ordering.LessIff | src/runtime/StateStore.cpp:100-156 | texts are ordered by the first character in which they differ, a beginning before its continuation |
| Sessions.StatusFromName | src/runtime/StateStore.cpp:18-30 | every status name reads back as its status, two older names are accepted, all else is none |
| Sessions.InMemoryStateStore.Save | src/runtime/StateStore.cpp:100-110 | an unconditional write stores the checkpoint one version up |
| Sessions.InMemoryStateStore.SaveIf | src/runtime/StateStore.cpp:112-125 | a write goes through exactly at the expected version; otherwise conflict or gone, with the stored version |
| Sessions.InMemoryStateStore.List | src/runtime/StateStore.cpp:139-146 | lists all sessions once, ascending by id |
| Sessions.InMemoryStateStore.Count | src/runtime/StateStore.cpp:148-156 | counts the sessions with a status, or all |
| Sessions.InMemoryStateStore.Remove | src/runtime/StateStore.cpp:134-137 | removes the session and says whether there was one |
| Sessions.SortedUnique | src/runtime/StateStore.cpp:139-146 | a listing ascending by id is determined by its members |
| Sessions.OutcomeTells | src/runtime/StateStore.cpp:100-156 | what a conditional write answers tells what its client finds on loading: its own write, another version, or nothing |
| RedisStore.RedisStateStore.SaveScript | src/redis/RedisStateStore.cpp:67-89 | the script writes nothing on a version mismatch; otherwise the hash goes one version up and the id moves between indexes |
| RedisStore.SaveKeepsIndexes | src/redis/RedisStateStore.cpp:76-88 | after a save every live session is indexed under all and under its own status with its time as score, and under nothing else if that was so before |
| RedisStore.RemoveKeepsIndexes | src/redis/RedisStateStore.cpp:141-147 | a removal keeps both index invariants and drops exactly that session |
| RedisStore.RedisStateStore.Write | src/redis/RedisStateStore.cpp:167-219 | the write path refines the promised conditional and unconditional writes |
| RedisStore.RedisStateStore.Save | src/redis/RedisStateStore.cpp:232-237 | an unconditional write, refused only for an empty id |
| RedisStore.RedisStateStore.SaveIf | src/redis/RedisStateStore.cpp:239-244 | a conditional write, refused for negative versions and empty ids |
| RedisStore.RedisStateStore.Load | src/redis/RedisStateStore.cpp:249-271 | the checkpoint with the version of the hash field |
| RedisStore.RedisStateStore.Remove | src/redis/RedisStateStore.cpp:273-297 | the session is gone from the hash, and no index has an entry of its id, whatever the indexes held |
| RedisStore.DigitsAreNoName | src/redis/RedisStateStore.cpp:278-289 | no number written in digits is a status name |
| RedisStore.RedisStateStore.Count | src/redis/RedisStateStore.cpp:299-303 | with exact indexes, the cardinality of an index is the number of sessions with that status |
| RedisStore.RedisStateStore.Expire | src/redis/RedisStateStore.cpp:80-81 | expiry drops a hash only; what still lives stays indexed |
| RedisStore.RedisStateStore.List | src/redis/RedisStateStore.cpp:305-359 | the newest `max_list` indexed sessions that exist, ascending by id; the ones that do not leave every index |
| RedisStore.RedisStateStore.PruneExpired | src/redis/RedisStateStore.cpp:383-427 | removes stale members only; within its round limit exactly all of them, from all seven indexes, and returns their number |
| RedisStore.RedisStateStore.PruneRound | src/redis/RedisStateStore.cpp:391-424 | everything ranked below the offset exists while the index shrinks, and each page makes progress |
| RedisStore.CountIsCardinal | src/redis/RedisStateStore.cpp:299-303 | an exact index has one entry for each session with its status |
| StoreAgreement.AskRedis | src/redis/RedisStateStore.cpp:232-359 | a call is answered as a session store should exactly when it is supported: named sessions, versions from zero, at most `max_list` sessions to list |
| StoreAgreement.AskMemory | src/runtime/StateStore.cpp:100-156 | the in-memory store gives that answer to every call |
| StoreAgreement.Compare | src/redis/RedisStateStore.cpp:167-359 | over every sequence of calls fresh stores of both kinds answer alike exactly when each call is supported |
| StoreAgreement.ListingIffShort | src/redis/RedisStateStore.cpp:305-359 | a listing of the newest sessions is complete exactly when there are no more than `max_list` |
| Versions.NextConsistent | src/redis/RedisStateStore.cpp:67-89 | no event but a removal lets a client hold a version ahead of the store, or a different session at the stored version |
| Versions.VersionCountsWrites | src/redis/RedisStateStore.cpp:67-89 | over every interleaving within one lifetime the version rises by one for each accepted write |
| Versions.AcceptedReplacesFetched | src/redis/RedisStateStore.cpp:239-271 | whatever other clients do, an accepted conditional write replaced exactly the session its client had loaded, if the session was not removed since that load |
| Versions.NothingFetchedIsSafe | src/redis/RedisStateStore.cpp:239-271 | a client that found no session never replaces one |
| Versions.SafeIffUpToDate | src/redis/RedisStateStore.cpp:67-89 | the writes of a client are safe in every future without a removal exactly when what it holds is not ahead of the store and no namesake of the stored session |
| Versions.DroppedIsUnsafe | src/redis/RedisStateStore.cpp:141-147 | right after a removal, what a client holds of the session is not |
| Versions.OneWriterPerVersion | src/redis/RedisStateStore.cpp:67-89 | at most one conditional write succeeds per expected version |
| Versions.RecreatedSessionIsMistaken | src/redis/RedisStateStore.cpp:67-89 | after removal and re-creation an accepted write can replace a session that was never loaded |
| Calendar.DayRoundTrip | src/util/TimeUtils.cpp:228-256 | the number of the date of a day is that day |
| Calendar.DateRoundTrip | src/util/TimeUtils.cpp:228-256 | the date of the number of a date is that date, leap years included |
| Calendar.YearLength | src/util/TimeUtils.cpp:228-256 | the POSIX day count gains 366 days in a leap year and 365 otherwise, the sum of its months |
| Calendar.ComposeRoundTrip | src/util/TimeUtils.cpp:228-256 | composing a broken-down instant gives it back, cut to the second |
| Calendar.BreakDownRoundTrip | src/util/TimeUtils.cpp:228-256 | breaking down a composed civil time gives it back, weekday included |
| Calendar.MonthStarts | src/util/TimeUtils.cpp:228-256 | the days before a month, by the 153-day formula from March on |
| Calendar.DaysSucceed | src/util/TimeUtils.cpp:228-256 | day zero is 1 January 1970, and the date of the next day is the day after: by month lengths and leap years |
| Calendar.ZoneIsAhead | src/util/TimeUtils.cpp:228-256 | an offset shows the time that many seconds later; the clock starts at midnight of 1 January 1970 |
| Calendar.WeekdaysSucceed | src/util/TimeUtils.cpp:228-256 | 1 January 1970 is a Thursday, and a day later is the next weekday |
| Cron.MatchesIsFires | src/runtime/Scheduler.cpp:285-305 | an instant on a minute boundary matches exactly when its local minute fires |
| Cron.FirstInDay | src/runtime/Scheduler.cpp:323-329 | the hour and minute loops find the least later minute of the day that the sets name |
| Cron.SearchDays | src/runtime/Scheduler.cpp:316-331 | the day-skipping walk finds the least firing minute in the window, and stops early only past the last legal year |
| Cron.NextAfter | src/runtime/Scheduler.cpp:307-332 | the result is the least later minute of local time that matches, or there is none within 1500 days |
| Cron.NextUnique | src/runtime/Scheduler.cpp:307-332 | there is only one such result |
| Cron.NothingBefore | src/runtime/Scheduler.cpp:285-332 | no instant on a minute boundary before the result matches |
| Cron.NextMatches | src/runtime/Scheduler.cpp:285-332 | the civil time of the result matches the schedule |
| Cron.DayRule | src/runtime/Scheduler.cpp:285-305 | days of month and of week are alternatives if both are restricted, else the restricted one decides |
| Scheduler.FireJob | src/runtime/Scheduler.cpp:547-554 | a due job fires at consecutive, strictly increasing occurrences up to now, stopping only at max(1, max_catch_up) or when none is due |
| Scheduler.Reschedule | src/runtime/Scheduler.cpp:412-427 | the job is next due after the given instant or switched off |
| Scheduler.TimersPartition | src/runtime/Scheduler.cpp:560-566 | every timer is either due or kept, by its due time |
| Scheduler.Scheduler.TickUntil | src/runtime/Scheduler.cpp:532-578 | everything due fires, nothing is due afterwards, and a second tick at the same instant fires and changes nothing |
| Scheduler.Scheduler.NextWakeMs | src/runtime/Scheduler.cpp:581-592 | the first instant at which a tick is not idle, or zero for never: right exactly unless the least due time of the timers is zero |
| Scheduler.FiringCount | src/runtime/Scheduler.cpp:547-554 | without catch-up a due job fires once; with it up to its limit, and that often if so many are due |
| Scheduler.FiresIffDue | src/runtime/Scheduler.cpp:532-578 | a tick fires a job exactly when it has a schedule, is on and its time has come, at that time first; other jobs keep their times |
| Context.RuntimeContext.Fork | src/runtime/Context.hpp:43-47 | a fresh context with the same variables and nothing written |
| Context.RuntimeContext.SetVariable | src/runtime/Context.hpp:49-57 | the variable is written, or erased by a null when so configured, and the key is journalled |
| Context.RuntimeContext.Erase | src/runtime/Context.hpp:132-136 | the variable is gone and the key is journalled |
| Context.RuntimeContext.ChangedSince | src/runtime/Context.hpp:230-238 | from zero every written key; in general right exactly when no newer mark precedes an older one in key order |
| Context.RuntimeContext.MergeFrom | src/runtime/Context.hpp:247-261 | the chosen keys are taken over under the policy, conflicts are the keys with two values, and the journal is unchanged |
| Context.LogMarks | src/runtime/Context.hpp:354-356 | journalling a key changes that key's mark alone |
| Context.ConflictsShow | src/runtime/Context.hpp:247-261 | conflicts are the keys on which keeping and replacing end differently |
| Parallel.BranchWithinBudget | src/runtime/Interpreter.cpp:388-394 | a branch activates at most what the section has left, and at most the branch limit |
| Parallel.ScheduleDoesNotMatter | src/runtime/Interpreter.cpp:369-417 | however workers interleave the rounds of the branches, once all are done each branch has ended as its main loop alone would |
| Parallel.FairSchedulesFinish | src/runtime/Interpreter.cpp:412-417 | every schedule that gives each branch enough rounds finishes them all |
| Parallel.JoinBranches | src/runtime/Interpreter.cpp:369-458 | a section whose branches start on forks of the run and are interleaved in any finishing way leaves each key as the policy says for branches that ran alone, up to the first that stops the join, and conflicts exactly when those do |
| Parallel.Join | src/runtime/Interpreter.cpp:419-458 | forks merge in index order; the first failing or waiting branch stops it, and `fail_conflicts` refuses exactly when a branch holds a value other than the one it would replace |
| Parallel.LastValueIsLast | src/runtime/Interpreter.cpp:419-458 | each key ends as the value of the last branch that wrote and still holds it, else the parent's |
| Parallel.FirstValueIsFirst | src/runtime/Interpreter.cpp:419-458 | under `skip_conflicts` each key keeps the parent's value, else that of the first branch that holds it |
| Parallel.BranchGets | src/runtime/Interpreter.cpp:388-394 | a branch can activate n nodes exactly when the section has n left and the branch limit, if any, allows them |
| Parallel.OverspentBranch | src/runtime/Interpreter.cpp:388-394 | a section with nothing left gives each branch one activation |
| Resp.Connection.Fill | src/redis/SocketRedisClient.cpp:225-251 | receiving a piece and compacting the buffer leave the unread bytes as they are |
| Resp.Connection.ReadLine | src/redis/SocketRedisClient.cpp:253-267 | the line up to the first CR LF of the whole stream, or its error |
| Resp.Connection.ReadExact | src/redis/SocketRedisClient.cpp:269-276 | exactly that many bytes of the stream, or closed |
| Resp.Connection.ReadReply | src/redis/SocketRedisClient.cpp:278-353 | the value, the error and the unread rest depend on the bytes of the stream alone, not on pieces or compaction |
| Resp.Connection.ReadReplies | src/redis/SocketRedisClient.cpp:494-510 | the replies of a pipeline, one after the other, from the whole stream |
| Resp.RoundTrip | src/redis/SocketRedisClient.cpp:278-353 | every value within the depth and size guards is read back from its encoding and the bytes behind it stay |
| Resp.IntTextRoundTrip | src/redis/SocketRedisClient.cpp:296-303 | any 64-bit integer is read back from its decimal text |
| Resp.CrlfStays | src/redis/SocketRedisClient.cpp:253-267 | bytes that arrive later do not move the first line end |
| Resp.EncodeCommand | src/redis/SocketRedisClient.cpp:467-483 | a command is written as the array of its words |
| Resp.CommandRoundTrip | src/redis/SocketRedisClient.cpp:467-483 | reading a written command yields its words |
| Resp.PipelineRoundTrip | src/redis/SocketRedisClient.cpp:494-510 | k encoded replies are read back as those k values in order |
| Resp.RoundTripIff | src/redis/SocketRedisClient.cpp:278-353 | a value is read back from its encoding exactly when it is within the guards on depth, counts and lengths and its texts are single lines |
| Resp.NumberIsRead | src/redis/SocketRedisClient.cpp:296-315 | white space, a sign or none and digits are read as their number if it fits 64 bits, whatever follows them |
| Resp.OnlyNumbersAreRead | src/redis/SocketRedisClient.cpp:296-315 | no other text is read as a number |
| JsonPath.GetPath | src/util/JsonPath.cpp:82-113 | the lookup loop finds what the steps lead to one by one |
| JsonPath.SetPath | src/util/JsonPath.cpp:115-145 | the in-place write yields the document with the value at the path, or fails and leaves the document as it was |
| JsonPath.ReadBack | src/util/JsonPath.cpp:82-145 | a written value is read back exactly when the path has no wildcard |
| JsonPath.OthersKept | src/util/JsonPath.cpp:82-145 | every path that resolved and parts from the written one at steps of the same kind still leads to the same value |
| JsonPath.KeptIff | src/util/JsonPath.cpp:82-145 | a write keeps the value of another resolving path exactly when the two part in the document, `[0]` steps on non-arrays aside, or the write changes nothing where they meet |
| JsonPath.SetRefusedIff | src/util/JsonPath.cpp:115-145 | a write is refused exactly when a value on its way is neither null nor of the kind its step needs |
| JsonPath.ArrayGrows | src/util/JsonPath.cpp:115-145 | a write into an array reaches its element and no other, and a short array grows by nulls |
| JsonPath.NullGrows | src/util/JsonPath.cpp:115-145 | a write over null makes the container its step needs, with that element alone |
| Glob.GlobMatch | src/redis/MockRedisClient.cpp:50-71 | every reported match is one, and for texts without a star every match is reported |
| Glob.NewerStarCovers | src/redis/MockRedisClient.cpp:59-61 | forgetting an older star loses no match |
| Glob.ExactIffNoStar | src/redis/MockRedisClient.cpp:50-71 | the matcher is right about every pattern exactly for the texts without a star |

## Left out

Contracts stated for fewer cases than one might look for:

- Refinement.MachineRefinesStructure: runs in which a task jumps have no structured meaning and are excluded; so are `on_error` edges, `catch_when` routes and `next` edges out of inline bodies, which inline programs without gotos do not have.
- Parser.ParsedProgramRuns: covers the inline form of tasks, conditions, loops and tries; parallel branches, subflows and schedule bodies are not parsed here.
- Resume.ResumeIsInvisible: error attribution data of a prompt timeout is the request's payload.
- Resume.InvisibleIffRestored: the converse is for sessions that wake up at an enabled task within the budget, which reads the local at once; a session that wakes up otherwise may overwrite the local before a task sees it.
- Scoping.ProgramResumes: in the rounds it follows, jumps and wake-ups lead into open bodies, which are bound again, or to nodes that need no loop variable; a jump to any other node runs it without the loop frame that binds what it reads.
- Resume.ResumedIsReopened: the resumed run has the budget of the suspended one; the code takes the engine's limit on resuming, which differs when the run was started with an option of its own.
- Edges.TargetIsReached: the handlers of a try are reached by an error pending in its body. In graphs with other edges a member of a body may be passed over (`Detour.NeverFollowed`), so there only single rounds are covered (`Edges.GotoIsTaken`, `Edges.RouteIsTaken`).
- Edges.GotoIsTaken: a try does not fail itself, so its `on_error` is not covered; neither are targets of a condition beside an inline body, which the code ignores.
- Naming.GeneratedIdsApart: programs that mix given and generated ids are not covered; a given id may equal a generated one, and the program is then refused.
- Waking.TimedOut: the data of the timeout is the request's payload here, and names the configured timeout in the code.
- Reach.RunsStayReachable: tasks that jump to computed targets are excluded.
- Checkpoint.FrameRoundTrip: positions beyond 32 bits are read back wrapped, as in the code.
- RedisStore.SaveKeepsIndexes: exactness is kept, not restored; a session saved again after its hash expired stays in the index of its old status.
- RedisStore.RedisStateStore.Remove: the status read and the pipeline of deletions are one step here; a save of the same id between them is not modelled.
- Cron.NextAfter: local times before 1970 are excluded, where the code's division no longer rounds down.
- Parallel.ScheduleDoesNotMatter: each branch has its own state of the outside world; branches that act on each other through it are not covered.
- Parallel.JoinBranches: which keys a branch has written is an arbitrary function of its final state; visits of the branches, their warnings and a terminate signal are not taken over.
- JsonPath.SetPath: the pointer into the document is a path here, and an edit through it replaces the element at that path.
- Parked.CleanupComesFirst: open bodies hold no empty id and no edge out of them; for programs this is proved (`Nesting.ProgramCleansUp`).
- Parallel.Join: a branch that fails with an empty message counts as failed here, and as not failed in the code.
- Parser.BodyExpander.Expand: which of several malformed statements is reported is not stated; bodies that name existing nodes by id instead of holding them are not modelled.
- Parser.BodyExpander.ParseNode: explicit `next` and `on_error` fields and the checks of other fields are not modelled.
- Parser.BodyExpander.BuildCondition: targets named by string and the demand for an expression are not modelled.
- Parser.BodyExpander.BuildLoop: the demand for a collection, a count or a guard is not modelled.
- Parser.BodyExpander.BuildTry: catch routes by error code and a catch target are not modelled here; the machine has them.
- Parser.ParseWorkflow: the validation at the end and explicit `next` fields are not modelled.
- RunState.Run.StepLeaf: the retries of the cited lines happen inside the oracle.
- RunState.Run.Round: the case of a parallel node is not part of the round.
- Validator.OutgoingTargets: the targets of choices, parallel sections, schedules and actions are one given list of a leaf.
- Validator.MissingTargets: schedule nodes that name a workflow, which are exempt, are not modelled.
- Reach.UnreachableWarnings: schedule nodes, which are exempt from the warning, are not modelled.

Not modelled:

- Parallel nodes inside the frame machine: branch runs, their budgets and the join are modelled; starting them from within a run and the termination signal of a branch are not.
- Retries, backoff and jitter of tasks, and compensation: they happen inside the task oracle.
- The expression language and its compiler, digests, random ids, metrics and logging.
- Floating-point numbers: JSON numbers, index scores and versions are integers without bounds; 64-bit overflow of versions and times is not modelled.
- Other findings of the validator: loop control outside loops, self-references, missing terminate nodes, runaway loops; a schedule node's body may name a workflow, and such nodes are exempt from the target check.
- The wording of messages; cycles are compared by their joined text, with another arrow.
- Text parsing of JSON documents, cron fields, time zones and paths; parsed forms are the input.
- Index maintenance outside the script (`atomic_index` off), claims, and the file store.
- Sockets, timeouts, reconnection and the connection pool; a stream of bytes ends only by closing.
- Context layers and writes through dotted paths into the context: a resumed answer is written by an arbitrary function.
- Adding, cancelling and listing jobs and timers.
- Base64, base32, hex and percent encoding.
