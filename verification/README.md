# The pipeline engine, verified

A Dafny model of the part of the repository that decides what an autonomous run does next, with proofs of
what it promises. `dafny verify dfyconfig.toml` checks the whole project.

The repository runs *pipelines*: a document is a directed acyclic graph of units (a unit is a node, or a
loop or stage container with an internal child cursor), joined by typed edges, with bounce-capped
back-edges that send the walk back. A run of a document is a state file that every command loads, changes
and saves. A node may call another pipeline; parent and child runs talk through files only. Around the walk
stand a small reference language in the documents, a hand-written configuration format, a schedule search
and a directory writer that must leave nothing behind when it fails.

## How the project is laid out

| file | what it holds |
|---|---|
| `Documents`, `Validator` | documents, paths, acyclicity; the graph checks as the code runs them |
| `WalkState`, `Dispatch` | the pure meaning of each walk function: edge states, joins, skip fixpoint, bounce, record, pick |
| `Walk` | the run as an object updated in place, one method per walk function, each equal to its meaning |
| `Frontier`, `Records`, `Picks` | what a state, a record and a pick come to, told from statuses, edge kinds, counters and caps alone |
| `WalkInvariants`, `Moves`, `Machine` | edge consistency; the seven moves; the engine as a machine over all runs |
| `Runs` | every run of every valid document as a chain of moves, stale hand-outs included |
| `Termination`, `Endings` | the potential that bounds every run; what each outcome says about the final state |
| `BackEdges` | the counters of the back-edges over every execution |
| `CallResults` | from the end of a child to the line its parent writes |
| `Lineage` | every run of the tree over all valid documents: depth, call path, and whom each unit waits for |
| `Progress` | no deadlock of parent and child runs, over every execution |
| `CallTree`, `CallBound`, `SessionCap` | the tree of runs: its bookkeeping, its size, and the session budget |
| `Sessions`, `Containers`, `Schedule`, `Drivers`, `Sequential` | one unit's own run; schedule independence, and the chain without edges, calls included, against a sequential interpreter |
| `Visibility`, `References` | who may read whose outputs; the `${...}` language, its static checker and its resolver |
| `Expressions` | expressions as trees: what they come to when printed, checked and substituted |
| `Guards`, `Stalls`, `SpentOnCall` | concrete runs that show why theorems carry a guard or an exception, and one that meets every assumption |
| `ConfigParser`, `ConfigPrinter`, `ConfigReadBack`, `ConfigRoundTrip` | the restricted YAML subset and its round trip |
| `ConfigEdit`, `ConfigLeaves`, `ConfigPages`, `ConfigCommand`, `ConfigBlocks` | the command that sets one scalar, and replacing a block, over pages with comments and blank lines |
| `ConfigInline`, `ConfigWrites` | what a value on one line means, and what the printers write, to the letter |
| `ConfigHoist`, `ConfigTab` | two pages on which these change more than they should |
| `Calendar`, `Cron` | the calendar, and the search for a schedule's next instant |
| `Schedules` | schedules as the lists their text spells, and what the search over the text finds |
| `PipelineCreate` | the all-or-nothing directory writer, with one operation that fails |
| `Strings`, `Counting` | the Python string operations and the arithmetic that the others share |

Where the code works by changing things step by step, the model has a method with a loop or an object with
fields, and its contract ties the result to a function; what the code promises is then proved of that
function. The in-place methods of `Walk` state their whole new state that way, and every theorem on runs is
about the functions they equal. What these functions are is said a second time, as relations that name none of
them, in `Frontier`, `Records` and `Picks`; `Expressions`, `ConfigInline`, `ConfigWrites` and `Schedules` do the
same for the texts.

## What the code does not promise

Some statements one would expect are false of the code. Each is proved in the form in which it holds, with
the exact condition or with a concrete run that breaks it.

- A pick tests the session budget before it asks whether the walk is over. A run whose last call spends the
  last session therefore ends *capped* although everything succeeded; `Endings.PickOfFinishedWalk` gives
  the exact condition and `SpentOnCall.CappedThoughAllSucceeded` an execution. It is the one point where a
  document without edges departs from a sequential interpreter (`Sequential.EndsLikeInterpreter`,
  `SpentOnCall.InterpreterSucceeds`).
- A call that cannot start fails in the middle of a pick and may fire a back-edge. Candidates computed before
  that can then be handed out although their parents are pending again (`Guards.MixedFrontierGoesStale`).
  Edge consistency, and what rests on it (no walk stalls, the ancestors of a unit that is out have run), is
  therefore proved for documents in which this cannot happen (`Safe`): no back-edge leaves a unit that holds a
  call, or else all joins are "all" and whatever the bounce re-pends is comparable with that unit. The bound on
  a run's length, honest endings and the absence of deadlock hold in every execution over all valid documents
  (`Termination.RunBound`, `Endings.EveryEndingFaithful`, `Progress.NoDeadlock`).
- Outside `Safe` a validated document can end in "walk stalled", and the refused pick does damage: it has
  consumed the outcomes of its children and does not save the state, so the next pick starts these children
  anew without testing the budget. `Stalls.StalledRunOvershoots` is such an execution; it ends with seven
  sessions spent on a budget of six. The budget and the size of the call tree are therefore bounded over all
  valid documents as long as no pick has stalled (`SessionCap.CapHolds`, `CallBound.TreeSizeBound`), and
  without that proviso where every document is `Safe` (`SessionCap.CapHoldsWhereSafe`). That every document
  outside `Safe` can stall is not claimed: `Safe` looks at the graph alone, and whether such a run stalls
  depends on which calls are refused and which sessions fail.
- The budget also needs a batch to be recorded or retried before the next pick
  (`Guards.CapNeedsDiscipline`).
- A bounce that re-pends a unit which is out on a call leaves its child's outcome behind. That each outcome is
  consumed exactly once is therefore proved for documents in which no bounce does so (`TreeDoc`); documents
  without back-edges and documents without calls are such (`CallTree.PlainTreeDoc`), and so is one whose
  back-edge returns to a unit comparable with every call it re-pends. Depth, call path and progress need no
  such guard (`Lineage.ExecFine`, `Progress.NoDeadlock`).
- The documentation of an `any` join says it is ready when one edge is satisfied. The code also waits until no
  incoming edge is open; the model follows the code (`WalkState.Met`).
- Setting one scalar changes exactly that leaf unless lines of the edited block are let out of it: a block
  whose key line is followed by a comment or a blank line is taken for a scalar, and what stood in it may then
  be read one level up. `ConfigCommand.SetCliExact` gives the exact condition, `ConfigHoist.HoistedLeaf` a
  page whose other leaf changes.
- Replacing a block is a one-key update if and only if the rows that the scan cuts out take nothing with them:
  any other key they define must be defined again behind them or have meant the same before them, and behind
  them the key itself must not stand with another value (`ConfigBlocks.SetBlockExact`). They can take a key
  with them because the parser strips a leading tab, while the scan for the end of the block takes it for
  indentation: `ConfigTab.TabbedKeyLost` is a page that loses a key.
- Printing a mapping and reading it back is the identity if and only if the mapping holds no integer, no text
  or list item spelled like a flag, and no line break (`ConfigRoundTrip.RoundTripExact`).
- Substitution prints what the text means if and only if the stand-in for an escaped opener begins nowhere else
  in what is printed, or the text is one reference to a value that is no string
  (`References.SubstituteExact`; `References.StandInMisread` is a text where it fails). What the text means is
  one pass over the raw text where no reference holds an escaped opener; in one that does, the reference is
  read with the stand-in in it (`References.ShownIsOnePass`, `References.EscapedBodyMisread`).
- A schedule that parses may have no next fire: 29 February, asked at the epoch, is outside the 367 days that
  are searched (`Cron.LeapDayMissed`, `Cron.LeapDayExpression`). Day of month and day of week must both match,
  whereas the crontab utility of POSIX.1-2017 (INPUT FILES) lets either match when both are restricted.
- A refused create leaves nothing behind, except when the failing operation is the making of a missing parent
  directory that is not the first: the parents made before it stay. `PipelineCreate.Disk.CreatePipeline`
  states both halves.

## Model

| member | source | states |
|---|---|---|
| Validator.ForwardLists | engine/lib/pipeline.py:1345-1346 | the successor lists hold exactly the forward edges between top-level units |
| Validator.InDegrees | engine/lib/pipeline.py:1349-1352 | the counters equal the number of incoming forward edges, parallel edges counted apart |
| Validator.Peel | engine/lib/pipeline.py:1349-1365 | the queue of the acyclicity test leaves a unit over if and only if some unit is its own strict ancestor |
| Validator.PeelVerdict | engine/lib/pipeline.py:1361-1365 | a peeling order that has stopped covers all units exactly when the forward edges are acyclic |
| Validator.FindsSource | engine/lib/pipeline.py:1372-1382 | the stack search of one back-edge finds its source if and only if the source is reachable from the target |
| Validator.CheckEdges | engine/lib/pipeline.py:1313-1388 | which errors the graph checks report: each badly shaped edge, a cycle, each back-edge whose target is no ancestor, and no others |
| Validator.AcceptedIffValid | engine/lib/pipeline.py:1345-1388 | on otherwise well-formed documents the graph checks report nothing exactly for valid documents |
| Validator.StartedValid | engine/lib/pipeline.py:424-433 | a valid document stays valid when a run starts and the implicit success chain is written into it |
| Documents.AcyclicRank | engine/lib/pipeline.py:1347-1365 | an acyclic document has a numbering that grows along every edge |
| WalkState.SkipSetClosed | engine/lib/pipeline.py:2036-2044 | the skipped units are the least set closed under "doomed once these are skipped" |
| WalkState.SkipSetDoomed | engine/lib/pipeline.py:2036-2044 | no unit is skipped without cause: after the fixpoint each skipped unit is doomed |
| WalkState.SkipsCell | engine/lib/pipeline.py:2036-2044 | skipping changes exactly the cells of that set, and no pending unit outside it is doomed |
| WalkState.CandidatesExact | engine/lib/pipeline.py:2047-2057 | the candidates are exactly the dispatched and the ready units, each once, in document order |
| WalkState.AfterSession | engine/lib/pipeline.py:2862-2892 | a recorded session leaves the container cursor within its children and rounds and the unit pending, succeeded or failed |
| WalkState.AfterCall | engine/lib/pipeline.py:2539-2574 | the same for a call that ended or could not start, and the unit waits for no child any more |
| WalkState.Recorder | engine/lib/pipeline.py:2809-2818 | the unit a record goes to is dispatched and expects that node; there is none only if no dispatched unit expects it |
| Frontier.JoinMeans | engine/lib/pipeline.py:1991-2033 | a join holds, or can no longer hold, exactly as the statuses of the sources and the kinds of the edges say; so do the kinds a unit was reached by |
| Frontier.CandidatesMean | engine/lib/pipeline.py:2014-2057 | in every state a unit is a candidate if and only if it is out, or it is pending and nothing gates it, or each source succeeded into a success or completion edge or failed into a failure or completion edge, or, with an "any" join, all sources have ended and one did so |
| Frontier.SkipsMean | engine/lib/pipeline.py:2026-2044 | the skip loop ends in the one state in which exactly the pending units that it cuts off are skipped: with an "all" join by one source that was skipped or ended the other way, with an "any" join by all |
| Frontier.SettleMeans | engine/lib/pipeline.py:2075-2120 | in every state, after a unit has ended, the first back-edge that fits its end and is below its cap is taken and counted, its target and all downstream of it start over, and then what is cut off is skipped |
| Records.SessionMeans | engine/lib/pipeline.py:2862-2892 | a recorded session is one session spent, one line of history with the kinds the unit was reached by, the unit's next record, and what follows its end |
| Records.CallMeans | engine/lib/pipeline.py:2539-2574 | so is a recorded call, with no session spent |
| Records.OutcomeMeans | engine/lib/pipeline.py:2123-2145 | a walk is capped if a failure that a round cap made is left alone, failed if another is, and a success if none is; left alone means that no failure or completion edge leads from it to a unit that ran |
| Records.RecordMeans | engine/lib/pipeline.py:2802-2914 | a whole record, in every state: refused, handed back, or booked; then the run goes on while a unit is out or one may go within the budget, and otherwise ends capped, stalls, or ends as its walk is judged |
| Picks.StartMeans | engine/lib/pipeline.py:2666-2690 | a dispatched call spends a session; a child starts if and only if it is at most three calls deep, its pipeline is not on the call path and resolves, and its name is neither refused nor taken; otherwise the call is booked as failed |
| Picks.BatchMeans | engine/lib/pipeline.py:2693-2765 | a whole pick: rounds that only spend sessions on calls, then one that hands out, in document order, the first of the session units it may, as many as asked for, as run in parallel and as sessions are left, and one at least; or waits for what is out, or finds the run over |
| Picks.BatchWithin | engine/lib/pipeline.py:2750-2755 | a batch is never larger than max_parallel allows nor than was asked for, and is in document order |
| Dispatch.ReentryProgress | engine/lib/pipeline.py:2757-2765 | whenever a pick calls itself again it has spent at least one session and is within the cap, so it ends |
| Walk.Run.SkipPass | engine/lib/pipeline.py:2036-2044 | one pass of the skip loop adds doomed units only, and changes nothing exactly when the set is closed |
| Walk.Run.PropagateSkips | engine/lib/pipeline.py:2036-2044 | the in-place loop ends at the least skip fixpoint, whatever the scan order |
| Walk.Run.ResetForBounce | engine/lib/pipeline.py:2075-2094 | the in-place reset returns exactly the target and everything reachable from it to its initial cell |
| Walk.Run.TraverseBackEdges | engine/lib/pipeline.py:2097-2120 | at most one back-edge fires, the first that matches with bounces left, and its counter grows by one; `Frontier.SettleMeans` says which that is without naming the test |
| Walk.Run.RecordCallEntry | engine/lib/pipeline.py:2539-2574 | the state after a call's outcome is recorded |
| Walk.Run.StartCallUnit | engine/lib/pipeline.py:2666-2690 | run and log directory after a call start: one session spent, child started, parked on, or failed |
| Walk.Run.SweepCallUnits | engine/lib/pipeline.py:2598-2663 | run and log directory after the sweep: outcomes consumed, live children awaited, vanished ones restarted |
| Walk.Run.PickCandidates | engine/lib/pipeline.py:2047-2057 | the frontier computed by the loop, which `Frontier.CandidatesMean` describes |
| Walk.Run.OutcomeOfWalk | engine/lib/pipeline.py:2123-2145 | the outcome computed by the loops over failed units and their handlers |
| Walk.Run.RecordOutcome | engine/lib/pipeline.py:2802-2914 | the log directory and the answer after a record, refused ones included, as `Records.RecordMeans` describes them |
| Walk.Run.PickBatch | engine/lib/pipeline.py:2693-2765 | the log directory, the answer and the run after a pick, self-calls included, as `Picks.BatchMeans` describes them |
| WalkInvariants.SkipsConsistent | engine/lib/pipeline.py:2014-2044 | once every unit is justified, the skip fixpoint also leaves no doomed unit pending |
| WalkInvariants.BounceReasoned | engine/lib/pipeline.py:2075-2120 | a bounce keeps every unit justified, because what it resets is closed under forward edges |
| WalkInvariants.RecordSessionConsistent | engine/lib/pipeline.py:2862-2892 | edge consistency survives every recorded session, with its bounce and its skips |
| WalkInvariants.RecordCallConsistent | engine/lib/pipeline.py:2539-2574 | edge consistency survives every recorded call |
| WalkInvariants.AncestorsRan | engine/lib/pipeline.py:2014-2023 | along every path of "all" joins, whoever meets its join has only ancestors that ran |
| WalkInvariants.ComparableExclusive | engine/lib/pipeline.py:2014-2023 | then two comparable units are never live with their joins met at once |
| Moves.MoveConsistent | engine/lib/pipeline.py:2693-2765 | each of the seven moves keeps edge consistency |
| Moves.PickReached | engine/lib/pipeline.py:2693-2765 | a whole pick, with sweep, call pass, step pass and self-calls, is a sequence of enabled moves |
| Machine.RunsReached | engine/lib/pipeline.py:2693-2914 | in every execution of the engine every run is in a state that moves alone reach |
| Machine.EdgeConsistency | engine/lib/pipeline.py:2014-2044 | in every state of every run: who entered met its join, who is skipped is doomed, and no pending unit is doomed |
| Machine.SomethingReady | engine/lib/pipeline.py:2707-2723 | in a consistent state with a pending unit and none dispatched, some unit is ready |
| Machine.WalkNeverStalls | engine/lib/pipeline.py:2714-2723 | in every state of every run neither a pick nor a record raises "walk stalled", and no pick is refused |
| Termination.SessionFalls | engine/lib/pipeline.py:2862-2892 | every recorded session lowers the potential, whether or not it bounces |
| Termination.CallFalls | engine/lib/pipeline.py:2539-2574 | so does every recorded call |
| Termination.MovePotential | engine/lib/pipeline.py:2097-2120 | the other moves leave the potential and the history alone; each finished child adds one line |
| Termination.RunBound | engine/lib/pipeline.py:2075-2120 | in every execution over valid documents, whatever the session cap, a run records at most (1 + all bounce allowances) times (children times rounds, summed) entries |
| BackEdges.RunsCounted | engine/lib/pipeline.py:2112-2119 | in every execution no counter of a back-edge is past the cap of a back-edge between its two units |
| BackEdges.EndTakesBackEdge | engine/lib/pipeline.py:2097-2120 | in every execution, right after a recorded session has ended its unit and the run went on, a back-edge that fits the end was taken and counted, or each that fits is at its cap |
| Endings.SuccessIsHonest | engine/lib/pipeline.py:2123-2145 | a finished walk that skipped no unit without parents succeeds if and only if from every failed unit satisfied failure or completion edges lead through units that ran to a success; and then some unit succeeded |
| Endings.EveryEndingFaithful | engine/lib/pipeline.py:2380-2406 | in every execution over valid documents every ending, by pick or by record, happens with nothing dispatched, and its outcome says what the state says: success, failure with no round-capped failure left alone, or capped by budget or by rounds |
| Stalls.StalledRunOvershoots | engine/lib/pipeline.py:2598-2663 | a disciplined execution over valid documents in which a pick answers "walk stalled", and after which the run has spent more sessions than its cap |
| Endings.PickOfFinishedWalk | engine/lib/pipeline.py:2693-2706 | a pick of a finished walk answers the walk's outcome exactly when a session is left or that outcome is the cap |
| SpentOnCall.CappedThoughAllSucceeded | engine/lib/pipeline.py:2693-2706 | an execution whose last pick starts a call with the last session: every unit has succeeded, the walk would be judged a success, and the run ends capped |
| Runs.RunsLed | engine/lib/pipeline.py:2693-2914 | in every execution over valid documents, after stalls and vanished files too, each run is where a chain of skips, hand-outs, started calls and possible records of its own leads |
| Runs.RunsOwn | engine/lib/pipeline.py:2598-2663 | so a unit that waits always waits for its own run's child of the node it stands at |
| Lineage.ExecFine | engine/lib/pipeline.py:1908-1961 | in every execution over valid documents every run is at most three calls deep on a call path without repeats |
| Lineage.ExecMinds | engine/lib/pipeline.py:2598-2663 | as long as no pick has stalled, every unit that waits, waits for its own child, which is running or has left its outcome |
| Lineage.SafeNeverStalls | engine/lib/pipeline.py:2716-2721 | where every document is safe no pick of any execution stalls |
| CallTree.SweepUnitTree | engine/lib/pipeline.py:2598-2663 | the sweep of one unit waits, or consumes the parked outcome of its own child as it was parked and removes it; nothing is restarted |
| CallTree.StartCallTree | engine/lib/pipeline.py:1908-1961 | starting a child keeps the bookkeeping of the whole tree |
| CallTree.PickTree | engine/lib/pipeline.py:2693-2765 | so does a whole pick |
| CallTree.ExecTree | engine/lib/pipeline.py:2347-2388 | in every execution each waited child is either live or parked, never both, for exactly the unit that started it; what is parked, `CallResults.EndIsFaithful` says |
| CallResults.EndIsFaithful | engine/lib/pipeline.py:2347-2388 | in every execution a child's state file goes exactly when an event ends it, the word it leaves says success exactly when its outcome does, and that outcome says what its last state says |
| CallResults.WordStays | engine/lib/pipeline.py:2598-2632 | that word stays as it is through all events but a pick of the parent |
| CallResults.CallRecordsOutcome | engine/lib/pipeline.py:2598-2663 | from the end of a child to its parent's next pick: the first line this adds for the unit that waits is a success if and only if the child ended as one, unless the sweep took a back-edge before it came to the unit |
| Progress.NoDeadlock | engine/lib/pipeline.py:2598-2663 | in every execution over valid documents, below every live run some run has a session to record or a pick that does more than wait; that pick is not refused for what is out, and does not stall where its document is safe |
| CallBound.PickFathered | engine/lib/pipeline.py:2666-2690 | a pick adds only fresh children of its own run, no more than the sessions it spent, and leaves every other run alone |
| CallBound.FamilySum | engine/lib/pipeline.py:2666-2690 | what a pick adds to a family was already counted as room of the run that paid for it |
| CallBound.TreeSizeBound | engine/lib/pipeline.py:1908-1961 | over all valid documents with caps of at most c, as long as no pick has stalled, at most 1 + c + c^2 + c^3 runs ever carry a trigger's name for each time it was started |
| SessionCap.PickWithinCap | engine/lib/pipeline.py:2693-2755 | a pick never takes sessions and outstanding sessions past the cap by more than what was out before it |
| SessionCap.CapHolds | engine/lib/pipeline.py:2047-2057 | over every disciplined execution of valid documents in which no pick stalled, sessions plus outstanding sessions never exceed the cap, in every run, back-edges and calls included |
| SessionCap.CapHoldsWhereSafe | engine/lib/pipeline.py:2693-2755 | where every document is safe the discipline alone is enough |
| Guards.CapNeedsDiscipline | engine/lib/pipeline.py:2048-2051 | a valid document and three acts without the discipline after which three sessions stand against a cap of two |
| Guards.MixedFrontierGoesStale | engine/lib/pipeline.py:2707-2737 | a valid document, a reachable consistent state, and a pick that hands out a unit whose parent is pending |
| Guards.AssumptionsMet | engine/lib/pipeline.py:1582-1612 | the assumptions of the theorems on executions can be met together: a run of a valid document begins under all of them |
| Sessions.PickIsHandOut | engine/lib/pipeline.py:2693-2765 | without calls a pick is one hand-out of the run alone |
| Sessions.RecordIsTell | engine/lib/pipeline.py:2802-2914 | and a record is one report, with or without calls, wherever the unit it goes to waits for no child (`Sessions.NoCallsHanded`: without calls it never does) |
| Containers.UnitWalks | engine/lib/pipeline.py:2849-2890 | a unit's whole own run, for any answers: a stage succeeds only after each child in turn, a loop by an exit of its last child or fails as capped after its last allowed round, an error fails the unit at once |
| Schedule.SolutionUnique | engine/lib/pipeline.py:1998-2033 | edges, joins and answers declare at most one end state |
| Schedule.CompletedSolves | engine/lib/pipeline.py:2862-2914 | every completed schedule ends in the declared state, with the declared history per unit |
| Schedule.ScheduleIndependence | engine/lib/pipeline.py:1998-2057 | two completed schedules of the same answers agree on every unit, every history line and the outcome |
| Drivers.DriversAgree | engine/lib/pipeline.py:2768-2914 | the same for drivers that pick any batch size, report, retry and emit again in any order |
| Sequential.StartedChain | engine/lib/pipeline.py:424-433 | a document without edges, with or without calls, starts as the success chain over its units |
| Sequential.RunsLikeInterpreter | engine/lib/pipeline.py:1582-1611 | on that chain the walk is at every moment where a plain interpreter of the nodes is, whatever the other runs do: same visits, a session for each, everything after a failed unit skipped, same outcome save for a last call |
| Sequential.EndsLikeInterpreter | engine/lib/pipeline.py:2693-2706 | at its end the run has made the interpreter's visits and spent its sessions; the outcomes agree if and only if a session is left, the last visit was no call, or the interpreter is capped too |
| SpentOnCall.InterpreterSucceeds | engine/lib/pipeline.py:2693-2706 | a session and then a detached call on a budget of two: the run is capped, the interpreter succeeds |
| Visibility.Ancestors | engine/lib/pipeline.py:870-894 | the search computes exactly the strict ancestors |
| Visibility.SoftVisible | engine/lib/pipeline.py:910-929 | a node is soft-visible to a unit if and only if it stands in the source of a back-edge that, fired, re-pends the unit, and the unit is strictly upstream of that source; every node of a container counts |
| Visibility.NodesRecorded | engine/lib/pipeline.py:897-907 | in every execution over valid documents every node of a unit that succeeded is in the history, and so is every earlier sibling of the node a unit stands at |
| Visibility.VisibleRan | engine/lib/pipeline.py:897-907 | whenever a unit is out, every ancestor from which "all" joins lead to it ran (in a safe document), every node of an ancestor that succeeded is in the history, and so is every earlier sibling; in a document of "all" joins these are all the ancestors |
| References.SplitArgsLoop | engine/lib/pipeline.py:481-509 | the character loop refuses a text if and only if a quote or a parenthesis is left open; otherwise the arguments are what stands between neighbouring commas outside quotes and at depth 0, stripped, and blanks alone hold none |
| References.CheckedExpr | engine/lib/pipeline.py:932-996 | an expression the static checker accepts resolves; only a soft read may find its output missing, and only as the first argument of default |
| References.GateExact | engine/lib/pipeline.py:1049-1077 | the scan's quick gate loses no text in which an opener survives escaping |
| References.CheckedSubstitutes | engine/lib/pipeline.py:999-1095 | a string the scan accepts substitutes without error in every context that supplies what is declared, whether or not soft outputs exist |
| References.OpenExactly | engine/lib/pipeline.py:580-584 | on every text, after protection a stray opener remains exactly when a reference of the raw text is never closed |
| References.SubstituteExact | engine/lib/pipeline.py:573-591 | on every text and in every context substitution succeeds where one pass does that holds escaped openers apart, and prints what that pass means if and only if the stand-in begins nowhere else in it or the text is one reference to a value that is no string |
| References.ShownIsOnePass | engine/lib/pipeline.py:573-591 | where no reference holds an escaped opener, what that pass means is the plain left-to-right pass over the raw text |
| References.SubstituteIsOnePass | engine/lib/pipeline.py:573-591 | over NUL-free text and values substitution succeeds and prints exactly as one left-to-right pass that never looks at a value again |
| References.ValueVerbatim | engine/lib/pipeline.py:573-591 | a value stands in the text exactly as it is, whatever references it seems to contain; the text before and after it is substituted on its own |
| References.EscapeRoundTrip | engine/lib/pipeline.py:573-591 | escaping every opener and then substituting succeeds on every text in every context, and gives the text back if and only if the stand-in stands nowhere in it, whole or with an opener for its last character |
| References.StandInMisread | engine/lib/pipeline.py:441 | a text that already holds the stand-in becomes an opener |
| References.EscapedBodyMisread | engine/lib/pipeline.py:579-591 | an escaped opener inside a reference makes a resolvable reference fail |
| References.IntLiteralRoundTrip | engine/lib/pipeline.py:512-520 | every integer written in decimal is read back as that integer, never as a reference |
| References.SlugShape | engine/lib/pipeline.py:466-468 | a slug is never empty, holds only lower-case letters, digits and single dashes, and has no dash at either end |
| Expressions.SubstituteMeans | engine/lib/pipeline.py:523-591 | every expression, calls nested in any way, is substituted by what its tree says, with the type of the value, in every context: references, literals, numbers, default, concat and slug |
| Expressions.DefaultReads | engine/lib/pipeline.py:541-546 | default over a reference gives its value where there is one that is not null, empty, false or zero, and the literal otherwise; a missing output falls back, a missing parameter or run field is refused |
| Expressions.ConcatReads | engine/lib/pipeline.py:469-475 | concat is the printed values in order, and refused with the first argument that is |
| Expressions.SlugReads | engine/lib/pipeline.py:466-468 | slug keeps exactly the letters and digits, lower-cased and in order, with one dash for each stretch of anything else between two of them, and is "x" where there are none (`Expressions.LettersOf`: every text has its positions) |
| Expressions.ValueReads | engine/lib/pipeline.py:562-566 | how each type of value prints into a text |
| Expressions.CallRefused | engine/lib/pipeline.py:505-559 | a call of any other function is refused, and so is one that leaves a quote or a parenthesis open |
| Expressions.RefRefused | engine/lib/pipeline.py:444-464 | a reference of any other form is refused |
| Expressions.CheckMeans | engine/lib/pipeline.py:932-1095 | the static scan accepts an expression if and only if it names declared parameters that are no secret, outputs of allowed nodes, soft ones only as the first argument of default, and the four run fields, and each call has its number of arguments |
| ConfigParser.UncommentLoop | engine/lib/config_parser.py:16-32 | the quote-aware comment loop |
| ConfigParser.SplitTopLoop | engine/lib/config_parser.py:35-60 | the top-level comma loop |
| ConfigParser.ParseLoop | engine/lib/config_parser.py:95-120 | the line loop with its indentation stack, errors included |
| ConfigParser.ParseLegible | engine/lib/config_parser.py:95-120 | nothing read from any text holds a line break or an integer |
| ConfigReadBack.ParsePage | engine/lib/config_parser.py:95-120 | what nested block text means, for any indentation steps, scalars and repeated keys |
| ConfigReadBack.QuotedRaw | engine/lib/config_parser.py:90-92 | a quoted text without its quote and without a line break reads back as itself |
| ConfigReadBack.ListRaw | engine/lib/config_parser.py:71-75 | a printed list of tokens reads back item by item |
| ConfigInline.InlineReads | engine/lib/config_parser.py:63-92 | a value on one line is read as its tree says: words, flags, quoted texts, lists and flow mappings, nested; a flow mapping straight inside another is refused |
| ConfigInline.LineReads | engine/lib/config_parser.py:95-120 | so it is behind its key, whatever white space and comment trail it |
| ConfigInline.BlankReads | engine/lib/config_parser.py:95-120 | a line of white space, or with nothing but a comment, says nothing |
| ConfigWrites.LinesMean | engine/lib/config_parser.py:95-98 | where splitlines() breaks a text, line by line (`ConfigWrites.LastLineMeans`: the last line needs no break) |
| ConfigWrites.EmitMeans | engine/lib/dashboard_control.py:499-544 | a mapping prints if and only if no text in it holds a line feed or both kinds of quotes, list items are tokens, and keys are made of letters, digits, dots, underscores and dashes |
| ConfigWrites.LineMeans | engine/lib/dashboard_control.py:499-544 | the line of a scalar or a list, to the letter: bare where it is a token, otherwise in the quotes it does not hold |
| ConfigRoundTrip.EmitReadsNormal | engine/lib/dashboard_control.py:521-544 | printing then reading turns integers into text and flag-like texts into flags, and changes nothing else |
| ConfigRoundTrip.RoundTripExact | engine/lib/dashboard_control.py:499-544 | a mapping that prints reads back as itself if and only if it has no integer, no flag-like text or item and no line break |
| ConfigRoundTrip.RolesBlockReads | engine/lib/dashboard_control.py:547-555 | the roles block reads back as one key with the mapping it printed |
| ConfigPrinter.SetBlockLoop | engine/lib/dashboard_control.py:558-583 | the scan for the block's first and last line |
| ConfigWrites.SetBlockMeans | engine/lib/dashboard_control.py:558-583 | on every text the rows from the first that starts with the key and a colon to the next of the top level, which is no blank row and no comment, are exchanged for the block; without such a row the block is put at the end |
| ConfigBlocks.SetBlockExact | engine/lib/dashboard_control.py:558-583 | on a page with comments and blank lines it replaces one stretch of rows or adds the block at the end, keeps every other row, and the page then means the old mapping with that one key set if and only if the rows cut out take nothing else with them |
| ConfigBlocks.SetBlockPutsKey | engine/lib/dashboard_control.py:558-583 | where no key of column 0 stands behind a tab or has a blank before its colon, and the key stands once at most, the mapping keeps its order too |
| ConfigTab.TabbedKeyLost | engine/lib/dashboard_control.py:570-576 | a page on which replacing one block drops another key, which stands behind a tab |
| ConfigBlocks.SetBlockUpdates | engine/lib/dashboard_control.py:558-583 | set_block then parse is exactly a one-key update of the mapping |
| ConfigEdit.SetScalarLoop | engine/lib/config_parser.py:132-173 | the scan with its path stack, and the replaced or inserted line |
| ConfigWrites.FormatMeans | engine/lib/config_parser.py:185-200 | a written scalar is bare where it is letters, digits and four marks, and otherwise in the quotes it does not hold; it is refused exactly when it holds both |
| ConfigWrites.UnchangedMeans | engine/lib/config_parser.py:176-222 | the command leaves the text alone exactly when the path holds this text, flag or number already |
| ConfigLeaves.ScanAims | engine/lib/config_parser.py:142-170 | over the key lines the scan finds the line the tree says: the leaf, the parent of a missing leaf, a mapping to refuse, or nothing |
| ConfigLeaves.AimedLine | engine/lib/config_parser.py:150-160 | a path leads to a line exactly when something stands there; that line is its own, and a deeper one follows exactly when it has something inside |
| ConfigLeaves.PlacedHeads | engine/lib/config_parser.py:156-173 | the edited key lines are the key lines of the edited tree |
| ConfigPages.PageMeans | engine/lib/config_parser.py:95-120 | a page with comments, blank lines and trailing comments means the tree of its key lines |
| ConfigPages.LocateStops | engine/lib/config_parser.py:142-170 | on such a page the scan stops where it stops over the key lines alone, except that a comment or blank line after a key line hides the block behind it |
| ConfigPages.RenewedReads | engine/lib/config_parser.py:161-169 | the replaced line says the new scalar and keeps its trailing comment |
| ConfigPages.EditedSkim | engine/lib/config_parser.py:156-173 | the edited page has exactly one key line replaced or added, and every other line as it was |
| ConfigCommand.WroteReads | engine/lib/config_parser.py:132-173 | what the path reads as after the edit |
| ConfigCommand.FrameHolds | engine/lib/config_parser.py:132-173 | where nothing that is let out of its block shows, every path apart from the edited one reads as before |
| ConfigCommand.FrameBreaks | engine/lib/config_parser.py:156-160 | where something does, some path apart from the edited one reads differently |
| ConfigCommand.SetCliExact | engine/lib/config_parser.py:202-242 | over pages with comments, blank lines and flow mappings: when the command leaves the file alone, when it writes and what, and that all other leaves are kept if and only if nothing let out of its block shows |
| ConfigCommand.SetCliSetsLeaf | engine/lib/config_parser.py:132-135 | on a settable path it writes whenever the value can be written, and exactly that leaf changes |
| ConfigHoist.HoistedLeaf | engine/lib/config_parser.py:156-160 | a page with a comment behind a block's key, whose edit changes another leaf |
| Calendar.OrdinalNext | engine/lib/roles.py:911 | the next day has the next ordinal, over month ends, year ends and leap days |
| Calendar.OrdinalOf | engine/lib/roles.py:907-911 | stepping from the epoch and the closed day count agree, so dates and timestamps determine each other |
| Calendar.WeekdayOf | engine/lib/roles.py:896 | the weekday of a day number |
| Cron.CronFieldLoop | engine/lib/roles.py:837-869 | the loop over the parts of a field |
| Cron.FieldExact | engine/lib/roles.py:837-869 | a field is read iff all its parts are; it holds exactly the values some part covers, all in range, at least one |
| Schedules.FieldMeans | engine/lib/roles.py:837-869 | a printed field of stars, numbers and ranges with steps is read if and only if each item is in range and has a step of at least one, and holds exactly the values from the first on by whole steps |
| Schedules.NumberMeans | engine/lib/roles.py:847-865 | numbers as int() reads them: a sign may stand in front, and an underscore between two digits |
| Cron.NextFireLoop | engine/lib/roles.py:872-912 | the nested search over days, hours and minutes finds what a plain minute-by-minute search finds |
| Cron.NextFireLeast | engine/lib/roles.py:872-912 | the result is the least matching instant strictly after now in the searched days, and none iff no instant there matches |
| Cron.NextFireMonotone | engine/lib/roles.py:872-912 | a later now never gives an earlier instant, and until the next instant comes it stays the next |
| Cron.CronDueExact | engine/lib/roles.py:983-1001 | due iff the schedule parses and some matching instant lies after the last fire and not after now, within the searched days |
| Schedules.NextFireMeans | engine/lib/roles.py:872-912 | over the text of a schedule: the first instant after now whose minute, hour, day of month, month and day of week are all listed, Sunday being 0 and 7, within 367 days from that of the next whole minute; none exactly when there is none or a field is out of range |
| Schedules.DueMeans | engine/lib/roles.py:983-1001 | due exactly when the schedule has matched after the last fire and not after now, within those days |
| Cron.LeapDayMissed | engine/lib/roles.py:894-912 | a schedule for 29 February has no next fire when asked at the epoch |
| Cron.LeapDayExpression | engine/lib/roles.py:872-912 | the expression for midnight of 29 February parses and has no next fire at the epoch |
| PipelineCreate.Disk.MakeParents | engine/lib/dashboard_control.py:1404-1432 | how many missing ancestors exist after the making of parents, for every position of the fault |
| PipelineCreate.Disk.Stage | engine/lib/dashboard_control.py:1441-1481 | on success the staging directory holds exactly the document and its referenced briefs; on refusal only scratch, the claim and the new parents differ |
| PipelineCreate.Disk.Record | engine/lib/dashboard_control.py:1509-1521 | the sidecar is installed last, or nothing outside scratch and the new directory differs |
| PipelineCreate.Disk.Cleanup | engine/lib/dashboard_control.py:1410-1427 | the rollback restores every path outside the scratch names, unless the parents were only partly made |
| PipelineCreate.Disk.CreatePipeline | engine/lib/dashboard_control.py:1400-1527 | for a fault at any one operation: success installs exactly document, briefs and sidecar; a refusal leaves every other path as it was, except in one exactly described case; without a fault it succeeds iff the inputs allow it |

## Left out

- Machine.WalkNeverStalls: holds for `Safe` documents; outside them the stall is reachable (`Stalls.StalledRunOvershoots`), and when exactly it is reached is not stated.
- Machine.EdgeConsistency: the same guard; with a call and a back-edge in one frontier the code breaks it (`Guards.MixedFrontierGoesStale`).
- Machine.RunsReached: the same guard; a stale candidate that is handed out is no enabled move.
- Moves.PickReached: the same guard.
- CallTree.ExecTree: installed pipelines do not change while runs are live, no state file vanishes, and no bounce re-pends a unit that is out on a call (`TreeDoc`); such a bounce leaves its child's outcome behind.
- Progress.NoDeadlock: that the driver gives every run its turn is not modelled; the theorem names the run that can move.
- CallResults.CallRecordsOutcome: a back-edge that the sweep takes before it comes to the unit may have started the unit over; then nothing is said of the word.
- BackEdges.EndTakesBackEdge: after a recorded session; after a recorded call the same is `Frontier.SettleMeans` of one state.
- CallBound.TreeSizeBound: as long as no pick has stalled; runs are named by their call path, so the bound is per start of the root.
- SessionCap.CapHolds: for the discipline that no session of a run is out when it is picked, and as long as no pick has stalled; a restart of a vanished child spends without testing the cap.
- Sequential.RunsLikeInterpreter: no child that the run waits for has vanished; a vanished child is started again and pays again.
- Validator.CheckEdges: unknown edge fields, kinds other than the three, and a bounce count on a forward edge, which are errors of one edge on its own.
- Walk.Run.SweepCallUnits: unreadable outcome files, and a child that ended without leaving its outcome before its state file went.
- Walk.Run.RecordOutcome: the record of a call's node while its unit waits for the child; the code takes it like a session's.
- Schedule.ScheduleIndependence: for documents without back-edges; where a back-edge fires the end state depends on the order of work.
- Visibility.VisibleRan: an ancestor behind an "any" join may have been skipped, so that it ran is not said of it; that the others ran needs `Safe`.
- References.SubstituteIsOnePass: conditions on text and values that suffice; `References.SubstituteExact` is exact.
- References.ValueVerbatim: for a text before the value that leaves no reference open and does not end in a dollar sign, and over NUL-free text and values.
- Expressions.SubstituteMeans: for names without dots, blanks, quotes, commas, parentheses, closing braces and dollar signs, literals without their quote, closing braces and dollar signs, and arguments printed with a comma and a blank between them; how any other text splits, `References.SplitArgsLoop` says.
- References.CheckedSubstitutes: a reference to a detached call is refused by name in the code; here detached calls are simply not among the readable nodes. ASCII digits and lower case only.
- ConfigBlocks.SetBlockExact: for pages whose keys are plain and whose lines all end in a line feed.
- ConfigBlocks.SetBlockPutsKey: order of the keys included, for upright pages with the key once at most.
- ConfigCommand.SetCliExact: for pages indented by two spaces a level, whose keys are plain, none twice in one block, and whose lines all end in a line feed, and for paths of plain keys.
- ConfigInline.InlineReads: for words and keys without quotes, brackets, braces, commas and comment signs, and values printed with a comma and a blank between them.
- ConfigParser.ParseLoop: the nested dictionaries the code shares by reference are frames of the indentation stack; Unicode letters and digits are quoted where Python would leave them bare.
- Schedules.NextFireMeans: for fields printed without signs, underscores and leading zeros, which the reader takes too (`Schedules.NumberMeans`).
- Cron.NextFireLoop: instants beyond the year 9999, where the date library raises; non-ASCII digits.
- PipelineCreate.Disk.CreatePipeline: one process, one failing operation, rollback operations succeed, no symbolic links among the parent directories; the validator's verdict and the re-read comparison are parameters.
- Units are named by their position and runs by their call path, so collisions of file names, name length limits and reserved suffixes are parameters (a child start that is refused).
- Node outputs, their declared projection and its failure: a child's parked outcome is whether it succeeded.
- Preparing a step (briefs, footers, accounts, secrets, parameters), the journal, the trust ledger and the session log.
- Corrupt state files, the in-progress and done markers, and crash recovery beyond emitting dispatched units again.
- The per-key shape and character checks of documents are one well-formedness predicate.
- Saving an existing pipeline: if its snapshot copy fails partway, the rollback installs a partial backup.
- The dashboard, console, HTTP pages, quota readers, accounts, credentials and health checks.
