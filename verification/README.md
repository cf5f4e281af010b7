# GenMC: execution graphs, clocks, annotations and files, verified

GenMC is a stateless model checker for weak memory models. It represents an
execution as a graph: one sequence of labels per thread, reads pointing to the
writes they read from, writes listing their readers, every label carrying vector
clocks computed when it was added. Exploring all executions means rewriting that
graph in place - adding labels, re-targeting reads, cutting it back, copying part
of it - while the clocks stay right. This project models that core and four
smaller algorithms of the checker in Dafny 4.11 and proves what they are for.

`dafny verify dfyconfig.toml` checks the whole project.

## How the project is organised

**Clocks** (`Events`, `Clocks`, `DepViews`). A clock with holes, as a value and as
the class that updates it in place. Membership means events of index 1 and above;
begin events are implicitly in every clock, since entries start at 0.

**The graph** (`Graphs`, `ExecutionGraphs`, `Validation`, `PendingRmw`,
`LockMatching`). Labels are records, a graph is a sequence of threads, and the
class `ExecutionGraph` holds one and changes it. Its methods are tied to functions
on graph values, about which the invariants are proved.

**IMM views** (`ImmSpec`, `ImmDriver`, `Causality`, `HbExact`, `Fitting`, `Sources`,
`Restriction`). `ImmSpec` says, kind by kind, which events the views of a label
contain; the driver's loops over local clocks are proved to compute exactly that.
`Causality` and `HbExact` show that such labels keep two invariants, causal closure
of `pporf` and exactness of `hb`. `Restriction` shows that a part of a graph that
knows of nothing outside it inherits them, and `Sources` that every part closed
under program order, reads-from, creation and join is such a part. The order in
the proofs is when views were last computed, not the stamps, because a join is
completed after later labels of other threads.

**Runs** (`Settling`, `StampBounds`, `Trimming`, `Orders`, `Exchanges`, `States`,
`Additions`, `Recompute`, `Cutbacks`, `Runs`, `Outcomes`, `HbRevisits`, `GapViews`,
`Visits`). A state is a graph, the threads that are blocked, and the stamps at which
the graph is not to be cut any more. A blocked thread ends with a join it waits at,
or with a begin whose creation a cut has taken away; the views of that label may be
out of date, and the invariant is about the rest (`Settling`). One lemma about
cutting threads short (`Trimming`) serves cuts and the recomputation of the last
label of a thread, which is treated as taking that label away and adding another. A
backward revisit re-targets a read that other labels may follow (`Exchanges`): after
it, pporf and hb follow different orders, and the graph may have cycles of program
order and reads-from. `Runs` puts it together for every run, `Outcomes`,
`HbRevisits` and `GapViews` say exactly when a cut or a revisit, with gaps or
without, leaves everything right, and `Visits` shows that the driver's methods take
steps of runs.

**Revisits and cuts** (`RevisitSpec`, `CutSpec`, `DepCutSpec`,
`DepExecutionGraphs`, `GraphRuns`). Causal closure is what makes a revisit work:
the view a graph is copied up to contains the write of every read in it. The
in-place cut that resets slots, resizes threads and refills gaps is proved against
an independent description of its result.

**Cases** (`RunCases`, `RevisitCases`, `HelperCases`, `PhiCases`, built with
`Scripts` and `Construction`). Runs, built by the driver's own methods, and programs
for which something fails that the exact conditions rule out. `Construction` says
when the driver makes a revisit, by a plain write or a helped one, on a graph and
what else the driver records of labels.

**Load annotations** (`Annotations`, `InstAnnotators`). A memoised depth-first
search propagates `assume` conditions backwards over SSA code. Phis are
substituted one after another although they are assigned all at once; the project
proves exactly for which edges that is right, and that annotations stay right
wherever execution gets to even across the edge of a block to itself. Definitions
are taken to precede uses within a block, as in SSA.

**Files** (`FileSpec`, `FileSystems`). Block-wise, journaled, delayed-allocation
writes refine writes to a flat byte sequence, and no intermediate state of the
disk, with writes reaching it in issue order, exposes stale bytes.

**Whole-program passes** (`Chains`, `CallInfo`, `Inlining`, `DeadCode`) and the
queue axiom (`Fifo`).

Integers are unbounded here. In the clocks and graphs they are thread numbers,
indices and stamps; in the file system, sizes up to the file-size limit. What
the operators of annotated code compute is a parameter (`Semantics`), so
wrap-around and signedness are whatever the two evaluators share.

## What turned out different from what one might expect

- `copyGraphUpTo` (src/ExecutionGraph.cpp:1415-1436) copies a join whose child has
  not been copied to its end with the join's reference to the finish still in
  place; `cutToStamp` resets it. `validate()` does not look at joins; the invariant
  of runs takes such a thread to be blocked.
- The comment in `cutToStamp` (src/ExecutionGraph.cpp:1359-1362) speaks of
  renewing the views of a join whose finish is gone; the code resets the reference
  only. Until the join is completed again its views mention deleted events, and so
  do those of a begin label whose thread has lost its creation.
  `Outcomes.CutKeepsClocksIff` shows that these are the only cuts after which clocks
  are wrong, `RunCases.JoinOutlivesFinish` that a cut back to a read is one, and
  `Cutbacks.CutKeeps` that only the views of these labels are.
- A child that is joined twice has one finish and two joins, and the finish points
  back to the second. `DepExecutionGraph::cutToStamp` follows that pointer
  (src/DepExecutionGraph.cpp:245-249), so a cut back to a read of the child leaves
  the first join pointing at a deleted finish, where the plain cut resets it
  (`RunCases.JoinedTwice`, `Outcomes.CutsAgreeIff`).
- For a helper revisit `copyGraph` punches two holes into the view
  (src/GenMCDriver.cpp:3642-3643) after the writes that are read internally have
  been put back. If a read of the write left out is kept, its write is an Empty
  label in the copy and `validate()` refuses the graph; otherwise it accepts it
  (`RevisitSpec.RevisitKeepsInverseIff`). `HelperCases.HelperDangles` is a run, of
  additions and forward revisits, after which the driver makes such a revisit.
- After a backward revisit clocks need not be causally closed: a write that is put
  back because it is read within its thread may know the read that is re-targeted,
  and then does not know what the read reads now (`RevisitCases.LoadBuffering`). It
  fails only if some label kept knows the read (`Outcomes.RevisitClosedIff`). Nor need
  hb views hold what comes before: an acquire fence kept after the read has not
  synchronised with what the read reads now (`RevisitCases.StaleFence`,
  `HbRevisits.RevisitHeedsIff`). After a revisit with gaps they can hold too
  much in two ways only: what acquire fences learned through reads that have gone or
  are re-targeted, and, in a begin, a creation that has gone. Nothing else that is left
  out has synchronised (`GapViews.AcquiresKept`, `GapViews.RevisitExactIff`).
- Sequential substitution of phis (src/InstAnnotator.cpp:272-278) is wrong exactly
  if some phi takes, along the edge, the value of a later phi of the same block
  that itself changes (`Annotations.OvertakenEdge`). Phis that use earlier phis of
  their block are fine; `PhiCases.AnnotateLatch` is a program in which execution gets
  to a load that is annotated wrongly. For a block that branches to itself phis are
  not substituted at all. Annotations stay right wherever execution gets to, since
  what lies on the way back to the load has been passed with the same values, but
  unless the phis keep their values (`Annotations.LostUpdate`) an annotation may be
  true where the assume then fails (`PhiCases.AnnotateSpin`).
- `executeWriteFS` (src/Execution.cpp:4170-4174) returns 0, not -1, when the offset
  is beyond the file-size limit or the count is negative.
- `executeTruncateFS` (src/Execution.cpp:3571) refuses to grow a file to exactly the
  file-size limit, although a write can.
- Cut composition needs no assumption on stamps; only the description of what is
  kept does.

## Model

| member | source | states |
|---|---|---|
| Clocks.JoinedHas | src/DepView.cpp:63-85 | The clock `update` computes contains an event (index 1 or more) exactly if one of its operands does, although holes may hide any of them; entries are maxima |
| Clocks.JoinLaws | src/DepView.cpp:63-85 | On what clocks denote, `update` is associative, commutative, idempotent and monotone |
| Clocks.NotCanonical | src/DepView.hpp:40-62 | Clocks with the same members need not be equal as data |
| DepViews.DepView.AddHole | src/DepView.cpp:30-34 | Exactly the event given leaves the set, entries stay |
| DepViews.DepView.AddHolesInRange | src/DepView.cpp:36-40 | Exactly the range given leaves the set, entries stay |
| DepViews.DepView.RemoveHole | src/DepView.cpp:42-45 | At most the event given joins the set, and only if the thread's entry reaches it |
| DepViews.DepView.RemoveAllHoles | src/DepView.cpp:47-50 | Everything up to the thread's entry joins the set |
| DepViews.DepView.Update | src/DepView.cpp:63-85 | The in-place loop over threads computes the join: afterwards the set is the union of the old set and the argument's |
| ImmDrivers.ImmDriver.GetDepsAsView | src/IMMDriver.cpp:52-71 | The union of the pporf views of all dependencies, of all five kinds |
| ImmDrivers.ImmDriver.CalcPPoView | src/IMMDriver.cpp:73-89 | The event itself, what its dependencies know, and what every acquire, fence and begin before it in its thread knows; nothing else, the rest of the thread being holes |
| ImmDrivers.ImmDriver.UpdateRelView | src/IMMDriver.cpp:91-113 | For a release: the whole thread up to it, what the previous release knows, and what every read since knows |
| ImmDrivers.ImmDriver.UpdateReadViewsFromRf | src/IMMDriver.cpp:127-155 | Reads-from: the ppo view of an internal write without the write itself unless it is depended upon; all an external write and the earlier same-address writes of the thread know; its message if the read is an acquire |
| ImmDrivers.ImmDriver.CalcReadViews | src/IMMDriver.cpp:157-169 | All four views of a read have exactly the contents specified over the graph, kind by kind |
| ImmDrivers.ImmDriver.CalcWriteViews | src/IMMDriver.cpp:171-201 | The same for a write: read half of a read-modify-write, release additions, last release at the location |
| ImmDrivers.ImmDriver.CalcWriteMsgView | src/IMMDriver.cpp:203-217 | The message of a plain write is its own hb view if it is a release, else that of the last release at the location |
| ImmDrivers.ImmDriver.CalcRmwWriteMsgView | src/IMMDriver.cpp:219-243 | The message of a read-modify-write adds the message of the write it reads |
| ImmDrivers.ImmDriver.CalcFenceRelRfPoBefore | src/IMMDriver.cpp:245-262 | The backward scan joins the messages of exactly the reads that no acquire fence separates from the new fence |
| ImmDrivers.ImmDriver.CalcFenceViews | src/IMMDriver.cpp:264-277 | The views of a fence, release and acquire side |
| ImmDrivers.ImmDriver.CalcJoinViews | src/IMMDriver.cpp:279-301 | The views of a join, with those of the child's finish if the child has finished |
| ImmDrivers.ImmDriver.CalcStartViews | src/IMMDriver.cpp:303-317 | A start label knows exactly what the create label of its thread knows |
| ImmDrivers.ImmDriver.CalcLockLaporViews | src/IMMDriver.cpp:319-332 | A LAPOR lock also knows what the last unlock of the same lock knows |
| ImmDrivers.ImmDriver.CalcBasicViews | src/IMMDriver.cpp:115-125 | The views of all other labels |
| ImmDrivers.ImmDriver.UpdateLabelViews | src/IMMDriver.cpp:334-418 | Dispatch by kind: for every label the views have exactly the specified contents, and nothing but the views changes |
| ImmDrivers.ImmDriver.ChangeRf | src/IMMDriver.cpp:426-445 | Re-targets a read, wherever it is in its thread, then rebuilds its pporf and hb views from the ppo view it kept: both have exactly the specified contents, and the hb view ends at the read unless the message runs ahead of it |
| ImmDrivers.ImmDriver.UpdateStart | src/IMMDriver.cpp:447-462 | The begin of a thread created again knows exactly what the creation knows, whatever it knew before |
| ImmDrivers.ImmDriver.UpdateJoin | src/IMMDriver.cpp:464-486 | Completes a join if the event given is a finish, and rebuilds its views from its ppo view and the finish, whatever they were |
| Causality.ReleaseIsClosed | src/IMMDriver.cpp:91-113 | Clearing all holes of the thread at a release is sound: with the previous release and the reads since, the view stays closed under "what its members know" |
| Causality.RfIsClosed | src/IMMDriver.cpp:127-155 | Closure survives the hole punched at an internal write: nothing left in the view depends on that write |
| Causality.WriteFits | src/IMMDriver.cpp:171-201 | The clock of a new write is closed over the graph and admits only what the invariant allows |
| Causality.ReadFits | src/IMMDriver.cpp:127-169 | The same for a read |
| Causality.ExtendCausal | src/IMMDriver.cpp:52-201 | Appending a label that fits keeps causal closure and every invariant it rests on |
| Fitting.ComputedFits | src/IMMDriver.cpp:334-418 | Whatever label the driver computes fits the graph it was computed over |
| HbExact.FenceScanComplete | src/IMMDriver.cpp:245-262 | Reads beyond the previous acquire fence, which the scan never reaches, contribute nothing new |
| HbExact.HbViewsExact | src/IMMDriver.cpp:44-50 | Under the invariant, a is in the hb view of b exactly if a is b or reaches b along po, create/start, finish/join and message-to-acquire edges |
| HbExact.PathOrdered | src/IMMDriver.cpp:44-50 | hb paths follow the order in which views were computed, so hb is acyclic |
| HbExact.ExtendHb | src/IMMDriver.cpp:203-317 | Appending a label whose hb and message views fit keeps exactness |
| Fitting.HbComputedFits | src/IMMDriver.cpp:245-317 | The hb view the driver computes is the union of the views of its immediate predecessors |
| Sources.ClosedSupported | src/IMMDriver.cpp:52-317 | Clocks come from earlier events of the thread and from the write, creation or finish a label refers to: a part of a graph that is closed under program order and these references knows of nothing outside it |
| Trimming.RestInv | src/DepExecutionGraph.cpp:207-264 | However threads are cut short, if reads keep their writes and labels that lose their creation or finish end their threads, the rest without those labels satisfies every invariant |
| Additions.AppendKeeps | src/IMMDriver.cpp:334-418 | Adding a label of a running thread keeps the invariant of runs, whatever blocked threads are left with |
| Additions.RecreateKeeps | src/GenMCDriver.cpp:2615-2647 | So does adding a creation whose thread's begin is still there, and bringing that begin up to date |
| Recompute.RetargetKeeps | src/IMMDriver.cpp:426-445 | So does re-targeting the last read of a thread, to an older or a younger write, and rebuilding its views; only cuts between the two are ruled out from then on |
| Recompute.CompleteKeeps | src/IMMDriver.cpp:464-486 | So does completing the join a thread ends with once its child has finished, although the views it had may mention events long deleted |
| Recompute.LastUnknown | src/IMMDriver.cpp:426-486 | No other view mentions the last read or join of a thread |
| Restriction.SupportedCausal | src/ExecutionGraph.cpp:1339-1378 | A part of a graph whose labels know of and refer to nothing outside it inherits causal closure and all it rests on |
| Restriction.SupportedHb | src/ExecutionGraph.cpp:1339-1378 | It inherits exactness of hb too |
| Cutbacks.CutKeeps | src/DepExecutionGraph.cpp:207-264 | So does a cut at any stamp that no younger write has been read across: joins that lose their finish and begins that lose their creation end their threads, which are blocked until they are joined or created again |
| Exchanges.SwapInv | src/IMMDriver.cpp:426-445 | A read in the middle of a thread takes another write, while part of the graph is taken away: all invariants hold of the rest if no other label of it knew the read, and the acquire fences after it have what the new message says |
| Cutbacks.RevisitKeeps | src/GenMCDriver.cpp:3635-3726 | So does a backward revisit without gaps, labels kept after the read in its thread or not, if nothing kept knows or builds on the read and the acquire fences kept after it are up to date: copy, new stamps, re-targeting and new views |
| Runs.InitialInv | src/ExecutionGraph.cpp:35-52 | The graph a run starts from, the begin of main, satisfies the invariant |
| Runs.RunKeeps | src/GenMCDriver.cpp:2605-2717 | Every state of every run of additions, thread creations, re-targetings, join completions, cuts and backward revisits without gaps that leave clocks right, load buffering included, satisfies all invariants |
| Runs.RunsCausallyClosed | src/IMMDriver.cpp:52-201 | In every graph of every such run, if a is in pporf(x) then pporf(a) is part of pporf(x), unless x is what a blocked thread ends with |
| Runs.RunsHbExact | src/IMMDriver.cpp:44-50 | In every graph of every such run, and with the same exception, hb views are exactly reachability along hb edges of the whole graph, and nothing reaches itself |
| Runs.RunsBlockedAt | src/GenMCDriver.cpp:2678-2680 | The exceptions are begins whose creation is not in the graph, and joins |
| Runs.RunsRfInverse | src/ExecutionGraph.cpp:1501-1557 | In every graph of every run reads-from and reader lists are inverse, stamps are distinct and increase along threads, and at every stamp still open to cuts and revisits no older read reads from a younger write |
| Runs.OrderedRunsShutNothing | src/ExecutionGraph.cpp:1291-1311 | In runs without backward revisits and without reads re-targeted to younger writes every stamp stays open |
| Outcomes.CutKeepsClocksIff | src/DepExecutionGraph.cpp:229-251 | If no thread is blocked, all clocks of what a cut leaves are right exactly if no surviving begin has lost its creation and no surviving join its finish |
| Outcomes.CutsAgreeIff | src/DepExecutionGraph.cpp:245-249 | In runs the cut for dependency graphs, which resets the joins that deleted finishes point back to, is the plain cut, which resets the joins whose finish is gone, exactly if each of the latter is pointed back to |
| Outcomes.RevisitKeepsInvIff | src/GenMCDriver.cpp:3714-3726 | A backward revisit of a graph of a run, by a write nobody knows yet, keeps the invariant of runs exactly if its view has no gaps, nothing kept knows the read or is to be rebuilt on it, and the acquire fences kept after it in its thread have the views they would be given now |
| Outcomes.CopyKeepsClosure | src/ExecutionGraph.cpp:1405-1436 | A copy up to any view, gaps or not, keeps causal closure, and reads keep knowing their writes |
| Outcomes.RevisitClosedIff | src/GenMCDriver.cpp:3714-3726 | After any backward revisit of a graph of a run, for a write nobody knows yet and a read outside its prefix, causal closure holds exactly if no label kept, other than the read, knew the read |
| HbRevisits.RunsHeed | src/IMMDriver.cpp:44-50 | In graphs of runs every hb view holds those of all that comes before: earlier labels of the thread, creation or finish, and the messages the label synchronises with |
| HbRevisits.RevisitHeedsIff | src/GenMCDriver.cpp:3714-3726 | After any backward revisit of a graph of a run, gaps or not, hb views still do so exactly if what is kept after the read in its thread, and synchronises through it, already had the message of the write |
| HbRevisits.ReleaseHeedsIff | src/GenMCDriver.cpp:3714-3726 | For a release that nobody knows yet: exactly if nothing is kept after the read that synchronises through it |
| HbRevisits.ReleaseKeepsInvIff | src/GenMCDriver.cpp:3714-3726 | When a relaxed read takes such a release the invariant of runs is kept exactly if the view has no gaps, nothing kept knows the read or is to be rebuilt on it, and no acquire fence is kept after it |
| GapViews.AcquiresKept | src/DepExecutionGraph.cpp:50-78 | What a revisit view leaves out of a thread before something it keeps has not synchronised: no acquire, fence or join |
| GapViews.RunsHoldOnly | src/IMMDriver.cpp:44-50 | In graphs of runs every hb view holds only what earlier labels of the thread, the creation or finish, or the messages the label synchronises with tell it |
| GapViews.RevisitExactIff | src/GenMCDriver.cpp:3714-3726 | After any backward revisit of a read the write does not depend on, gaps or not, hb views hold all of that and nothing else exactly if what synchronises later through the read had the message, no begin that may go on has lost its creation, and what acquire fences learned through reads that are lost or re-targeted is still said to them |
| RunCases.JoinOutlivesFinish | src/DepExecutionGraph.cpp:229-251 | A run, and a read of its last graph to cut back to, after which clocks are wrong: main waits for the thread of the read, which has finished since |
| RunCases.JoinedTwice | src/DepExecutionGraph.cpp:245-249 | A run, and a read to cut back to at which the two cuts differ: its thread has been joined a second time |
| RevisitCases.LoadBuffering | src/GenMCDriver.cpp:3714-3726 | A run, and a backward revisit the driver makes of its last graph, after which causal closure fails: a release read within its own thread is kept, and knows the read |
| RevisitCases.StaleFence | src/GenMCDriver.cpp:3714-3726 | A run, and a backward revisit the driver makes of its last graph, after which closure holds, but an acquire fence kept after the read does not know the release that now comes before it |
| RevisitCases.RelaxedBuffering | src/GenMCDriver.cpp:3714-3726 | A run whose last step is a backward revisit the driver makes, which keeps a write after the read: its graph has a cycle of program order and reads-from, and, as in all runs, right clocks |
| HelperCases.HpMakes | src/GenMCDriver.cpp:2987-3009 | The run of the next row meets all that the driver asks of a helper revisit: the mark on the write, no competing read-modify-write that is settled, a revisitable and coherent read, a maximal extension |
| HelperCases.HelperDangles | src/GenMCDriver.cpp:3613-3643 | A run of additions and forward revisits, and a helper revisit the driver makes of its last graph, after which `validate()` refuses the graph: a read of the write taken out is kept |
| Visits.VisitLabel | src/GenMCDriver.cpp:2725-2741 | Computing the views of a label and adding it, a start label to a new thread, is a step of a run |
| Visits.VisitThreadCreate | src/GenMCDriver.cpp:2605-2650 | A creation is added and its thread begins: one step if a begin waits for this creation, two if the thread is new, and the search for the begin tells which |
| Visits.ChangeRf | src/GenMCDriver.cpp:3862-3872 | Re-targeting the last read of a thread is a step of a run |
| Visits.VisitThreadJoin | src/GenMCDriver.cpp:2652-2684 | A join is added and its thread blocked; it is completed at once exactly if the child has finished, and a thread joining itself is an error |
| Visits.VisitThreadFinish | src/GenMCDriver.cpp:2686-2717 | A finish is added and the joins of all threads that end with a join of this one are completed: afterwards none of them waits for it |
| Visits.UpdateJoin | src/GenMCDriver.cpp:2676-2712 | Completing a join is a step of a run, exactly if the child's last label is its finish |
| Visits.RestrictGraph | src/GenMCDriver.cpp:661-669 | Cutting the dependency graph back and resetting the stamp counter is a step of a run, and new stamps are fresh |
| Visits.ForwardRevisit | src/GenMCDriver.cpp:3900-3936 | Restricting the graph to a read and re-targeting it are two steps of a run: after the cut the read is the last label of its thread and the write is still there |
| Visits.BackwardRevisit | src/GenMCDriver.cpp:3714-3726 | Revisit view, copy, new stamps, re-targeting and new views are computed for any read and younger write of another thread; the result is a step of a run if the revisit fits, and for a write nobody knows it satisfies the invariant exactly then |
| ExecutionGraphs.ExecutionGraph.GetLastThreadReleaseAtLoc | src/ExecutionGraph.cpp:91-109 | The last create, finish, LAPOR unlock, release fence, or same-address release write before a position, else the begin event |
| ExecutionGraphs.ExecutionGraph.GetLastThreadRelease | src/ExecutionGraph.cpp:111-129 | The same for writes to any address |
| ExecutionGraphs.ExecutionGraph.GetThreadAcquiresAndFences | src/ExecutionGraph.cpp:132-143 | Exactly the begin event and the fences and acquires before a position |
| ExecutionGraphs.ExecutionGraph.GetLastThreadUnlockAtLocLapor | src/ExecutionGraph.cpp:302-314 | The last LAPOR unlock of a lock up to a position, else the initialiser |
| ExecutionGraphs.ExecutionGraph.AddReadLabelToGraph | src/ExecutionGraph.cpp:424-435 | The read is entered in the reader list of its write, stamped if it has no stamp, and placed |
| ExecutionGraphs.ExecutionGraph.AddOtherLabelToGraph | src/ExecutionGraph.cpp:460-480 | The label is stamped if it has no stamp, and appended or put into its slot |
| ExecutionGraphs.ExecutionGraph.ChangeRf | src/ExecutionGraph.cpp:1226-1258 | The old write, if still there, forgets the read; the new one learns of it |
| ExecutionGraphs.ExecutionGraph.UpdateJoin | src/ExecutionGraph.cpp:1260-1275 | Join and finish point to each other, or nothing changes if the event is no finish |
| ExecutionGraphs.ExecutionGraph.ResetJoin | src/ExecutionGraph.cpp:1277-1289 | A join forgets its finish; other labels stay as they are |
| Graphs.JoinResetAt | src/ExecutionGraph.cpp:1277-1289 | Label by label: only the reference to the finish changes, and only if there is a join |
| Graphs.AddReadKeepsInverse | src/ExecutionGraph.cpp:424-435 | Adding a read at a free position keeps reads-from and reader lists mutually inverse |
| Graphs.AddOtherKeepsInverse | src/ExecutionGraph.cpp:460-480 | So does adding any other label |
| Graphs.ChangeRfKeepsInverse | src/ExecutionGraph.cpp:1226-1258 | changeRf restores the invariant even if the read's own reads-from was broken before |
| GraphRuns.HistoriesStaySound | src/ExecutionGraph.cpp:424-480 | The invariant survives any sequence of additions, re-targetings, cuts of both kinds at stamps closed under reads-from, and copies up to views closed under reads-from |
| GraphRuns.RunsMayBeCut | src/ExecutionGraph.cpp:1339-1378 | The graphs of runs can be cut, in either way, at any stamp still open |
| Validation.Validate | src/ExecutionGraph.cpp:1501-1557 | validate() accepts a graph exactly if every label passes: existing writes, listed readers, atomic read-modify-writes |
| Validation.ValidIffInverse | src/ExecutionGraph.cpp:1501-1557 | It does so exactly if reads-from and reader lists are inverse and read-modify-writes are atomic |
| ExecutionGraphs.ExecutionGraph.GetDepViewFromStamp | src/ExecutionGraph.cpp:1313-1329 | The clock contains exactly the events (begins aside) stamped no later than the stamp, whatever their order |
| DepExecutionGraphs.UpdatePredsWithPrefixView | src/DepExecutionGraph.cpp:50-66 | The union of both clocks, together with the writes read internally by the reads in it |
| DepExecutionGraphs.DepExecutionGraph.GetRevisitView | src/DepExecutionGraph.cpp:68-78 | The prefix by stamp of the read joined with the pporf views of the write, and of the helping event if there is one |
| RevisitSpec.PrefixReadKeepsRf | src/DepExecutionGraph.cpp:50-66 | A read in the prefix of the write keeps the write it reads from: by causal closure if external, by the repair if internal |
| RevisitSpec.RevisitViewClosed | src/DepExecutionGraph.cpp:68-78 | The revisit view contains the write of every read in it, the revisited one excepted |
| ExecutionGraphs.ExecutionGraph.CopyGraphUpTo | src/ExecutionGraph.cpp:1380-1450 | The copy has the events of the view, Empty labels that know nothing in the gaps, and writes without the readers left behind |
| ExecutionGraphs.ExecutionGraph.RestampAfter | src/GenMCDriver.cpp:3655-3667 | Labels younger than the read get new, distinct stamps that still increase along threads; the others keep theirs |
| DepExecutionGraphs.DepExecutionGraph.CopyGraph | src/GenMCDriver.cpp:3635-3669 | Two holes are punched for a helper, the graph is copied up to the view and restamped |
| RevisitSpec.CopyKeepsInverse | src/ExecutionGraph.cpp:1380-1450 | A copy up to a view closed under reads-from keeps the invariant, the revisited read excepted |
| RevisitSpec.RevisitKeepsInverseIff | src/GenMCDriver.cpp:3635-3651 | Revisit view, holes for a helper, copy and re-targeting together give a graph that satisfies the invariant exactly if no read is kept that reads from the write left out |
| GraphRuns.RunsRevisitable | src/DepExecutionGraph.cpp:68-78 | That holds for every revisit at an open stamp, gaps or not, in every graph of every run, graphs after earlier revisits without gaps included: closure and stamps provide what it needs |
| DepExecutionGraphs.DepExecutionGraph.Revisit | src/GenMCDriver.cpp:3714-3726 | The revisit as performed, holes and new stamps included, returns such a graph under the same condition |
| ExecutionGraphs.ExecutionGraph.GetViewFromStamp | src/ExecutionGraph.cpp:1297-1311 | For each thread the last index stamped in time |
| ExecutionGraphs.ExecutionGraph.CutToStamp | src/ExecutionGraph.cpp:1339-1378 | Threads are shortened, readers that are gone dropped, joins whose finish is gone reset; all other labels stay |
| CutSpec.CutKeepsPrefix | src/ExecutionGraph.cpp:1339-1378 | With stamps increasing along threads the cut keeps exactly the begins and the events stamped in time |
| CutSpec.CutComposes | src/ExecutionGraph.cpp:1339-1378 | Cutting to s1 and then s2 equals cutting to the smaller of them, reader lists and joins included, for any stamps |
| CutSpec.CutKeepsInverse | src/ExecutionGraph.cpp:1339-1378 | The cut keeps the invariant at stamps closed under reads-from |
| GraphRuns.OpenCutClosed | src/ExecutionGraph.cpp:1291-1311 | At a stamp open in a run the graph is closed under reads-from |
| DepExecutionGraphs.DepExecutionGraph.CutToStamp | src/DepExecutionGraph.cpp:207-264 | The loops that reset slots, unlink, resize and refill compute: per thread one past the last kept label, Empty labels in the gaps, readers and joins unlinked from what was deleted and from nothing else |
| DepCutSpec.DepCutAgrees | src/DepExecutionGraph.cpp:207-264 | It keeps exactly the begins and the events stamped in time, event by event the same as the view from the stamp |
| DepCutSpec.DepCutLength | src/DepExecutionGraph.cpp:207-264 | Every thread is as long as that view says |
| DepCutSpec.DepCutReaders | src/DepExecutionGraph.cpp:229-240 | No deleted read is left in a surviving reader list |
| DepCutSpec.DepCutKeepsInverse | src/DepExecutionGraph.cpp:207-264 | It keeps the invariant at stamps closed under reads-from |
| DepCutSpec.CutsAgree | src/DepExecutionGraph.cpp:207-264 | With stamps increasing along threads it is the plain cut, if both reset the same joins |
| PendingRmw.GetPendingRMW | src/ExecutionGraph.cpp:350-380 | Through the reader list or by the full scan: the competing read-modify-write with the smallest stamp in the whole graph, or the initialiser if there is none |
| PendingRmw.ReaderListComplete | src/ExecutionGraph.cpp:360-369 | The competitors among the readers of the write are all competitors of the graph |
| PendingRmw.EarliestUnique | src/ExecutionGraph.cpp:341-348 | With distinct stamps that answer is unique, so both paths agree |
| LockMatching.GetMatchingLock | src/ExecutionGraph.cpp:145-171 | The lock between which and the unlock all locks of the address are closed again, or the initialiser if there is none |
| LockMatching.GetMatchingUnlock | src/ExecutionGraph.cpp:173-198 | The unlock that closes the lock, or the initialiser if there is none, whether or not the lock's write half is there |
| LockMatching.LockThenUnlock | src/ExecutionGraph.cpp:145-198 | The unlock of the lock of u is u |
| LockMatching.UnlockThenLock | src/ExecutionGraph.cpp:145-198 | The lock of the unlock of l is l, exactly if the write half of l is there |
| Fifo.DeqTestDecides | src/Axioms.cpp:76-84 | For well-matched calls the test on dequeues alone finds every violation of FIFO order and nothing else |
| Fifo.EnqTestDecides | src/Axioms.cpp:86-94 | So does the test on enqueues alone |
| Fifo.IsFiFo | src/Axioms.cpp:67-97 | The checker reports an error exactly if two values leave in the order opposite to the one they entered in |
| Annotations.SubstEval | src/SExprVisitor.hpp:339-372 | Substituting for a register is evaluating in an updated environment |
| Annotations.SubstPhisExact | src/InstAnnotator.cpp:267-285 | Substituting phis one after another agrees with assigning them all at once if no phi takes the value of a later one that changes |
| Annotations.EdgeExactIffOk | src/InstAnnotator.cpp:267-285 | And only then: propagation across an edge is right for all expressions and environments exactly if no phi is overtaken, or, for a block branching to itself, exactly if its phis keep their values |
| InstAnnotators.PropagateExact | src/InstAnnotator.cpp:266-285 | The annotation propagated from a successor has the value the successor's has after the instruction |
| InstAnnotators.AnnotationRight | src/InstAnnotator.cpp:287-327 | Sound annotations of the successors make a sound one, exact ones an exact one, if blocks that branch to themselves keep their phis |
| InstAnnotators.AnnotationPasses | src/InstAnnotator.cpp:287-327 | Before an assume, load or effect of the same block, an annotation is true wherever execution has come past the block once |
| InstAnnotators.AnnotationSafe | src/InstAnnotator.cpp:287-327 | Annotations that are right where execution gets to make one that is, self-branching blocks included: what lies on the way back has been passed with the same values |
| InstAnnotators.TreeExact | src/InstAnnotator.cpp:287-327 | On a supported region without cycles the annotations computed backwards along it are exact |
| InstAnnotators.InstAnnotator.AnnotateDFS | src/InstAnnotator.cpp:287-327 | The memoised search terminates, leaves every instruction it enters, and keeps all annotations set right: where execution gets to on supported regions, everywhere if self-branching blocks keep their phis, and exact or determined on regions without cycles |
| InstAnnotators.InstAnnotator.Annotate | src/InstAnnotator.cpp:329-340 | If the annotation of a load evaluates to false where execution has come to the load, the code after it reaches a failing assume before any load, side effect, assume or error; on regions without cycles whose self-branching blocks keep their phis exactly then, and what is returned is determined even if an edge is not right |
| PhiCases.AnnotateLatch | src/InstAnnotator.cpp:267-285 | A program whose load is annotated with FALSE, and an execution that gets to the load and goes on: a phi takes what a later phi of its block had |
| PhiCases.AnnotateSpin | src/InstAnnotator.cpp:267-285 | A program that branches to itself: its load's annotation is never wrongly false, but an execution gets to the load where it is true and the assume fails |
| FileSystems.DisksizeUpdate | src/Execution.cpp:3923-3944 | The early size update stays between the old size and the end of the write, and within the last block of the file |
| FileSystems.ChunkSize | src/Execution.cpp:4106-4112 | A chunk is not empty, not larger than what is left, and ends at the end of the write or of the block it starts in |
| FileSystems.ChunkInOneBlock | src/Execution.cpp:4106-4112 | All bytes of a chunk lie in one block |
| FileSystems.ChunkReaches | src/Execution.cpp:4118-4123 | The first chunk that grows the file reaches what the size on disk was taken to before: that size never shrinks during a write |
| FileSystems.Inode.ZeroDskRange | src/Execution.cpp:4053-4064 | The range is zero, the rest untouched, and every step in between, in issue order, shows only old bytes and zeros |
| FileSystems.Inode.WriteDataToDisk | src/Execution.cpp:3352-3370 | The bytes go to disk one by one and in order |
| FileSystems.Inode.ReadDataFromDisk | src/Execution.cpp:3372-3388 | The bytes read replace that part of the buffer |
| FileSystems.Inode.ExecuteBufferedWrite | src/Execution.cpp:4085-4138 | In all modes the file afterwards is the old one, zero-padded to the offset, overlaid by the buffer; both sizes agree again; after every write issued the bytes below the size on disk are old ones, a prefix of the new ones, and zeros, and that size only rises |
| FileSystems.Inode.ExecuteWriteChecks | src/Execution.cpp:4066-4083 | The clipped count and the offset, or the error |
| FileSystems.Inode.ExecuteWrite | src/Execution.cpp:4140-4182 | The whole write against the flat file; an offset beyond the limit or a count that is not positive writes nothing and returns 0 |
| FileSystems.Inode.ExecuteTruncate | src/Execution.cpp:3548-3592 | truncate against the flat file: growth shows zeros, a shrink forgets; no step, taken in issue order, leaves stale bytes below the size on disk |
| FileSystems.Inode.ExecuteRead | src/Execution.cpp:3946-3992 | The bytes of the flat file from the offset on, up to the count |
| FileSystems.Inode.Perform | src/Execution.cpp:4085-4182 | Any sequence of writes, truncates and reads of a file does to it what the same sequence does to a flat byte sequence |
| FileSpec.ReadWritten | src/Execution.cpp:3946-4182 | What was written is read back |
| FileSpec.WrittenInParts | src/Execution.cpp:4099-4136 | Writing in two parts is writing at once |
| FileSpec.DisjointWritesCommute | src/Execution.cpp:4085-4138 | Writes that do not overlap commute, whatever they pad |
| FileSpec.ShrinkForgets | src/Execution.cpp:3548-3592 | What a shrink cut off reads as zero after any later growth |
| FileSpec.HistoryBounded | src/Execution.cpp:4076-4082 | No sequence of operations takes a file past the size limit |
| CallInfo.ReachesOn | src/CallInfoCollectionPass.cpp:41-71 | If a function reaches an effect, a callee reaches it without coming back to it: answering cycles optimistically loses nothing |
| CallInfo.CallInfoCollectionPass.BodyHasSideEffects | src/CallInfoCollectionPass.cpp:51-70 | "Yes" means an effect can be reached; "no" means none can without passing the chain, and is remembered only for an empty chain |
| CallInfo.CallInfoCollectionPass.RunOnModule | src/CallInfoCollectionPass.cpp:96-111 | Afterwards a function is clean exactly if nothing it can reach has an effect, makes an indirect call, or is an unknown declaration |
| Inlining.OffendingIffNotInlinable | src/FunctionInlinerPass.cpp:43-61 | A walk that comes back to itself or ends in unknown code exists exactly if there is a reachable cycle or reachable unknown code |
| Inlining.IsInlinableFrom | src/FunctionInlinerPass.cpp:43-61 | The recursion decides whether such a walk continues the chain, and restores the chain if not |
| Inlining.IsInlinable | src/FunctionInlinerPass.cpp:63-67 | A function is inlinable exactly if no cycle, no unknown code and no foreign declaration can be reached from it |
| DeadCode.RunSame | src/EliminateUnusedCodePass.cpp:51-85 | The reduced function runs through the same blocks, with the same state and the same values of everything alive, for any number of blocks |
| DeadCode.Function.PropagateLiveness | src/EliminateUnusedCodePass.cpp:64-72 | The worklist loop ends with the least operand-closed set holding everything that cannot be eliminated |
| DeadCode.Function.EliminateUnusedCode | src/EliminateUnusedCodePass.cpp:51-85 | Exactly that set stays, and the result is true exactly if something was deleted |

## Left out

- VisitThreadJoin: a thread id that no thread has is refused only after views have been computed from that thread's last label (src/GenMCDriver.cpp:2660-2670), which does not exist; joins of all existing threads are modelled, and the error for the own one.
- Annotate: conditions that are constants are not modelled in conditional branches; undefined values are not modelled as operands.
- GetPendingRMW: the read half must not have the bottom event as its reads-from, where the source would look that event up.
- CutToStamp: for dependency graphs no deleted read may have the bottom event as its reads-from, and a write looked up in a thread already resized counts as absent; the source reads past the end there.
- RestrictGraph: no read that is deleted may have the bottom event as its reads-from, for the same reason.
- RunKeeps: backward revisits with gaps, and what is added into the Empty slots they leave, are not steps of runs, since an Empty label's views say nothing of what was there; neither are helper revisits, whose holes are gaps, nor revisits after which clocks are wrong. The reads-from invariant is proved with all of them (`GraphRuns.HistoriesStaySound`, `GraphRuns.RunsRevisitable`), and so is what becomes of closure and of hb (`Outcomes.RevisitClosedIff`, `HbRevisits.RevisitHeedsIff`, `GapViews.RevisitExactIff`).
- RetargetKeeps: the read is the last label of its thread, as after a forward revisit or an in-place revisit of a lock; `ImmDrivers.ImmDriver.ChangeRf` has no such restriction.
- VisitLabel: Block labels, which have no views, end their thread and are removed before it goes on, are not added in runs.
- BackwardRevisit: which reads of the copy may be revisited again is not recorded in labels (src/GenMCDriver.cpp:3661-3664); the stamps shut by a revisit stand for it.
- ExecuteRead: a negative offset or count is not modelled, which callers do not pass (src/Execution.cpp:4311-4315), nor is blocking on an open transaction in journal mode.
- ExecuteBufferedWrite: fsync and the ranges attached to ordered journaling are calls to the persistency checker and leave no trace in the model; the order of the writes and size updates is modelled.
- Recovery threads, and threads found symmetric to an earlier one.
- removeHolesInRange, which only the LKMM driver uses, and DepView::hasHole.
- The plain revisit view (src/ExecutionGraph.cpp:892-901) and the other memory models' drivers.
- Revisitable loads, prefixes saved for revisits, maximality checks: they decide which revisits happen, not what one does, and are modelled only as conditions on the runs of `RevisitCases` and `HelperCases` (`Construction`).
- Coherence calculators, beyond the check those conditions need, fixpoint status and relation caches, and the persistency checker.
- annotateBBCond and the annotation of compare-and-swap backedges.
- isAllocating, inlineFunction and the marks it inserts.
- The other checks of src/Axioms.cpp, which test the sizes of relations of one event.
- File descriptors, file offsets, directories, links, rename and lseek; locking of inodes and files.
- remove(), whose effect on labels that are not the last of their thread contradicts its name.
