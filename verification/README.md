# A verified model of the hierarchical state machine engine

hsm.go is a hierarchical state machine library: a model compiler that turns nested states,
pseudostates and transitions into flat tables and precomputed exit and enter lists, and a
run-to-completion runtime that interprets them. This project models both and proves what the
engine is for.

- **Paths and routes** (`paths`, `path_compiler`). The lowest common ancestor is the longest
  common prefix, and the compiled exit list undoes the chain of the current element exactly as
  far as the enter list rebuilds the chain of the target.
- **The executor** (`semantics`, `guards`, `firing_order`, `configuration`, `landing`,
  `termination`, `divergence`, `machine`). `semantics` says,
  as functions over a trace of acts, what entering, leaving and firing do; `machine` is the
  runtime object, whose methods update its fields in loops and are proved to do what those
  functions say. The main invariant is that the states entered and not yet left are exactly
  the states on the chain to the current element, through initials, choices, histories and
  finals, over whole runs (`run_to_completion`, `guarantees`). `landing` and `divergence` say
  exactly when firing arrives and when entering returns.
- **History** (`history`, `records`, `finalizer`). In every run of every model the records are
  ones that resolving uses, and leaving a state and coming back through its deep history restores the exact chain, through
  its shallow history the child.
- **Dispatch and deferral** (`dispatch_tables`, `table_builder`, `offers`, `selection`, `turns`).
  The flat tables pick what a walk up the hierarchy would pick, with deferral by the innermost
  state; `offers` says what that is in terms of names, sources and lists alone.
- **The process loop** (`process_loop`, `conservation`, `ledger`). No event is lost or invented; nothing
  is discarded without a submachine; what is left deferred keeps its order; the loop ends.
- **The processing lock and the drain worker** (`drain`, `drain_completions`,
  `drain_progress`). A state machine of
  unboundedly many dispatchers, process runs and workers, at the grain of single lock, signal
  and channel operations: mutual exclusion, sound completions, no lost wake-up, no deadlock, and
  under every fair schedule every completion is closed once events stop coming.
- **Queues** (`queues`, `event_queue`), **redefinition** (`redefinition`), **validation**
  (`validation`), **wildcards** (`wildcard`), **identifiers** (`bits`, `muid`, `muid_callers`)
  and **kinds** (`kinds`, `kind_ancestry`).

## Conventions

A qualified name is a sequence of components (`[]` is "/"), as cleaned absolute slash paths
are. Behaviours and guards are opaque: an `Env` says, for each guard and for the moment it is
evaluated, whether it holds, for each act which events it raises, and at each pop which events
other goroutines have pushed since the last one; every theorem holds for all of them. A
behaviour of one element runs as a whole: a trace has one act per entered or left element and
per executed effect. The trace is not part of the program, it is how the theorems speak of order.

Entering can recur for ever when choices or history defaults form a cycle. The functions
therefore carry a fuel, and running out of it is a separate outcome, `Diverged`, about which
nothing is claimed. `Semantics.MoreFuelForFire` says the result never depends on the fuel once
it suffices; `Termination.FireReturns` says how much suffices when the pseudostates can be
ranked. That entering returns is false of the code in general, for nothing rejects a cycle
(`Divergence.CyclicModelIsAccepted`, `Divergence.CyclicModelDiverges`): choices that only lead
to each other are never left, whatever the guards (`Divergence.ChoiceTrapDiverges`), and for
models without history entering returns in every environment exactly when the model can be
ranked (`Divergence.ReturnsExactlyWhenRanked`). That theorem takes guards to be distinct, as
their names are made from their transitions' (redefinable.go:1668-1675). The methods of the
runtime object carry the fuel as a ghost parameter and require that it suffices;
`Guarantees.EveryRunEnds` puts the two terminations together.

That firing arrives is false of the code in general too. The theorems about the configuration
assume `WellFormed`: what the builders arrange (`Validation.Built`), what the validators check
(`Validation.Validated`), and `Models.Landing`, which neither sees to and a caller can check:
every transition from a vertex that has a target aims at a vertex, not at an initial one, and
at a choice only if some live branch of it has no guard. Three ways lead past the builders and
validators.

- A choice's last branch is checked only while the choice is built (redefinable.go:1853-1862). A
  later redefinition of what that branch led to removes it (redefinable.go:235-262), and
  `validateModel` does not look at choices (redefinable.go:436-483).
- A target may name an initial vertex, such as "../.initial", or a behaviour.
- A guarded branch declared elsewhere is listed behind the default (redefinable.go:1323-1328).
  This one is harmless, and `Landing` allows it.

`LandingCondition.ArrivesExactlyWhenLanding` says that the condition is exact: of structured
models whose targets are vertices, those in which firing arrives from rest for every environment
are those that land.
`LandingCondition.EmptiedChoiceStrands` is an accepted model on which the machine stays in a
state it has left, and `Redefinition.ChoiceKeepsDefault` says when a redefinition leaves a choice
its default. The root is counted as a state of the configuration, since starting enters it, so
transitions sourced at the root are covered.

Everything else is stated without that condition: path algebra, history records and round trips,
dispatch, deferral, conservation, discarding, termination and the runtime object. Termination
asks only that targets be vertices.

Where the code and its comments differ, the code is modelled: `LCA` of a path and itself is the
parent (the comment's third example at redefinable.go:1207 says otherwise); the default
identifier layout is 40 timestamp bits, which leaves 10 counter bits (muid/muid.go:5 says 41
and 9); `Match` returns at the first empty pattern; the events a run replays go behind newer
arrivals.

## Model

| member | source | states |
|---|---|---|
| `Paths.ClimbToAncestor` | redefinable.go:1241-1258 | the climbing loop ends and answers whether one path is a proper prefix of the other |
| `Paths.LCAIsLongestCommonPrefix` | redefinable.go:1209-1236 | LCA ends; of distinct paths it is their longest common prefix, of equal paths the parent |
| `PathCompiler.FinalizeEnterPath` | redefinable.go:781-789 | the prepending loop lists the elements from below the common ancestor (or the root) down to the target |
| `PathCompiler.FinalizeExitPath` | redefinable.go:791-808 | the appending loop lists the elements from the current one outward to below the common ancestor, with a self-transition's source last, and nothing for an internal transition |
| `PathCompiler.FinalizeTransitionPathsFor` | redefinable.go:724-779 | routes are compiled for exactly the vertices at or below the source, nested ones included, or from an initial vertex for its owner alone; each is the route of its kind |
| `PathCompiler.ExitListIsReversedChain` | redefinable.go:791-808 | for inferred kinds the exit list is the current element's chain below the pivot, innermost first |
| `PathCompiler.EnterListIsChain` | redefinable.go:781-789 | up to the first copy of the target, the enter list is the target's chain below the same pivot |
| `PathCompiler.RoutesJoin` | redefinable.go:724-808 | removing the exit list from the current element's chain and appending the used part of the enter list gives the target's chain |
| `PathCompiler.SelfLeavesAndReenters` | redefinable.go:746-808 | a transition declared a self-transition leaves its source last and enters it first, whatever its target |
| `PathCompiler.ExternalLeavesAndReenters` | redefinable.go:736-808 | a transition declared external leaves and re-enters its source even when its target is inside it |
| `Semantics.MoreFuelForEnter` | hsm.go:2622-2751 | an entry that returns has the same result with any larger fuel |
| `Semantics.MoreFuelForFire` | hsm.go:2934-2995 | a transition that returns has the same result with any larger fuel |
| `Guards.FirstEnabledExactly` | hsm.go:2916-2932 | whatever the guards do from one reading to the next, the branch taken is the first live one whose guard is absent or holds when it is its turn, after one reading for each guard before it, and no guard is read twice or after it |
| `Guards.FirstEnabledOfSteady` | hsm.go:2916-2932 | with guards that hold still, it is the first live one that is enabled |
| `Guards.ChooseExactly` | hsm.go:3153-3172 | likewise the transition a pass over a row chooses |
| `FiringOrder.FiringInOrder` | hsm.go:2934-2995 | from rest a transition records history, leaves innermost first, runs its effect, enters the states on the way outermost first and then enters its target by default |
| `FiringOrder.FiringToSimpleState` | hsm.go:2934-2995 | for a target without an initial transition that is the whole trace |
| `FiringOrder.InternalInOrder` | hsm.go:2963-2972 | a transition without a target runs its effect and nothing else |
| `FiringOrder.InitialIsFollowed` | hsm.go:2627-2652 | entering a composite by default runs the effect of its initial transition next |
| `FiringOrder.ChoiceTakesFirst` | hsm.go:2653-2661 | entering a choice runs the effect of the branch that is first enabled in its turn |
| `FiringOrder.HistoryTakesDefault` | hsm.go:2806-2818 | entering a history vertex without a record runs the effect of its first enabled default |
| `FiringOrder.HistoryFallsBack` | hsm.go:2710-2724 | without an enabled default the effect of the owner's initial transition is next, and without that the machine stays at the vertex |
| `FiringOrder.FinalStateCompletes` | hsm.go:2741-2748 | entering a final state puts its completion event on top of the stack and does nothing else |
| `FiringOrder.StartFollowsInitial` | hsm.go:1934-1936 | starting enters the root and runs the effect of its initial transition next |
| `Configuration.ActKeepsCoherent` | hsm.go:2753-2793 | each single entry, exit, effect and recording keeps trace and history maps lawful and moves the open chain by exactly that act |
| `Configuration.LeaveChain` | hsm.go:2951-2962 | interpreting the exit list from rest leaves exactly the states below the pivot, innermost first, and never misses a member |
| `Configuration.EnterStateArrives` | hsm.go:2627-2652 | entering a composite with exactly its ancestors open reaches rest, through its initial transition or at itself |
| `Configuration.EnterChoiceArrives` | hsm.go:2653-2661 | entering a choice one of whose live branches has no guard follows an enabled branch and reaches rest, wherever in the list that branch is |
| `Configuration.EnterHistoryArrives` | hsm.go:2700-2740 | entering a history vertex reaches rest by its record, its default or the owner's initial transition |
| `Configuration.UnrecordedArrives` | hsm.go:2710-2724 | without a record, the default transition, the owner's initial or stopping at the vertex reaches rest |
| `Configuration.RecordedArrives` | hsm.go:2725-2740 | a recorded path is re-entered from outermost to innermost and reaches rest |
| `Configuration.EnterArrives` | hsm.go:2622-2751 | entering any vertex whose ancestors are exactly the open states, other than an initial vertex or a choice without default, reaches rest with its chain open |
| `Configuration.EnterAllArrives` | hsm.go:2973-2995 | interpreting an enter list down to its target reaches rest |
| `Configuration.FireArrives` | hsm.go:2934-2995 | a transition fired from rest, at or below its source, reaches rest: the states open are exactly those on the chain to the element it returns |
| `LandingCondition.ArrivesExactlyWhenLanding` | hsm.go:2622-2995 | in every structured model whose targets are vertices, every transition fired from rest arrives in every environment exactly when every target is one that entering never gives up at |
| `LandingCondition.Strands` | hsm.go:2951-2995 | a transition aimed at an initial vertex, or at a choice none of whose guards ever holds, runs its exits, effect and entries and returns nothing: what is left open is the chain to the target's owner |
| `LandingCondition.StrandedMachine` | hsm.go:3153-3172 | the machine then keeps the element it was in, and is at rest no more unless that chain is its own |
| `LandingCondition.FiringNeverReachesNonVertex` | hsm.go:2973-2995 | a transition aimed at a member that is no vertex never returns an element |
| `LandingCondition.EmptiedChoiceIsBuilt` | redefinable.go:1853-1862 | a model with a choice emptied by a redefinition has everything the builders arrange |
| `LandingCondition.EmptiedChoiceIsValidated` | redefinable.go:436-483 | and passes validation |
| `LandingCondition.EmptiedChoiceStrands` | hsm.go:2653-2661 | on it, handling an event leaves the machine in a state with only the root open |
| `LandingCondition.AcceptedModelNeedNotArrive` | redefinable.go:436-483 | so some model that builders and validators accept has a transition that does not arrive |
| `Termination.EnterReturns` | hsm.go:2622-2751 | when initial, choice and history targets descend in rank, entry returns within the stated fuel, from every world with good records, and with an element wherever every transition lands and the vertex can be entered |
| `Termination.FireReturns` | hsm.go:2934-2995 | likewise firing a transition from any element |
| `Divergence.TrapDiverges` | hsm.go:2622-2661 | in a context where entering each member of a set by default leads on to a member, entering a member returns with no amount of fuel |
| `Divergence.ChoiceTrapDiverges` | hsm.go:2653-2661 | when all live branches of some choices, one of them unguarded in each, lead to those choices, entering one never returns: for every environment, world and fuel |
| `Divergence.TrapHasDivergingContext` | hsm.go:2653-2661 | when some guards can follow a cycle of default entries, there is one environment in which entering a vertex on it never returns, from any world ready for that and with any fuel |
| `Divergence.RankOrTrap` | hsm.go:2622-2661 | in every structured model whose targets are vertices, either all default entries descend in some ranking, or from each vertex of some set a default entry can lead back into the set |
| `Divergence.ReturnsExactlyWhenRanked` | hsm.go:2622-2661 | without history vertices, and whether or not transitions land, default entry returns in every environment and world exactly when the model can be ranked over its live branches |
| `Divergence.CyclicModelIsAccepted` | redefinable.go:436-483 | a model whose choice leads back to itself is what builders arrange, validators accept and callers can check |
| `Divergence.CyclicModelDiverges` | hsm.go:2653-2661 | entering that choice returns with no amount of fuel |
| `Divergence.AcceptedModelNeedNotReturn` | redefinable.go:436-483 | so some model that builders and validators accept, and that lands, has an entry that never returns |
| `History.EntriesAndExitsAlternate` | hsm.go:2622-2775 | in every lawful trace each state is entered and left in strict alternation, and is open exactly after an odd number of visits |
| `History.HistoryMapInvariant` | hsm.go:2777-2793 | whatever is recorded of states, in whatever order: a shallow record is a direct child state, a deep record a strict descendant state, and with both the shallow one is on the way to the deep one |
| `History.RecallNeverDiscards` | hsm.go:2706-2709 | with such records the ancestry check on resolving never throws one away |
| `Records.EnterKeepsRecords` | hsm.go:2622-2751 | entering any vertex of any model in any world keeps the records good, and an element it returns is a vertex |
| `Records.FireKeepsRecords` | hsm.go:2934-2995 | so does firing any transition, whether it arrives, gives up or is missing a member |
| `Records.RunKeepsSound` | hsm.go:3014-3087 | so does every sequence of process runs, from every vertex and every world with good records |
| `Records.EveryRecordIsUsed` | hsm.go:2777-2804 | after the start and any number of process runs of any model, stranded or not, every history record is one that resolving returns |
| `History.ClosedStatesKeepRecords` | hsm.go:2777-2793 | while a state is not entered its records do not change |
| `History.LeavingRecords` | hsm.go:2942-2962 | leaving a state closes it and records, for either kind of history, the state left or the child on the way to it, unless the transition aims at its own history |
| `History.OwnHistoryKeepsRecord` | hsm.go:2942-2962 | a transition aimed at a history vertex leaves the records of the vertex's owner as they are, even when it leaves a state inside that owner |
| `History.ArrivesAtHistory` | hsm.go:2934-2995 | a transition to a history vertex enters the states down to its owner, unless that is still open, and then the vertex, with the owner's records untouched |
| `History.DeepRecordIsReentered` | hsm.go:2725-2740 | a deep record is re-entered state by state without any default entry, ending at it |
| `History.DeepHistoryReenters` | hsm.go:2700-2740 | a transition to the deep history of a state with a record enters exactly the chain down to the record, from below its pivot, and stops there |
| `History.DeepHistoryRoundTrip` | hsm.go:2700-2818 | leaving from a leaf, any events that do not enter the owner, then a transition to its deep history: exactly the chain from owner to leaf is re-entered, outermost first, and the machine stops at the leaf |
| `History.ShallowHistoryReenters` | hsm.go:2700-2740 | a transition to the shallow history of a state with a record enters that state, unless it is still open, and then the recorded child by default |
| `History.ShallowHistoryRoundTrip` | hsm.go:2700-2818 | likewise leaving and coming back through the shallow history enters the child the machine was in, by default |
| `Finalizer.GroupHistories` | redefinable.go:811-821 | the grouping loop maps each owner to exactly its history vertices |
| `Finalizer.HistoryPathsFor` | redefinable.go:822-830 | for each state below the owner, the path by which a record is re-entered |
| `Finalizer.HistoryTargetsForState` | redefinable.go:848-878 | the climbing loop finds for every history vertex on the way out, except the skipped owner's, the child or the state itself |
| `Finalizer.BuildHistoryCaches` | redefinable.go:810-846 | looking the caches up gives what recording and resolving compute from the model |
| `Finalizer.FinalizeTransitionPaths` | redefinable.go:713-722 | every transition gets its routes |
| `Finalizer.FinalizeModel` | redefinable.go:694-711 | the finalized form holds correct routes, history caches and dispatch tables for the model |
| `TableBuilder.SortKeepsOrder` | redefinable.go:920-922 | the stable sort by source depth changes nothing, since a vertex lists only its own transitions |
| `TableBuilder.CollectUsable` | redefinable.go:911-919 | the listed transitions with a route from the current element, in order |
| `TableBuilder.PathTo` | redefinable.go:892-900 | the climbing loop builds the chain from the root, outermost first |
| `TableBuilder.AddTransition` | redefinable.go:923-930 | a transition is appended once per trigger that is not shadowed |
| `TableBuilder.BuildTransitionRow` | redefinable.go:902-938 | the row holds for each event the transitions from the innermost vertex outward, up to and including the first deferring state |
| `TableBuilder.FindUnguarded` | redefinable.go:947-953 | whether an unguarded transition handles the event at or below the deferring state |
| `TableBuilder.BuildDeferredRow` | redefinable.go:940-960 | the innermost state that defers an event owns the deferral, unless an unguarded transition handles it first |
| `TableBuilder.BuildRows` | redefinable.go:880-962 | both rows of an element are the ones the theorems below speak of |
| `DispatchTables.HandlesOutward` | redefinable.go:964-979 | handling at or below a state implies handling at or below every state around it |
| `DispatchTables.RowIsSearch` | redefinable.go:902-938 | the first enabled transition of a row is the one a walk outward from the element finds |
| `DispatchTables.DeferOwnerIsInnermost` | redefinable.go:940-979 | a deferral owner is the innermost state deferring the event; there is none exactly when no state defers it or an unguarded transition handles it at or below the innermost that does |
| `DispatchTables.TablesRefineWalk` | redefinable.go:880-979 | for every element, event and guard valuation the tables decide what the walk decides: the same transition, the same deferral or neither, first for the event and then for the any-event |
| `DispatchTables.InnermostEligibleWins` | redefinable.go:902-938 | the walk takes a transition of the innermost vertex that has an eligible one, not past the first deferring state |
| `Offers.RowHoldsOffered` | redefinable.go:902-938 | the row of an element holds exactly the transitions that have the event among their triggers and are listed by a vertex at or above it, no initial vertex, with no state on the way out to that vertex deferring the event |
| `Offers.IndexHoldsOffered` | redefinable.go:880-938 | so does the finalized index |
| `Offers.OwnerExactly` | redefinable.go:940-979 | a state defers the event exactly when it is the innermost one there that lists it as deferred and no unguarded transition offered for it is declared in that state or below, or starts below, or starts at it at the top level |
| `Offers.IndexNamesOwner` | redefinable.go:940-962 | so says the finalized index |
| `Offers.SearchIsWinner` | redefinable.go:902-938 | the transition found is the one listed first by the innermost source, of those offered, enabled and not ruled out by the deferring state |
| `Offers.DecisionExactly` | hsm.go:3131-3183 | that transition for the event is taken, else that for the any-event; else the event is deferred exactly by the state that defers it |
| `Offers.DeclaredInsideWins` | redefinable.go:964-979 | an enabled transition that is declared in or below the innermost state deferring its event, or starts below it, or at it at the top level, takes precedence over the deferral, and without a guard leaves nobody to defer it |
| `Offers.OutsideNeverTaken` | redefinable.go:964-979 | while a state defers the event, every other transition is not taken |
| `Selection.TryRowSelects` | hsm.go:3153-3172 | one pass over a row fires the first enabled candidate, or changes nothing but the clock if there is none; of any model and machine, with guards that hold still |
| `Selection.ProcessEventFollowsWalk` | hsm.go:3131-3183 | for every model and machine, with guards that hold still, handling an event takes, defers or ignores as the walk up the hierarchy decides and fires just that transition, unless that transition returns nothing |
| `Selection.SettledFollowsWalk` | hsm.go:3131-3183 | from rest, where every transition lands, that exception does not arise |
| `Selection.QuickDeferralDiffers` | hsm.go:3040-3050 | an event other than the dispatched one is deferred without trying guards, which differs from handling it exactly when a transition at or below the deferring state is enabled for it or for the any-event; one for the event itself then has a guard |
| `Turns.LoneTransitionFires` | hsm.go:3131-3183 | an event fires the one enabled transition offered for it, also from a state nested anywhere below its source |
| `Turns.OthersArePutAside` | hsm.go:3040-3050 | an event that is not the dispatched one and is deferred is put aside at once: no guard is read, nothing runs and the clock moves with the pop alone |
| `Turns.OthersAreHandled` | hsm.go:3034-3083 | the dispatched event, any event when none is singled out, and one nobody defers, is handled as the walk decides; what becomes of the event, of those put aside and of those discarded |
| `Turns.EachByItself` | hsm.go:3058-3081 | each event put aside is kept or discarded by itself, in its place |
| `Turns.DiscardedExactly` | hsm.go:3058-3075 | it is discarded exactly when there is a submachine state around the state that deferred it, the innermost of which the machine has left, by a transition that did not start strictly inside it |
| `RunToCompletion.ProcessEventSettles` | hsm.go:3131-3183 | handling an event from rest ends at rest, extending the trace |
| `RunToCompletion.ProcessSettles` | hsm.go:3014-3087 | every process run from rest, with its deferrals and replays, ends at rest |
| `RunToCompletion.StartSettles` | hsm.go:1934-1936 | starting the machine reaches rest |
| `RunToCompletion.WholeRunConfiguration` | hsm.go:2622-3087 | after start and any number of process runs the open states are exactly those on the chain to the current element, and every act in the trace was lawful when it happened |
| `Guarantees.EveryRun` | hsm.go:2622-3087 | for every built and validated model and every run: the machine is at a vertex, the history map invariant holds and no record is discarded; where every transition lands, also the configuration invariant and strict alternation of entries and exits |
| `Guarantees.ProcessEventReturns` | hsm.go:3131-3183 | in a model without pseudostate cycles, with that fuel, handling an event returns from every vertex and every world with good records |
| `Guarantees.SomeFuelSuffices` | hsm.go:2934-2995 | some amount of fuel suffices for every transition of such a model |
| `Guarantees.EveryRunEnds` | hsm.go:3014-3087 | then every process run ends within the turns the measure allows, or raises more events than budgeted, even if a transition strands the machine |
| `ProcessLoop.ProcessConserves` | hsm.go:3014-3087 | events queued, deferred, handled and discarded at the end are, identifiers aside, those at the start plus those raised or arrived |
| `ProcessLoop.DiscardsOnlyAfterLeaving` | hsm.go:3058-3081 | an event is discarded only when a submachine state around its deferral owner is no longer active and the transition did not start inside it |
| `ProcessLoop.ProcessDiscards` | hsm.go:3034-3083 | every event a run discards has a name deferred by some state inside a submachine state that the machine had left at the end of some turn of the run |
| `ProcessLoop.ProcessDiscardsNothing` | hsm.go:3058-3081 | a run discards nothing when no state that defers an event is inside a submachine state |
| `ProcessLoop.PushAllKeepsOrder` | hsm.go:3084-3086 | pushing a list of events keeps the order within each lane |
| `ProcessLoop.ProcessLeavesDeferred` | hsm.go:3040-3087 | when a run of any model from any machine ends, exactly the deferred events are queued, those of each lane in the order they were deferred, and each has in the final state the deferral owner it was deferred for |
| `ProcessLoop.IterateDescends` | hsm.go:3034-3083 | each turn lowers the measure of remaining raises, queued and deferred events, although a taken transition refills the queue |
| `ProcessLoop.ProcessEnds` | hsm.go:3034-3083 | a run that raises at most the budgeted number of events ends within as many turns as the measure says |
| `Conservation.EnterBalanced` | hsm.go:2622-2751 | entering adds to the queue exactly what is raised on the way |
| `Conservation.FireBalanced` | hsm.go:2934-2995 | so does firing a transition |
| `Ledger.EnterExplained` | hsm.go:2622-2751 | what an entry raises and queues, in order, is for every act it appends to the trace what that act's behaviours raise for this event at that moment, and the completion event of every final state entered |
| `Ledger.FireExplained` | hsm.go:2934-2995 | likewise firing a transition, whether or not it arrives |
| `Ledger.ProcessAccounted` | hsm.go:3014-3087 | over a process run also what other goroutines pushed before each pop, all at increasing moments |
| `Ledger.ProcessLosesNothing` | hsm.go:3014-3087 | so no event raised by an act, announced by a final state or pushed before a pop is lost over a process run |
| `Ledger.EveryEventIsKept` | hsm.go:3014-3087 | the same as an equation of multisets of events, identifiers aside |
| `Ledger.RunLosesNothing` | hsm.go:3014-3087 | over any number of process runs, with everything dispatched between them |
| `HsmMachine.Hsm.constructor` | hsm.go:1893-1941 | a new runtime object has an empty queue, no history and no trace |
| `HsmMachine.Hsm.Execute` | hsm.go:2861-2888 | running an act's behaviours queues what they raise |
| `HsmMachine.Hsm.ExitElement` | hsm.go:2753-2775 | leaving an element runs the exit of a state and nothing for other vertices |
| `HsmMachine.Hsm.TransitionEnabled` | hsm.go:2909-2914 | an absent guard holds; a guard is evaluated once |
| `HsmMachine.Hsm.FirstEnabledTransition` | hsm.go:2916-2932 | the loop stops at the first live transition whose guard holds |
| `HsmMachine.Hsm.RecordHistory` | hsm.go:2777-2793 | the loop over the cached targets, in any order, stores what recording specifies |
| `HsmMachine.Hsm.ResolveHistory` | hsm.go:2795-2804 | looks the record up in the map of the vertex's kind |
| `HsmMachine.Hsm.EnterElement` | hsm.go:2622-2751 | the entry method does to the fields what the entry function says, for every kind of vertex |
| `HsmMachine.Hsm.EnterHistory` | hsm.go:2700-2740 | likewise for history vertices, by the cached path |
| `HsmMachine.Hsm.FollowHistoryDefault` | hsm.go:2806-2818 | the default transition, if one is enabled |
| `HsmMachine.Hsm.EnterRecordedPath` | hsm.go:2725-2740 | the loop over a cached path, with default entry only for the last state of a shallow record |
| `HsmMachine.Hsm.FireTransition` | hsm.go:2934-2995 | the transition method, over the compiled route, does what the firing function says |
| `HsmMachine.Hsm.ExitStates` | hsm.go:2951-2962 | the loop over the exit list |
| `HsmMachine.Hsm.EnterStates` | hsm.go:2973-2995 | the loop over the enter list, which stops at the first copy of the target |
| `HsmMachine.Hsm.Start` | hsm.go:1934-1936 | starting enters the root with default entry and stores the element reached, at rest where every transition lands |
| `HsmMachine.Hsm.TryTransitions` | hsm.go:3153-3172 | one pass over a row skips what the deferral owner rules out, fires the first enabled transition and stops |
| `HsmMachine.Hsm.HandleEvent` | hsm.go:3131-3183 | the flat lookups and two passes do what the event function says, in every structured model and from every vertex with good records; from rest to rest where every transition lands |
| `HsmMachine.Hsm.Pop` | hsm.go:3118-3129 | the head of the queue after other goroutines' pushes, if any |
| `HsmMachine.Hsm.IsDiscarded` | hsm.go:3061-3075 | the climbing loop decides the discard rule |
| `HsmMachine.Hsm.Replay` | hsm.go:3058-3081 | the deferred events go back to the queue in order, except the discarded ones |
| `HsmMachine.Hsm.Turn` | hsm.go:3034-3083 | one round of the loop: strip the internal identifier, defer early or handle, defer or replay |
| `HsmMachine.Hsm.ProcessQueue` | hsm.go:3014-3087 | the whole loop and the final push-back do what the run function says; from rest, where every transition lands, the open states are then those on the chain to the current element |
| `Drain.StepKeepsInv` | hsm.go:3341-3411 | every atomic step of every dispatcher, run and worker keeps the protocol invariant, with the two lanes of the queue looked at one after the other |
| `Drain.InvAlways` | hsm.go:3341-3411 | so it holds after every interleaving |
| `Drain.MutualExclusion` | hsm.go:1385-1391 | at most one process run is active, and meanwhile nobody else, dispatcher or worker, is anywhere between winning the lock and starting a run |
| `Drain.OneWorker` | hsm.go:3349-3393 | `scheduled` holds exactly while one drain worker is alive, and nobody waits without it |
| `Drain.CompletionSound` | hsm.go:3014-3025 | a completion is closed only after its event was popped, on the direct and on the batched path |
| `Drain.NoLostWakeup` | hsm.go:3341-3411 | when nobody is mid-step every completion handed out is closed, every queued event was popped before, and lock and worker are free |
| `DrainCompletions.ClosedOnce` | hsm.go:3014-3025 | no completion and no signal that is closed is ever closed again, on the direct and on the batched path |
| `DrainCompletions.EventIsHeld` | hsm.go:3014-3087 | an event dispatched or raised is queued or put aside until it is consumed or discarded, whichever runs it passes through |
| `DrainCompletions.RegularOnlyAfter` | hsm.go:1212-1224 | a run takes a regular event only when the last thing it did was to find no completion event queued |
| `DrainCompletions.WorkersWait` | hsm.go:3365-3393 | the worker stops waiting, for the lock or for its run, only after a run has closed the signal it waits on |
| `DrainProgress.NoDeadlock` | hsm.go:3365-3393 | short of that, somebody can always take a step other than raising, dispatching or spinning |
| `DrainProgress.StepDescends` | hsm.go:3014-3087 | every such step, deferring and replaying included, lowers a lexicographic measure of what dispatchers, worker and run have left, and spinning leaves it alone |
| `DrainProgress.EveryCompletionCanClose` | hsm.go:3341-3411 | no livelock: from every reachable state, without any new event, the remaining steps can lead to where every completion handed out is closed and every event was popped |
| `DrainProgress.SomebodyAdvances` | hsm.go:3365-3393 | in a fair schedule without new events a spinning worker cannot keep everybody from getting somewhere |
| `DrainProgress.EveryFairScheduleFinishes` | hsm.go:3341-3411 | in every schedule that is fair to each goroutine and brings no new event from some move on, a moment comes when every completion handed out is closed, every event was popped, and lock and worker are free |
| `DrainProgress.EveryInterleavingContinuesFairly` | hsm.go:3341-3411 | every finite interleaving is the beginning of such a schedule |
| `Queues.EventBuffer.Push` | hsm.go:1196-1201 | append, growing when full; vacated cells stay empty and the capacity bound is kept |
| `Queues.EventBuffer.Pop` | hsm.go:1175-1194 | first in, first out; the cell left is emptied, and the capacity stays at most 1024 or four times the length |
| `Queues.EventBuffer.PopLast` | hsm.go:1214-1221 | last in, first out |
| `Queues.TwoLaneQueue.Push` | hsm.go:1226-1237 | completion events go on the stack, others to the buffer |
| `Queues.TwoLaneQueue.Pop` | hsm.go:1212-1224 | the top of the stack if there is one, else the head of the buffer |
| `Queues.TwoLaneQueue.Len` | hsm.go:1203-1210 | the length of both lanes together |
| `Queues.PopServesByArrival` | hsm.go:1203-1237 | over any history of pushes and pops the next event is the newest outstanding completion, or else the oldest outstanding regular event, by position in the history |
| `Queues.EveryHistoryLeaves` | hsm.go:1203-1237 | that order of service is defined for every history |
| `Queues.DrainedBufferKeepsItsArray` | hsm.go:1175-1194 | the capacity bound is not a memory bound: a full buffer of any size popped to one event keeps its whole array |
| `Redefinition.RemoveString` | redefinable.go:275-286 | the in-place filter keeps the other names in order and touches nothing past the slice |
| `Redefinition.MemberTable.RemoveTransitionReference` | redefinable.go:264-273 | every vertex loses the transition from its list, and nothing else changes |
| `Redefinition.MemberTable.RemoveMemberSubtree` | redefinable.go:235-262 | in whatever order the maps are visited, what remains is what is not at or below the name or a fallen transition, without references to fallen transitions |
| `Redefinition.RemainsExactly` | redefinable.go:235-262 | a member remains exactly when it is neither at or below the name nor at or below a transition named or starting there or aimed strictly below |
| `Redefinition.ListRemains` | redefinable.go:264-286 | a vertex that remains lists what it listed, in order, without those transitions |
| `Redefinition.EdgeSurvives` | redefinable.go:235-262 | a transition survives exactly when it is not at or below the name, nor sourced there, nor aimed strictly below; one aimed at the name itself stays |
| `Redefinition.RemovalKeepsIntegrity` | redefinable.go:235-262 | if every listed name is a live transition and no transition is named beneath another, the same holds afterwards |
| `Redefinition.RemovalKeepsIntegrityExactly` | redefinable.go:235-262 | in general, integrity is kept exactly unless a surviving vertex lists a transition lost for being named beneath a fallen one |
| `Redefinition.RemovalKeepsSources` | redefinable.go:235-262 | no surviving transition loses its source vertex, if only behaviours and guards are declared beneath transitions |
| `Redefinition.NestedTransitionIsLost` | redefinable.go:249-256 | an input on which integrity is lost; no builder makes it |
| `Redefinition.BuiltHasNoneBeneath` | redefinable.go:1276-1312 | where vertices and transitions are declared in vertices, as the builders do, no transition is named beneath another, so removal keeps integrity |
| `Redefinition.ChoiceKeepsDefault` | redefinable.go:235-262 | a surviving choice keeps an unguarded live branch exactly when one of its unguarded branches is neither at or below the removed name nor aimed strictly below it |
| `Redefinition.RedefinitionEmptiesChoice` | redefinable.go:249-256 | a choice whose only branch led strictly below the removed name is left without branches, though integrity held |
| `Validation.ValidateHistory` | redefinable.go:633-647 | accepts exactly the history vertices with a default whose targets lie within the owner |
| `Validation.ValidateStateHistories` | redefinable.go:649-671 | the two flags accept exactly the states with at most one history vertex of each kind |
| `Validation.EnclosingSubmachineBoundary` | redefinable.go:565-580 | the climbing loop finds the boundary |
| `Validation.BoundaryIsInnermost` | redefinable.go:565-580 | the boundary is the innermost submachine state strictly above, and absent only if there is none |
| `Validation.BoundariesAreRespected` | redefinable.go:485-516 | an accepted transition never leaves its source's submachine, and reaches into another only if declared inside it |
| `Validation.ValidatedIsStructured` | redefinable.go:436-692 | a built model that passes validation has valid transitions wherever the target is a vertex: sources, kinds and initial targets |
| `Validation.AcceptedPseudostate` | redefinable.go:518-647 | defaults of an accepted history vertex lead to its owner or inside it; an accepted initial vertex has one transition at most, without guard, for the initial event, to its owner or inside it; other pseudostates' transitions have targets and no triggers |
| `Validation.AcceptedState` | redefinable.go:485-692 | an accepted state's transitions have triggers, a final state has none, and no state owns two history vertices of one kind |
| `Validation.AcceptedTransition` | redefinable.go:485-563 | an accepted transition's ends are members, and it is declared in and stays within the submachine its source is in |
| `Validation.ValidatedIsWellFormed` | redefinable.go:436-692 | if its transitions also land, it is one all runtime theorems apply to |
| `Wildcard.Parse` | redefinable.go:2620-2677 | the loop that remembers only the last star ends and decides the glob relation |
| `Wildcard.Match` | redefinable.go:2589-2616 | with its fast paths, decides whether some pattern reached before returning at an empty one globs the value |
| `Wildcard.PrefixThenStar` | redefinable.go:2606-2609 | the prefix fast path agrees with globbing, stars inside the prefix included |
| `Wildcard.MatchIsGlob` | redefinable.go:2589-2616 | without an empty pattern before the last, the answer is whether some pattern globs the value |
| `Wildcard.GlobIsFilling` | redefinable.go:2620-2677 | a pattern globs exactly the values it becomes when each star is replaced by some string |
| `Wildcard.EmptyPatternHides` | redefinable.go:2602-2605 | the answer differs from that exactly when the value is not empty, no pattern before some empty one globs it and one after does |
| `Wildcard.EmptyPatternExample` | redefinable.go:2602-2605 | an input on which it differs |
| `Bits.OrIntoLowBits` | muid/muid.go:214-222 | oring a field into empty low bits adds it |
| `Muid.Generator.NewGenerator` | muid/muid.go:138-178 | defaults, widths that fill the word, masked machine and shard fields, initial state 1 |
| `Muid.Generator.TryID` | muid/muid.go:186-224 | one round of the retry loop: the swap succeeds exactly on an unchanged state, installs the next stamp and returns its identifier |
| `Muid.IdRoundTrip` | muid/muid.go:217-222 | every field can be read back from an identifier, the timestamp modulo its width |
| `Muid.LaterIsGreater` | muid/muid.go:217-222 | while the timestamp fits, a later stamp packs to a greater identifier |
| `Muid.ShardsNeverCollide` | muid/muid.go:173-222 | with a counter bit, generators that differ only in shard never make the same identifier |
| `Muid.LaterTimeIsGreater` | muid/muid.go:217-222 | without a counter bit, where a stamp's time is made odd, any greater time packs to a greater identifier |
| `Muid.ShardsCollideExactly` | muid/muid.go:158-222 | two shards of one layout can make the same identifier exactly when the widths leave no counter bit and the shards differ in their lowest bit only |
| `MuidCallers.IssuedIncrease` | muid/muid.go:184-226 | over every interleaving of clock reads, loads and swaps, with clocks going either way, identifiers strictly increase in swap order while timestamps fit, in every layout the constructor accepts |
| `MuidCallers.DriftBound` | muid/muid.go:184-216 | after i + 1 identifiers with readings up to a limit, the timestamp is at most the limit plus (i + 1) / mask |
| `MuidCallers.IssuedCoversReading` | muid/muid.go:186-214 | an issued timestamp is never before the last clock reading its caller took, and is that reading whenever it is past the generator's |
| `MuidCallers.IssuedIncreaseUntilOverflow` | muid/muid.go:184-226 | so identifiers increase as long as the limit plus n / mask fits the timestamp field |
| `Kinds.Registry.Make` | kind/kind.go:39-57 | the nested loops pack the next id and the first seven distinct ids gathered from the bases |
| `Kinds.Is` | kind/kind.go:65-79 | whether some base's own id is among the kind's eight bytes |
| `Kinds.List` | kind/kind.go:27-33 | the seven ancestor bytes in order, and a zero |
| `Kinds.SlotOfPacked` | kind/kind.go:27-57 | a packed kind's bytes are contiguous, and zero past the last |
| `KindAncestry.WordShape` | kind/kind.go:39-57 | a kind built by any declarations packs its own id and its ancestors' ids, each once |
| `KindAncestry.IsDecidesAncestry` | kind/kind.go:39-79 | with at most seven ancestors each, the test holds exactly for the kind itself and its transitive bases; testing for the first kind made, whose id is zero, finds any unused byte |
| `KindAncestry.EighthAncestorIsLost` | kind/kind.go:49-52 | seven is exact: with more, the test misses one |

## Left out

- Entry and exit connection points of submachine states: entering one rebuilds from its boundary's parent and an unhandled exit point panics, so the configuration invariant does not speak of them; submachine states themselves are modelled as composites, with their discard rule and boundaries.
- Declared transition kinds that override the inferred one, which break the symmetry of exit and enter lists: only their lists are spoken of, in `PathCompiler`.
- Panics and failing behaviours (`execute` returning false), error events, activities and their termination, timeouts: every behaviour and guard is taken to return.
- Stopping, restarting and the processing after a stop; cancelling when a final state of the root is entered.
- Contexts, clocks, timers, time and change events, observers, snapshots, attributes, operations, groups, and reflection.
- The builder functions themselves: what they arrange is the predicate `Validation.Built`, which covers names, ownership, lists and inferred kinds, and says nothing of targets or of choices.
- String forms of names: relative, empty and uncleaned paths, on which `IsAncestor` and `LCA` are not meant to be used; a missing target is an option.
- A queue supplied by the user, whose contract is unknown, and its errors.
- The several behaviours of one entry, exit or effect are one act; the events they raise are those of the act.
- Pushes by other goroutines during a process run appear at its next pop; in `Drain` they are separate steps.
- PathCompiler.FinalizeTransitionPathsFor: the branches for entry and exit points are not included.
- Divergence.ReturnsExactlyWhenRanked: with history vertices a ranking is sufficient (`Termination.EnterReturns`) but not necessary, since records can keep a default from being followed.
- Redefinition.NestedTransitionIsLost: an input for the function in isolation, since the builders declare transitions in vertices.
- HsmMachine.Hsm.Execute: the behaviours of an element run one after the other and return; concurrent ones and recovered panics are not included.
- HsmMachine.Hsm.ExitElement: ending the activities of the state, and exit behaviours that fail, are not included.
- HsmMachine.Hsm.EnterElement: the cases for entry and exit points are not included, nor starting activities and cancelling at a final state.
- HsmMachine.Hsm: holds its queue as a value of the type that `TwoLaneQueue` is proved to implement, not as the object.
- DrainProgress.EveryFairScheduleFinishes: events must stop coming, since a run that is fed for ever closes nothing; that a run raises only finitely many is the subject of `ProcessLoop` and `Guarantees`.
- Drain.RunMay: which events are deferred and whether an event takes a transition is left open, so that a run may put any event aside and, after consuming one, push any of them back.
- Drain.Do: each lane of the queue is the set of events in it, since only being popped matters there; the order is the subject of `Queues`.
- Queues.EventBuffer.Push: the capacity chosen on growth is a parameter, at most double, as the runtime's append chooses.
- Redefinition.MemberTable: members are values in the map, so that one element registered under two names is not modelled.
- Muid.Generator.TryID: the clock reading is a natural number, at or after the epoch; the retry around it is the interleaving of `MuidCallers`. Host names, random machine identifiers and the base-32 text form are left out.
- Selection.ProcessEventFollowsWalk: needs guards that do not change within one event, since tables and walk may evaluate them in different numbers; the other theorems allow guards that change at every evaluation.
- Validation.Validated: the checks of effects, entry and exit actions, operations and connection points are not included.
- Kinds.Registry.Make: the counter is increased after it is read, as in the source, without another goroutine in between.
