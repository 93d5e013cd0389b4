# margo, modelled and proved

margo is the agent behind an editor plug-in for Go: it keeps an incremental, dependency-tracked cache of type-checked
packages, runs requests from the editor through a list of reducers, and shuts down in a fixed order. This project models
the parts of it whose correctness spans several functions, runs or goroutines, and proves what they are for.

**The package importer** (`kimporter`, `memo`). `ImportModel` says what an import is without a cache: `Recheck` parses,
resolves, imports and type-checks everything again. Resolution looks at what all directories hold now and at the modules
through which the importing package was found, so an import may lead elsewhere after a change, or from elsewhere: the
key of a state names no module, and importers of different modules share it. `ImportCache` and `TableSteps` say when a
table of states is coherent, and why a settled state equals a re-check while what it was computed from is what would be
found now; `ImportExact` shows that this is also necessary; `Invalidation` is the walk through the reverse dependencies.
The cached importer comes in three forms, each tied to the others:

* `SeqImport`, the recursion as a function on the state table, total on every finite import graph, cyclic ones included.
  After any run of imports and changes it returns what `Recheck` returns, if the settled states it may come upon lead
  where this importer is led (`ImportCache.ResolvedFrom`), and the modules on the different ways to a package make no
  difference to it (`ImportCache.OneWay`). `ImportFresh` shows that what it returns depends only on the table it finds,
  and states on that table exactly when it differs from a re-check.
* `KimPorter`, the same on the heap: states that are locked and updated in place, chains walked by loops, the
  invalidation as a recursive method. Importing, entering, publishing and clearing are each proved equal to the function
  of `SeqImport`, `ImportCache` or `Invalidation`, and `Table.Perform` carries the theorem over to runs on the heap.
* `ImportSteps`, `ImportStepsProof` and `ImportTheorems`, a transition system in which any number of imports take turns
  step by step (enlist with the dependency, lock, test, draw a stamp, read the source, look up and import dependencies
  in order or concurrently, publish), while files change and invalidations first draw their stamp and walk later. A walk
  that comes in turn misses nothing if and only if no check has drawn its stamp in between and used a state not walked
  yet (`ImportTheorems.MissesNothingIff`); where all are in turn and none is late, what is returned agrees with a
  re-check under the same condition as above. No import is ever stuck. `ImportEnds` bounds the steps: left alone, all
  imports finish.
* `ImportKeys`, on both: the root is checked as its user asked, and dependencies always in one way, so that users with
  settings of their own share them.

The theorems speak of the history of a run: what it imports from scratch, what can be read, and where imports can lead
(`ImportModel.History`, `Covers`). Only the imports of that history have to be acyclic. `ImportLimits`, `ImportDiamond`
and `ImportLate` have an input for each hypothesis on which the cache disagrees with a re-check because it fails: two
packages that import each other, an unsaved file outside the directory it is opened for, a package that is found only
later, a state reused from another module, two ways to a package within one import, a walk that comes too late, and an
older walk after a newer one. There is also a run that meets all hypotheses in a world where packages could import each
other, and one whose imports are acyclic at every moment but which leaves a cycle of importers, on which an invalidation
never ends.

**The store and its shutdown** (`mg/store.go`, `mg/reducers.go`, `mg/agent.go`). `Reducers` has the per-reducer state
machine as classes with a ghost trace of calls, and the lifecycle over whole runs. `Shutdown` is the transition system
of the reader, the dispatcher with its two queues, actions dispatched by anybody and concurrent calls of shutdown; its
log of actions has exactly the shape the lifecycle needs. `ShutdownRuns` compares what a run reduces with what it was
asked for. That need is real: a reducer alone keeps "no Reduce after
RUnmount" if and only if RCond answers no ever after (`Reducers.UnmountLastIffQuiet`).

**Streams** (`IssueOut`, `IssueBlocks`, `IssueChunks`, `IssueSet`, `SplitWriter`). The issue parser keeps the
indentation of the pending issue as a range of its buffer, which later writes overwrite. It finds the same issues for
every division of the input into writes where the lines are safe: an issue on an indented line is followed, up to the
next line that is not indented, by lines that are indented less. With the overwriting bytes arbitrary that is also
necessary (`IssueBlocks.OverwritingIsHarmlessIffSafe`), and `IssueChunks.PiecesMatter` is an input. The line splitter
gives the same result for every division; splitting at carriage returns does so if and only if none comes before a
newline.

**Trees and tables** (`Vfs`, `PkgList`, `ModFile`, `Memo`). The file system tree on the heap, the package index whose
three maps agree, the longest-prefix module lookup, and the memo list that refines a map.

**Small protocols** (`ChanQ`, `CmdRun`). The queue that drops its oldest value, under an adversarial select and
consumer, and the output stream closed once by the last of its references.

## Where the code and what is said of it differ

* `Reducer.RUnmount` promises that Reduce is never called afterwards. `ReducerType` does not keep that; the dispatcher
  stopping does.
* `Reducer.RCond` is said to be the last method called when it returns false (`mg/reducers.go:75-77`, `148-149`). The
  code calls RUnmount then, if the reducer is mounted and the action is the unmount action (`mg/reducers.go:245-247`):
  `Reducers.CondLastIffNotRefused` and, at an input, `Reducers.UnmountAfterRefusal`.
* The importer settles a state with the error that a dependency was not found (`kimporter/kimporter.go:286-290`), but
  registers it with nothing, so that no later change clears it: `ImportLimits.ResolutionGoesStale`. The same goes for
  any change that makes an import lead elsewhere and does not reach the importing state.
* Where imports lead depends on the modules of the importing chain (`kimporter/kimporter.go:543-546`,
  `golang/gopkg/import.go:288-294`), which no key names, so a state checked for one module is returned to another whose
  dependencies are elsewhere: `ImportLimits.ModulesDisagree`, and within a single import
  `ImportDiamond.TwoWaysDisagree`.
* A Clear draws its stamp before it walks (`memo/memo.go:116-125`). A check that draws its stamp in between is newer
  than the walk, and keeps what it has used of states not walked yet: `ImportLate.LateWalkIsStale`. And a walk that
  comes after a newer one puts its own, older stamp in place of the newer (`kimporter/kimporter.go:182-190`), so a check
  that was overtaken counts again: `ImportLate.OldWalkBringsBack`.
* Importers are never unregistered, as a comment in the code notes (`kimporter/kimporter.go:547-550`). A run whose
  imports are acyclic at every moment may leave a cycle of importers, and the next invalidation of it never ends:
  `ImportLimits.TurnsMakeCycle`.
* `ChanQ.Put` is documented to remove the oldest value if there is no space. With space left, its select may receive as
  well as send: a Put is sure to lose nothing exactly when the queue is empty (`ChanQs.MayLoseIffNotEmpty`).
* In `IssueOut` a continuation is any line whose indentation is neither empty nor that of the matched line, so also one
  that is indented less (`IssueBlocks.LessIndentedContinues`, `LessIndentedInput`); the model follows the code.
* `IssueOut` compares indentations with a range of its buffer that the next write overwrites (`mg/issue.go:440`, `444`,
  `452`), so an issue can be lost when the output arrives in two pieces: `IssueChunks.PiecesMatter`.
* `Node.IsDescendant` never accepts the root as an ancestor (`vfs/vfs.go:167`).
* The importer's unsaved files are handed down to its branches while the keys of dependency states have no room for
  them; results agree as long as unsaved files belong to the directory of the root, as the callers see to.

## Model

| member | source | states |
|---|---|---|
| ImportModel.DetectCycle | kimporter/kimporter.go:321-340 | an import fails as a cycle exactly when some state on the importing chain is the package, by import path or by directory |
| ImportModel.CycleIff | kimporter/kimporter.go:196-198 | a cycle is reported exactly when a state on the chain has the import path or the directory of the package |
| ImportModel.BranchChain | kimporter/kimporter.go:342-366 | past the cycle test the states on a chain differ pairwise in import path and directory, and each branch has strictly fewer directories left, so the recursion ends on every finite graph |
| ImportModel.LeadsFurther | kimporter/kimporter.go:466-528 | chains of imports extend by one import |
| ImportCache.SettledAgrees | kimporter/kimporter.go:212-214 | in a coherent, up-to-date table a valid state whose result stands for an importer, that is, was computed from what it would be led to now, holds what re-checking its package in the modules of that importer would give |
| ImportCache.ResolvedStands | kimporter/kimporter.go:276-297 | every result stands for an importer where the imports of all settled states that the importer leads to, in the modules in which it leads there, still lead where they did |
| ImportCache.RecheckIsValue | kimporter/kimporter.go:367-417 | where the history of imports is acyclic the re-check depends on the importing chain through its modules only |
| ImportExact.SettledExact | kimporter/kimporter.go:212-217 | where results show how they came about, a valid state equals the re-check if and only if its result stands |
| Invalidation.WalkIsStamped | kimporter/kimporter.go:182-190 | invalidating a state stamps exactly the states reachable over importers and leaves all others alone |
| Invalidation.WalkAllIsStamped | kimporter/kimporter.go:187-189 | the same for a list of states one after the other |
| Invalidation.WalkEndsIffAcyclic | kimporter/kimporter.go:182-190 | the walk, which keeps no visited marks, ends if and only if no cycle of importers can be reached |
| Invalidation.ClearWalkIsClear | memo/memo.go:116-125 | the walks of one Clear together stamp the states reachable from the cleared ones with one new stamp |
| TableSteps.RegisterSound | kimporter/kimporter.go:200-210 | registering an importer keeps the table coherent |
| TableSteps.PublishSound | kimporter/kimporter.go:360-364 | publishing a justified result under a drawn stamp keeps every settled state justified |
| TableSteps.DepAfterWalk | kimporter/kimporter.go:182-190 | what a walk with a given stamp does to the result a state had of a dependency: it is lost exactly if the walk reaches a dependency that is no newer than the stamp, and then the walk reaches the state too |
| TableSteps.OrderlyIff | kimporter/kimporter.go:182-190 | a walk with an older stamp makes no invalidated state count again if and only if every state it reaches that is newer than its stamp counts already |
| TableSteps.WalkSound | memo/memo.go:116-125 | a walk whose stamp was drawn earlier keeps the table sound, its directory being clean then unless it changed since, if and only if no result is newer than the stamp and rests on a state that is not |
| TableSteps.ClearSound | memo/memo.go:116-141 | a change and its clearing at once leave a sound table with no settled state that rests on the old content |
| TableSteps.ChangeResolved | kimporter/kimporter.go:182-190 | after a change all settled states still resolve to what is found now if and only if its invalidation reached every state whose imports it moved |
| SeqImport.ImportSound | kimporter/kimporter.go:342-366 | an import settles its state with the result returned and the importer registered, on a table that stays coherent |
| SeqImport.DepsSound | kimporter/kimporter.go:466-511 | results of dependencies imported first stay valid and unchanged while the rest are imported |
| SeqImport.DrawnStamp | kimporter/kimporter.go:360-364 | the stamp drawn before a check is newer than every invalidation so far, and the check is not overtaken |
| SeqImport.ImportIsRecheck | kimporter/kimporter.go:342-366 | whatever the table remembers, importing returns what a full re-check of the current sources gives, provided the settled states it leads to lead where its importer is led and the ways to a package make no difference |
| SeqImport.CachedImportEqualsUncached | kimporter/kimporter.go:342-417 | after any run of imports, from whatever modules, and changes, every package or error imported equals that of a full re-check, under the same proviso on resolution and for an acyclic history |
| SeqImport.ImportStands | kimporter/kimporter.go:212-217 | without a proviso on resolution, where results show how they came about: an import equals the re-check if and only if the result it leaves in the table stands for its importer |
| SeqImport.ReachingRunsAgree | kimporter/kimporter.go:182-297 | the proviso as a condition on the run: modules make no difference to any check, and every change reached, through the importers, the settled states whose imports it moved |
| ImportKeys.RunIsPlain | kimporter/kimporter.go:551-564 | after every run, whatever the imports ask for, a state that has an importer is checked without function bodies, unused imports, tests and unsaved files, and with the type information of its importer or none |
| ImportKeys.ReachableIsPlain | kimporter/kimporter.go:551-564 | the same in every reachable state of importers interleaved |
| ImportKeys.RootAsAsked | kimporter/kimporter.go:299-315 | the root of an import is settled under just the settings and unsaved files the user gave |
| ImportKeys.UsersShare | kimporter/kimporter.go:542-564 | imports of other roots and under other settings are given the same results of dependencies from the same states, with nothing checked again |
| ImportKeys.TestsOfRootOnly | kimporter/kimporter.go:470-472 | a package imported with its tests whose dependency has tests that import it back: the dependency is checked without them, cached or not |
| ImportKeys.TestsOfDependencyFail | kimporter/kimporter.go:470-472 | with its own tests that dependency runs into a cycle |
| ImportFresh.ImportGives | kimporter/kimporter.go:342-366 | what an import returns is a function of the table it finds, and importing one package does not change what importing another returns |
| ImportFresh.GivesOneWay | kimporter/kimporter.go:543-546 | where the modules on the ways to a package make no difference, what the table gives does not depend on them either |
| ImportFresh.GivesExact | kimporter/kimporter.go:212-217 | what the table gives an importer is the re-check in its modules if and only if, through the states that have to be checked again, one comes only upon valid states whose results stand for it, or first upon a dependency that fails as it does now |
| ImportFresh.ImportExactly | kimporter/kimporter.go:342-366 | exactly when one import is stale, as a condition on the table before it and the modules of the importer, where results show how they came about and ways make no difference |
| ImportFresh.CachedImportExactly | kimporter/kimporter.go:276-366 | the same after any run of imports and changes |
| ImportLimits.CyclesDisagree | kimporter/kimporter.go:321-355 | with mutual imports the cached error names another chain than a re-check would: agreement needs acyclic graphs |
| ImportLimits.UnsavedFilesLeak | kimporter/kimporter.go:542-564 | with unsaved files outside the root's directory the cached result differs from a re-check on an acyclic graph |
| ImportLimits.ResolutionGoesStale | kimporter/kimporter.go:286-290 | a package created after an import did not find it: the cached error is returned where a re-check gives a package, with all other hypotheses met |
| ImportLimits.StaleIsNotFresh | kimporter/kimporter.go:286-290 | that import is not fresh, as the exact condition says |
| ImportLimits.ModulesDisagree | kimporter/kimporter.go:543-546 | a package imported from one module and then from another gets the dependencies of the first, with all other hypotheses met |
| ImportDiamond.TwoWaysDisagree | golang/gopkg/import.go:288-294 | on an empty table, a package that one import reaches through two modules is checked in the first and reused in the second, where a re-check fails |
| ImportLimits.TurnsMakeCycle | kimporter/kimporter.go:547-550 | a run with acyclic imports at every moment leaves a cycle of importers, on which the walk never ends |
| ImportLimits.ClearsEnd | kimporter/kimporter.go:182-190 | within an acyclic history every walk ends, after every run |
| Invalidation.LayeredEnds | kimporter/kimporter.go:182-190 | where importers rank above what they import, a walk ends within as many levels |
| ImportLimits.AcyclicInHistory | kimporter/kimporter.go:466-472 | where a package imports whatever its directory holds, no history of all texts is acyclic, but that of a run in which only one of two packages imports the other is, and the run meets all hypotheses |
| KimPorter.State.ImportedBy | kimporter/kimporter.go:200-210 | the importer is appended unless it is there |
| KimPorter.DetectCycleLoop | kimporter/kimporter.go:321-330 | the loop over the importing chain finds the first state that is the package |
| KimPorter.DescribeCycle | kimporter/kimporter.go:331-339 | the unguarded inner loop never leaves the chain and reports the path from the package to itself |
| KimPorter.Table.Invalidate | kimporter/kimporter.go:182-190 | the recursive method computes the walk on the heap and changes nothing but invalidation stamps |
| KimPorter.Table.Clear | memo/memo.go:116-125 | the walks with one new stamp leave exactly the table that Invalidation.Clear says: all that rests on the roots is invalidated and nothing else changes |
| KimPorter.Table.PushStamp | kimporter/kimporter.go:182-190 | one stamp is drawn and pushed from every root |
| KimPorter.Table.Change | memo/memo.go:116-141 | a change that is announced leaves the table of TableSteps.Change |
| KimPorter.Table.Lookup | kimporter/kimporter.go:161-166 | one state per key, made on first use |
| KimPorter.Table.EnterState | kimporter/kimporter.go:347-354 | the state is looked up and the importing state registered before validity is tested |
| KimPorter.Table.ImportPkg | kimporter/kimporter.go:342-366 | the method on locked heap states is the function SeqImport.Import, and no chain locks a state twice |
| KimPorter.Table.Perform | kimporter/kimporter.go:342-417 | on the heap, after any run, an operation leaves the table of the run, and an import returns what a full re-check gives under the proviso on resolution |
| ImportStepsProof.KeepStep | kimporter/kimporter.go:342-366 | every step of every interleaving, within an acyclic history, keeps the invariant of locks, stamps, registrations, lookups and justified results, provided walks come in turn and not too late |
| ImportStepsProof.WalkKeepsIff | memo/memo.go:116-125 | a walk that brings nothing back keeps the invariant if and only if it is not too late: no check has drawn its stamp since that of the walk and used a state that is not walked yet |
| ImportStepsProof.ReachableInv | kimporter/kimporter.go:342-528 | the invariant holds in every reachable state |
| ImportTheorems.SettledRests | kimporter/kimporter.go:353-364 | in every reachable state a settled state is registered with every dependency its check looked up, all of them settled, and those are what its result was computed from |
| ImportTheorems.NoMissedInvalidation | kimporter/kimporter.go:353-364 | a running check newer than every invalidation is registered with each dependency it found and used, which is valid and unchanged since; one not found gave its error |
| ImportTheorems.MissesNothingIff | memo/memo.go:116-125 | a pending walk leaves every running check and every settled state resting on what it used if and only if no check drew its stamp after that of the walk and used a state that it has not walked |
| ImportTheorems.WalkAtOnce | memo/memo.go:116-125 | a walk right after its stamp is drawn is never too late |
| ImportLate.LateWalkIsStale | memo/memo.go:116-125 | a run of twenty steps in which a walk comes too late: everything is announced and walked, and a valid state holds a package built from what a dependency was before the change |
| ImportLate.OldWalkBringsBack | kimporter/kimporter.go:182-190 | a run in which an older walk follows a newer one: everything is announced and walked, and what was read before the change counts as valid |
| ImportTheorems.ReturnedIsRecheck | kimporter/kimporter.go:342-417 | with importers of any modules interleaved at step granularity and every walk in turn and not too late, what an import returns agrees with a full re-check, provided the settled states it leads to lead where its importer is led |
| ImportTheorems.ReturnedExactly | kimporter/kimporter.go:342-417 | dependencies imported in order, it equals the re-check if and only if the result returned stands |
| ImportTheorems.WaitingDescends | kimporter/kimporter.go:342-366 | waiting leads to a dependency of lower rank or to the holder of the same lock |
| ImportTheorems.CanStep | kimporter/kimporter.go:342-528 | below every unfinished import some import can take a step |
| ImportTheorems.DeadlockFree | kimporter/kimporter.go:342-528 | with any number of concurrent imports under way, some import can always take a step |
| ImportEnds.StepUsesWork | kimporter/kimporter.go:342-528 | every step of an import under way leaves less work, as measured on the import graph |
| ImportEnds.ImportsFinish | kimporter/kimporter.go:342-528 | left alone, the imports under way come to rest in a bounded number of steps, however interleaved, and at rest all have their results |
| ImportEnds.CanFinish | kimporter/kimporter.go:342-528 | from every reachable situation all imports can finish |
| Memo.DroppedIndexes | memo/memo.go:106-113 | removal by moving the last entry into the gap loses the one key and no other |
| Memo.M.Index | memo/memo.go:45-52 | finds the entry of a key if there is one |
| Memo.M.Memo | memo/memo.go:54-64 | the entry of a key, appended when missing |
| Memo.M.Peek | memo/memo.go:66-76 | the value in the map, or none |
| Memo.M.Read | memo/memo.go:78-96 | the function is evaluated only when the key is absent, and only a value is stored |
| Memo.M.Del | memo/memo.go:98-114 | the key goes, every other entry stays |
| Memo.M.Clear | memo/memo.go:116-125 | exactly the sticky entries stay, with their identity, and get one stamp larger than all earlier ones |
| Memo.M.Perform | memo/memo.go:66-141 | every operation does to the map what it should and keeps all stamps of the program within the counter, so that each Clear stamps what stays with more than any stamp before |
| Memo.M.ClearPlain | memo/memo.go:127-141 | the rebuilt list holds the sticky entries and the collected values are theirs |
| Memo.ValueStays | memo/memo.go:78-141 | once made, a value is what every later Read returns until it is deleted or, unless sticky, cleared |
| Memo.ValueWasMade | memo/memo.go:78-141 | a value found was there before or made by a Read of its key, and has not been forgotten since |
| Memo.OneKey | memo/memo.go:66-141 | what one operation means for one key |
| Memo.ReadRemembers | memo/memo.go:78-96 | in any run, the value a Read makes for a key without one is what the table holds until it is forgotten |
| Memo.ForgottenIsGone | memo/memo.go:98-141 | in any run, what is deleted, or cleared without being sticky, is gone until a Read makes another value |
| Reducers.ReducerType.Bootstrap | mg/reducers.go:225-232 | the first owner is adopted |
| Reducers.ReducerType.Mount | mg/reducers.go:279-287 | RMount is called on the first time only |
| Reducers.ReducerType.Unmount | mg/reducers.go:289-298 | RUnmount is called for the unmount action on a reducer mounted and not unmounted |
| Reducers.ReducerType.Reduction | mg/reducers.go:234-258 | which callbacks one reduction makes, in which order, and what it remembers |
| Reducers.Round | mg/reducers.go:313-318 | every reducer of a list takes its turn independently of the others, in the order of the list |
| Reducers.StoreReducers.Reduction | mg/store.go:27-38 | an action goes through the reducers before, then the normal ones, then those after |
| Reducers.StoreReducers.HandleReduction | mg/store.go:149-159 | the actions of a request are reduced in order, each by every reducer before the next |
| Reducers.TraceJoins | mg/store.go:149-159 | the calls of a run do not depend on how its actions are grouped into handlers |
| Reducers.FlagsRemember | mg/reducers.go:234-298 | for all actions and answers, the flags say what was called, RMount follows the first yes and precedes Reduce and RUnmount |
| Reducers.Lifecycle | mg/reducers.go:140-166 | over whole runs and all RCond answers: RInit first and once, RMount after the first yes, every yes followed by Reduce or RUnmount, Reduce after RMount, RUnmount once exactly when mounted at the unmount action, and nothing after it |
| Reducers.EveryTurn | mg/reducers.go:234-258 | in every run, whatever the actions: RConfig and then RCond once in each turn, each yes followed by Reduce or RUnmount with at most RMount in between, and Reduce called for nothing else |
| Reducers.ReduceCount | mg/reducers.go:245-257 | in every run Reduce is called once for each yes but one given in the turn that unmounts, and RUnmount once if there is such a turn |
| Reducers.UnmountLastIffQuiet | mg/reducers.go:245-256 | without the dispatcher, no Reduce follows RUnmount if and only if RCond answers no ever after |
| Reducers.SecondUnmountReduces | mg/reducers.go:289-292 | a second unmount action calls Reduce on an unmounted reducer |
| Reducers.CondLastIffNotRefused | mg/reducers.go:245-247 | over whole runs, RCond that says no is the last method called if and only if it never says no to the unmount action of a reducer that is mounted and not unmounted |
| Reducers.UnmountAfterRefusal | mg/reducers.go:245-247 | such a run of two actions, in which RUnmount follows |
| Shutdown.KeepCount | mg/agent.go:217-226 | the wait group counts the requests not done, and until the unmount each of them is on its way exactly once |
| Shutdown.KeepFlow | mg/store.go:116-147 | requests run in the order they were counted in, with the actions they were counted with, and those that have not run are on their way until the dispatcher stops |
| Shutdown.KeepUnmount | mg/store.go:84-100 | the unmount handler is sent once, after the wait, and shutdown goes on only when it has run |
| Shutdown.KeepLog | mg/agent.go:260-276 | every step keeps the order of shutdown events |
| Shutdown.KeepActs | mg/store.go:136-147 | the actions reduced begin with the initial one and end at the unmount action |
| Shutdown.ShutdownOrder | mg/agent.go:254-276 | in every interleaving: requests counted before the wait returned have run before, each with all the actions it asked for, the unmount action runs at most once and last, output and agent close after it |
| Shutdown.ReducerLifecycle | mg/store.go:84-147 | every reachable run of the dispatcher gives every reducer the documented lifecycle, every yes answered by Reduce or RUnmount |
| ShutdownRuns.RequestsRun | mg/agent.go:217-226 | in every run, requests run in the order they are read in, and every action of a request that is done has been reduced, in order and with nothing in between |
| ShutdownRuns.ActionsRun | mg/store.go:102-159 | no action is reduced more often than requests and dispatches asked for it, and when nothing is left, exactly as often |
| ShutdownRuns.LowsInOrder | mg/store.go:107-114 | as long as the low queue has room, dispatched actions run in the order they were dispatched in |
| Shutdown.HighFirst | mg/store.go:116-134 | while the high queue is not empty at most one low handler is taken, and none unless the dispatcher had seen it empty |
| Shutdown.StuckMeansReturned | mg/agent.go:260-276 | when only outside events are possible every call of shutdown has returned |
| Shutdown.ShutdownCompletes | mg/agent.go:260-276 | left alone, the system comes to rest in a bounded number of steps with every call of shutdown returned |
| IssueSets.Has | mg/issue.go:198-205 | membership by hash |
| IssueSets.SameIff | mg/issue.go:115-128 | two issues are the same when row, message and place are, the place being the path, or the name where there is none |
| IssueSets.ValidIff | mg/issue.go:143-145 | a valid issue has a message and a place |
| IssueSets.FinalizedIs | mg/issue.go:103-113 | an issue of the view is filed under its name only, a missing tag is set, and nothing else changes |
| IssueSets.FinalizedMeet | mg/issue.go:103-113 | finalized issues of one view are the same when row and message are; finalizing twice changes nothing |
| IssueSets.Merge | mg/issue.go:165-185 | adding nothing changes nothing; otherwise the first issues by hash of both lists, finalized for a view |
| IssueSets.Remove | mg/issue.go:187-196 | the list without the issues of another |
| IssueSets.WithoutOrder | mg/issue.go:187-196 | every issue that is not taken out stays, in its order |
| IssueSets.Equal | mg/issue.go:149-159 | a length test and one-sided membership |
| IssueSets.FirstsSame | mg/issue.go:165-185 | no hash is lost and each is kept once; a list without duplicates stays as it is |
| IssueSets.FirstsOrder | mg/issue.go:165-185 | what is kept is exactly the first issue of each hash, in order |
| IssueSets.FirstsTwice | mg/issue.go:161-163 | adding in two steps is adding at once |
| IssueSets.WithoutHashes | mg/issue.go:187-196 | removal takes out exactly the hashes of the other list |
| IssueSets.RemoveThenAdd | mg/issue.go:161-196 | removing and adding again gives the same set |
| IssueSets.EqualsIsSetEquality | mg/issue.go:149-159 | on lists without duplicates Equal decides equality of hash sets |
| IssueSets.EqualsIsEquivalence | mg/issue.go:149-159 | so it is symmetric and transitive there, and ignores the order of merging |
| IssueSets.EqualsSymmetric | mg/issue.go:149-159 | on lists of one length it is symmetric if and only if neither hash set is a proper part of the other |
| IssueSets.EqualsNotSymmetric | mg/issue.go:149-159 | with duplicates it is not symmetric |
| IssueOuts.IssueOut.Write | mg/issue.go:379-390 | a closed writer takes nothing; otherwise the bytes are appended in place or to a new array, complete lines are scanned and the rest is moved to the front, over whatever the indentation is kept in |
| IssueOuts.IssueOut.Append | mg/issue.go:387-440 | bytes go behind those in the buffer where there is room, overwriting what a range of the array held there, else into a new array that leaves the range alone |
| IssueOuts.IssueOut.Close | mg/issue.go:392-408 | the pending issue is flushed, also when closing fails |
| IssueOuts.IssueOut.Issues | mg/issue.go:418-426 | all lines, the unfinished one too, are scanned first |
| IssueOuts.IssueOut.DoScan | mg/issue.go:428-441 | the lines are scanned in order, each where it lies in the buffer, without trailing carriage returns |
| IssueOuts.IssueOut.DoScanLine | mg/issue.go:443-455 | an indented line may extend the pending issue, any other flushes it, is matched, and its indentation is kept as a range of the buffer |
| IssueOuts.IssueOut.DoFlush | mg/issue.go:457-466 | a valid pending issue is kept unless its hash is there |
| IssueOuts.LineAt | mg/issue.go:429-437 | every line is found in the buffer where it begins |
| IssueChunks.LineFirst | mg/issue.go:429 | what comes before the first newline is the first line |
| IssueOuts.IndentIff | mg/issue.go:444 | blanks and tabs a line begins with are its indentation exactly when no more of them follow |
| IssueOuts.TrimReturnsIff | mg/issue.go:437 | carriage returns a line ends in are what is trimmed exactly when no more of them come before |
| IssueChunks.WriteTwice | mg/issue.go:379-390 | on safe lines two writes do what one write of both does |
| IssueChunks.ChunkInvariance | mg/issue.go:379-390 | every two divisions of a stream of safe lines into writes, with whatever arrays, leave the same issues, pending issue and unfinished line |
| IssueBlocks.ContinueOne | mg/issue.go:443-449 | the code's guard says that the line is indented and not like the matched line |
| IssueBlocks.LessIndentedContinues | mg/issue.go:443-449 | a line that is indented less than the issue continues it with its whole text |
| IssueBlocks.LessIndentedInput | mg/issue.go:443-449 | two lines, the second indented less, that make one issue |
| IssueBlocks.TabInput | mg/issue.go:443-449 | a line that begins with a tab joins the issue above, after a newline |
| IssueBlocks.CleanIsBlocks | mg/issue.go:443-466 | reading line by line with nothing overwritten finds the blocks: one matched line and its continuation lines |
| IssueBlocks.OverwritingIsHarmlessIffSafe | mg/issue.go:440-452 | whatever overwrites the kept indentation before whichever line, reading finds the blocks of the lines, if and only if the lines are safe |
| IssueBlocks.SafeWhenFlat | mg/issue.go:443-449 | lines are safe when none that matches is indented |
| IssueChunks.FedShows | mg/issue.go:379-466 | for every stream and division the writer has read the complete lines, with the bytes of the range changed between them, and shows the valid blocks found but for the pending one |
| IssueChunks.OneWrite | mg/issue.go:379-466 | a single write finds the blocks of any lines, safe or not |
| IssueChunks.PiecesMatter | mg/issue.go:438-447 | two writes that lose an issue which one write of both finds |
| IssueChunks.PiecesNotSafe | mg/issue.go:443-449 | the lines of that stream are not safe |
| IssueChunks.IssuesOfStream | mg/issue.go:418-441 | for every stream of safe lines and division, Issues is the first-occurrence list of the valid blocks but for the pending one |
| IssueChunks.IssuesOfLines | mg/issue.go:418-441 | for a stream of safe lines that ends in a newline every valid block is returned |
| IssueChunks.IssuesAfterClose | mg/issue.go:392-426 | closed first, that holds of every stream of safe lines |
| SplitWriters.BothLawful | mgutil/splitwriter.go:14-33 | both split functions lose nothing and make progress |
| SplitWriters.PiecesJoin | mgutil/splitwriter.go:54-64 | the pieces and the rest are a division of the buffer |
| SplitWriters.LinePieces | mgutil/splitwriter.go:14-21 | cut at lines, a piece is one line with its newline and no newline is left over |
| SplitWriters.ReturnPieces | mgutil/splitwriter.go:23-33 | cut at carriage returns too, a piece ends with the first newline of what is left, or if there is none with the first carriage return |
| SplitWriters.SplitWriter.Write | mgutil/splitwriter.go:46-72 | whole pieces are delivered up to the first error, delivered and buffered bytes are the accepted input, and what failed is counted by its piece |
| SplitWriters.SplitWriter.DoFlush | mgutil/splitwriter.go:81-93 | closing delivers the buffer, the sink is flushed once after that unless there was an error, and an error stays |
| SplitWriters.SplitWriter.Close | mgutil/splitwriter.go:95-108 | the sink is closed once, after a flush, and a Close without error has delivered everything |
| SplitWriters.LinesDoNotDependOnChunks | mgutil/splitwriter.go:14-21 | cut at lines, the pieces do not depend on chunking |
| SplitWriters.EarlyReturnMatters | mgutil/splitwriter.go:23-33 | divided after an early carriage return the pieces differ |
| SplitWriters.ReturnsDependOnChunks | mgutil/splitwriter.go:23-33 | cut at lines or carriage returns, they do not depend on chunking if and only if no carriage return comes before a newline |
| Vfs.SplitPath | vfs/vfs.go:595-605 | the first name and what follows |
| Vfs.PrintThenParse | vfs/vfs.go:250-283 | the printed path parses back to the names |
| Vfs.PrintIs | vfs/vfs.go:250-283 | the printed path has a slash before each name, and is a slash for the root |
| Vfs.PlainNames | vfs/vfs.go:593-605 | names that are not empty and have neither slash nor backslash in them, printed, parse back |
| Vfs.NamesArePlain | vfs/vfs.go:593-605 | the names of a path are such names |
| Vfs.BackslashIsSlash | vfs/vfs.go:593 | a backslash parses like a slash |
| Vfs.DotInput | vfs/vfs.go:595-605 | "/src/main.go" is made of two names |
| Vfs.Node.Touch | vfs/vfs.go:309-320 | the child of that name, prepended when missing; the tree stays a tree |
| Vfs.Node.Find | vfs/nodelist.go:62-72 | the child of that name |
| Vfs.Node.Peek | vfs/vfs.go:287-296 | walks down the names of the path |
| Vfs.Node.Poke | vfs/vfs.go:298-307 | the node of the path, adding at most what is missing on the way |
| Vfs.Node.Path | vfs/vfs.go:250-283 | prints the names from the root |
| Vfs.Node.IsDescendant | vfs/vfs.go:163-173 | true exactly for a node above that is not the root |
| Vfs.Node.Closest | vfs/vfs.go:584-591 | the nearest node upwards with the property |
| Vfs.Node.Locate | vfs/vfs.go:573-582 | the deepest level at or above where the file exists; only the nodes asked about are added |
| Vfs.Node.ScanEnts | vfs/vfs.go:175-198 | children become the listing, known names keep their nodes, and exactly what is below a dropped name leaves the tree |
| Vfs.SameNames | vfs/vfs.go:107-114 | a node is known by its names |
| Vfs.WalkIs | vfs/vfs.go:287-296 | a lookup finds the node of the names, and nothing when there is none |
| Vfs.PathLeadsBack | vfs/vfs.go:250-296 | the path of a node leads back to it |
| Vfs.SamePlace | vfs/vfs.go:287-307 | two paths lead to the same node exactly when they have the same names |
| Vfs.Scanned | vfs/vfs.go:175-198 | after a listing the rest is a tree again |
| Vfs.FS.Peek | vfs/vfs.go:287-296 | finds every node by its path and changes nothing |
| Vfs.FS.Poke | vfs/vfs.go:298-324 | no earlier lookup changes, what is new is on the way, and poking what is there changes nothing at all |
| PkgList.SortedIsUnique | golang/internal/pkglst/pkglst.go:79-93 | the sorted list does not depend on the order the directories are visited in |
| PkgList.StringLessIff | golang/internal/pkglst/pkglst.go:84-91 | strings are compared as in a dictionary |
| PkgList.SortedBy | golang/internal/pkglst/pkglst.go:82-91 | in the list names do not decrease, import paths not where names are the same, directories not where both are |
| PkgList.Add | golang/internal/pkglst/pkglst.go:70-96 | the maps are extended package by package and the list is the directories' packages, sorted |
| PkgList.AddedToGroups | golang/internal/pkglst/pkglst.go:70-77 | groups are added to in order, by import path and by name |
| PkgList.AddedToDirs | golang/internal/pkglst/pkglst.go:70-77 | a directory leads to the last package added for it |
| PkgList.DelPkg | golang/internal/pkglst/pkglst.go:44-62 | the directory's packages leave the group, and an emptied group goes |
| PkgList.PruneDir | golang/internal/pkglst/pkglst.go:37-68 | the directory leaves the maps and the list is emptied; an unknown directory changes nothing |
| PkgList.AddAgrees | golang/internal/pkglst/pkglst.go:70-77 | adding keeps the three maps in agreement if and only if every directory is new |
| PkgList.PruneAgrees | golang/internal/pkglst/pkglst.go:37-68 | pruning keeps the three maps in agreement |
| PkgList.AddThenPrune | golang/internal/pkglst/pkglst.go:37-77 | pruning a package just added restores the maps exactly |
| ModFile.PrefixOfParent | mgutil/path.go:31-38 | the path prefixes of a clean path are itself and those of its parent |
| ModFile.LoadModSum | golang/gopkg/import.go:397-468 | precedence self, last replace, last require, first go.sum line, and every entry under the path it is required by |
| ModFile.ReplacedLeads | golang/gopkg/import.go:421-441 | a replaced path leads, by its last replacement and with that version, to the other path, or to the directory under its own path |
| ModFile.RequiredLeads | golang/gopkg/import.go:414-419 | a path not replaced leads to itself with the version of its last requirement |
| ModFile.SumLeads | golang/gopkg/import.go:450-466 | one not required either, with the version of its first line of three fields in go.sum |
| ModFile.FindsLongest | golang/gopkg/import.go:264-272 | the entry of the longest path prefix, or none |
| ModFile.RequireRejoins | golang/gopkg/import.go:274-286 | the module path and the sub-package join to the import path |
| ChanQs.ChanQ.Put | mgutil/chanq.go:19-36 | under any select and consumer it ends within the queue length plus one rounds, in order, within capacity, with the value queued or received |
| ChanQs.ChanQ.Consume | mgutil/chanq.go:40-42 | others receive the oldest values in order |
| ChanQs.ChanQ.Close | mgutil/chanq.go:46-56 | closing keeps what is queued, and again has no effect |
| ChanQs.ChanQ.constructor | mgutil/chanq.go:60-65 | an open, empty queue of at least one slot |
| ChanQs.MayLoseIffNotEmpty | mgutil/chanq.go:27-35 | a Put is sure to lose nothing if and only if the queue is empty |
| ChanQs.LosesOnlyWhenFull | mgutil/chanq.go:17-36 | when the select sends whenever it can, only a full queue loses its one oldest value |
| CmdRun.Filter | mg/builtins.go:39-49 | the commands of a name, the predefined ones last |
| CmdRun.NamedOrder | mg/builtins.go:39-49 | all commands of the name, in their order, and no other |
| CmdRun.Run | mg/builtins.go:190-219 | the state goes through all commands of the name, or exec runs |
| CmdRun.ThroughStates | mg/builtins.go:206-219 | each command is given the state that the one before it left |
| CmdRun.KeepInv | mg/builtins.go:204-217 | the wait group counts the references not closed, whatever is closed again |
| CmdRun.SharedStreamClosedOnce | mg/builtins.go:204-217 | in every interleaving the stream is closed at most once, after every reference, and Run waits for just the references that were not closed |
| CmdRun.CmdOut.Write | mg/cmd.go:134-148 | bytes are buffered until closed |
| CmdRun.CmdOut.Close | mg/cmd.go:152-164 | all accepted bytes have been dispatched, and the close is told |
| CmdRun.CmdOut.Flush | mg/cmd.go:170-181 | dispatched bytes followed by the buffer are the accepted ones |

## Left out

- Go parsing, type-checking, export data and cgo: the world of the importer has arbitrary functions for them. Incomplete packages are part of what `typeCheck` stands for; a type checker that imports by itself appears in the transition system only.
- The setup for JavaScript (kimporter/kimporter.go:530-540) is not modelled: it changes the build context of an importer by the directory of the current view, which is in neither the key nor the source of a state.
- Hash functions: the hash of unsaved files is taken to be the files, and `PackageSrc`, which no hash covers, is left unset.
- Where imports lead is an arbitrary function of the modules of the chain, the importing package, the path and what the directories hold. The memos of resolution are not modelled: `findPkgGp` (golang/gopkg/import.go:142-168) remembers lookups, failures included, in the memo of the importing directory, and go.mod files are remembered with their directories, each until that directory is cleared; a lookup that is stale for this reason is outside the theorems.
- `ImportsTypesInfo` is one setting of the world, as it is not part of the key; the callers never vary it.
- SeqImport.CachedImportEqualsUncached: holds for acyclic import histories, because importers are never unregistered, for unsaved files of the root's own directory, and where the settled states lead where the importer is led and the ways to a package make no difference; `ImportLimits` and `ImportDiamond` have an input for each, and `ImportFresh.CachedImportExactly` has the exact condition on the settled states.
- ImportFresh.CachedImportExactly: for worlds whose results show how they came about (`ImportExact.Telling`: a package holds the packages it imports, an error says where it arose), since a stale result may otherwise be equal by chance. The world of `ImportLimits.ResolutionGoesStale` is one.
- ImportTheorems.ReturnedExactly: for the same worlds, and dependencies imported in order.
- ImportTheorems.NoMissedInvalidation: the collection of a memo and the walk from it are one step, after the step that draws the stamp. A walk is taken to come in turn (`ImportSteps.InTurn`): one that brings back what a later stamp has invalidated is outside the theorems (`ImportLate.OldWalkBringsBack`).
- Directories that cannot be listed, whose states are not remembered, and the nil memo, which remembers nothing.
- The counter's 64-bit width.
- ImportTheorems.ReturnedIsRecheck: for concurrently imported dependencies the error returned may be that of any failing dependency, as in the code; packages agree exactly.
- ImportEnds.ImportsFinish: of the type checker's own imports it is assumed that each check makes finitely many (`World.again`).
- Delivery of replies at the end of input: the agent unsubscribes before shutdown waits, so only reduction is claimed.
- Reducers.StoreReducers.Reduction: the reductions that reducers defer, which run after the three lists and call no reducer, are left out.
- Reducers registered while the store runs, a reducer registered twice, and the older Reducer* callbacks that the R* ones delegate to.
- Actions of a request that no creator knows: they are reported and not reduced, so the names of a request stand for those that are known.
- What a handler does besides its reduction (subscribers, encoding); in particular a handler that never returns.
- Regular expressions: matching a line is an arbitrary function. The base fields and the path joining of a match are part of it.
- IssueBlocks.OverwritingIsHarmlessIffSafe: necessary for arbitrary overwriting bytes; the bytes of a given stream may happen to be the same indentation again. How arrays grow is an arbitrary function.
- Byte slices that a sink keeps beyond the call that handed them over.
- SplitWriters.SplitWriter.Write: for split functions that lose nothing and cut off at least a byte; any other may lose input or loop.
- Vfs.Node.Locate: `Stat` is a predicate on paths and leaves the tree alone; in the code a failing one also drops the children of the node asked about, and one that finds a changed directory scans it (vfs/vfs.go:480-514). Time stamps, memos of nodes and the Windows separator are left out, and the name is one path component, as its callers pass.
- Vfs.Node.ScanEnts: for listings of distinct, non-empty names without separators, which a directory has.
- The other scans and copies of `NodeList` (Filter, Copy, Sorted, Index, Some): a list of children is a sequence value here.
- `Store.Subscribe` and the order subscribers are told in.
- Locks of single nodes and the atomic child pointer: the tree operations are sequential.
- PkgList.PruneDir: cleaning a path is an arbitrary function; the aliasing of a loop variable in `Cache.Add` is left out.
- ModFile.LoadModSum: parsing is left out, so its input is the parsed file; a file without a module line is not modelled. The search through vendor directories and GOPATH is left out.
- ModFile.RequireRejoins: for clean import paths.
- ChanQs.ChanQ.Put: the case of a receive from a closed channel cannot arise, as Close takes the same lock.
- `ChanQ` loops with recovered callbacks, process handling, command interpolation and the environment and type builtins: easy or library-bound.
- Writes through a reference after it was closed still reach the stream; nothing is claimed of them.
