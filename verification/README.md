# Model of dynamic reconfiguration with NC-Library

NC-Library lets a *reconfiguration region* of a SystemC design swap the module loaded in it while
the simulation runs. A module may contain further regions; a region may be *split*, so that several
configuration managers share its flags. This project models the three layers of the library that
interact and proves properties of them for every design, every schedule and every run.

**The reconfiguration protocol.** `Model` holds the static hierarchy (`Topology`) and the run-time
state: flags and transaction counters of regions, pointers of managers and modules, adapter
bindings, and threads with the locks and the loads on their stacks. `Teardown` is the recursive
unload, `Protocol` the step relation: calls in both directions, returns, `configure_module`,
`unload_module` and preloads, cut at every wait. Every `SC_REPORT_ERROR` and `sc_assert` is the
outcome `Failed`; a process that kills itself in the middle of an operation is the outcome
`Aborted`, after which the run goes on. `Invariants`, `Effects`, `UnloadSafety`, `LoadEffects` and
`Steps` prove an invariant of every step, `Safety` and `Conservation` what it means over runs.
`Closure` and `Exactness` say exactly when a recursive unload succeeds and exactly what it leaves
behind, `Interruption` exactly when the executing process kills itself on the way and what is left
then. `Guarantees` and `Completion` lift this to requests and loads in progress; `Orphans` says how
a region comes to be marked with nobody reconfiguring it, `Blocking` how one comes to be blocked with
calls in flight, and `Bindings` that nobody touches the adapters of a region while a load waits for
them. `Outcomes` pins every kind of step that is not an unload over all runs, when it fails and all it
changes: calls and returns with their locks, requests, each stretch of a load, preloads before
simulation. `Slots` is an abstract machine with one slot per manager, `Refinement` shows that
every step of the protocol is one change of it, and `Wreckage` reads the walk of a half-finished
unload as an order on the active subtree. `Preload` proves that loading over an empty subtree loads
exactly the preload closure and that unloading restores everything. `LostModule` gives the one step
that breaks the invariant, as an if-and-only-if over steps and over runs and as a concrete run;
`SplitRuns` has two more concrete runs, of a split region.

**The adapters under delta cycles.** `Fabric` models the port and socket adapters of an interface
with any number of members together with the evaluation, update and notification phases of IEEE Std
1666-2011, section 4.2.1, with an arbitrary choice of the next process. `Rebinding` has two concrete
runs in which an output lags behind. `Chain` uses the same adapter code for the nested add-one
example, at every nesting depth.

**The code as it is written.** The library changes objects in place, and so do the classes here:
`Regions` (flags, counter, scoped lock), `Adapters` (adapters that point to each other), `Vectors`
(loops over element adapters of any kind), `Registry` (the list of registered modules), `Sensitivity`
(options objects shared through pointers) and `Simulation` (the operations of managers and modules,
with their loops and their mutual recursion, on the region objects of `Regions`). The methods of
`Simulation`, and those of the port adapters, are proved equal to the functions the theorems are
about, so `Simulation.Step` carries the protocol's invariant from one object state to the next; the
contracts of regions, sockets, vectors, registry and options say outright what the objects show
afterwards.

## Reading the results

- A region is *orphaned* when it is marked reconfiguring but the process doing so was killed.
  `Orphans.OrphanBirth` says in which steps that happens, `Orphans.OrphanForever` that no step ever
  takes it back. A slot of an orphaned region may be *broken*: it holds a module that is neither
  loaded nor being loaded. `SplitRuns.UnloadsItself` is a run with two broken slots on one region; at
  most one slot of a region is ever being loaded (`Refinement.OneLoading`).
- A preload overwrites the manager's pointer without unloading (src/region/conf_manager.h:400). If
  somebody has configured the nested region out of turn, that module is lost. `Overwrites` is such a
  step. A `Run` may contain any number of them, and what is stated over `Run` holds all the same; a
  `TidyRun` contains none, and it is named where it is needed. `LostModule.RunInvIff` says that the
  whole invariant holds up to the first such step and not after it.
- A blocked region may have calls in flight. Configuring an empty area of a split region skips the
  check of active transactions (src/region/conf_manager.h:302), and so does a nested preload, which
  blocks whatever region it is for. `Blocking.BusyBirth` shows that it happens in exactly these two
  kinds of step, and that the second finds somebody inside only after a module has been lost;
  `SplitRuns.BlocksWhileBusy` is a run. While a region stays blocked its counter only falls.
- An output bound again in the delta cycle in which it was unbound, as a nested preload can do, may
  show the decoupled value for a while although the module drives another one
  (`Rebinding.Lags`). So may an output that the module drove before it was ever bound, as it can when
  it exposes the output of a region nested in it (`Rebinding.StaysAtRest`). `Fabric.OutputDelay` and
  `Fabric.FollowsIff` are exact about both.
- An input adapter bound with synchronisation before its update thread has reached its first wait
  misses the bind event; `Fabric.BindAnsweredIff` is exact about it. `configure_module` cannot get
  there, because it waits a positive load time first.
- Where code and comments disagree the model follows the code: `disconnect_from_reconf_zone` stores
  whatever pointer it is given, and a split manager passes the pointer that `nc_decouple` has just
  cleared (src/region/conf_manager.h:176-185); the comment on the decoupled flag calls it a coupled
  flag (src/forwarding/port_adapter.h:388-390); `load_current_module` says that no other module is
  loaded but does not test it (src/region/conf_manager.h:262-264).

## Model

| member | source | states |
|---|---|---|
| Safety.RunSound | src/region/conf_manager.h:272-469 | in every state of every run, under any interleaving of calls, requests, preloads and kills: counters are the live locks, calls run through bound pairs, both sides of the bindings agree, at most one load is in progress per region and finds its pointers as it left them, blocked regions are marked, handles name the live processes, and on a region that is not orphaned current modules are coupled and complete, or being loaded |
| Safety.InFlight | src/forwarding/tlm_adapter.cpp:123-128 | in every state of every run a region's counter is the number of live locks, and a call in flight runs through a pair still bound, in both directions, to the module it entered; while no module has been preloaded over, that module is still loaded there |
| Outcomes.EnterExact | src/forwarding/tlm_adapter.cpp:123-135 | in every reachable state a call into a region completes exactly when a module is bound there and the region is not blocked; the region's counter is then one more, the caller's stack ends with the call, and nothing else has changed |
| Outcomes.EnterOutExact | src/forwarding/tlm_adapter.cpp:71-84 | the same for a call out of a module, which completes exactly when the module is configured on a region that is not blocked |
| Outcomes.ReturnExact | src/locking/reconf_lock.h:39-42 | a return never fails: the innermost call has left the stack, the counter of its region is one less, and nothing else has changed |
| Outcomes.CallRestores | src/forwarding/tlm_adapter.cpp:130-135 | a call in either direction followed at once by its return leaves the state as it was |
| Outcomes.CallHolds | src/region/abstract_reconf_region_base.h:91-98 | from the beginning of a call into a region until it returns or its thread is killed, over any run, the call stays on the stack with its lock, its module stays bound and configured, and every request to unload or replace a module of the region fails |
| Outcomes.ExitExact | src/modules/abstract_module_base.cpp:46-49 | a process that returns is dead and changes nothing else |
| Safety.BlockedMeansQuiet | src/region/abstract_reconf_region_base.h:74-98 | a blocked region is being reconfigured; while no module has been preloaded over, it has no call in flight unless a split manager is connected to it |
| Blocking.BlockedExact | src/region/conf_manager.h:301-303 | a request that reaches the load wait leaves its region blocked, and with no call in flight exactly when its manager held a module or nobody was inside |
| Blocking.BusyBirth | src/region/conf_manager.h:301-303 | a region comes to be blocked with calls in flight in exactly those steps that are requests for an empty manager, or preloads, of a region somebody is inside of; only the first while no module has been preloaded over, and then the region is split |
| Blocking.BlockedDrains | src/region/abstract_reconf_region_base.h:32-39 | while a region stays blocked its counter never grows, over any stretch of a run |
| SplitRuns.BlocksWhileBusy | src/region/conf_manager.h:422-451 | a concrete run to a split region that is blocked with a call in flight through another area |
| Safety.OnePending | src/region/abstract_reconf_region_base.h:56-61 | in every run a manager is between two modules only while its region is marked; and no two managers of one region are, counting all sub-managers, unless the reconfiguring process was killed |
| Safety.AtRest | src/nc_definitions.h:437-454 | on an idle region every current module is coupled and active with all its members bound; while no module has been preloaded over, nothing else is bound there |
| Safety.SplitLifecycle | src/nc_definitions.h:484-506 | unless its region is orphaned, a sub-manager is connected only to the region its split manager is coupled on; while no module has been preloaded over, that one is the current module of its manager, and all its sub-managers are connected while it is coupled |
| Safety.FlagMeansUnbound | src/forwarding/port_adapter.h:465-504 | in every state of every run the decoupled flag is set only on unbound adapters, and on none before the simulation starts |
| Bindings.SyncedUntouched | src/region/conf_manager.h:281-287 | from the coupling of a module to the end of the wait for its adapters no step of any thread binds or unbinds an adapter of the region or touches a decoupled flag |
| Safety.SpawnAfterKill | src/modules/abstract_module_base.cpp:28-49 | whenever a module's processes are spawned, by a load or by a preload before simulation, all its earlier processes are dead, and afterwards it holds one handle per registered argument |
| Steps.ReturnKeeps | src/locking/reconf_lock.h:39-42 | releasing a lock never trips the counter's assertion |
| Conservation.ProcessesConserved | src/modules/abstract_module_base.cpp:31-49 | in every run a module holds one handle per spawn argument or none, and every live process is among them; while no module has been preloaded over, a module that is not current has none alive |
| Conservation.SplitUnloaded | src/nc_definitions.h:504-506 | unloading a split manager completes only with every sub-manager empty and disconnected |
| Exactness.UnloadExact | src/region/conf_manager.h:301-310 | the recursive unload succeeds exactly when the active subtree is clear before it, and then takes out exactly that subtree: pointers, handles, bindings, decoupled flags and threads of everything else are as before |
| Exactness.DeactivateExact | src/modules/abstract_module_base.cpp:41-54 | the same for deactivation from any of its steps on |
| Exactness.UnloadModuleExact | src/region/conf_manager.h:463-469 | the same with the mark on the region, which must be idle |
| Guarantees.UnloadRequestExact | src/region/conf_manager.h:463-469 | an unload request in a reachable state completes exactly when its region is idle and the subtree clear; counters then equal the surviving locks, and every block is as before |
| Guarantees.ConfigureExact | src/region/conf_manager.h:422-440 | a request for another module reaches the load wait exactly when its region is idle and the subtree clear |
| Outcomes.ConfigureEffect | src/region/conf_manager.h:422-451 | at the load wait exactly the active subtree has been taken out, the region is marked and blocked, the manager points to the new module and the thread waits; every other mark, block, pointer, binding, flag and thread is as before and the counters are the surviving locks |
| Guarantees.ClearIdle | src/modules/abstract_module_base.cpp:51-53 | no region at any depth of a clear subtree is being reconfigured |
| Guarantees.MarksStay | src/region/abstract_reconf_region_base.h:56-69 | an unload, however it ends, leaves every mark that was set before it |
| Guarantees.NestedReconfigurationHolds | src/modules/abstract_module_base.cpp:51-53 | while a region nested at any depth is being reconfigured no enclosing unload request completes, and the region stays marked |
| Guarantees.NestedConfigureHolds | test/nested_unload/top_nested_unload_test.cpp:63-70 | nor does a request to configure another module in the enclosing region |
| Interruption.UnloadCut | src/modules/abstract_module_base.cpp:41-54 | an unload is cut short exactly when the walk reaches the module of the executing process with everything before it clear, and every pointer, handle, binding, flag and thread is then as the walk up to there leaves it, down to which processes of that module are dead |
| Interruption.ModuleCut | src/region/conf_manager.h:463-469 | the same with the mark on the region, which must be idle |
| Orphans.UnloadRequestCut | src/region/conf_manager.h:463-469 | when an unload request kills its own process half-way instead of being refused, and exactly what it leaves; counters then equal the surviving locks |
| Orphans.ConfigureCut | src/region/conf_manager.h:422-436 | the same for a request to configure another module, which also leaves its region blocked |
| Orphans.OrphanStays | src/region/abstract_reconf_region_base.h:56-69 | no step takes an orphaned region back |
| Orphans.OrphanBirth | src/modules/abstract_module_base.cpp:46-49 | a region is orphaned after a step exactly when it was before, or the step is a request that kills the process loading on it, or one cut short that marks it; which processes a request kills and which regions it leaves marked is read off the state before the step |
| Orphans.OrphanForever | src/region/abstract_reconf_region_base.h:56-69 | once orphaned, orphaned for the rest of the run, whatever happens in it |
| Completion.CoupleSucceeds | src/nc_definitions.h:310-318 | for complementary sub-interfaces the module a load is about to couple finds all its adapters unbound |
| Completion.ResumeExact | src/region/conf_manager.h:272-290 | while no module has been preloaded over, a load that goes on fails if and only if it is about to preload a region somebody is reconfiguring |
| Outcomes.ResumeEffect | src/region/conf_manager.h:272-290 | over all runs: a load that goes on fails exactly when its module is configured already, an adapter it needs is bound, or it is about to preload a region being reconfigured; otherwise each of its stretches changes exactly what its phase says |
| Outcomes.StartExact | src/region/reconf_region.h:44-59 | over all runs: a preload before simulation fails exactly when its manager is not connected, its module is configured or an adapter it needs is bound; otherwise the module is current, coupled and running, its region idle as before, and nothing else has changed |
| Outcomes.StartCompletes | src/region/conf_manager.h:392-404 | for complementary sub-interfaces, while no module has been preloaded over, the preload of an empty manager completes exactly when the manager is connected |
| Refinement.RunRefines | src/region/conf_manager.h:392-469 | every step of a run without a lost module is one change of the abstract slots: only wholly loaded subtrees are replaced, and a request cut short empties what lies ahead of the process, breaks what lies on the way and the loads of those it killed, and nothing else |
| Wreckage.WalkIsOrder | src/modules/abstract_module_base.cpp:41-54 | what the recursive walk takes out, leaves decoupled and kills before it reaches a module is an order on the active subtree |
| Wreckage.BreakSlots | src/modules/abstract_module_base.cpp:46-49 | an unload cut short changes the slots as that order says |
| Refinement.OneLoading | src/region/abstract_reconf_region_base.h:56-61 | in every state of every run at most one slot of a region, counting all sub-managers, is being loaded; a broken slot is only found on an orphaned region, where nothing is being loaded |
| SplitRuns.UnloadsItself | src/modules/abstract_module_base.cpp:46-49 | a concrete run: a process unloads the split manager its own module is loaded through, and leaves two broken slots on the orphaned region |
| Slots.ModsAreActive | src/modules/abstract_module_base.cpp:41-54 | the modules the recursive walk visits are exactly those active below the manager |
| Refinement.LoadsExclude | src/region/abstract_reconf_region_base.h:56-61 | nobody starts loading or unloading on a region unless each of its slots is empty or loaded |
| Preload.LoadRuns | src/region/conf_manager.h:392-404 | from the load wait on, undisturbed, a load ends without failure with exactly the preload closure added |
| Preload.LoadsClosure | src/modules/abstract_module_base.cpp:28-39 | configuring into an empty idle subtree cannot fail and changes nothing but the preload closure |
| Preload.RoundTrip | src/modules/abstract_module_base.cpp:28-54 | the closure is then loaded, coupled, active, unblocked and idle, and unloading restores every pointer, flag, counter and thread |
| LostModule.KeepsUnlessOverwrites | src/region/conf_manager.h:392-404 | a step that does not fail keeps the whole invariant if and only if it does not preload over a module that is there |
| LostModule.RunInvIff | src/region/conf_manager.h:392-404 | over all runs: the whole invariant holds up to a state exactly when no step before it preloaded over a module, and the first that does breaks it |
| LostModule.Reached | src/region/conf_manager.h:422-451 | a concrete run: configure a split manager on a nested region, then load the module that contains the region |
| LostModule.Loses | src/region/conf_manager.h:400 | the next step of that run preloads over the split manager, which stays configured with no manager holding it |
| LostModule.DesignValid | src/nc_definitions.h:431-506 | its design, with a nested and a split region, satisfies what the theorems ask of designs |
| Fabric.OutputDelay | src/forwarding/port_adapter.h:432-450 | after every delta cycle the exposed output shows the decoupled value if no module is bound, and what the bound module's output was exactly when the pair is aligned, for every schedule |
| Fabric.OutputDelayLine | src/forwarding/port_adapter.h:432-450 | while a pair stays bound the exposed output is the module's output of one delta cycle before, if at the bind it showed what the module drives or a thread was ready to see to it |
| Fabric.FollowsIff | src/forwarding/port_adapter.h:465-504 | at the bind of an adapter not unbound in the same delta cycle, with no wake-up pending, that is so exactly when the module's output still shows the decoupled value |
| Rebinding.Lags | src/region/conf_manager.h:392-404 | a concrete run where it is not: unbound, driven and bound again in one delta cycle, the exposed output then differs from what the module drove |
| Rebinding.StaysAtRest | src/forwarding/port_adapter.h:343-353 | a concrete run of an adapter that was never unbound: the module drives its output before the bind, and the exposed output stays at the decoupled value after it |
| Fabric.OnlyDriveWrites | src/forwarding/port_adapter.h:490-504 | nothing but the drive thread writes the exposed output |
| Fabric.InputDelayLine | src/forwarding/port_adapter.h:208-224 | while a synchronised pair stays bound the module's input is the exposed input of one delta cycle before |
| Fabric.InputDelay | src/forwarding/port_adapter.h:238-250 | without synchronisation this holds exactly when the two sides have been made equal since |
| Fabric.QuiescentEqual | src/forwarding/port_adapter.h:208-224 | once the exposed input stops changing both sides are equal |
| Fabric.PointersMatch | src/forwarding/port_adapter.h:238-265 | the region's adapter points to a module's adapter exactly when that one points back |
| Fabric.CoupleExact | src/nc_definitions.h:310-318 | in every run a coupling found all its members unbound and leaves each bound to the module with the pointer back; of the threads only the update threads of synchronised inputs have been told to run, no output is decoupled any more, and all channels and all other members are as before |
| Fabric.DecoupleExact | src/nc_definitions.h:320-328 | a decoupling leaves each of its members unbound with no pointer back, the outputs decoupled with their drive threads told to run and the module's channel reset; all other channels and all other members are as before |
| Fabric.SyncedExact | src/forwarding/port_adapter.h:217-221 | in every state of every run a member's synced event is pending exactly when a synchronised bind of that member took place in the current delta cycle and has been answered; for an input, an answer is owed exactly when the update thread has not run since |
| Fabric.CouplingWakes | src/nc_definitions.h:360-364 | with any number of members the wait for all synced events ends with the first delta cycle |
| Fabric.WokenAligned | src/region/conf_manager.h:281-287 | when the coupling thread wakes every input carries the exposed value of the cycle before |
| Fabric.EvaluationEnds | src/forwarding/port_adapter.h:343-353 | every run of an adapter thread brings the end of the evaluation phase nearer |
| Fabric.QuietIffNoneLeft | src/forwarding/port_adapter.h:208-224 | the phase can end exactly when that measure is zero |
| Fabric.BindAnsweredIff | src/forwarding/port_adapter.h:238-250 | a synchronised bind is answered in the same cycle exactly when the update thread has reached its first wait |
| Chain.DelayLine | src/forwarding/port_adapter.h:208-224 | along any chain of adapters and method processes a value moves one stage per delta cycle, for every schedule and waveform |
| Chain.WiringGain | example/nested_test/test_modules.cpp:28-35 | configuring `n` adding modules recursively yields `4 n + 3` stages that add `n` in all; `Chain.TotalAt` says where |
| Chain.ExampleAt | example/nested_test/test_modules.cpp:9-35 | the stages of the recursively configured example, one by one: a module adds before the region inside it and only copies after it |
| Chain.TotalAt | example/nested_test/test_modules.cpp:9-35 | what has been added on the way to any signal: one for each module entered so far, and nothing on the way out |
| Chain.AddsOnTheWayIn | example/nested_test/test_modules.cpp:12-15 | at every depth `d` the input of the region inside `d` adding modules is the input of `2 d + 1` delta cycles before plus `d` |
| Chain.CopiesOnTheWayOut | example/nested_test/test_modules.cpp:17 | from the reflector's input on, each signal is the input of as many delta cycles before as it is stages away, plus `n` |
| Chain.SettledOnTheWayIn | example/nested_test/test_modules.cpp:12-15 | settled on `b`, the input of the region inside `d` adding modules carries `b + d`, for every `d` |
| Chain.SettledOnTheWayOut | example/nested_test/test_modules.cpp:17 | settled on `b`, every signal from the reflector's input on carries `b + n` |
| Chain.AddsAtEveryDepth | example/nested_test/test_modules.cpp:9-17 | the output is at every time the input of `4 n + 5` delta cycles before plus `n` |
| Chain.StartsSettled | example/nested_test/test_modules.cpp:28-35 | a settled design is a start of a run and stays as it is until the input changes, with output `a + n` for input `a` |
| Chain.SettlesAtEveryDepth | example/nested_test/test_modules.cpp:39-46 | after an input change to `b` the design is still after `4 n + 6` delta cycles, with output `b + n` |
| Chain.SettlesInTime | example/nested_test/test_modules.cpp:39-46 | and it gets there within a bounded number of process runs, whatever is scheduled |
| Registry.AcceptedIff | src/region/conf_manager.h:247-259 | a registration sequence passes the guard exactly when base types come before derived ones |
| Registry.LookupExact | src/region/conf_manager.h:226-236 | looking up a registered type finds the instance made for exactly that type |
| Registry.ModuleList.FindModule | src/region/conf_manager.h:226-236 | the loop returns the first instance that can be cast, or null |
| Registry.ModuleList.Register | src/region/conf_manager.h:246-260 | registration is refused while running or when the type is found, and otherwise appends one new instance |
| Registry.ModuleList.PreloadModule | src/region/conf_manager.h:369-376 | the module to preload is the registered one, or the request is refused |
| Sensitivity.GroupedBySegment | src/nc_definitions.h:379-397 | a stored process has exactly the events inserted between its macro and the next; later macros change no earlier process |
| Sensitivity.SensitiveOptions.NewArgs | src/processes/nc_sensitive_opts.cpp:9-14 | a new process gets a new options object |
| Sensitivity.SensitiveOptions.Add | src/processes/nc_sensitive_opts.cpp:16-20 | an insertion extends the current options object |
| Sensitivity.SensitiveOptions.DontInitialize | src/processes/nc_sensitive_opts.h:38 | only the start-up flag of the current options object changes |
| Sensitivity.Processes.Declare | src/nc_definitions.h:387-397 | one declaration changes what is stored as the grouping says, through the shared pointer |
| Sensitivity.Processes.DeclareAll | src/modules/abstract_module_base.cpp:56-58 | a whole constructor body stores the functional grouping of its declarations |
| Regions.RegionBase.MarkReconfBegin | src/region/abstract_reconf_region_base.h:56-61 | sets the mark, refused when set |
| Regions.RegionBase.MarkReconfEnd | src/region/abstract_reconf_region_base.h:66-69 | clears the mark, refused when clear |
| Regions.RegionBase.BlockTransactions | src/region/abstract_reconf_region_base.h:74-77 | blocks, refused when blocked |
| Regions.RegionBase.UnblockTransactions | src/region/abstract_reconf_region_base.h:82-85 | unblocks, refused when not blocked |
| Regions.RegionBase.StartTransaction | src/region/abstract_reconf_region_base.h:32-39 | counts one more transaction, refused when blocked |
| Regions.RegionBase.EndTransaction | src/region/abstract_reconf_region_base.h:45-50 | counts one less, refused at zero |
| Regions.RegionBase.IsUnloadOk | src/region/abstract_reconf_region_base.h:91-98 | holds exactly at zero transactions |
| Regions.ReconfLock.Acquire | src/locking/reconf_lock.h:35-37 | a lock object exists only when the transaction was started |
| Regions.ReconfLock.Release | src/locking/reconf_lock.h:42 | the end of its scope ends the transaction |
| Adapters.RrIn.Update | src/forwarding/port_adapter.h:208-224 | one round of the thread on the objects is the function of the delta-cycle model |
| Adapters.RrIn.DynamicBind | src/forwarding/port_adapter.h:238-250 | refused exactly when bound; otherwise both pointers are set and the update thread is notified |
| Adapters.RrIn.DynamicUnbind | src/forwarding/port_adapter.h:260-265 | refused for any but the bound module; otherwise both pointers are cleared |
| Adapters.ModuleOut.Update | src/forwarding/port_adapter.h:343-353 | the region's drive thread is notified exactly while the back pointer is set |
| Adapters.RrOut.DriveSignal | src/forwarding/port_adapter.h:432-450 | writes the decoupled value, the module's value or nothing |
| Adapters.RrOut.DynamicBind | src/forwarding/port_adapter.h:465-478 | as for inputs, ending the decoupling when synchronised |
| Adapters.RrOut.DynamicUnbind | src/forwarding/port_adapter.h:490-504 | clears both pointers, starts the decoupling and resets the module's signal |
| Adapters.ModuleSocket.Enter | src/forwarding/tlm_adapter.cpp:79-84 | a call out of a module takes the lock of its region, and is an error without one |
| Adapters.RrSocket.Enter | src/forwarding/tlm_adapter.cpp:123-128 | a call into a region takes the lock and reaches the bound module, and is an error when blocked or empty |
| Adapters.RrSocket.CallAtOnce | src/forwarding/tlm_adapter.cpp:130-143 | a call that does not wait leaves the counter as it found it |
| Adapters.RrSocket.DynamicBind | src/forwarding/tlm_adapter.cpp:145-157 | binds both ways or refuses |
| Adapters.RrSocket.DynamicUnbind | src/forwarding/tlm_adapter.cpp:159-165 | unbinds both ways or refuses |
| Vectors.RrVector.DynamicBind | src/forwarding/vector_adapter.tpp:26-40 | binds element `i` to element `i` for all `i`, and from an unbound vector leaves exactly the elements' synced events in the list |
| Vectors.RrVector.DynamicUnbind | src/forwarding/vector_adapter.tpp:43-55 | undoes all pairs and empties the list, so that events never accumulate |
| Simulation.Simulation.constructor | src/region/reconf_region.h:73-77 | elaboration connects every region's own manager and yields an initial state |
| Simulation.Simulation.KillProcess | src/modules/abstract_module_base.cpp:46-48 | unwinding a killed process releases its locks, innermost first |
| Simulation.Simulation.KillAll | src/modules/abstract_module_base.cpp:46-49 | the loop over the handles, which a process that kills itself never leaves |
| Simulation.Simulation.NcDecouple | src/nc_definitions.h:320-328 | unbinding the members one by one succeeds exactly when all are bound to the module |
| Simulation.Simulation.NcCouple | src/nc_definitions.h:310-318 | binding the members one by one succeeds exactly when all are unbound, and connects the sub-managers |
| Simulation.Simulation.ConnectSubs | src/nc_definitions.h:201-204 | every sub-manager is connected to the region |
| Simulation.Simulation.UnloadUnprotected | src/region/conf_manager.h:301-310 | the in-place recursion computes the function the theorems are about |
| Simulation.Simulation.NcDeactivate | src/modules/abstract_module_base.cpp:41-54 | hook, kills and nested unloads in order compute the deactivation |
| Simulation.Simulation.DropSubs | src/modules/split_manager_base.cpp:11-13 | each sub-manager is unloaded through its still connected pointer and then disconnected |
| Simulation.Simulation.DropNestedAll | src/modules/abstract_module_base.cpp:51-53 | the loop over the nested regions |
| Simulation.Simulation.UnloadModuleOn | src/region/conf_manager.h:463-469 | mark, unload, unmark |
| Simulation.Simulation.EnterModule | src/forwarding/tlm_adapter.cpp:123-128 | a call into the region, on the protocol's state |
| Simulation.Simulation.EnterStatic | src/forwarding/tlm_adapter.cpp:79-84 | a call out of the module, on the protocol's state |
| Simulation.Simulation.EndCall | src/locking/reconf_lock.h:42 | the call returns and its lock is released |
| Simulation.Simulation.Configure | src/region/conf_manager.h:422-451 | up to the wait for the load time |
| Simulation.Simulation.UnloadRequest | src/region/reconf_region.h:145 | delegated to the manager, an error when it is not connected |
| Simulation.Simulation.Spawn | src/modules/abstract_module_base.cpp:31-34 | one process and one handle per registered argument |
| Simulation.Simulation.ResumeLoad | src/region/conf_manager.h:272-290 | each stretch of a load between its waits |
| Simulation.Simulation.PreloadNested | src/region/conf_manager.h:392-404 | a nested preload up to its coupling |
| Simulation.Simulation.PreloadStatic | src/region/reconf_region.h:44-59 | a preload before simulation, which does not wait |
| Simulation.Simulation.Perform | src/region/conf_manager.h:272-469 | one step of the objects is one step of the protocol |
| Simulation.Simulation.Step | src/region/conf_manager.h:272-469 | and keeps its invariant exactly when it does not preload over a module |

## Left out

- The SystemC and TLM libraries beyond what `Fabric` states: runnable processes, pending writes, immediate and zero-time notification. A timed wait is "some later step"; the load time (src/region/conf_manager.h:444-451) only matters as positive.
- TLM payloads, phases, direct memory and debug contents: a call is lock, forward, unlock.
- User hooks and the bodies of user processes, other than the example's: a process may do any enabled step. Split managers' hooks are modelled.
- Writer-policy checks of signals and diagnostics of several writers in one delta cycle.
- A preload before simulation of a module whose own nested regions preload: it would have to wait before processes run.
- Integer widths: counters are unbounded.
- Elaboration: names, templates, the registration of nested regions (src/modules/abstract_module_base.cpp:14-26) and the interface macros; `Valid` and `Complementary` are what they establish about a design.
- Object identity in `Simulation`: managers and modules are keys of maps there, not objects that point to each other, and adapters are a map of bindings; regions are objects. `Adapters`, `Vectors`, `Registry` and `Sensitivity` have the other pointers.
- The module side of an adapter pair in `Protocol`: it is the module's own region pointer, which `Adapters` and `Fabric` show to agree with the adapters' back pointers.
- The endless loops of the adapter threads: one round from wait to wait at a time.
- Value equality of inputs bound without synchronisation at the start, beyond `Fabric.InputDelay`; an exposed output is assumed to start with the decoupled value.
- Completion.ResumeExact: runs with a preload over a module are not covered: the module that is lost keeps adapters bound that a later load may need; LostModule.RunInvIff says when that is, and Outcomes.ResumeEffect when a load then fails.
- Fabric.OutputDelayLine: an unsynchronised bind is assumed to find the decoupled flag clear, which Safety.FlagMeansUnbound gives.
- Refinement.RunRefines: runs with a preload over a module are not covered: a lost module that is requested again would show as loaded at once. Which of several processes of the dying process's own module had been killed before it is left open, as the slots do not name processes.
- Vectors of vectors: element adapters are ports and sockets.
- Preload.RoundTrip: one thread runs undisturbed; with interference Completion.ResumeExact says when a load fails.
