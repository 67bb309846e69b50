# The AES67 NMOS bridge, modelled in Dafny

The bridge turns NMOS connection state into streams on an AES67 daemon. It plans PUT and DELETE requests from a
list of desired streams and a listing of what the daemon holds, marks its own streams by their names, and must
never touch a stream it does not own. This project models that, and proves what the design promises of it.

- `Ownership.dfy`, `OwnershipLaws.dfy`, `MarkerForms.dfy`: the ownership marker, its printer and its three-form
  parser, and which names are markers.
- `JsonValues.dfy`, `DaemonState.dfy`, `Snapshot.dfy`, `Daemon.dfy`, `SnapshotLaws.dfy`: payloads and drift, the
  daemon's state, the reading of its listing, the daemon as a class with two maps, and the states that read back.
- `Reconciler.dfy`: the planner and the pass, as loops over the desired and the listed streams.
- `Target.dfy`, `PlanOrder.dfy`: the slot-by-slot rule a pass amounts to, the proof that the planner refines it, and
  the order of a plan.
- `Convergence.dfy`, `Sanitising.dfy`, `PlanMeasure.dfy`, `StaleLists.dfy`: repeated, failed and reordered passes, a
  daemon that sanitises names, the size of a plan, and lists that are out of date.
- `Fleet.dfy`, `Takeovers.dfy`: several bridges on one daemon, and exactly when they come to rest.
- `StreamMarks.dfy`, `FleetSettings.dfy`, `SharedDaemon.dfy`: the same from the settings, for two bridges and for any
  number.
- `Config.dfy`, `DesiredState.dfy`, `Delivery.dfy`, `ConfigConvergence.dfy`: validation of the settings, the registry,
  payloads and desired streams, what a pass makes of each configured slot, and convergence from the settings.
- `RunLoop.dfy`, `RunLoopLaws.dfy`, `Wakeups.dfy`: the reconcile loop and the activation handlers as a transition
  system, and what brings a pass.
- `Decimals.dfy`, `Ipv4.dfy`, `Cidr.dfy`, `Multicast.dfy`, `HostPort.dfy`: the address arithmetic.
- `Wrappers.dfy`, `IntSets.dfy`: optional values, and ascending iteration over integers.

## What the daemon is taken to do

A PUT stores a deterministic function of the slot and the payload (the type `Storage`). A stream's name is its
payload's `name` field. Two kinds of daemon are told apart. One keeps every field of the payload and may add others
(the type `Decoration`). The other does the same but drops square brackets from names, as the README of the bridge
says of earlier markers (README.md:63-64): `Sanitising.Sanitised`.

Nearly everything is proved for any `Storage`: the refinement to the slot rule, idempotence, resumption, the order of
the operations, the run loop and when a fleet comes to rest. Where a result needs more, it says what: that the enabled
payloads at hand are kept (`Convergence.Keeps`), or that none of them is taken for own and yet for drifted as soon as
it is stored (`Convergence.NoneRewritten`). The results on the settings hold for both kinds of daemon, told apart by
a flag (`sanitises`).

The daemon lists each stream under the id of its slot, in any order. A DELETE of an absent stream fails. Any request
may fail, and a failed request may have taken effect. Nobody else writes to the daemon between the listing a pass
starts from and its last request: the code has no compare-and-set, so this is assumed.

## Where the code does less than its documentation says

- An activation does not always wake the loop. The loop takes its snapshot before it clears the flag
  (src/nmos/connection.cpp:251-256), so an activation written and signalled between the two is slept through until
  the timer fires. `RunLoopLaws.ActivationCanBeMissed` is such a run; `RunLoopLaws.MissedOnlyInWindow` says that
  this window is the only way, in both directions; `Wakeups.TimerCoversTheWindow` that the timer makes good for it. It takes no outage (`RunLoopLaws.CompletePassCanMiss`).
- A nonempty namespace, which is all that validation asks for (src/bridge/config.cpp:164-166), is not enough for
  the bridge to know its own streams again. `ConfigConvergence.ConfigConverges` gives the exact condition on the
  settings.
- Different namespaces are not enough for bridges to share a daemon. `SharedDaemon.SettingsSettleIff` says exactly
  which settings settle, for any number of bridges. `FleetSettings.ValidSettingsCanCollide` gives two sets of
  settings, both valid, whose bridges never do; on a daemon that sanitises names, "a[b" and "ab" are such namespaces
  (`FleetSettings.BracketExample`).
- A title or an nmos id with a square bracket is rewritten by every pass for ever on a daemon that sanitises names
  (`Sanitising.BracketsAreRewrittenForEver`).
- A stale list of desired streams can leave a trace: `StaleLists.LastConnectionsWin` says exactly when, and
  `StaleLists.StaleListLeavesTrace` is an instance for every setup with a sender.

## Model

| member | source | states |
|---|---|---|
| OwnershipLaws.RoundTrip | src/bridge/ownership.cpp:15-79 | a printed marker is read back as the same namespace, side and id, for every label, iff the namespace is nonempty without ")/" and the id nonempty without a space |
| OwnershipLaws.NamespaceComesBack | src/bridge/ownership.cpp:24-79 | the namespace alone (and with it the side) comes back iff the namespace is plain and the id is nonempty and does not start with a space |
| OwnershipLaws.MarkerInjective | src/bridge/ownership.cpp:15-22 | equal markers have equal namespace, side and id |
| OwnershipLaws.MarkersCollide | src/bridge/ownership.cpp:29-35 | a namespace holding ")/sender/" or ")/receiver/" prints markers of a shorter namespace |
| OwnershipLaws.ParsedOpensWritten | src/bridge/ownership.cpp:28-35 | the namespace read off a marker is a prefix of the one it was printed with |
| OwnershipLaws.LegacyRoundTrip | src/bridge/ownership.cpp:36-44 | the square-bracket form is read back iff the namespace has no "]/" and the id no space, both nonempty |
| OwnershipLaws.StrippedRoundTrip | src/bridge/ownership.cpp:45-57 | the form with its brackets dropped is read back iff the namespace has no slash or bracket and no leading parenthesis, and the id no space or bracket |
| OwnershipLaws.EncodingsAgree | src/bridge/ownership.cpp:28-57 | under those conditions all three encodings name the same owner |
| MarkerForms.ParsedIffMarker | src/bridge/ownership.cpp:24-79 | for every string: it is read as naming an owner iff it is prefix, nonempty namespace without the delimiter, delimiter, side word, slash, nonempty id without a space, and nothing or a space and any text, in the first of the three forms whose prefix it has |
| MarkerForms.PrintedMarker | src/bridge/ownership.cpp:15-22 | the printed marker spelled out |
| MarkerForms.HandNamedExample | src/bridge/ownership.cpp:46-49 | "rack/sender/mic1" is nobody's |
| MarkerForms.PlansTouchMarkersOnly | src/bridge/reconciler.cpp:85-121 | whatever stream a plan updates or removes carries a marker of the bridge's namespace, so its name begins with "NMOS" |
| MarkerForms.RemovalsMeetOwnMarkers | src/bridge/reconciler.cpp:64-121 | and what it removes is filed on the side the marker names |
| MarkerForms.UnmarkedStreamsStay | src/bridge/reconciler.cpp:85-121 | over whole runs, a stream without a marker of the namespace keeps its content while nobody else changes it |
| JsonValues.PayloadDrifted | src/bridge/reconciler.cpp:14-22 | true iff some field of the desired payload is missing from the daemon's copy or differs there |
| JsonValues.UndriftedIff | src/bridge/reconciler.cpp:14-22 | a copy has not drifted iff it is the payload laid over something; a payload that is not an object only the same one keeps |
| JsonValues.NameIsRead | src/bridge/daemon_client.cpp:15-18 | the name is the name field when that is a string, and empty otherwise |
| JsonValues.UndriftedKeepsName | src/bridge/daemon_client.cpp:15-18 | a copy that has not drifted is listed under the name the bridge wrote |
| Daemons.Daemon.PutSource | src/bridge/daemon_client.cpp:80-85 | the source slot holds what the daemon makes of the payload, or the request failed and nothing changed; sinks untouched |
| Daemons.Daemon.PutSink | src/bridge/daemon_client.cpp:94-99 | the same for sinks |
| Daemons.Daemon.DeleteSource | src/bridge/daemon_client.cpp:87-92 | the source is gone, or the request failed and nothing changed; an absent source makes it fail |
| Daemons.Daemon.DeleteSink | src/bridge/daemon_client.cpp:101-106 | the same for sinks |
| Daemons.Daemon.GetState | src/bridge/daemon_client.cpp:66-78 | the state, read off a listing in any order through the parser, or a failure; nothing changed |
| Snapshots.ParseArray | src/bridge/daemon_client.cpp:23-36 | fails iff some item has no integer id, and otherwise keeps exactly the last item of each id |
| Snapshots.ParseStreams | src/bridge/daemon_client.cpp:40-45 | the same for the arrays under "sources" and "sinks"; where there is none, that side is empty |
| Snapshots.ItemIsRead | src/bridge/daemon_client.cpp:11-21 | what is read of one listed item, and that it has an id iff its id field is an integer |
| Snapshots.ListingIsFaithful | src/bridge/daemon_client.cpp:23-36 | a listing of a side's streams in any order, with repeats or not, gives the side back |
| Snapshots.SnapshotIsFaithful | src/bridge/daemon_client.cpp:40-45 | whatever the order of the listing, what is read from it is the daemon's state |
| SnapshotLaws.SomeDaemonAddsId | src/bridge/daemon_client.cpp:11-21 | a daemon that keeps what it is given can add to each payload the id the parser asks for |
| SnapshotLaws.PlannedPayloadsLeaveId | src/nmos/connection.cpp:56-84 | no plan from the bridge's own desired lists puts an id of its own |
| SnapshotLaws.PassesReadBack | src/bridge/reconciler.cpp:143-150 | after any prefix of any such plan, every listing can be parsed, and parses to the daemon's state alone |
| SnapshotLaws.RunsReadBack | src/nmos/connection.cpp:240-276 | the same of every state in every run of the loop |
| Reconcilers.EnabledIds | src/bridge/reconciler.cpp:51-57 | collects exactly the ids and slots of a side's enabled streams |
| Reconcilers.PlanOne | src/bridge/reconciler.cpp:60-107 | each branch for one desired stream adds at most one operation or one conflict, and marks the slot handled iff the stream is enabled or removed |
| Reconcilers.PlanDesired | src/bridge/reconciler.cpp:59-107 | the pass over the desired streams of a side, in order |
| Reconcilers.IsOrphan | src/bridge/reconciler.cpp:111-117 | a listed stream is removed iff unhandled, of the namespace and on its own side: the code's test for a wanted stream never keeps one |
| Reconcilers.PlanOrphans | src/bridge/reconciler.cpp:109-121 | the orphan loop removes those streams in ascending id order |
| Reconcilers.PlanSide | src/bridge/reconciler.cpp:44-122 | one side's plan |
| Reconcilers.Reconciler.Plan | src/bridge/reconciler.cpp:40-125 | the plan and the conflicts of both sides, senders first |
| Reconcilers.Reconciler.Apply | src/bridge/reconciler.cpp:127-141 | the operation's effect on its own slot alone, or a failure with nothing changed |
| Reconcilers.Reconciler.Reconcile | src/bridge/reconciler.cpp:143-150 | a pass in which no request fails completes with the whole plan in effect; otherwise it stops at the first failure with some prefix of the plan in effect |
| Targets.PlanIsSlotwise | src/bridge/reconciler.cpp:47-120 | a plan holds an operation iff its slot calls for it, and never two for one slot |
| Targets.PlanFailsClosed | src/bridge/reconciler.cpp:85-100 | for any desired list, every operation is aimed at an empty slot or at a stream of the bridge's own namespace |
| Targets.PassRefinesTarget | src/bridge/reconciler.cpp:44-122 | a complete pass leaves each slot as the slot-by-slot rule says |
| Targets.PlanPrefix | src/bridge/reconciler.cpp:143-150 | after any prefix of the plan each slot holds its target or what it held before |
| PlanOrder.PlanInOrder | src/bridge/reconciler.cpp:44-121 | senders before receivers; within a side what desired streams ask for, in the order of the list, then the removals of orphans in ascending order of slots |
| PlanOrder.ConflictsInOrder | src/bridge/reconciler.cpp:44-100 | conflicts are reported senders first and in the order of the list |
| Convergence.TargetIdempotent | src/bridge/reconciler.cpp:14-22 | a second application of the slot rule changes nothing, whatever the names and whatever the daemon keeps |
| Convergence.NeededIffDisagrees | src/bridge/reconciler.cpp:102-106 | where nothing is rewritten on sight, a slot calls for an operation iff it disagrees with its target; fields the daemon adds never call for one |
| Convergence.QuietIsSettled | src/bridge/reconciler.cpp:40-125 | for any daemon: an empty plan means every slot holds its target |
| Convergence.QuietIffSettled | src/bridge/reconciler.cpp:40-125 | and, where nothing is rewritten on sight, the other way round |
| Convergence.PassSettles | src/bridge/reconciler.cpp:143-150 | for any daemon: a complete pass leaves every slot at its target |
| Convergence.QuietIffNoneRewritten | src/bridge/reconciler.cpp:102-106 | for any daemon: after a complete pass from any state the bridge plans nothing, iff no enabled stream, as stored, is both recognised and drifted |
| Convergence.PassIsQuiet | src/bridge/reconciler.cpp:143-150 | where nothing is rewritten on sight, after a complete pass the bridge plans nothing more |
| Convergence.ResumeAfterFailure | src/bridge/reconciler.cpp:143-150 | a pass cut short after any prefix, then a complete one, ends where an uninterrupted pass ends |
| Convergence.ResumeAfterFailures | src/bridge/reconciler.cpp:143-150 | the same after any number of failed passes |
| Convergence.ErrorsAreSlotwise | src/bridge/reconciler.cpp:85-100 | a conflict is reported iff an enabled stream's slot holds an unmanaged or foreign stream, and names that reason |
| Convergence.ConvergesIffKept | src/bridge/reconciler.cpp:143-150 | for any daemon: after a pass no operations and the same conflicts, from every state, iff each enabled stream, as stored, is recognised and not drifted |
| Convergence.ConvergesIffRecognised | src/bridge/reconciler.cpp:143-150 | with a daemon that keeps the enabled payloads: iff each enabled stream's name is one the bridge recognises |
| Convergence.UnownedConflicts | src/bridge/reconciler.cpp:94-99 | a stream stored under a name not the bridge's own is, once created, a conflict for that bridge |
| Convergence.LastWinsInSlot | src/bridge/reconciler.cpp:64-120 | the slot-level form of the next row |
| Convergence.LastDesiredWins | src/nmos/connection.cpp:244-275 | a stale pass before the current one leaves no trace the bridge can see iff no own stream on the wrong side is rewritten by the stale list and unwanted by the current one |
| StaleLists.LastConnectionsWin | src/nmos/connection.cpp:244-275 | the same for the lists of one bridge's fitting settings, for both kinds of daemon |
| StaleLists.StaleListLeavesTrace | src/bridge/reconciler.cpp:109-121 | for every valid setup with a sender whose streams fit: two sets of connections and a state the daemon can list that leave a trace, a slot free that would have stayed occupied |
| Sanitising.KeepsIff | src/bridge/ownership.cpp:45-57 | a sanitising daemon keeps the enabled payloads iff no name among them holds a bracket |
| Sanitising.SanitisedConvergesIff | src/bridge/ownership.cpp:45-57 | with a daemon that drops brackets from names, passes converge iff each enabled name is recognised and has no bracket |
| Sanitising.SanitisedQuietIff | src/bridge/reconciler.cpp:14-22 | there, a pass leaves nothing to plan iff each enabled name still recognised without its brackets has none |
| Sanitising.BracketsAreRewritten | src/bridge/reconciler.cpp:102-106 | there, a stream with a bracket in its title or id is taken for own and for drifted as soon as it is stored |
| Sanitising.BracketsAreRewrittenForEver | src/bridge/reconciler.cpp:102-106 | and every later pass plans its update, while the state no longer changes |
| PlanMeasure.DisagreeingAfter | src/bridge/reconciler.cpp:146-148 | where nothing is rewritten on sight: after k operations the disagreeing slots are exactly those of the operations to come |
| PlanMeasure.EachOpCountsOnce | src/bridge/reconciler.cpp:78-120 | the plan has one operation per disagreeing slot, and each lowers their number by one |
| PlanMeasure.PlanIsMinimal | src/bridge/reconciler.cpp:78-120 | no shorter list of operations reaches the same state |
| PlanMeasure.OrderDoesNotMatter | src/bridge/reconciler.cpp:146-148 | the operations in any order end in the same state |
| PlanMeasure.EachOpMeetsItsSlot | src/bridge/reconciler.cpp:47-120 | in any order creates meet an absent stream, updates and removals a present own one |
| Fleet.WellMarkedFleet | src/bridge/ownership.cpp:15-22 | bridges with distinct namespaces and well-marked, kept lists store nothing that another takes for its own |
| Fleet.SettledAfterTurn | src/bridge/reconciler.cpp:94-100 | once a bridge has had a pass, no other bridge of a fleet unsettles a slot for it |
| Fleet.TwoRoundsSettleTheFleet | src/bridge/reconciler.cpp:59-121 | for any daemon: any number of bridges of which none stores what another takes for its own have every slot as each wants it after two full rounds in any order, and plan nothing where nothing is rewritten on sight |
| Fleet.LaterRoundsOnlyCreate | src/bridge/reconciler.cpp:59-121 | after one full round every later plan holds creates only |
| Fleet.UndoneForEver | src/bridge/reconciler.cpp:102-120 | in any fleet, a bridge whose stream another removes, or rewrites and has rewritten in turn, plans to write it again after any number of turns of the two |
| Fleet.UndoesIffNamed | src/bridge/reconciler.cpp:85-121 | with different namespaces and a daemon that keeps the payloads: one bridge undoes the other in a slot iff it wants nothing there and the other writes its marker on that side, or each writes the other's name |
| Fleet.PairRestsIff | src/bridge/reconciler.cpp:59-121 | for any daemon and any names: two bridges have every slot at rest after two full rounds, from every state, iff neither undoes the other in any slot |
| Fleet.PairSettlesIff | src/bridge/reconciler.cpp:59-121 | and plan nothing, where nothing is rewritten on sight |
| Takeovers.RestsSoonOrNever | src/bridge/reconciler.cpp:94-106 | with distinct namespaces a stream that is taken from bridge to bridge comes to rest within as many takings as there are bridges, or never |
| Takeovers.FleetRestsIff | src/bridge/reconciler.cpp:59-121 | for any daemon: any number of bridges with distinct namespaces come to rest in some number of rounds iff in no slot the takers of a stream form a ring or remove it; two rounds more than bridges are then enough |
| StreamMarks.RegisteredIffConfigured | src/nmos/nmos_resources.cpp:316-336 | with distinct resource ids, the registered streams are the configured ones |
| StreamMarks.OwnerOpensWriter | src/bridge/ownership.cpp:15-35 | the namespace a listed marker names is a prefix of what the daemon leaves of the writer's |
| StreamMarks.NotEachOther | src/bridge/ownership.cpp:15-35 | two different namespaces cannot each have markers listed as the other's |
| FleetSettings.FitSettingsSettle | src/bridge/config.cpp:164-173 | any number of bridges with distinct namespaces whose streams all fit plan nothing after two rounds, whatever is active, on either kind of daemon |
| FleetSettings.SetupsRestIff | src/nmos/connection.cpp:184-238 | two bridges with different namespaces come to rest in two rounds, whatever is active, iff no registered stream of either is listed as one of the other on its own side |
| FleetSettings.SetupsSettleIff | src/nmos/connection.cpp:184-238 | and plan nothing iff, besides, none is listed as its own without the brackets it was written with |
| FleetSettings.ConfigsSettleIff | src/bridge/config.cpp:164-173 | both, for validated settings and the configured streams |
| FleetSettings.TakenForEver | src/bridge/reconciler.cpp:109-120 | a bridge with a stream so listed plans to create it again after any number of turns beside an idle bridge of the other namespace |
| FleetSettings.LongerIsTaken | src/bridge/ownership.cpp:29-35 | a namespace that holds the beginning of a marker gives all its streams to the shorter one, on the side that marker names |
| FleetSettings.BracketedIsTaken | src/bridge/ownership.cpp:45-57 | on a daemon that sanitises names, a namespace with brackets gives its streams to the one without |
| FleetSettings.BracketExample | src/bridge/ownership.cpp:45-57 | the plain namespaces "a[b" and "ab" are such a pair |
| FleetSettings.ValidSettingsCanCollide | src/bridge/config.cpp:164-173 | for every plain namespace, two valid sets of settings whose bridges never settle |
| FleetSettings.TrespassWithoutClash | src/bridge/reconciler.cpp:109-120 | sources whose namespace holds a receiver's marker of another bridge are taken for its own and yet never undone: they are on the wrong side |
| SharedDaemon.SetupsComeToRestIff | src/nmos/connection.cpp:184-238 | any number of bridges with distinct namespaces come to rest, whatever is active, iff none has a stream listed as one of another on its own side; two rounds more than bridges are then enough |
| SharedDaemon.SetupsSettleDownIff | src/nmos/connection.cpp:184-238 | and plan nothing more iff, besides, none has a stream listed as its own without its brackets |
| SharedDaemon.SettingsSettleIff | src/bridge/config.cpp:164-173 | both, for any number of validated sets of settings and their configured streams |
| Configs.CheckUnique | src/bridge/config.cpp:101-119 | accepts exactly the valid lists, and otherwise names the first offending stream and its first fault |
| Configs.Validate | src/bridge/config.cpp:164-173 | accepts exactly the valid settings, with the errors in the code's order |
| Configs.AtMost64 | src/bridge/config.cpp:106-114 | a valid side has at most 64 streams |
| Configs.RegisterAll | src/nmos/nmos_resources.cpp:331-336 | the map holds, for each resource id, the last stream that has it |
| Configs.BuildRegistry | src/nmos/nmos_resources.cpp:326-338 | both sides are registered so |
| Configs.RegistryIsValid | src/nmos/nmos_resources.cpp:331-336 | valid settings give each registered stream of a side its own slot in 0 to 63, even if resource ids collide |
| Configs.RegistryIsComplete | src/nmos/nmos_resources.cpp:316-336 | no stream is lost when different nmos ids have different resource ids |
| DesiredState.MakeSourcePayload | src/nmos/connection.cpp:56-71 | the object with exactly the source's eleven fields, each with the setting it is named after |
| DesiredState.MakeSinkPayload | src/nmos/connection.cpp:73-84 | the object with exactly the sink's eight fields, each with the setting it is named after |
| DesiredState.SourceDriftIff | src/nmos/connection.cpp:56-71 | one source payload drifts from another iff some setting it carries differs |
| DesiredState.SinkDriftIff | src/nmos/connection.cpp:73-84 | the same for sinks |
| DesiredState.SourceFieldsSay | src/nmos/connection.cpp:56-71 | a source's payload, key by key |
| DesiredState.SinkFieldsSay | src/nmos/connection.cpp:73-84 | a sink's payload, key by key |
| DesiredState.BuildSender | src/nmos/connection.cpp:187-208 | a sender is wanted iff its connection is known, enabled by its master and its first leg, and goes somewhere: to the first leg's destination if that is a nonempty string other than "auto", and else to the configured address; the payload says so |
| DesiredState.BuildReceiver | src/nmos/connection.cpp:210-235 | a receiver is wanted iff its connection is known, enabled by its master, and has a nonempty SDP; the payload says so |
| DesiredState.SenderWantedIff | src/nmos/connection.cpp:38-54 | the same of the desired stream itself, with its slot, id and name |
| DesiredState.ReceiverWantedIff | src/nmos/connection.cpp:210-235 | the same for receivers |
| DesiredState.BuildDesired | src/nmos/connection.cpp:184-238 | one desired stream per registered sender, then per registered receiver |
| DesiredState.ListsRegistered | src/nmos/connection.cpp:184-238 | the list holds exactly one stream per registered sender and receiver, each for the connection of its own resource |
| Delivery.IdleSenderIsCleared | src/bridge/reconciler.cpp:64-75 | a sender with its master or its leg off, or nowhere to go, has no source of the bridge in its slot after a complete pass |
| Delivery.IdleReceiverIsCleared | src/bridge/reconciler.cpp:64-75 | the same for a receiver without master enable or SDP |
| Delivery.ActiveSenderIsDelivered | src/nmos/connection.cpp:187-208 | an active sender whose slot is free or own has, after a complete pass, a source that carries every setting and the destination |
| Delivery.ActiveReceiverIsDelivered | src/nmos/connection.cpp:210-235 | the same for a receiver and its SDP |
| DesiredState.DesiredIsUnique | src/nmos/connection.cpp:184-238 | the desired list names each slot once, and only slots 0 to 63 |
| DesiredState.SettingsFeedPlanner | src/bridge/config.cpp:164-173 | validated settings discharge what the planner needs |
| DesiredState.PutsStayInRange | src/nmos/connection.cpp:194-218 | every put goes to a slot in 0 to 63 |
| DesiredState.DesiredIsWellMarked | src/nmos/connection.cpp:56-84 | with a plain namespace and plain ids every enabled payload names the bridge and its side |
| ConfigConvergence.SetupConverges | src/nmos/connection.cpp:184-238 | every pass converges, whatever is active, iff every registered stream fits: plain namespace and id, and, where the daemon sanitises names, no brackets |
| ConfigConvergence.ConfigConverges | src/bridge/config.cpp:164-173 | for validated settings with distinct resource ids: the same, of every configured stream |
| RunLoop.BeginsHolds | src/nmos/connection.h:61-63 | the invariant holds at the start |
| RunLoop.InvStep | src/nmos/connection.cpp:174-182 | every step of loop, handlers and outside world keeps the invariant |
| RunLoop.RunKeepsInv | src/nmos/connection.cpp:240-276 | the invariant holds throughout every interleaving |
| RunLoopLaws.NeverAsleepWithFlag | src/nmos/connection.cpp:272-274 | the loop is never blocked with the flag set unless a notify is pending |
| RunLoopLaws.StoredAfterClearWakes | src/nmos/connection.cpp:174-182 | a handler that sets the flag after the clear is never slept through |
| RunLoopLaws.MissedOnlyInWindow | src/nmos/connection.cpp:247-256 | blocked with the flag clear, an activation whose handler has set the flag is missing from the snapshot iff write and setting fell between snapshot and clear |
| RunLoopLaws.ActivationCanBeMissed | src/nmos/connection.cpp:247-256 | a run that falls asleep on an activation whose handler has finished |
| RunLoopLaws.CompletePassCanMiss | src/nmos/connection.cpp:247-256 | such a run without any failed request, from every beginning |
| RunLoopLaws.LogKeeps | src/nmos/connection.cpp:174-182 | over any stretch of a run no activation is lost or changed |
| RunLoopLaws.NextSnapshotHoldsAll | src/nmos/connection.cpp:247-253 | over any stretch of a run that ends in a snapshot, that snapshot includes every activation written by its start, and works from the latest |
| RunLoopLaws.FlagForcesSnapshot | src/nmos/connection.cpp:256-274 | with the flag set after the clear each loop step nears the next snapshot and none goes to sleep |
| RunLoopLaws.OthersDoNotDelay | src/nmos/connection.cpp:174-182 | no other step takes the loop farther from it |
| RunLoopLaws.AwakeUntilSnapshot | src/nmos/connection.cpp:244-275 | an awake loop with the flag set stays awake until its next snapshot |
| RunLoopLaws.FlagBringsSnapshot | src/nmos/connection.cpp:244-275 | over any stretch of a run with the flag set past the clear, more than six loop steps and one per request of the pass at hand hold a snapshot or the stop |
| RunLoopLaws.ActivationReachesSnapshot | src/nmos/connection.cpp:174-182 | an activation that sets the flag past the clear is in a snapshot within that many loop steps |
| RunLoopLaws.PassReachesDaemon | src/nmos/connection.cpp:256-262 | without a failed request a pass ends within two loop steps and one per request of its snapshot, with every slot as that snapshot wants it |
| RunLoopLaws.ActivationReachesDaemon | src/nmos/connection.cpp:240-276 | without a failed request or shutdown, an activation that sets the flag past the clear is on the daemon within a bounded number of loop steps |
| RunLoopLaws.StepSparesProtected | src/bridge/reconciler.cpp:127-150 | no step of the bridge changes a stream it does not own |
| RunLoopLaws.RunSparesProtected | src/bridge/reconciler.cpp:85-100 | fail closed over whole runs: an unmanaged or foreign stream keeps its content while nobody else changes it |
| RunLoopLaws.AsleepMeansAgreed | src/nmos/connection.cpp:240-276 | for any daemon: a loop asleep after a complete pass, with no activation outstanding or in the window, has every slot as the latest active connections want it, and nothing to plan where nothing is rewritten on sight |
| Wakeups.TimeoutBringsSnapshot | src/nmos/connection.cpp:272-274 | flag or no flag, the second step of the loop after its interval has run out is a snapshot or the stop |
| Wakeups.TimerCoversTheWindow | src/nmos/connection.cpp:247-274 | and every activation written by then is in that snapshot, those missed in the window too |
| Wakeups.TimerReachesDaemon | src/nmos/connection.cpp:244-275 | without a failed request they are on the daemon within a bounded number of loop steps |
| Wakeups.TimerHeals | src/nmos/connection.cpp:272-274 | the timer alone brings every slot back to what the snapshot wants, whatever was done to the daemon |
| Wakeups.SnapshotsHaveCauses | src/nmos/connection.cpp:272-274 | between two snapshots the loop has found the flag set or its interval has run out: no failed pass is repeated at once |
| Wakeups.NoPassAfterShutdown | src/nmos/connection.cpp:244-254 | after a shutdown no snapshot is taken |
| Wakeups.StopIsFinal | src/nmos/connection.cpp:254 | after the stop the loop takes no step |
| Wakeups.LoopNeverStuck | src/nmos/connection.cpp:240-276 | in every phase the loop can go on, or waits for a mutex whose holder can |
| Decimals.PrintReads | src/nmos/nmos_resources.cpp:128 | reading a decimal numeral undoes printing it |
| Decimals.JoinScans | src/nmos/nmos_resources.cpp:46-51 | a dotted list of numerals is read back number by number |
| Decimals.ScansOnlyJoins | src/nmos/nmos_resources.cpp:46-51 | nothing but such a list is read |
| Ipv4.ParseIpv4Address | src/nmos/nmos_resources.cpp:41-60 | the loop accepts exactly four dotted octets and computes their word |
| Ipv4.AddressIffQuad | src/nmos/nmos_resources.cpp:41-60 | for every text: it is read as an address iff it is four dotted numerals of value at most 255, and then as their bytes side by side |
| Ipv4.PartIff | src/nmos/nmos_resources.cpp:54-57 | the numerals for bytes are those of value at most 255 |
| Ipv4.LargeOctetIsRefused | src/nmos/nmos_resources.cpp:54-57 | a quad with a numeral above 255 is refused |
| Ipv4.ShiftsSideBySide | src/nmos/nmos_resources.cpp:52-58 | the shift-or fold lays four bytes side by side |
| Ipv4.DottedRoundTrip | src/nmos/nmos_resources.cpp:41-60 | parsing the canonical form of any 32-bit address gives it back |
| Cidr.BlockSize | src/nmos/nmos_resources.cpp:87-88 | a block has 2^(32 - prefix) addresses and does not overflow, for every prefix 0 to 32 |
| Cidr.MaskIffInBlock | src/nmos/nmos_resources.cpp:91-98 | the mask comparison holds of exactly the addresses from the network to the last one of the block |
| Cidr.NestedOrDisjoint | src/nmos/nmos_resources.cpp:67-98 | any two blocks are nested or disjoint |
| Cidr.BlockHoldsAddress | src/nmos/nmos_resources.cpp:87-88 | the address a block is written with lies in it |
| Cidr.ParseIpv4Cidr | src/nmos/nmos_resources.cpp:67-89 | the block a text denotes, or the first error the code would raise |
| Cidr.BlockIffWritten | src/nmos/nmos_resources.cpp:67-89 | a block is read from exactly the texts that put an address in it, a slash and its prefix one after another |
| Cidr.CidrRoundTrip | src/nmos/nmos_resources.cpp:67-89 | any address and any prefix 0 to 32, printed, are read as the block around the address |
| Cidr.RefusedAs | src/nmos/nmos_resources.cpp:67-88 | which of the four errors a text gives, each iff |
| Cidr.MatchesCidr | src/nmos/nmos_resources.cpp:91-98 | a text matches iff it is a dotted quad of an address in the block's range |
| Multicast.AcceptedIsMulticast | src/nmos/nmos_resources.cpp:100-109 | every string the pattern accepts is parsed, to an address in 224.0.0.0/4 |
| Multicast.MulticastIsAccepted | src/nmos/nmos_resources.cpp:100-109 | the canonical form of every such address is accepted |
| Multicast.AcceptsIff | src/nmos/nmos_resources.cpp:100-109 | the pattern accepts exactly four dotted numerals, the first from 224 to 239, the others at most 255, with leading zeros up to two digits |
| HostPort.ParsedIffWritten | src/nmos/nmos_resources.cpp:116-136 | host and port come from exactly the texts that put them around the last colon |
| HostPort.HostPortRoundTrip | src/nmos/nmos_resources.cpp:116-136 | any nonempty host and any port 1 to 65535 come back |
| HostPort.NoColonIsHost | src/nmos/nmos_resources.cpp:116-120 | a text without a colon is a host without a port |
| HostPort.RefusedIff | src/nmos/nmos_resources.cpp:121-136 | a text is refused iff nothing stands before its last colon, or no numeral from 1 to 65535 behind it |

## Left out

- HTTP, timeouts and transport errors of the daemon client: requests are steps that may fail.
- The NMOS library: resource graphs, `auto` resolution, SDP generation, UUID derivation. Resource ids are an
  arbitrary function of nmos ids.
- Reasons, error texts and logging: an operation carries its action, slot and payload, a conflict its slot and cause.
- JSON field extraction and defaults of the settings, trailing slashes of the base URL, `codec_bit_depth`.
- DesiredState.BuildSender: the NMOS library's own reading of a leg; `rtp_enabled` absent or not a boolean counts as
  off.
- Fractional JSON numbers, and integers beyond the machine width in listings.
- Decimals.ScanNumbers: leading white space and signs, which stream extraction skips or accepts, are not modelled;
  neither are they in port and prefix texts.
- DesiredState.BuildDesired: the registry is walked in an arbitrary order of its keys, not in ascending order; the
  order of the operations that results does not change where a pass ends.
- The clock: the periodic wake-up is a step that may happen at any time while the loop is blocked.
- Writes of other daemon clients during a pass.
- Daemons.Daemon.PutSource: a daemon that would store an item without the id of its slot refuses the request, and
  so does PutSink; a listing the parser rejects arises only from a transport that garbles it.
- Start-up and shutdown of the server threads beyond the shutdown flag the loop reads.
