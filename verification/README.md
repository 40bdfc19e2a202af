# shelly-operator: the reconciler as a protocol on a device

shelly-operator keeps Shelly Gen2+ devices at the configuration a profile declares. A
reconcile reads a device's object and its profile, looks at the device, writes what has
drifted, and may request a firmware update or a reboot; discovery refreshes the same
objects on its own schedule. This project models that core in Dafny and proves what holds
of every input, every job list, every device and every run.

| file | what it is about |
|---|---|
| `FirmwareUpdate`, `UpdateProtocol`, `UpdateSafety`, `UpdateBounds` | operator-driven firmware updates: workers sharing a slot, attempts stored before they are sent, lost answers, restarts, discovery writing the same objects |
| `UpdateSteps`, `Refinement` | the steps one reconcile takes in that protocol, by its own view, and that they are steps the protocol allows |
| `Jobs`, `Schedule`, `ScheduleApply`, `Firmware`, `JobOutcomes` | the two owners of a device's job list, their plans, executing any part of them, and which jobs that leaves |
| `Json`, `Strings`, `Findings`, `Order`, `Sorting`, `Sections`, `Drift`, `Desired`, `Readback`, `Fixpoint`, `WifiMaps` | rendering, comparing and writing configuration trees, and what a rendered tree says of its profile |
| `Cycle`, `Trace`, `Reconciler`, `Convergence`, `Replay`, `Conformance` | the enforcement cycle: its calls, how it ends, runs of it, one pass over everything, what its writes carry, and that a device with nothing to find is as declared |
| `Client`, `Digest`, `Sweep`, `Cidr`, `Window`, `Times`, `Wrappers` | the RPC client, digest counters, discovery sweeps, subnets, daily windows |

`dafny verify dfyconfig.toml` checks the whole project.

## What the proofs rest on

- Updates: the clock never goes back; one leader and one namespace; objects are not
  deleted; one worker per device at a time; a reconcile sees its device's own last attempt
  (`StaleBaseKeepsOldRefusal` shows why that is needed), though possibly an older firmware
  field; a new process's list sees every attempt its predecessor stored; stored times are
  whole seconds; a device does not act on a request it refuses.
- Jobs: a device's ids are distinct and not handed out twice. Nothing is assumed of
  declared jobs: `FullPassSettles` says exactly which plans go through.
- Configuration: numbers compare as reals, and there is no NaN. A drifted section that
  cannot be addressed, and a second plug UI component, are covered by
  `OnePassSettlesExactly` and `OtherUiSettlesExactly`.
- Cycles: within one reconcile nobody else writes the object (`UpdateProtocol` has the
  interleavings); a device alters only what is addressed, a switch by its number, and is
  otherwise free to take, change or ignore values, answered or not. The text of the findings is any
  function of them; nothing is assumed about two lists having different texts. The local
  minute in each window's zone, and whether each call is answered, are inputs.
- Calls: an answer other than 200, or an RPC error, means the device did not act; an RPC
  result means it did.

## Where the code and its comments differ

- `runEnforce` sets `status.authEnabled` after enforcement so that later reconciles do not
  set auth again (internal/controller/shellydevice_controller.go:319-321), but `finish`
  takes its patch base after that, so the field is never written back. `Reconcile` keeps
  the stored value, `WrittenAgainExactlyForAuth` shows that the next cycle writes auth
  again exactly when auth had drifted, and `AuthIsSetAgain` is a device and a profile with
  which every cycle does.
- The spacing of updates across a restart is short of the configured gap by up to a second
  that stored times lose; `SendsAreSpaced` gives the bound and `LostSecond` a run that
  reaches it.

## Model

| member | source | states |
|---|---|---|
| `UpdateSafety.SendsAreSpaced` | internal/controller/firmwareupdate.go:75-88 | in every run each Shelly.Update sent owns its own slot, claimed for its device no later than the send; two slots of one process are at least the spacing apart, and a slot after a restart is more than the spacing less one second after the slot behind any earlier send |
| `UpdateSafety.UpdatingDevicesAreLeftAlone` | internal/controller/firmwareupdate.go:139-154 | in every run, after a Shelly.Update that was not refused, in particular one acted on, no RPC reaches the device until a reconcile began that read another firmware than the attempt's, or began the settle time after it |
| `UpdateSafety.FreeDeviceCanBegin` | internal/controller/firmwareupdate.go:139-154 | and no longer: in any state a reconcile of a device nobody works on can begin exactly when the last attempt is absent, refused, from another firmware than the one read, or twenty minutes old |
| `FirmwareUpdate.InFlightExactly` | internal/controller/firmwareupdate.go:144-154 | an update is in flight exactly while an attempt that was not refused and came from the present firmware is less than twenty minutes old |
| `FirmwareUpdate.WaitIsExact` | internal/controller/shellydevice_controller.go:110-114 | a requeue after the wait finds the device free, and none before it does |
| `UpdateSafety.NewFirmwareLifts` | internal/controller/firmwareupdate.go:139-148 | however young the attempt, discovery can publish another firmware, and a reconcile that reads it can begin at once |
| `UpdateSafety.DiscoveryKeepsAttempts` | internal/discovery/upsert.go:60-76 | a discovery write from an out-of-date copy changes nothing; from a current one it stores the probed firmware, or none for a stale mark, and keeps the attempt |
| `UpdateSafety.OtherPatchesConflict` | internal/discovery/upsert.go:68-76 | any other patch of the object makes the copy discovery holds out of date, so that its write changes nothing |
| `UpdateSafety.RepeatedRequests` | internal/controller/firmwareupdate.go:67-70 | of two consecutive stored requests on one device whose first is not on record as refused, the second is a settle time later, or came from a reconcile that read another firmware and asked for another version; a first on record as refused was never acted on |
| `UpdateSafety.NewestRecordSurvives` | internal/controller/firmwareupdate.go:115-137 | in every state of every run status.lastFirmwareUpdate is what became of the newest record made for the device, whatever discovery, other patches and restarts do in between, and a refusal it shows is true |
| `UpdateSafety.FleetNewestNeverDecreases` | internal/discovery/upsert.go:30-76 | along every run no device's stored attempt time goes back or disappears, nor does the fleet's newest |
| `UpdateSafety.RunsKeepInv` | internal/controller/firmwareupdate.go:41-186 | the protocol's invariant holds in every state of every run of the nineteen kinds of steps |
| `UpdateSafety.InvKept` | internal/controller/firmwareupdate.go:41-186 | every step, of workers, discovery, other writers, the device, the clock or a crash, keeps the invariant |
| `UpdateSafety.ClaimSpaced` | internal/controller/firmwareupdate.go:172-185 | a granted claim is spaced from every slot of this process and, up to the lost fraction, from every stored one of earlier processes |
| `UpdateSafety.StampFollows` | internal/controller/firmwareupdate.go:78-83 | a request made out after both gates is no older than its slot and properly follows the device's last one, although its time loses its fraction |
| `UpdateBounds.LostSecond` | internal/controller/firmwareupdate.go:160-162 | for every spacing of at least a second there is a run with a restart in which the second slot follows the slot behind a send by exactly the spacing less one second plus a nanosecond |
| `FirmwareUpdate.UpdateSlot.ClaimUpdateSlot` | internal/controller/firmwareupdate.go:163-186 | the slot is granted exactly when neither this process's last start nor any listed attempt is closer than the spacing, and then records now; otherwise nothing changes |
| `FirmwareUpdate.EffectiveSpacing` | internal/controller/firmwareupdate.go:164-167 | the configured spacing if it is positive, and two minutes otherwise |
| `FirmwareUpdate.PatchedFromCurrent` | internal/controller/firmwareupdate.go:118-129 | a status merge patch computed from what the server holds, or repeated, stores exactly the attempt |
| `FirmwareUpdate.EmptyPatchChangesNothing` | internal/controller/firmwareupdate.go:118-129 | a patch from a base to itself changes nothing, whatever the server holds |
| `FirmwareUpdate.StaleBaseKeepsOldRefusal` | internal/controller/firmwareupdate.go:118-121 | computed from a base that missed a refused attempt it would leave that refusal on the new request |
| `Schedule.MatchesIsSameContent` | internal/controller/schedule.go:110-138 | a device job matches a declared one exactly when timespec and calls, params normalised, are the same content |
| `Schedule.FirstActionSettles` | internal/controller/schedule.go:170-253 | the plan's first action can be carried out exactly when it can be sent, and then leaves the rest of the plan as the new plan, the update jobs untouched and ids distinct |
| `Schedule.ReplanYieldsRest` | internal/controller/schedule.go:280-327 | after any first part of the plan, planning again on the resulting device yields exactly the part still to do |
| `Schedule.FullPassSettles` | internal/controller/schedule.go:291-325 | a full pass completes exactly when every planned action can be sent, and then the plan is empty and update jobs are as they were, duplicates with different enable values included |
| `Schedule.Conservation` | internal/controller/schedule.go:170-253 | counted by content, what is there plus what is created is what is declared plus what is deleted |
| `Schedule.PlanIsMinimal` | internal/controller/schedule.go:207-253 | no content is both created and deleted; creates and deletes are exactly the surpluses of declared over present and of present over declared |
| `Schedule.EmptyPlanIsConverged` | internal/controller/schedule.go:149-256 | an empty plan means the declared jobs and the owned device jobs are the same multiset, enable values included |
| `Schedule.PlanOrder` | internal/controller/schedule.go:291-294 | every plan is updates, then creates, then deletes |
| `Schedule.ReplacementsComeFirst` | internal/controller/schedule.go:291-294 | wherever execution stops, once any job has been deleted every declared job is already present |
| `Schedule.OnlyPlannedJobsGo` | internal/controller/schedule.go:295-325 | wherever execution stops, every job not itself deleted by an executed action is still there with its id and content |
| `Schedule.TakenPartition` | internal/controller/schedule.go:170-205 | the owned jobs are the matched ones and the left over ones together, each once |
| `Schedule.MatchedAreNotDeleted` | internal/controller/schedule.go:237-253 | no planned delete names a matched job, whatever else on the device has the same content |
| `Schedule.MatchedJobsStay` | internal/controller/schedule.go:170-253 | wherever execution stops, every job the matcher took is still on the device with its id and content |
| `ScheduleApply.ScheduleActions` | internal/controller/schedule.go:149-256 | the nested loops over the two arrays of flags compute the plan of the greedy matcher |
| `ScheduleApply.ApplySchedule` | internal/controller/schedule.go:280-327 | for every fate of every call the device ends as after a first part of the plan; there is no error exactly when the list was read, all of the plan was carried out and every answer arrived; and it stops only at a call that is not carried out or after one whose answer is lost |
| `Jobs.ScheduleStore.HandleCreate` | internal/shelly/shellytest/server.go:323-335 | appends the job under a new id |
| `Jobs.ScheduleStore.HandleUpdate` | internal/shelly/shellytest/server.go:337-367 | replaces the job with the id in place, or refuses and changes nothing |
| `Jobs.ScheduleStore.HandleDelete` | internal/shelly/shellytest/server.go:369-391 | removes the job with the id, or refuses and changes nothing |
| `Jobs.DeleteSelected` | internal/shelly/shellytest/server.go:369-391 | deleting one owner's job by id takes exactly it out of that owner's jobs and nothing from the other's |
| `Jobs.UpdateSelected` | internal/shelly/shellytest/server.go:337-367 | updating one owner's job in place changes only it |
| `Jobs.CreateSelected` | internal/shelly/shellytest/server.go:323-335 | a created job comes last among its owner's jobs and leaves the other's alone |
| `Firmware.FirmwareOffenders` | internal/controller/firmware.go:72-84 | the ids of exactly the non-compliant update jobs in order, and whether a compliant one exists |
| `Firmware.ListFirmwareFindings` | internal/controller/firmware.go:89-111 | the findings as the loop gathers them |
| `Firmware.FindingsNameOffenders` | internal/controller/firmware.go:95-105 | one finding per offender, naming it, in order |
| `Firmware.FindingsCountActions` | internal/controller/firmware.go:89-111 | as many findings as enforcement takes actions: offenders plus one when a wanted compliant job is missing |
| `Firmware.FwReplanYieldsRest` | internal/controller/firmware.go:133-154 | wherever applyFirmware stops, planning again yields the rest; other jobs are untouched and in order, compliant update jobs are kept |
| `Firmware.ApplyFirmware` | internal/controller/firmware.go:133-154 | likewise: a first part of the plan, all of it exactly when nothing went wrong, and stopping only where a call is not carried out or its answer is lost |
| `Firmware.FirmwarePassSettles` | internal/controller/firmware.go:128-132 | a full pass leaves no finding, the other jobs as they were and every compliant update job in place |
| `Firmware.SectionsDoNotInterfere` | internal/drift/order.go:35-42 | firmware and then schedule on any job list leave no finding of either; neither touches the other's jobs, and compliant update jobs survive both |
| `JobOutcomes.UpdatesMeans` | internal/controller/firmware.go:39-64 | a job is an update job exactly if some call is a Shelly.Update, and non-stable exactly if some such call names a stage other than stable |
| `JobOutcomes.LeftMeans` | internal/controller/schedule.go:23-30 | a declared job is left to the firmware section exactly if some call reads Shelly.Update, letter by letter and case aside |
| `JobOutcomes.CreateCanBeSent` | internal/controller/schedule.go:64-76 | a declared job can be created exactly if it has calls and no params other than an object or none |
| `JobOutcomes.UpdateFlips` | internal/controller/schedule.go:184-203 | a planned update turns a job of the device on or off and changes nothing else about it |
| `JobOutcomes.NothingPlannedStands` | internal/controller/schedule.go:149-256 | with an empty plan every other declared job is on the device with its timespec, calls and params, enabled unless declared otherwise, and every job there that makes no update is such a one |
| `JobOutcomes.DeclaredJobsStand` | internal/controller/schedule.go:280-327 | so it is after every full pass, and the update jobs are those that were there |
| `JobOutcomes.FirmwareLeaves` | internal/controller/firmware.go:133-154 | after a firmware pass exactly these jobs are there: those that make no update; the enabled ones that make only stable updates, if updates are wanted; and the standard daily job, if they are wanted and none was there to make them |
| `Json.MergeMaps` | internal/shelly/shellytest/server.go:433-445 | the loop over keys in any order computes the deep merge |
| `Json.MergeLeavesOthersAlone` | internal/shelly/shellytest/server.go:431-445 | a write changes nothing on a path that branches away from what is written |
| `Json.MergeIdempotent` | internal/shelly/shellytest/server.go:431-445 | writing the same tree again changes nothing |
| `Drift.DiffMap` | internal/drift/diff.go:44-66 | the recursive loop over sorted keys yields the findings of the desired leaves in order |
| `Drift.DiffConfig` | internal/drift/diff.go:24-42 | sections in name order, an absent one as one finding, an undecodable one as an error |
| `Drift.DiffEmpty` | internal/drift/diff.go:44-77 | no finding exactly when every desired leaf is on the device |
| `Drift.DiffNames` | internal/drift/diff.go:24-42 | the findings name exactly the sections whose own comparison found something |
| `Drift.FindingTells` | internal/drift/diff.go:44-66 | every finding tells of one desired leaf that is not there: the path to it, its desired value and what the device has there |
| `Drift.ToldOf` | internal/drift/diff.go:44-66 | every desired leaf that is not there is told of |
| `Drift.DiffTells` | internal/drift/diff.go:24-42 | every finding of a comparison is about a desired section that is absent, or tells of a leaf of one that is there |
| `Drift.JoinedIsDotted` | internal/drift/diff.go:47-50 | a path is its keys with dots between them, if the first is not empty |
| `Drift.WritingSilences` | internal/drift/diff.go:44-77 | writing any payload that carries the desired leaves silences the comparison, whatever was there |
| `Drift.DriftMeansChange` | internal/drift/diff.go:44-77 | for a tree without empty objects, in sync exactly when writing it would change nothing |
| `Drift.DriftMeansChangeExactly` | internal/drift/diff.go:44-77 | that holds of every device exactly for trees without empty objects inside |
| `Desired.RenderConfig` | internal/drift/desired.go:27-80 | Render computes, section by section, what is wanted, each depending on the device only through itself and the discovered UI component; what that says is `RenderedIsDeclared` |
| `Desired.DiscoverUIKey` | internal/drift/desired.go:85-92 | some plug UI component of the device, or none exactly when there is none |
| `Readback.UiKeyMeans` | internal/drift/desired.go:13-14 | a plug UI component is one named by small letters and digits, at least one, followed by _ui |
| `Desired.RenderSwitchComponents` | internal/drift/desired.go:279-321 | the rendered switch settings under every switch component and nothing else changed; what they say is `SwitchLeaves` |
| `Readback.RenderedIsDeclared` | internal/drift/desired.go:27-80 | for every path and value, the rendered configuration has that leaf exactly if the profile declares it: each declared field of each section at its own path with its own value, and nothing else anywhere |
| `Readback.SwitchLeaves` | internal/drift/desired.go:279-321 | the nine switch settings, each under its own name, exactly if declared |
| `Readback.SysLeaves` | internal/drift/desired.go:202-256 | the system settings under device, location, sntp and debug; a coordinate that does not parse and an empty or unmanaged name say nothing |
| `Readback.MqttLeaves` | internal/drift/desired.go:261-273 | enable and server, the latter unless empty |
| `Readback.WifiLeaves` | internal/drift/desired.go:327-381 | both networks, the access point with its range extender, and roaming, each field under its own name |
| `Readback.UiLeaves` | internal/drift/desired.go:97-171 | LED and night mode fields, and the button mode under every switch control the component has, or under switch:0 if it has none |
| `Desired.UiControlSwitchKeys` | internal/drift/desired.go:176-195 | exactly the switch controls the UI component has |
| `Desired.RenderUIControls` | internal/drift/desired.go:161-171 | one entry per control the device has, or for the default one when it has none |
| `Desired.WantedIsTree` | internal/drift/desired.go:27-80 | whatever is wanted of a section is an object with a leaf on every branch, as every renderer emits a map only when it has fields |
| `Desired.NoPassRendered` | internal/drift/desired.go:327-342 | a rendered network never holds a password |
| `Desired.RenderedDriftMeansChange` | internal/drift/desired.go:27-80 | every rendered section is a non-empty object whose drift is exactly what a write would change |
| `Fixpoint.OnePassSettles` | internal/controller/apply.go:42-103 | writing each drifted section's payload leaves Render of the new configuration equal to Render of the old and no finding |
| `Fixpoint.OnePassSettlesExactly` | internal/controller/apply.go:84-100 | one pass settles the device exactly when every drifted section's write reaches that section |
| `Fixpoint.MergedSettles` | internal/drift/desired.go:161-195 | once the drifted sections are merged in, discovered controls included, what is desired is what it was and nothing drifts |
| `Fixpoint.CanonicalTarget` | internal/controller/apply.go:84-93 | a switch section reaches itself exactly when its name prints its number |
| `Fixpoint.MisaddressedStaysDrifted` | internal/controller/apply.go:84-93 | a drifted section whose write goes elsewhere is still drifted after the pass |
| `Fixpoint.OddSwitchDriftsOn` | internal/controller/apply.go:84-93 | on any device whose one switch component is named other than its number prints, the one write a pass makes goes astray and the drift stays |
| `Fixpoint.MisaddressedExample` | internal/controller/apply.go:84-93 | such a device: a component named switch:00, written as switch:0 |
| `Fixpoint.WifiPayloadCovers` | internal/controller/apply.go:106-110 | the copy with passwords still carries every rendered leaf |
| `WifiMaps.MakePayload` | internal/controller/apply.go:111-143 | on maps held by reference: the payload, its networks and the maps in them are new, no map there was before changes, and read to any depth it is the rendered section with the passwords |
| `WifiMaps.CopyNetwork` | internal/controller/apply.go:113-129 | a new map with the same plain values and new maps with the same fields |
| `WifiMaps.InjectInto` | internal/controller/apply.go:132-139 | a password set in place changes one network of the payload, and neither another nor the rendered section |
| `Fixpoint.UiKeyIsFixed` | internal/drift/desired.go:82-92 | with at most one plug UI component there is one way to discover it |
| `Fixpoint.OtherUiSettlesExactly` | internal/drift/desired.go:82-92 | with two, a device settled for one is settled for the other exactly when that other was in sync to begin with |
| `Fixpoint.OtherUiUntouched` | internal/drift/desired.go:82-92 | a pass never writes a UI component it did not discover |
| `Replay.WifiCarriesPasswords` | internal/controller/apply.go:106-143 | of any trace of the shape Reconcile ensures: a write of wifi carries what the profile renders, with each known password in its own network and nowhere else |
| `Replay.OthersCarryTheRendered` | internal/controller/apply.go:43-100 | a write of any other component carries exactly what is rendered for it, and none of auth, firmware and schedule carries a configuration |
| `Replay.PlayedIsPass` | internal/controller/apply.go:42-103 | a device that merges the payloads of such a trace, one by one, ends as after applying the answered sections in order |
| `Replay.PlayedConverges` | internal/controller/apply.go:38-104 | if every drifted section was answered, such a device then shows nothing to find |
| `Strings.AtoiOfItoa` | internal/controller/apply.go:85 | reading back a printed number yields it |
| `Strings.AtoiMeans` | internal/controller/apply.go:85 | a text reads as a number exactly if it is digits with or without a sign and the number fits 64 bits |
| `Order.AuthAndWifiLast` | internal/drift/order.go:8-16 | every section but wifi comes before wifi, and every other before auth |
| `Order.SafestFirst` | internal/drift/order.go:17-59 | sys, then switches and plug UIs, mqtt, cloud with ble and ws, firmware with schedule, anything unknown, auth, wifi; within a stage names decide |
| `Strings.LessMeans` | internal/drift/order.go:51-58 | the order of names is the dictionary order: where it puts one first, they agree up to a place where it ends or has the smaller character |
| `Strings.MeansLess` | internal/drift/order.go:51-58 | and wherever that is so, it puts that one first |
| `Sorting.AscendingIsSorted` | internal/drift/order.go:51-58 | names in ascending order are the one sorted sequence of their set |
| `Sorting.SortNames` | internal/drift/diff.go:130-137 | sorting distinct names yields that sequence |
| `Sections.Sections` | internal/drift/diff.go:99-110 | each section named by a finding once, sorted |
| `Sections.ApplyOrder` | internal/drift/order.go:17-59 | on any names, a permutation of them sorted by rank and then name |
| `Sections.OnlyOrder` | internal/drift/order.go:17-59 | for distinct names that order is unique |
| `Sections.EnforcementOrder` | internal/controller/apply.go:42 | the order worked through is the unique one of the distinct drifted sections |
| `Reconciler.Reconciler.ApplyFindings` | internal/controller/apply.go:38-104 | what is reported applied is a prefix of that order, all of it without an error, and exactly the sections whose writes were answered; the device changes at most in what those writes address; what is sent is in `WifiCarriesPasswords` and `OthersCarryTheRendered` |
| `Reconciler.Reconciler.WriteSection` | internal/controller/apply.go:43-100 | one section's calls, allowed only in order and with the rendered payload, change at most what they address, for a switch the component its number names |
| `Reconciler.FoundCanBeWritten` | internal/controller/apply.go:44-93 | a section found drifted can be written, unless it is auth to be turned on without a password or a switch whose name has no number; the two cases the code calls impossible are |
| `Reconciler.Reconciler.EnforceAndRecheck` | internal/controller/shellydevice_controller.go:342-387 | a completed pass wrote the whole order and found what a look at the configuration as read again finds, with auth as just set |
| `Reconciler.Reconciler.Conclude` | internal/controller/shellydevice_controller.go:319-336 | the cycle ends here exactly when a section just written is still drifted, with NotConverging, the text of what is left and its sections stored unless the patch fails; the stored auth state does not change |
| `Reconciler.Reconciler.RunEnforce` | internal/controller/shellydevice_controller.go:277-336 | damped exactly when the stored condition is NotConverging with the same text; otherwise a pass, an error, or through; what that text tells apart is `ChangedSummaryRearms` |
| `Reconciler.Reconciler.PassFailed` | internal/controller/shellydevice_controller.go:301-318 | after an error while writing the condition is ApplyFailed with the sections found; after one while looking again it is WifiApplied if wifi was written and ConfigFetchFailed if not, with none |
| `Reconciler.Reconciler.CannotRead` | internal/controller/shellydevice_controller.go:161-176 | a configuration that cannot be read is reported as AuthRequired or ConfigFetchFailed with no section drifted |
| `Reconciler.Reconciler.CannotCompare` | internal/controller/shellydevice_controller.go:194-208 | one that cannot be compared, or a job list that cannot be read, as ConfigFetchFailed with none |
| `Reconciler.Reconciler.Skip` | internal/controller/shellydevice_controller.go:97-157 | a device that is not called: paused and offline are reported as such, and what could not be resolved with its reason and profile; of one that is installing nothing is stored |
| `Reconciler.Reconciler.Finish` | internal/controller/shellydevice_controller.go:391-417 | the stored status changes in its condition, observed generation, transition time, drifted sections and matched profile and nothing else; the transition time only with the condition's status |
| `Reconciler.SinceMarksChanges` | internal/controller/shellydevice_controller.go:397-405 | the transition time is this second exactly if there was no condition or it changed between in sync, drifted and unknown, and otherwise as it was |
| `Reconciler.StatusPatches` | internal/controller/shellydevice_controller.go:395-408 | a status patch from what the server holds stores exactly what is wanted, and one without a change leaves the server as it is, field by field |
| `Reconciler.Reconciler.StampSysStatus` | internal/controller/shellydevice_controller.go:495-517 | one status read; the stored object changes at most in the two fields it stamps; the held one is the stored one with what was read, or is as it was; a failed read changes nothing |
| `Reconciler.Reconciler.RebootIfRequested` | internal/controller/shellydevice_controller.go:543-586 | a reboot exactly when this cycle's own read asked for it, the profile opted in and enforces, and the window is open; the condition as it was, and the stored flag cleared once the call and the patch went through |
| `Reconciler.Reconciler.RecordUpdateAttempt` | internal/controller/firmwareupdate.go:115-137 | a patch that is not acknowledged is tried once more, on the object as read again if it can be; true only with the attempt stored, and otherwise the held object is rolled back; in the protocol it is at most two patches and the end of recording |
| `Reconciler.Reconciler.UpdateIfAvailable` | internal/controller/firmwareupdate.go:41-109 | nothing, or attempt stored and then request sent, in a slot spaced from the process's last, the version not asked for recently; a stored refusal is one the device gave, and a refusal is stored if the patches go through; and if an update is due, the fleet listed, the version not just asked for and no other update near, it is sent unless something went wrong |
| `Reconciler.Reconciler.TryUpdate` | internal/controller/firmwareupdate.go:67-108 | what it does is, in the protocol, listing, claiming or being denied, making out, patching, sending and hearing, ending quiet exactly when a request that was not refused is out |
| `Reconciler.Reconciler.Evaluate` | internal/controller/shellydevice_controller.go:192-208 | Render, Diff and the appended auth, firmware and schedule findings are the findings of a look |
| `Reconciler.Reconciler.Reconcile` | internal/controller/shellydevice_controller.go:96-235 | every reconcile's calls have the allowed shape and it ends in a step of the cycle; without a profile or with the device paused, offline or installing it calls nothing, and otherwise it looks unless something went wrong; it fails only if paused, offline, unresolved or if some call, patch or check went wrong, and waits without a call only if an attempt that was not refused and came from the present firmware is less than twenty minutes old; a due update is requested, and a cycle that is not cut short ends in a reboot exactly if one is due; it never changes the stored auth state; and what it does is a sequence of steps of the update protocol as far as it can see, with exactly its calls |
| `Refinement.ReconcileIsPath` | internal/controller/shellydevice_controller.go:96-235 | such a sequence is a path of the protocol from any state of its invariant in which the reconcile may begin, ending with time, slot and stored attempt agreeing and exactly its calls logged |
| `Refinement.RunGoesOn` | internal/controller/firmwareupdate.go:41-186 | a run of the protocol continued by such a path is a run, so what holds of every run holds with reconciles in it |
| `Trace.ActsOnlyWhenFree` | internal/controller/shellydevice_controller.go:102-114 | of any trace of the shape Reconcile ensures, as a corollary: any call implies online, unpaused and no update in flight; any write, update or reboot implies enforce mode |
| `Trace.FinalIsLast` | internal/controller/shellydevice_controller.go:184-190 | of any trace of the shape Reconcile ensures, as a corollary: nothing follows a reboot or an update that was not refused |
| `Trace.UpdateFollowsRecord` | internal/controller/firmwareupdate.go:45-88 | of any trace of the shape Reconcile ensures, as a corollary: an update request is the fourth event: config read, status read, attempt stored for the version just read, then the request, inside a window that must exist |
| `Trace.RebootFollowsStatus` | internal/controller/shellydevice_controller.go:547-567 | of any trace of the shape Reconcile ensures, as a corollary: a reboot is last, at most one, in an opted-in profile, inside the window, after this cycle's successful status read asked for it |
| `Trace.WritesAreOrdered` | internal/drift/order.go:8-16 | no section is written after wifi, only wifi after auth, none twice |
| `Trace.AuthFollowsId` | internal/controller/apply.go:44-59 | auth is set right after the device gave its id |
| `Trace.ActsInsideWindow` | internal/controller/rebootwindow.go:48-57 | updates and windowed reboots fall where (minute - start) mod 1440 is less than (end - start) mod 1440 |
| `Window.WindowIsArc` | internal/controller/rebootwindow.go:22-58 | a window is open exactly on that arc, and is an error exactly when unreadable or empty; none at all is always open |
| `Cycle.DriftOnlyWhereWritten` | internal/controller/shellydevice_controller.go:322-334 | when every write reaches its own section, every finding after a pass is about a section that was written, for any device that alters only those |
| `Cycle.MisaddressedIsLeft` | internal/controller/apply.go:84-93 | a drifted section whose write goes elsewhere is as it was, and still drifted |
| `Cycle.LeftIsStuck` | internal/controller/shellydevice_controller.go:322-334 | whatever writes reached, what a pass leaves is nothing, or is in part about a section just written, so that it is reported as not converging |
| `Cycle.EnforcedIsAtRest` | internal/controller/shellydevice_controller.go:297-334 | a completed pass leaves nothing to write, or the condition that damps exactly what is left |
| `Cycle.DampingQuiesces` | internal/controller/shellydevice_controller.go:282-295 | in every run, once a cycle has written and looked again, no later cycle writes, with inputs unchanged, auth not drifted and no error outcome |
| `Cycle.WritesExactlyWhenArmed` | internal/controller/shellydevice_controller.go:289-295 | a cycle that looks and does not fail writes exactly when there is drift and the stored condition is not NotConverging with the very text of that drift and the warnings |
| `Cycle.ChangedSummaryRearms` | internal/controller/shellydevice_controller.go:282-291 | after a cycle that ended not converging, no cycle with the same warnings is damped unless the summary of what it finds is the summary of what was left: any change the summary shows is enforced |
| `Cycle.WarningsKeepMessagesApart` | internal/controller/shellydevice_controller.go:588-594 | with the same warnings, two messages read the same only if they are the same |
| `Cycle.WarningsAreTold` | internal/controller/shellydevice_controller.go:588-594 | the message stands first, unchanged without warnings, and every warning is in the text |
| `Cycle.WrittenAgainExactlyForAuth` | internal/controller/shellydevice_controller.go:319-321 | after a pass the device took entirely, the next look writes again exactly when auth had drifted, auth included |
| `Cycle.AuthIsSetAgain` | internal/controller/shellydevice_controller.go:319-321 | such a run: a device without auth and a profile that asks for it, with auth set by one cycle and by the next |
| `Cycle.SameLookSameFindings` | internal/drift/diff.go:22-42 | looking twice at an unchanged device finds the same twice |
| `Convergence.OneCycleConverges` | internal/controller/shellydevice_controller.go:297-300 | on a device that does as told, a pass over drifted sections of every kind completes in order and the next look finds nothing |
| `Conformance.SilentExactly` | internal/controller/shellydevice_controller.go:192-208 | a look finds nothing exactly when the device has every field the profile declares, auth is as wanted, updates are made by an enabled and stable job if wanted and by none if not, and no schedule action is planned |
| `Conformance.SilentDiff` | internal/drift/diff.go:24-77 | render and compare find nothing exactly when every declared field is on the device at its path |
| `Conformance.SilentFirmware` | internal/controller/firmware.go:89-111 | no firmware finding exactly when all update jobs are enabled and stable and there is one, or there are none, as wanted |
| `Conformance.FirmwareFindingsTell` | internal/controller/firmware.go:89-111 | the firmware findings are exactly: each update job that leaves the stable stage, or else is not wanted, or else is disabled, by its id and with those words; and the missing one if updates are wanted and no job makes them |
| `Conformance.ScheduleFindingsTell` | internal/controller/schedule.go:184-253 | every schedule finding tells of a job of the device that is on or off and should not be, of a declared job that is absent, or of a job that should be |
| `Conformance.OneCycleConforms` | internal/controller/shellydevice_controller.go:297-300 | on a device that does as told one enforcing cycle leaves every declared field at its path, auth and updates as wanted and exactly the declared jobs |
| `Client.Call` | internal/shelly/client.go:118-153 | at most six requests, the device acts at most once; no error means exactly once, a refusal means not at all; and what is told is the last answer: refused exactly for one other than 200 or an RPC error, accepted exactly for a result that decodes, lost if there was none; a 429 only after three tries |
| `Client.PostRetrying` | internal/shelly/client.go:157-175 | two requests per attempt, three attempts, and acts only as the last answer allows; only a 429 is tried again, and one is handed back only after the third try |
| `Client.Post` | internal/shelly/client.go:179-194 | one request, or two when challenged; the last answer is handed back unless there is none or the challenge cannot be met, and acts only as it allows |
| `Digest.Credentials.SetChallenge` | internal/shelly/digest.go:24-40 | a usable challenge starts a new count, an unusable one changes nothing |
| `Digest.Credentials.AuthHeader` | internal/shelly/digest.go:44-59 | the header commits to the nonce and to the next count, in 32 bits; none without challenge or password |
| `Digest.RunsAreGapless` | internal/shelly/digest.go:44-59 | under any interleaving the counts used with a challenge are 1, 2, 3, ... (section 3.4 of RFC 7616) |
| `Digest.NoReuseExactly` | internal/shelly/digest.go:24-59 | no (nonce, nc) pair goes out twice exactly when no answered nonce is reissued and none serves more than 2^32 requests |
| `Sweep.EffectiveOfflineAfter` | internal/discovery/sweeper.go:70-77 | the effective window is at least a second, the configured one if that is, and by default three sweep intervals, fifteen minutes if no interval is set |
| `Sweep.ApplyDevice` | internal/discovery/upsert.go:25-78 | with any number of other writes in between, a device written is online and last seen in this sweep from that version on, and other devices are as they were save where others wrote; what is skipped is a device the cache had out of date or that others wrote; other failures are errors; no history is rewritten |
| `Sweep.MarkStale` | internal/discovery/stale.go:23-43 | from any out-of-date list and with any number of other writes in between, no refreshed device is taken offline; where nobody else writes, a stale device listed as it stands gets one more version, the same but offline, unless its update is an error, and every other device is as it was |
| `Sweep.RunOnce` | internal/discovery/sweeper.go:95-114 | for any start instant and settings, a device the sweep refreshed is online in every version from then to its end; a device that did not answer and that nobody else writes is as it was, unless it was online and unseen for the whole window: then, listed as it stood and without an error, it ends offline with its last-seen time kept |
| `Cidr.ContainsInterval` | internal/discovery/cidr.go:28-31 | a masked prefix contains exactly the addresses from its base on, its size many, all proper |
| `Cidr.HostsCount` | internal/discovery/cidr.go:29-34 | a prefix has as many hosts as its length says, network and broadcast dropped below /31 (section 2.1 of RFC 3021) |
| `Cidr.HostsAre` | internal/discovery/cidr.go:26-34 | the hosts of a prefix are, in ascending order, the addresses that share its leading bits; below /31 only those with such an address on either side |
| `Cidr.ExpandOne` | internal/discovery/cidr.go:28-39 | one prefix appends its hosts in order or stops at the limit, also when it ends at 255.255.255.255 |
| `Cidr.ExpandCIDRs` | internal/discovery/cidr.go:18-42 | succeeds exactly when all are IPv4 prefixes with at most 4096 hosts together; the result is their hosts in order; at most 4097 appends ever |

## Left out

- `Reconciler.Reconciler.WriteSection`: one event stands for all calls of a section; the calls of the firmware and schedule sections are in `Firmware.ApplyFirmware` and `ScheduleApply.ApplySchedule`.
- `Reconciler.Reconciler.ApplyFindings`: the restart flag of the answers, which only an event reports.
- `Reconciler.Reconciler.Reconcile`: other writers of the same object during the reconcile, which are in `UpdateProtocol`; and steps for patches that do not carry the attempt, which the protocol has but `UpdateSteps` does not count.
- `Reconciler.Reconciler.Finish`: the events recorded.
- `Desired.RenderConfig`: the straight-line renderers of desired.go are functions on values, so filling their maps in place is not captured.
- `UpdateSafety.InvKept`: a recording may patch any number of times from any version it read, where the code patches at most twice; the bound is only in `Reconciler.Reconciler.RecordUpdateAttempt`.
- `Sweep.ApplyDevice`: the address and identity fields a probe also writes, and the label update before them; one field stands for all of the status a sweep does not touch.
- `Cidr.ExpandCIDRs`: parsing of CIDR text and printing of addresses; a CIDR is malformed, not IPv4, or an address and a length.
- `Window.WindowIsArc`: parsing of HH:MM and time-zone lookup; the local minute is an input.
- Summarize's text: any function of the findings, since it is capped at five and not injective.
- Kubernetes API, caches, work queue, leader election: only the assumptions listed above.
- HTTP, JSON and YAML encoding, SHA-256, cnonces: opaque.
- Profile matching, name, secret and registry resolution, label stamping: their results are inputs, as they would add only easy members.
- The cache of clients by address, requeue jitter, events, metrics, the exporter, the dashboard, charts and CRDs: no effect on the modelled state.
