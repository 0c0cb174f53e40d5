# CRM Ynov: proofs of the scheduling, withdrawal, assignment and import cores

A Dafny model of the parts of the CRM whose promises span several operations, crashes or
whole runs, and proofs of those promises. `dafny verify dfyconfig.toml` checks it.

Every PostgreSQL transaction is one step that applies fully or not at all. Every awaited
point of the Windows agent is a step boundary, and a crash may happen between any two
effects. Each stateful component has four parts: functions on values that give each
operation's result, contracts that say in plain terms when an operation succeeds and what
it leaves, theorems over every run of those functions, and a class whose methods
update its fields as the source does, are proved equal to the functions and keep the
invariant of the runs.

| files | subject |
|---|---|
| `Scheduling`, `SchedulingContracts`, `SchedulingSafety`, `AppointmentTables` | the two writers of appointments, their windows and bookings |
| `Slots`, `BookingPager`, `AppointmentIndex` | slot search, keyset pages, conflict and overload warnings |
| `WithdrawalStore`, `WithdrawalContracts`, `WithdrawalStateStore`, `WithdrawalFlow`, `WithdrawalRuns` | withdrawal of a workstation profile |
| `EventJournal`, `AgentRuntime`, `AgentCalls`, `AgentProcess` | the journal of the telephony agent, calls and reconciliation |
| `AgentCrashes`, `AgentConditions`, `AgentWitnesses` | what crashes that cut a record can cost, and when they cost nothing |
| `SdkShutdownSignals`, `SdkShutdownCoordinator` | the attested stop of the SDK |
| `AssignmentCandidates`, `NewEntrants`, `AssignmentService` | fairness of lead assignment |
| `ImportContacts`, `ContactContracts`, `ImportLedger`, `ImportContracts`, `ImportSafety`, `ImportBlocks`, `ImportRuns`, `ImportTables` | the historical import |
| `Prelude`, `Collections`, `Text` | shared values, sets and strings |

Five promises do not hold of the code as it stands on all its inputs; each has a witness
and the exact condition:

- No live appointment meets an active block of its people: false when a designation is
  switched on again (`ReactivationCanOverlapABlock`). Exactly the re-activation of a
  designation with a stored block over an occupied interval breaks it
  (`StepRespectsBlocksIff`), and runs without one keep it (`RunRespectsBlocks`).
- An outcome of an appointment is final: a transition is computed from the record in
  memory, which another request may have put there before it was stored. If that request
  loses to another process, the next transition can revive a cancelled appointment
  (`AnUnsavedRecordRevivesACancellation`). A step changes an outcome if and only if it
  stores a record that passes the checks of `persistTransition` over a final row whose
  state or time the record contradicts (`NextKeepsOutcomesIff`), and outcomes are final in
  a run if and only if it has no such step (`OutcomesAreFinalIff`). There is none while
  records are computed from stored rows, however old (`StoredCachesNeverOverrule`).
- The journal as no-redial guard: after a crash that leaves the last line without its
  terminator, the next record is lost with it and its command can be dialled twice. From
  any reachable world on, the agent dials nothing twice if and only if the last line is
  terminated and the file has every command called, each called once (`NeverRedialsIff`);
  right after a first crash that is the terminated line (`SafeAfterCrashIff`). Over any run
  a command is dialled at most once more than there were such crashes
  (`EachCutCostsOneAtMost`), and it can be (`EachCutCanCostOne`).
- At most one free call is unresolved: a resolution cut by a crash is forgotten with the
  next record, and a second free call may begin (`TwoIntentsAfterACutResolution`). From any
  reachable world on, the file keeps to one if and only if it holds at most one now and so
  do its terminated lines; behind a terminated last line a running process remembers it;
  and behind an open one the terminated lines hold none, or a reload finds one and an
  undelivered event (`OneIntentIff`; `OneIntentAfterCrashIff` for the file a first crash
  leaves). It never holds more than three (`NeverMoreThanThreeIntents`), which two cuts
  reach (`ThreeIntentsAfterTwoCuts`).
- The collision search of the import trims ASCII spaces, the service trims all white
  space: a decided row whose raw e-mail starts with a tab is not found (`TabHidesARawEmail`).
  A raw e-mail or phone is found exactly when only spaces surround it (`RawEmailIsFoundIff`,
  `RawPhoneIsFoundIff`). Stored leads are always found, so created contacts stay unique.

The journal reloads what it holds in memory exactly while the events added carry schema "1"
(`PerformKeepsConsistentIff`). That limits the interface of the class, not the agent: both
callers pass "1" (`AgentRuntime.cs:466`, `LinphoneEngine.cs:359`).

## Model

| member | source | states |
|---|---|---|
| SchedulingSafety.NobodyIsDoubleBooked | apps/api/src/appointments/appointment-locks.ts:12-36 | In every run mixing both writers, two live appointments that share an involved person never overlap |
| SchedulingContracts.TouchingIsFree | apps/api/src/appointments/appointment-locks.ts:12-36 | Appointments and blocks that end at the start or begin at the end of an interval do not occupy it |
| SchedulingContracts.OverlapIsASharedInstant | apps/api/src/appointments/appointment-locks.ts:23-36 | Two intervals that are not empty overlap exactly when some instant lies in both |
| SchedulingContracts.BookingContract | apps/api/src/admissions/admissions.service.ts:145-163 | A new booking succeeds exactly when its caller is allowed, the designation is active, one of its windows holds the whole interval, no block touches it and nobody involved is elsewhere, in plain instants; it leaves a PLANIFIE appointment of the requested people and a PENDING booking |
| SchedulingContracts.DecisionContract | apps/api/src/admissions/admissions.service.ts:236-279 | A decision succeeds exactly when its caller may take it, the version is the one seen and the states and times allow it; Accept leaves ACCEPTED/CONFIRME, refuse REFUSED/REFUSE, cancel CANCELLED/ANNULE, reschedule PENDING/REPORTE at the requested start, complete ACCEPTED/REALISE, no-show ACCEPTED/ABSENT, one version later, and the reply shows these rows |
| SchedulingContracts.BookingRefusals | apps/api/src/admissions/admissions.service.ts:145-163 | Why an admitted booking is refused: a past start before an occupied or unoffered place |
| SchedulingContracts.DecisionRefusals | apps/api/src/admissions/admissions.service.ts:260-270 | Why an admitted decision is refused: the version, then the state, then a past start, then the place |
| SchedulingContracts.WindowContract | apps/api/src/admissions/admissions.service.ts:95-109 | When a window may be declared, and that it is stored with the requested kind, interval and designation |
| SchedulingContracts.WithdrawalContract | apps/api/src/admissions/admissions.service.ts:111-129 | A window is withdrawn exactly when it is active at the version seen and no live booking is held by it alone |
| SchedulingContracts.ConfigurationContract | apps/api/src/admissions/admissions.service.ts:62-79 | A designation is switched exactly at the version seen, zero for a new one |
| SchedulingContracts.ReportContract | apps/api/src/admissions/admissions.service.ts:216-234 | Only the evaluator who is the responsible user and not the requester reports, once, on a held appointment |
| SchedulingContracts.ReplayContract | apps/api/src/admissions/admissions.service.ts:369-369 | A key of the same operation and actor is answered with the saved reply for the same request and refused for another; decisions have one key space per action |
| SchedulingContracts.PlanningContract | apps/api/src/appointments/appointment-persistence.repository.ts:84-110 | A directly planned appointment is stored exactly when it is new, lies ahead, has an allowed length, an adviser without active designation and free people |
| SchedulingContracts.TransitionContract | apps/api/src/appointments/appointment.service.ts:17-21 | Which transitions are computed, at which instants, and the record they give |
| SchedulingContracts.StoringContract | apps/api/src/appointments/appointment-persistence.repository.ts:112-133 | When a computed record is stored, and that only state, start and version of the row change |
| SchedulingContracts.RepeatedEventsWriteNothing | apps/api/src/appointments/appointment-persistence.repository.ts:84-133 | An event key stored before writes nothing again |
| SchedulingSafety.LiveBookingsStayInsideAWindow | apps/api/src/admissions/admissions.service.ts:111-127 | In every run, each live PENDING or ACCEPTED booking stays inside one active AVAILABLE window of its responsibility, and booking and appointment states move in lockstep |
| SchedulingSafety.NextKeepsInv | apps/api/src/admissions/admissions.service.ts:145-160 | Every transaction of both writers keeps the scheduling invariant, refused or not |
| SchedulingSafety.CreateBookingKeepsInv | apps/api/src/admissions/admissions.service.ts:145-163 | A booking that passes the slot and occupation checks keeps the invariant |
| SchedulingSafety.DecideKeepsInv | apps/api/src/admissions/admissions.service.ts:236-279 | Accept, refuse, cancel, reschedule, complete and no-show keep the invariant |
| SchedulingSafety.StoreKeepsInv | apps/api/src/appointments/appointment-persistence.repository.ts:112-133 | A transition computed from a record in memory, stored or not, and stored with a compare-and-set keeps the invariant |
| SchedulingSafety.RunEvolves | apps/api/src/appointments/appointment-persistence.repository.ts:84-133 | Over any run rows keep their party, versions only grow, and receipts and event keys are kept |
| SchedulingSafety.NextEvolves | apps/api/src/admissions/admissions.service.ts:236-279 | Each step keeps parties, versions, receipts and event keys; it moves every row along the transition table if and only if it does not store a record over a row that lacks it |
| SchedulingSafety.NextKeepsOutcomesIff | apps/api/src/appointments/appointment-persistence.repository.ts:112-133 | A step keeps the state and time of every final appointment if and only if it does not store, past all checks of the transaction, a record over a final row that it contradicts |
| SchedulingSafety.OutcomesAreFinalIff | apps/api/src/appointments/appointment.service.ts:16-22 | In a run of both writers every outcome reached is the one kept at every later moment, if and only if no step overwrites one so |
| SchedulingSafety.StoredCachesNeverOverrule | apps/api/src/appointments/appointment.service.ts:174-190 | While transitions are computed from stored rows, however old, every stored transition follows the table and outcomes are final |
| SchedulingSafety.AnUnsavedRecordRevivesACancellation | apps/api/src/appointments/appointment.service.ts:87-101 | A concrete run in which the unsaved record of a lost request lets a cancelled appointment be rescheduled |
| SchedulingSafety.ReplayReturnsTheFirstReply | apps/api/src/admissions/admissions.service.ts:145-163 | A request sent again with its key, however much later, returns the first reply and writes nothing |
| SchedulingSafety.StepRespectsBlocksIff | apps/api/src/admissions/admissions.service.ts:62-79 | A step keeps live appointments apart from active blocks if and only if it is not the re-activation of a designation with a stored active block over an interval its user is occupied in |
| SchedulingSafety.RunRespectsBlocks | apps/api/src/admissions/admissions.service.ts:62-79 | Every run without such a re-activation keeps live appointments apart from active blocks |
| SchedulingSafety.ReactivationCanOverlapABlock | apps/api/src/admissions/admissions.service.ts:62-79 | A concrete run in which re-activation puts a block over a live appointment |
| AppointmentTables.Tables.Configure | apps/api/src/admissions/admissions.service.ts:62-79 | Keeps the scheduling invariant; the designation and reply are those of the transaction; live appointments stay apart from active blocks if and only if no conflicting block is revived |
| AppointmentTables.Tables.CreateWindow | apps/api/src/admissions/admissions.service.ts:95-109 | Keeps the scheduling invariant; tables and reply are those of the transaction; a refusal writes nothing; the row has the requested kind, interval and designation; an accepted block overlaps no live appointment of its user |
| AppointmentTables.Tables.WithdrawWindow | apps/api/src/admissions/admissions.service.ts:111-129 | Likewise; the loop over occupied and remaining windows finds a stranded booking if there is one, and an accepted withdrawal leaves each live booking another window |
| AppointmentTables.Tables.CreateBooking | apps/api/src/admissions/admissions.service.ts:145-163 | Likewise; an accepted booking is stored live, clashes with no live appointment and lies in a window of its responsibility |
| AppointmentTables.Tables.Decide | apps/api/src/admissions/admissions.service.ts:236-279 | Likewise for a decision; the two rows and the reply have the outcome of the action, the row clashes with none, lies in a window while live and moved along the transition table |
| AppointmentTables.Tables.PersistCreate | apps/api/src/appointments/appointment-persistence.repository.ts:84-110 | Keeps the scheduling invariant for the legacy creation, idempotent by event key; the row stored clashes with none |
| AppointmentTables.Tables.Transition | apps/api/src/appointments/appointment.service.ts:174-190 | A transition takes its record from the one in memory, puts the result there unsaved and leaves the tables alone, keeping the invariant |
| AppointmentTables.Tables.PersistTransition | apps/api/src/appointments/appointment-persistence.repository.ts:112-133 | Keeps the scheduling invariant with its version check; the row stored clashes with none; the table's outcomes are kept exactly unless the record contradicts the row's, and all its rows move legally exactly when the row allows the record |
| Slots.FreeSlots | apps/api/src/admissions/admissions.contract.ts:36-51 | The starts returned are exactly the grid points of a window that fit the range and meet no occupation, strictly increasing |
| Slots.Slots | apps/api/src/admissions/admissions.service.ts:131-143 | On the rows read, the starts returned are exactly the bookable ones of the range |
| Slots.SearchIsExact | apps/api/src/admissions/admissions.service.ts:353-354 | The restricted queries lose no obstacle: offered is in range and bookable |
| Slots.SlotsForBooking | apps/api/src/admissions/admissions.service.ts:131-160 | The starts listed are exactly the grid starts of the range at which the booking transaction at that instant succeeds; with further participants, those of them at which all participants are free |
| Slots.SlotsForRescheduling | apps/api/src/admissions/admissions.service.ts:131-215 | The starts listed on a booking are exactly the grid starts of the range to which rescheduling it at that instant succeeds |
| Slots.TouchingStartIsBookable | apps/api/src/admissions/admissions.service.ts:353-354 | A start in a window is bookable when every appointment and block of the people involved is over by then or begins at its end or later |
| BookingPager.Bookings | apps/api/src/admissions/admissions.service.ts:165-199 | A page holds at most limit rows and exactly the readable rows between its cursors; one with more to come is full or scanned at least 1000 rows |
| BookingPager.CursorAdvances | apps/api/src/admissions/admissions.service.ts:170-199 | The cursor of a page is strictly behind the rows it covered, so no row is seen twice or skipped |
| BookingPager.KeysAreOrdered | apps/api/src/admissions/admissions.service.ts:165-199 | Bookings are ordered by their start and then by their identifier, no two of them unordered |
| BookingPager.FollowCursors | apps/api/src/admissions/admissions.service.ts:165-199 | Following the cursors ends and yields every readable row once, in order, for any limit from 1 to 100 |
| BookingPager.CollectedIsTheFilteredTable | apps/api/src/admissions/admissions.service.ts:165-199 | What was collected is the filter of the whole sorted table |
| AppointmentIndex.AppointmentCache.RefreshWarnings | apps/api/src/appointments/appointment.service.ts:279-299 | The indexed pass writes the warnings of the pairwise definition on every record |
| AppointmentIndex.Warn | apps/api/src/appointments/appointment.service.ts:290-297 | The warnings read off the indexes are those of the pairwise definition |
| AppointmentIndex.WarningsMean | apps/api/src/appointments/appointment.service.ts:290-297 | A record is in conflict when another active one keeps a common person busy meanwhile, and overloads its adviser beside seven other active ones that day |
| AppointmentIndex.OthersOfTheDay | apps/api/src/appointments/appointment.service.ts:283-296 | The day counter less the record itself is the number of other active records of the adviser that day |
| WithdrawalStore.ReachableDirectories | apps/telephony-agent-windows/AgentWithdrawalStateStore.cs:49-139 | On every reachable directory the files are gap-free phase prefixes of one operation, one request at most is unfinished, no move target exists; only a leftover temporary file stops reading, for good |
| WithdrawalStore.PerformKeepsSound | apps/telephony-agent-windows/AgentWithdrawalStateStore.cs:49-84 | One operation fails without a trace, leaves a temporary file, or adds one state |
| WithdrawalContracts.ReadContract | apps/telephony-agent-windows/AgentWithdrawalStateStore.cs:95-123 | A directory is read exactly without a temporary file, when every file is named after a well-formed state, each later phase follows the one before it of the same operation and receipt, and at most one request is open; the answer is the last phase there is |
| WithdrawalContracts.BeginContract | apps/telephony-agent-windows/AgentWithdrawalStateStore.cs:49-67 | A request begins exactly with well-formed identifiers and hash, in a directory that reads, where it has no file and none is open |
| WithdrawalContracts.AdvanceContract | apps/telephony-agent-windows/AgentWithdrawalStateStore.cs:72-84 | Exactly the next phase is published behind the expected last one; the same phase once more changes nothing |
| WithdrawalContracts.StateContract | apps/telephony-agent-windows/AgentWithdrawalPolicy.cs:42-75 | What a valid state and its receipt hold |
| WithdrawalStore.UuidContract | apps/telephony-agent-windows/AgentWithdrawalPolicy.cs:77-86 | The identifiers accepted, character by character |
| WithdrawalStore.ShaContract | apps/telephony-agent-windows/AgentWithdrawalStateStore.cs:170-176 | The hashes accepted, character by character |
| WithdrawalStateStore.StateStore.ReadLatest | apps/telephony-agent-windows/AgentWithdrawalStateStore.cs:95-123 | The loops over names and groups give the result of the quantified checks, whatever the order of the files; on what the store itself left, reading fails exactly on a temporary file |
| WithdrawalStateStore.StateStore.Begin | apps/telephony-agent-windows/AgentWithdrawalStateStore.cs:49-67 | The new directory and result are those of the specification for any directory found; on sound files it refuses without a trace, leaves a temporary file or adds the state, and the files stay sound |
| WithdrawalStateStore.StateStore.Advance | apps/telephony-agent-windows/AgentWithdrawalStateStore.cs:72-84 | Likewise for a phase step, including an unchanged repeat |
| WithdrawalFlow.PostedAtMostOnce | apps/telephony-agent-windows/AgentWithdrawalFlow.cs:16-51 | Over every run with crashes and restarts, each request id is POSTed at most once and only after it is durable |
| WithdrawalFlow.RemovalAndCompletionAreGuarded | apps/telephony-agent-windows/TargetedProfileRemoval.cs:30-50 | The profile is deleted only with a durable receipt for that file hash and identity, and completion is written only when it is absent |
| WithdrawalFlow.CrashWhilePublishingFreezes | apps/telephony-agent-windows/AgentWithdrawalStateStore.cs:125-139 | A crash inside a publication freezes the store: no later run changes it, posts or deletes |
| WithdrawalFlow.ResumeCompletesIff | apps/telephony-agent-windows/AgentWithdrawalFlow.cs:32-50 | From any point outside a publication, one resume with a matching receipt completes without a POST if and only if the profile is the attempted one or was removed after its receipt |
| WithdrawalRuns.FirstRunCompletesIff | apps/telephony-agent-windows/AgentWithdrawalFlow.cs:16-51 | From any reachable idle world with nothing unfinished, a complete profile bound to the SDK and a new id, the uninterrupted run POSTs exactly that id once ATTEMPTED is durable; it ends COMPLETED without a profile if and only if the reply confirms the request and the profile is still the attempted one or gone, and a failed reply leaves the attempt as it was |
| WithdrawalRuns.NoPostWithoutAnAttestedStop | apps/telephony-agent-windows/AgentRuntime.cs:60-80 | Over every run, each POST follows a stop answered as attested for the very profile of its request |
| WithdrawalRuns.NoDeletionWithoutAnAttestedStop | apps/telephony-agent-windows/AgentWithdrawalFlow.cs:32-51 | Over every run, each deletion is of the attempted file, after a receipt that confirms that profile and after a stop for it |
| WithdrawalRuns.StartContract | apps/telephony-agent-windows/AgentWithdrawalFlow.cs:18-38 | What a start does: fresh only when not resuming and on a complete profile, an attempt resumed on its own profile only, a stored receipt in any case |
| WithdrawalRuns.StopContract | apps/telephony-agent-windows/AgentRuntime.cs:60-80 | When the stop goes on, and what is attested afterwards |
| WithdrawalRuns.StoppedContract | apps/telephony-agent-windows/AgentWithdrawalFlow.cs:23-27 | ATTEMPTED is written exactly if nothing was cancelled, the profile is unchanged and the store lets it begin |
| WithdrawalRuns.PostContract | apps/telephony-agent-windows/AgentWithdrawalFlow.cs:28-29 | The POST is sent exactly while the profile is the attempted one |
| WithdrawalRuns.LookupContract | apps/telephony-agent-windows/AgentWithdrawalFlow.cs:39-44 | A resumed attempt looks its receipt up on the attempted profile only; a stored receipt needs none |
| WithdrawalRuns.DeletionContract | apps/telephony-agent-windows/TargetedProfileRemoval.cs:30-50 | Behind a stored receipt, unless cancelled, the attempted profile is deleted, an absent one taken as deleted, another one kept |
| WithdrawalRuns.EnvironmentContract | apps/telephony-agent-windows/AgentWithdrawalFlow.cs:14-16 | What a crash leaves, and that the lease keeps the profile from changing between its deletion and the completion |
| WithdrawalRuns.ResumableIsOfProfile | apps/telephony-agent-windows/AgentWithdrawalFlow.cs:59-66 | What a resume asks of the profile, field by field |
| WithdrawalFlow.NextKeepsInv | apps/telephony-agent-windows/AgentWithdrawalFlow.cs:16-86 | Every step and every crash keeps the protocol invariant |
| EventJournal.ReplayEqualsMemory | apps/telephony-agent-windows/EventJournal.cs:16-48 | After any operations on schema "1" events, replaying the file gives exactly the sets in memory |
| EventJournal.PerformKeepsConsistentIff | apps/telephony-agent-windows/EventJournal.cs:25-38 | One operation keeps replay and memory equal if and only if an added event carries schema "1" |
| EventJournal.SeenIsForever | apps/telephony-agent-windows/EventJournal.cs:12-24 | A command once seen stays seen, in memory and after reload |
| EventJournal.TornTail | apps/telephony-agent-windows/EventJournal.cs:27-48 | A torn last line changes nothing on reload; the next append behind an open line loses exactly that line and that record |
| EventJournal.ReloadAfterInterruption | apps/telephony-agent-windows/EventJournal.cs:44-48 | A reload after an interrupted append sees the interrupted operation whole or not at all |
| EventJournal.EventJournal.Load | apps/telephony-agent-windows/EventJournal.cs:27-43 | The reading loop rebuilds exactly the replay of the file |
| EventJournal.EventJournal.Add | apps/telephony-agent-windows/EventJournal.cs:25-25 | File and memory after the call are those of the operation |
| AgentRuntime.NoRedial | apps/telephony-agent-windows/AgentRuntime.cs:445-461 | While no crash cuts a record, over all runs with redelivery, crashes between any two effects and reloads, StartCall is invoked at most once per command id |
| AgentCrashes.EachCutCostsOneAtMost | apps/telephony-agent-windows/AgentRuntime.cs:445-461 | Over every run, crashes inside an append included, StartCall is invoked for a command at most once more than the number of cut records, and at most that many intents are unresolved |
| AgentWitnesses.EachCutCanCostOne | apps/telephony-agent-windows/EventJournal.cs:44-48 | For every n there is a run with n cut records that invokes StartCall n + 1 times for one command |
| AgentConditions.NeverRedialsIff | apps/telephony-agent-windows/AgentRuntime.cs:445-461 | At every reachable world, whatever was cut before, no continuation without a further cut invokes StartCall twice for a command, if and only if the last line is terminated and the file has every command called, each once |
| AgentRuntime.OneUnresolvedIntent | apps/telephony-agent-windows/AgentRuntime.cs:281-306 | While no crash cuts a record, at most one free-call intent is unresolved, and memory equals the file |
| AgentCrashes.NeverMoreThanThreeIntents | apps/telephony-agent-windows/AgentRuntime.cs:281-337 | Over every run, whatever is cut, the file never holds more than three unresolved intents |
| AgentConditions.OneIntentIff | apps/telephony-agent-windows/AgentRuntime.cs:281-337 | At every reachable world, whatever was cut before, no continuation without a further cut leaves two unresolved intents if and only if at most one is unresolved in the file and on its terminated lines, behind a terminated last line a running process remembers it, and behind an open one either none is on the terminated lines or one and an undelivered event are found on reload |
| AgentConditions.OneIntentAfterCrashIff | apps/telephony-agent-windows/AgentRuntime.cs:281-337 | After a clean run and a crash anywhere that is a condition on the file alone: a terminated last line, or nothing unresolved before it, or an intent and an undelivered event on reload |
| AgentWitnesses.TwoIntentsAfterACutResolution | apps/telephony-agent-windows/AgentRuntime.cs:281-306 | A concrete run with one cut resolution that ends with two unresolved intents |
| AgentWitnesses.ThreeIntentsAfterTwoCuts | apps/telephony-agent-windows/AgentRuntime.cs:281-337 | A concrete run with two cut resolutions that ends with three |
| AgentCrashes.IntentsAreSettled | apps/telephony-agent-windows/AgentRuntime.cs:314-337 | In any step or crash of any run, an intent leaves the file only on a definite refusal, after its command was claimed, or on a matching final receipt with no active call and nothing pending, or as the unterminated last record that an append drops |
| AgentConditions.SafeAfterCrashIff | apps/telephony-agent-windows/EventJournal.cs:44-48 | After a clean run and a crash anywhere, also inside an append, no continuation redials if and only if the last line is terminated |
| AgentRuntime.IntentIsDurableIff | apps/telephony-agent-windows/EventJournal.cs:16-19 | A new intent survives a reload if and only if the file ended with a terminated line |
| AgentProcess.Runtime.ExecuteCommand | apps/telephony-agent-windows/AgentRuntime.cs:445-461 | Journal, file and calls after the method are those of the effects in order, and the command is called, reported or ignored as its expiry, the maintenance and the journal say |
| AgentCalls.CommandContract | apps/telephony-agent-windows/AgentRuntime.cs:445-461 | A delivered or claimed command is called exactly when journal, engine and client are there, it is no hang-up, unseen and unexpired and no maintenance is requested; an expired one leaves one FAILED/COMMAND_EXPIRED event and no mark, one met in maintenance is marked and reported, others change nothing |
| AgentCalls.EveryCallWasAskedFor | apps/telephony-agent-windows/AgentRuntime.cs:430-461 | Over every run, crashes and cut records included, every call has such a delivery or claim |
| AgentCalls.FreeCallContract | apps/telephony-agent-windows/AgentRuntime.cs:281-293 | A free call begins exactly when the agent is running, ready, connected, idle and outside maintenance and no intent is unresolved |
| AgentCalls.CreationContract | apps/telephony-agent-windows/AgentRuntime.cs:294-301 | A definite refusal resolves the intent, an uncertain answer keeps it, a creation goes on to the claim |
| AgentCalls.ClaimContract | apps/telephony-agent-windows/AgentRuntime.cs:339-348 | A claim without a command gives up and keeps the intent; with one the command is executed before the resolution |
| AgentCalls.ResolutionContract | apps/telephony-agent-windows/AgentRuntime.cs:301-306 | After the command the intent is resolved unless its execution failed |
| AgentCalls.ReceiptContract | apps/telephony-agent-windows/AgentRuntime.cs:314-337 | Reconciliation resolves a key exactly on a final, identified receipt for it from this workstation and profile, while nothing is active or undelivered |
| AgentCalls.ReplyContract | apps/telephony-agent-windows/AgentRuntime.cs:323-337 | A reply moves the reconciliation to its next key and ends it on a refusal or the last one |
| AgentCalls.ReconciliationContract | apps/telephony-agent-windows/AgentRuntime.cs:314-323 | Reconciliation begins exactly on all unresolved keys, while nothing is active or undelivered |
| AgentCalls.EventContract | apps/telephony-agent-windows/AgentRuntime.cs:497-505 | What the SDK reports is durable and pending while the process has its journal |
| AgentCalls.SentContract | apps/telephony-agent-windows/EventJournal.cs:25-26 | A delivered event is acknowledged in the file and no longer pending |
| AgentCalls.StopContract | apps/telephony-agent-windows/AgentRuntime.cs:164-200 | A stop for maintenance is granted exactly when no call is active or waited for, nothing is undelivered and no intent unresolved |
| AgentCalls.StartContract | apps/telephony-agent-windows/AgentRuntime.cs:114-149 | A start reads the file and clears the maintenance; a running agent is left alone |
| AgentCalls.FinishContract | apps/telephony-agent-windows/AgentRuntime.cs:558-589 | What a stopped, a failed and an audio-only agent hold |
| AgentCalls.CrashContract | apps/telephony-agent-windows/EventJournal.cs:27-43 | A crash leaves the file and nothing of the process |
| AgentProcess.Runtime.StartFreeCall | apps/telephony-agent-windows/AgentRuntime.cs:281-306 | The method refuses exactly when it may not start, and else is the run of its steps |
| AgentProcess.Runtime.ReconcileFreeCalls | apps/telephony-agent-windows/AgentRuntime.cs:314-337 | The loop is the run of its replies; resolved and remaining add up and remaining is what a reload would find |
| SdkShutdownSignals.OffObservationMeans | apps/telephony-agent-windows/SdkShutdownSignals.cs:15-49 | An observed Off means the core reported Off and nothing since, and "registration cleared" exactly that the last matching callback after the beginning and before the first Off was a clear |
| SdkShutdownSignals.FlagsMean | apps/telephony-agent-windows/SdkShutdownSignals.cs:15-45 | The recorder shows the last state of its core and is invalid exactly when the history has a second, missing or late account, a return from Off, or an unfit state after the beginning |
| SdkShutdownSignals.Recorder.OnGlobalState | apps/telephony-agent-windows/SdkShutdownSignals.cs:30-37 | The recorder after the callback, tied to its whole history |
| SdkShutdownSignals.Recorder.OnRegistrationState | apps/telephony-agent-windows/SdkShutdownSignals.cs:39-45 | Likewise for a registration callback |
| SdkShutdownCoordinator.Stop | apps/telephony-agent-windows/SdkShutdownCoordinator.cs:18-56 | A receipt is returned if and only if some observation attests the shutdown: all idle, account constant, clock monotone and before the deadline; else the reason; the stop begins once and the SDK is not called after an observed Off |
| SdkShutdownCoordinator.OffStays | apps/telephony-agent-windows/SdkShutdownSignals.cs:30-37 | Once Off was observed, later observations are Off or Unknown |
| SdkShutdownCoordinator.GivingUp | apps/telephony-agent-windows/SdkShutdownCoordinator.cs:32-54 | Where the loop gives up, no later observation would attest the shutdown either |
| AssignmentCandidates.RankingIsEligible | apps/api/src/assignment/assignment-selection.ts:8-10 | The ranking is the eligible users in order |
| NewEntrants.ChoiceIsLeastServed | apps/api/src/assignment/balanced-new-entrants.ts:12-21 | The choice is an eligible user that no eligible user is behind, and None exactly for an empty pool |
| NewEntrants.EveryPeerCanBeChosen | apps/api/src/assignment/balanced-new-entrants.ts:16-20 | Each least-served eligible user can be chosen by some pick |
| NewEntrants.CountsDifferByAtMostOne | apps/api/src/assignment/balanced-new-entrants.ts:24-48 | For a fixed pool and any interleaving and picks, counts of one campus, version and rule differ by at most one |
| NewEntrants.CountersAreReceipts | apps/api/src/assignment/balanced-new-entrants.ts:33-48 | Each counter is the number of its receipts, numbered exactly 1 to the counter, and no lead counts twice |
| NewEntrants.CountedCommitServesTheLeast | apps/api/src/assignment/balanced-new-entrants.ts:43-47 | Also with a changing pool, a commit that counts serves a user none of those eligible at its reservation is behind |
| NewEntrants.ReplayCountsOnce | apps/api/src/assignment/balanced-new-entrants.ts:36-40 | Committing an event again, however much later, never increments: the first answer for the same lead and user, else a conflict |
| NewEntrants.CommitContract | apps/api/src/assignment/balanced-new-entrants.ts:33-48 | A new event counts exactly if its lead is NEW, assigned to the reserved user, of the campus and not counted yet, and the counter is the reserved one |
| NewEntrants.ReservationContract | apps/api/src/assignment/balanced-new-entrants.ts:12-31 | The reservation is for the picked one of the least served eligible users, in order, at its counter |
| NewEntrants.ReservationRefused | apps/api/src/assignment/balanced-new-entrants.ts:12-26 | A reservation is refused beyond a hundred counters, for a count out of bounds and for a pick outside the least served |
| NewEntrants.NobodyIsReserved | apps/api/src/assignment/balanced-new-entrants.ts:14-14 | Nobody eligible is no reservation |
| NewEntrants.PeersAreLeastServed | apps/api/src/assignment/balanced-new-entrants.ts:16-17 | The peers picked from are exactly the eligible users none is behind, in order |
| NewEntrants.Tables.CommitNewEntrant | apps/api/src/assignment/balanced-new-entrants.ts:33-48 | Keeps the receipts numbered; counters and receipts are those of the transaction; a commit that counts is of such a lead and adds one receipt to the user's |
| AssignmentService.EachGetsAnEqualShare | apps/api/src/assignment/assignment.service.ts:128-138 | k new decisions on a round-robin rule with n eligible users give each k/n rounded down or up, and move the cursor by k |
| AssignmentService.RuleContract | apps/api/src/assignment/assignment.service.ts:128-134 | A complete context is answered by the one enabled rule for its trimmed source or campaign, by the enabled global one if there is none, and refused as ambiguous if there are two |
| AssignmentService.AssignmentContract | apps/api/src/assignment/assignment.service.ts:102-115 | An allowed caller gets the decision of an event key again, or a new one for the lead by the rule that governs the context; a round-robin rule moves by one |
| AssignmentService.SelectionContract | apps/api/src/assignment/assignment-selection.ts:6-16 | The answer ranks exactly the candidates with room and names the one at the cursor plus offset, or the drawn one |
| AssignmentService.ConfigurationContract | apps/api/src/assignment/assignment.service.ts:140-155 | Which inputs a manager may configure: values and candidates in bounds, no two for the same scope, one enabled for everything |
| AssignmentService.ConfiguredRules | apps/api/src/assignment/assignment.service.ts:64-75 | The rules are then those of the inputs, a later one in place of the earlier ones of its identifier |
| AssignmentService.DecisionsMoveTheCursor | apps/api/src/assignment/assignment.service.ts:102-115 | The cursor moves by the number of new decisions; replays and simulations never move it |
| AssignmentService.DecisionsGoRound | apps/api/src/assignment/assignment-selection.ts:6-16 | The k-th new decision names the k-th eligible user after the cursor |
| AssignmentService.SimulationForetells | apps/api/src/assignment/assignment.service.ts:95-100 | A simulation with offset j names the user that assign returns after j more decisions on the rule |
| AssignmentService.ReplayKeepsTheDecision | apps/api/src/assignment/assignment.service.ts:102-107 | The first decision for an event key is the decision for it ever after, over any later assignments, simulations and configurations |
| AssignmentService.ConfigureIsValid | apps/api/src/assignment/assignment.service.ts:64-84 | A configuration leaves distinct rules with cursors at zero and keeps the decisions |
| AssignmentService.Service.Configure | apps/api/src/assignment/assignment.service.ts:64-75 | Leaves distinct rules with cursors at zero; the rules after the method are the normalized ones, later ids replacing earlier ones |
| AssignmentService.Service.Assign | apps/api/src/assignment/assignment.service.ts:102-115 | Keeps the rules distinct; rules, decisions and answer are those of the transaction, the answer is stored under its key, a new one is of the rule that governs the context and names a candidate of it with room, and an ambiguous context is refused |
| ImportContacts.EmailIsAFixpoint | apps/api/src/bootstrap-import/bootstrap-create-guards.ts:7-10 | Normalizing an e-mail is idempotent and the database key of a normalized one is itself |
| ImportContacts.PhoneIsAFixpoint | apps/api/src/bootstrap-import/bootstrap-create-guards.ts:11-16 | Likewise for a phone |
| ContactContracts.EmailContract | apps/api/src/bootstrap-import/bootstrap-create-guards.ts:7-10 | An e-mail is normalized exactly when, trimmed and in small letters, it is a local part of 1 to 64 characters, an at sign, and two parts around a dot, without white space, of 254 characters at most |
| ContactContracts.PhoneContract | apps/api/src/bootstrap-import/bootstrap-create-guards.ts:11-16 | A phone is normalized exactly when, trimmed, only digits and separators follow an optional plus sign and 8 to 15 digits remain; the database compares the same compact form |
| ContactContracts.BTrimContract | apps/api/src/bootstrap-import/bootstrap-create-guards.ts:65-66 | The database's trimming takes ASCII spaces, and nothing else, from both ends |
| ContactContracts.TrimContract | apps/api/src/bootstrap-import/bootstrap-create-guards.ts:8-12 | The service's trimming takes white space, and nothing else, from both ends |
| ContactContracts.LowerContract | apps/api/src/bootstrap-import/bootstrap-create-guards.ts:8-8 | Capital letters become the small ones at their place of the alphabet; other characters stay |
| ImportContacts.RawEmailIsFoundIff | apps/api/src/bootstrap-import/bootstrap-create-guards.ts:65-66 | The key of a raw e-mail is its normal form if and only if only ASCII spaces surround it |
| ImportContacts.RawPhoneIsFoundIff | apps/api/src/bootstrap-import/bootstrap-create-guards.ts:65-66 | The key of a raw phone is its normal form if and only if only ASCII spaces surround it |
| ImportContacts.TabHidesARawEmail | apps/api/src/bootstrap-import/bootstrap-create-guards.ts:65-66 | A raw e-mail behind a tab normalizes to a contact the search does not see |
| ImportRuns.CreatedContactsAreUnique | apps/api/src/bootstrap-import/bootstrap-create-guards.ts:47-72 | No two leads created by the import in one campus share a normalized e-mail or phone, over any order of decisions and confirmations |
| ImportSafety.CreatedIsAlone | apps/api/src/bootstrap-import/bootstrap-import.service.ts:642-643 | A creation that passes the complete search shares no contact with a created lead of its campus |
| ImportRuns.CommittedRowsAreAbsorbing | apps/api/src/bootstrap-import/bootstrap-import.service.ts:551-593 | ACCEPTED and IGNORED never change and hold exactly when the commit receipt exists |
| ImportRuns.DecisionsFollowStates | apps/api/src/bootstrap-import/bootstrap-import.service.ts:292-326 | A row has a decision exactly when it left REVIEW, a lead exactly when ACCEPTED, and a valid bound deferral exactly when DEFERRED |
| ImportContracts.DecisionsCarryTheirContacts | apps/api/src/bootstrap-import/bootstrap-import.service.ts:292-300 | After any run a decision stands for the operator's e-mail and phone where given and the mapped ones elsewhere, an accepted creation has an imported lead of the campus with their normal forms, an accepted link its target |
| ImportContracts.DecisionContract | apps/api/src/bootstrap-import/bootstrap-import.service.ts:270-305 | When a new decision is taken, on the stored rows, receipts, leads and the input alone, and the row it leaves |
| ImportContracts.DeferralContract | apps/api/src/bootstrap-import/bootstrap-import.service.ts:307-333 | When a row is deferred, and the receipt that binds it |
| ImportContracts.ReopeningContract | apps/api/src/bootstrap-import/bootstrap-import.service.ts:334-366 | When a decision is reopened, and the receipt that keeps it |
| ImportContracts.CommitContract | apps/api/src/bootstrap-import/bootstrap-import.service.ts:551-593 | When a ready row is committed; a creation adds exactly its lead, a link and an ignored row none |
| ImportContracts.SelectionContract | apps/api/src/bootstrap-import/bootstrap-import.service.ts:384-388 | The rows confirmed are the first of the actor's ready rows, in order, up to the limit |
| ImportContracts.ConfirmationContract | apps/api/src/bootstrap-import/bootstrap-import.service.ts:368-402 | When a new confirmation succeeds |
| ImportContracts.ReportContract | apps/api/src/bootstrap-import/bootstrap-import.service.ts:389-396 | What each count of the report counts |
| ImportContracts.BlockContract | apps/api/src/bootstrap-import/bootstrap-import.service.ts:407-454 | When a new block succeeds, and what its receipt lists |
| ImportContracts.DecideAllContract | apps/api/src/bootstrap-import/bootstrap-import.service.ts:436-442 | The items of a block are decided in turn, each on a row that waits as it was seen |
| ImportContracts.PackageContract | apps/api/src/bootstrap-import/bootstrap-import.service.ts:169-212 | A source is imported once and sealed once |
| ImportContracts.MappingContract | apps/api/src/bootstrap-import/bootstrap-import.service.ts:215-259 | A sealed package is mapped once, into rows in review |
| ImportContracts.DecisionReplay | apps/api/src/bootstrap-import/bootstrap-import.service.ts:281-291 | The key that decided a row is accepted again exactly for the same request of the same actor while it is still acceptable, and writes nothing |
| ImportContracts.DeferralReplay | apps/api/src/bootstrap-import/bootstrap-import.service.ts:307-333 | Likewise for a deferral, while the row still holds exactly it |
| ImportContracts.ReopeningReplay | apps/api/src/bootstrap-import/bootstrap-import.service.ts:334-366 | Likewise for a reopening, before a commit |
| ImportContracts.ConfirmationReplay | apps/api/src/bootstrap-import/bootstrap-import.service.ts:368-384 | Likewise for a confirmation, while all its rows stand |
| ImportRuns.RetiredKeysNeverDecide | apps/api/src/bootstrap-import/bootstrap-import.service.ts:280-280 | A key retired by reopening never decides a row of the package again |
| ImportRuns.KeysDecideOneRow | apps/api/src/bootstrap-import/bootstrap-import.service.ts:292-326 | A key decides at most one row of its package, over any run |
| ImportRuns.CompletedMeansDone | apps/api/src/bootstrap-import/bootstrap-import.service.ts:389-396 | COMPLETED implies all rows terminal, and every report adds up |
| ImportRuns.ConfirmationCompletesIff | apps/api/src/bootstrap-import/bootstrap-import.service.ts:385-399 | A new confirmation completes the package exactly when every row is terminal, that is when its report counts no error |
| ImportSafety.ConfirmCommits | apps/api/src/bootstrap-import/bootstrap-import.service.ts:368-402 | A new confirmation commits exactly the selected rows, each with its receipt, and moves the version by one |
| ImportSafety.StatesPartition | apps/api/src/bootstrap-import/bootstrap-import.service.ts:390-394 | total = created + ignored + duplicate + error |
| ImportBlocks.BlockChangesExactlyItsRows | apps/api/src/bootstrap-import/bootstrap-import.service.ts:407-454 | A new block changes exactly its rows, each ending ACCEPTED, IGNORED or DEFERRED with its receipt, the contacts of its item and the lead made of them, and the version rises by one in both branches |
| ImportBlocks.BlockRefinesTheSequence | apps/api/src/bootstrap-import/bootstrap-import.service.ts:438-446 | A block leaves the store of its decisions as separate transactions followed by one confirmation, up to its own receipt |
| ImportRuns.ReplayChangesNothing | apps/api/src/bootstrap-import/bootstrap-import.service.ts:420-435 | However much later, an exact replay writes nothing; with access kept it succeeds if and only if every row the block deferred is still deferred under its key, and else reports a changed receipt |
| ImportTables.Tables.DecideRow | apps/api/src/bootstrap-import/bootstrap-import.service.ts:270-305 | Keeps the invariant of the ledger; the tables are those of the transaction, a refusal leaves them as they were; the row is decided by a key that is not retired, with the operator's contacts over the mapped ones |
| ImportTables.Tables.ReopenRow | apps/api/src/bootstrap-import/bootstrap-import.service.ts:334-366 | Likewise; a reopened row is in review and its former key retired |
| ImportTables.Tables.CommitOne | apps/api/src/bootstrap-import/bootstrap-import.service.ts:551-593 | Keeps the invariant between two rows of a confirmation; the committed row is terminal and has its receipt |
| ImportTables.Tables.ConfirmRows | apps/api/src/bootstrap-import/bootstrap-import.service.ts:368-402 | Keeps the invariant through the loop of commits, restored after a refusal in the middle; a new confirmation writes a balanced report and completes the package exactly when all its rows are terminal |
| ImportTables.Tables.RunBlock | apps/api/src/bootstrap-import/bootstrap-import.service.ts:407-454 | Keeps the invariant through the loop of decisions and the confirmation; a new block has its effect on exactly its rows |

## Left out

- Permissions, sessions, canonical campuses and reference checks: parameters of a request say whether it is authorized; in the import the content checks other than the contacts are the sets `annotated`, `acceptable` and `linkable` of a context.
- Hashes, cursors, JSON and base64: values compared as they are, so as injective; `Draw` is an arbitrary function.
- Identifiers: integers or strings. The order of `UserId` stands for the collation order of candidate identifiers, a negative one for an identifier out of form.
- Audit events, notifications, labels, lead activities, provenance, imported notes, source coverage and the KPI views: side records.
- Isolation: transactions are atomic steps; advisory locks, deadlocks and serialization retries are not modelled. The rollback of a refused import transaction is the restoring of the fields.
- Appointments: unsaved records of legacy creations stay out of the caches, those of transitions enter them; legacy compensations and reports, which change no time or state, and the conflict warning of the legacy `create`, which is computed without the organizer.
- Appointment caches: a refresh adds the stored rows to what a process holds, where the source clears first, so the model allows more runs.
- Admissions reports: `Report` is a step of the runs, without a method in the class.
- Floating point: grid positions use exact integers where `freeSlots` uses `Math.ceil` on milliseconds; durations are exact minutes.
- Time zones: the local day of an appointment is an arbitrary function of its start.
- Withdrawal files: DPAPI, handles, pinned directories, sizes and JSON parsing; a file is readable or not. Endpoints are normalized values. The maintenance lease keeps the profile from changing between its removal and the completion.
- Journal: failures of an append that do not end the process, such as a full disk, and the order in which pending events are delivered.
- Agent: the delivery queue, the status loop, timers, devices and the SDK itself. The `StopForMaintenance` path is two steps that may be refused, without the attested stop of the SDK, which has its own model.
- Shutdown: callbacks are delivered before each observation rather than inside `Iterate`.
- Assignment: the configuration history, the decision history and the fingerprint of the candidates; scopes and strategies are enumerations, so an unknown one cannot occur.
- NewEntrants: campuses, versions and collaborators are taken to exist, as the foreign keys demand.
- AgentRuntime.NoRedial: for runs in which no crash cuts a record; the others are the subject of EachCutCostsOneAtMost and NeverRedialsIff.
- AgentRuntime.OneUnresolvedIntent: likewise; the others are the subject of NeverMoreThanThreeIntents and OneIntentIff.
- ImportContacts.EmailIsAFixpoint: lower-casing is ASCII only, for the service and the database alike.
- ImportContacts.RawEmailIsFoundIff: likewise stated for ASCII lower-casing.
- Import: workbook parsing, chunks, mapping content, the replay of `create` and `mapping`, and the final reconciliation, whose verdict is a parameter. Leads created by the import keep their contacts; other leads may change at will.
