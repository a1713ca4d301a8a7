# Client stores and engine queues: a verified model

The desktop client keeps several stores that must agree with an engine they only
reach through asynchronous requests, and the engine keeps queues that must
neither lose, duplicate nor starve anything. This project models those protocols
in Dafny and proves what they promise. Run `dafny verify dfyconfig.toml`.

## How the model is built

Each client store is a `class` whose fields are the store's fields and whose
methods are the stretches of code between two awaits: such a stretch runs without
interruption, so one method is one atomic step. A function on plain values
specifies each method. A protocol module puts that specification in a world with
an engine and the requests and replies in flight, defines one `Step` per event,
and proves an invariant of every step. The main theorems speak of `Run(Init, es)`
for an arbitrary list of events `es`: every interleaving, with replies late, out
of order or never. An event that is not possible leaves the world as it is.

| file | component |
|---|---|
| `AgentRoster`, `AgentStore`, `AgentProtocol`, `AgentReads` | the agent registry: serialized optimistic mutations, fenced reads, guarded rollback |
| `RuntimeStore`, `RuntimeProtocol`, `RuntimeLedger`, `RuntimeReads` | a project's runtime: write queue per project, guarded reads, configuration refresh, what a queue shows and falls back to |
| `TranscriptRows`, `TranscriptStore`, `TranscriptProtocol` | a session's transcript: event reducer against snapshot hydration |
| `TranscriptHistory`, `TranscriptContents`, `TranscriptRuns` | the same runs with what was said of each row: contents field by field, lost updates, missing rows |
| `DelegationStore`, `DelegationRows`, `DelegationTranscriptProtocol`, `DelegationTranscriptRuns`, `DelegationRosterProtocol` | child runs: transcript merging, roster refreshes, seen runs |
| `ApprovalMerge`, `ApprovalStore`, `ApprovalProtocol` | approval cards against the engines that park them |
| `ApprovalHub` | the engine's registry of parked approvals and their receivers |
| `BackgroundRail`, `RailProperties`, `RailArrivals`, `RailAlone`, `RailFairness` | the background rail: claim, deliver, release, budget, arrivals, fairness |
| `AttachmentNames`, `Attachments` | saving a message's attachments |
| `SlashCatalog`, `SlashCatalogProtocol` | the slash-catalog cache under global-command mutations |
| `LearningStore`, `LearningProtocol` | the learning store's generations, flags and evictions |
| `Automation`, `AutomationProtocol`, `AutomationInvariant`, `AutomationRuns`, `AutomationHooks`, `AutomationDecisions`, `AutomationWorker`, `AutomationCascades`, `AutomationWitnesses`, `RateLimiter` | automation hooks: dispatches, webhooks and tests under way at once, run rows, announcements, cascades, limiter |
| `Options`, `Ordered`, `Sets`, `JoinedKeys` | shared definitions and facts |

## What turned out false

Each of these is stated as a lemma with a concrete input, next to the exact
condition under which the wanted property does hold.

- A failed first hydration marks the transcript loaded and no later unforced call
  fetches (`TranscriptProtocol.LoadedIsNotComplete`). Whatever the loaded flag
  says, `TranscriptRuns.CompleteExactly` says when the log is on show.
- A tool update delivered between a snapshot's reading and its install is undone
  by the install, for good (`TranscriptRuns.UpdateIsLost`).
  `TranscriptRuns.RowIsCurrentExactly` says exactly which rows this leaves outdated,
  and `TranscriptRuns.QuiescentTranscriptIsTheLog` in which fields.
- A card answered after the engine listed it is back on show when the refresh ends
  (`ApprovalProtocol.AnsweredCardReappears`); the cards this happens to are
  characterized exactly (`ApprovalProtocol.StaleCardsExactly`).
- A quiet tick does not always attempt the eight oldest eligible rows: a row whose
  target an earlier delivery made busy is skipped
  (`RailAlone.SharedTargetIsSkipped`). `RailAlone.TickAlone` says what is attempted
  in general and `RailAlone.QuietTickTakesTheOldest` exactly when that is the eight
  oldest.
- A run row created for an inbound webhook stays queued when its session does not
  start (`AutomationWitnesses.FailedStartLeavesRunQueued`,
  `AutomationRuns.WebhookRunStaysQueued`).
- A session is running before its origin is written. Until then the events of a
  session that an external event's or a webhook's hook started set off hooks like
  anyone's, though no write has failed (`AutomationWitnesses.EarlyEventSetsOffHook`).
  When the write fails this goes on for good, beside a failed row
  (`AutomationWitnesses.DispatchLosesOrigin`) or a queued one
  (`AutomationWitnesses.WebhookLosesOrigin`), and while no origin can be written a
  single hook starts any number of sessions (`AutomationWitnesses.CascadeIsUnbounded`).
  Session events are looked at by one worker, one at a time, so a session that one of
  its own calls started is mute as soon as the worker could look, unless its origin
  could not be written (`AutomationWorker.WorkerSessionsAreMute`); with no such failure
  a cascade ends after two generations (`AutomationWorker.TwoGenerations`).
  `AutomationWorker.SetsOffExactly` says exactly which events set off hooks,
  `AutomationCascades.HooksDoNotSetOffHooks` what bounds all sessions, and
  `AutomationCascades.NoFailureBound` what does when every write succeeds.
- An end before the origin is written is lost, and the row stays running with no
  write failed (`AutomationWitnesses.EndBeforeOriginIsLost`).
  `AutomationRuns.RunningExactly` says exactly when a row stays running.
- A window of 60 seconds can hold more accepted runs than the limits allow: an
  attempt reads its time before it waits for the deque and may find it pruned by a
  later one (`RateLimiter.LongerIsOverrun`). `RateLimiter.WindowsHoldExactly` gives
  the length of the windows that hold, by how late attempts may be.
- "Running" can be the last thing announced of a run that has ended, on the event
  path when the session ends between the link and the announcement
  (`AutomationWitnesses.DispatchAnnouncesTooLate`) and on the webhook path also when
  it ends before the link (`AutomationWitnesses.WebhookAnnouncesTooLate`). The last
  announcement tells the row exactly unless "running" is announced after the end is
  (`AutomationRuns.AnnouncementsTellExactly`). An end that falls between the start
  and that announcement need not do harm
  (`AutomationWitnesses.DispatchEndBeforeLinkTells`).

Two places where comments and code differ, and the model follows the code: the
approval rules' "without resurrecting one the user already answered"
(`apps/cockpit/src/store.ts:173`) holds only for answers given before the engine
listed, and the webhook path's doc comment describes `dispatch_automation_event`.

## Model

| member | source | states |
|---|---|---|
| AgentStore.Store.Load | apps/cockpit/src/store-agents.ts:247-256 | a load takes a fresh generation and counts one more read; `loading` holds exactly while a read is outstanding |
| AgentStore.Store.LoadReplied | apps/cockpit/src/store-agents.ts:145-170 | a reply installs the registry and moves its revision only if its generation is still the latest and the request succeeded |
| AgentStore.Store.FenceReads | apps/cockpit/src/store-agents.ts:127-130 | every read already sent loses its generation |
| AgentStore.Store.Enqueue | apps/cockpit/src/store-agents.ts:131-144 | an operation joins the end of the tail and is counted as pending |
| AgentStore.Store.StartMutation | apps/cockpit/src/store-agents.ts:290-323 | the head of the tail fences the reads, remembers registry and revision, and paints its optimistic registry |
| AgentStore.Store.Succeed | apps/cockpit/src/store-agents.ts:330-336 | a success fences again and settles the registry from the reply |
| AgentStore.Store.RollbackResources | apps/cockpit/src/store-agents.ts:187-195 | the remembered registry comes back only if no read installed one since |
| AgentStore.Store.Fail | apps/cockpit/src/store-agents.ts:436-465 | only the painting mutations roll back, guarded by the revision |
| AgentRoster.PatchReaches | apps/cockpit/src/store-agents.ts:66-68 | patching a registry that differs from the engine's earlier one in at most that row gives the engine's later one |
| AgentRoster.UpsertReaches | apps/cockpit/src/store-agents.ts:71-78 | inserting or replacing a row in a registry equal to the engine's before or after the mutation gives the one after |
| AgentRoster.PaintsDisturbOneRow | apps/cockpit/src/store-agents.ts:81-97 | both optimistic paints of an update disturb only the edited row |
| AgentProtocol.SettleReaches | apps/cockpit/src/store-agents.ts:268-488 | whatever registry a store can hold when a success arrives (painted, from before, or read since), settling gives the engine's |
| AgentProtocol.RegistryAgreesInEveryRun | apps/cockpit/src/store-agents.ts:127-195 | in every run, with no mutation executing the registry is absent or the engine's, and the busy counters count what is outstanding |
| AgentProtocol.UndisturbedLoadInstalls | apps/cockpit/src/store-agents.ts:145-170 | in every state of the invariant, a load that meets no mutation and no newer load installs the engine's registry |
| AgentReads.LoadInstallsExactly | apps/cockpit/src/store-agents.ts:127-170 | in every run a successful load installs what it read exactly if, since it was sent, no newer load was, no mutation started and none succeeded; otherwise its reply changes neither the registry nor its revision |
| AgentReads.MutationShowsItsChange | apps/cockpit/src/store-agents.ts:290-323 | in every run, until a mutation is answered or a load installs, the registry on show is the one from before with exactly the change asked for, row by row: the default and its flags, the subagent model, or the edited row |
| AgentReads.FailureRestores | apps/cockpit/src/store-agents.ts:187-195 | in every run a mutation that fails leaves on show the registry from when it started, or the one a load installed since |
| RuntimeStore.Store.LoadProjectRuntime | apps/cockpit/src/store.ts:542-547 | a read records the mutation generation, whether a mutation is active and a fresh load generation |
| RuntimeStore.Store.ProjectRuntimeReplied | apps/cockpit/src/store.ts:548-557 | the five-fold guard on installing a read |
| RuntimeStore.Store.SetProjectRuntime | apps/cockpit/src/store.ts:558-594 | a call opens or joins its project's queue, takes the next intent, marks the mutation active and paints; an unknown project changes nothing |
| RuntimeStore.Store.StartChained | apps/cockpit/src/store.ts:625-626 | the chain's first write goes out |
| RuntimeStore.Store.WriteReplied | apps/cockpit/src/store.ts:595-624 | a reply updates the confirmed values; the latest intent clears the mark and shows what is confirmed; the last one drops the queue |
| RuntimeStore.Store.TakeSnapshots | apps/cockpit/src/store.ts:634-644 | the generation and activity of every project shown |
| RuntimeStore.Store.ConfigurationReplied | apps/cockpit/src/store.ts:645-662 | exactly the successful replies whose project was and is quiet at the same generation are installed, if the refresh is the latest |
| RuntimeStore.AnsweredExactly | apps/cockpit/src/store.ts:645-658 | a project's reply counts exactly if it succeeded, and is its own |
| RuntimeProtocol.RuntimeAgreesInEveryRun | apps/cockpit/src/store.ts:542-662 | in every run a project with no queue shows nothing or the engine's runtime, and queue, positive pending count and active mark go together |
| RuntimeProtocol.WritesIssueInOrderOneAtATime | apps/cockpit/src/store.ts:561-628 | in every run the writes sent are a prefix of the writes asked for, the chain is the rest, and at most one is unanswered |
| RuntimeLedger.QueueHoldsLastAcknowledged | apps/cockpit/src/store.ts:561-613 | in every run an open queue falls back to the runtime and settings of the last write acknowledged since it was opened, else to those shown when it was opened; its latest intent counts the calls made since, and its pending writes are those not answered |
| RuntimeLedger.LastWriteDrains | apps/cockpit/src/store.ts:595-624 | in every run answers come in call order, and one empties the queue exactly if it is to the last call made since the queue was opened; it then leaves on show what was last acknowledged since, this answer included, else what was there before; any other answer leaves the runtime and the projects alone |
| RuntimeReads.LoadInstallsExactly | apps/cockpit/src/store.ts:542-557 | in every run a successful load installs what it read, which is what the engine has, exactly if no write of its project was pending when it was sent, and since then no call on the project was made and no newer load of it sent; any other reply changes nothing |
| RuntimeReads.UndisturbedLoadShows | apps/cockpit/src/store.ts:542-557 | from every reachable state a load of a project with no write pending shows the engine's runtime |
| RuntimeReads.RefreshInstallsExactly | apps/cockpit/src/store.ts:629-662 | in every run a refresh installs, of each project that answered, what was read for it, exactly if no newer refresh was begun, the project was on show with no write pending when the agents were loaded, and no call on it was made since; nothing else changes |
| RuntimeReads.OpenQueueShowsLastCall | apps/cockpit/src/store.ts:561-594 | in every run a project with writes pending shows the model and effort of the last call, and for the rest what it showed when its queue was opened, or the defaults of its first call |
| RuntimeReads.SettingsAreTheLast | apps/cockpit/src/store.ts:558-628 | in every run a project has the settings of the list last loaded, of the last call since, or, once that is answered, of the last write acknowledged |
| TranscriptStore.Store.OnSessionCreated | apps/cockpit/src/store.ts:222-226 | a created session is marked loaded and keeps its rows |
| TranscriptStore.Store.OnMessage | apps/cockpit/src/store.ts:244-270 | a known tool call is merged in place, a row past the high-water mark is appended and moves it, anything else is dropped; other sessions are untouched |
| TranscriptStore.Store.FinishHydrate | apps/cockpit/src/store.ts:415-428 | the snapshot followed by the live rows beyond it, the higher of both marks, and loaded |
| TranscriptProtocol.MessageKeepsKnown | apps/cockpit/src/store.ts:244-270 | a message whose row is already announced, or is the next one, keeps what the store knows of the log exact |
| TranscriptProtocol.HydrateCompletes | apps/cockpit/src/store.ts:415-428 | a successful snapshot makes the known rows complete up to the mark, and rows that raced ahead survive |
| TranscriptProtocol.TranscriptExactInEveryRun | apps/cockpit/src/store.ts:227-272 | in every run numbers strictly increase, no tool call has two rows, the mark is the highest number present, and after a successful hydration the rows are exactly the log's up to the mark |
| TranscriptProtocol.FailedFetchOnlyMarksLoaded | apps/cockpit/src/store.ts:397-402 | a failed fetch changes nothing but the loaded flag |
| TranscriptProtocol.LoadedIsNotComplete | apps/cockpit/src/store.ts:392-402 | a failed first fetch leaves a session loaded, empty and never fetched again |
| TranscriptRuns.QuiescentTranscriptIsTheLog | apps/cockpit/src/store.ts:392-428 | in every run, with every event delivered a complete transcript is the whole log row for row, and every field has the engine's value but those updated after the snapshot last installed over the row was read, delivered before its install and not updated again, which are as the snapshot had them |
| TranscriptRuns.RowIsCurrentExactly | apps/cockpit/src/store.ts:421-424 | in every run such a row is the engine's exactly if every field of that kind was given back the value the snapshot has, and, with no value ever repeated, exactly if there is no such field |
| TranscriptRuns.UpdateIsLost | apps/cockpit/src/store.ts:421-424 | a run in which a tool update overtakes the snapshot and nothing that is still to come repairs it |
| TranscriptRuns.CompleteExactly | apps/cockpit/src/store.ts:392-428 | in every run the log up to the mark is on show exactly if some fetch succeeded or every row from before the subscription that the mark has passed was updated while no higher number had been delivered; and, with everything delivered, the whole log exactly if that holds of every row from before |
| DelegationStore.MergeHydratedMessages | apps/cockpit/src/store-delegation.ts:50-64 | the loop computes the merge function: live rows replace or extend the fetched ones, sorted |
| DelegationStore.Store.OnRunMessage | apps/cockpit/src/store-delegation.ts:212-217 | a live message replaces its row or is inserted in order, in its own run only |
| DelegationStore.Store.LoadTranscript | apps/cockpit/src/store-delegation.ts:144-149 | a run with a fetch out joins it |
| DelegationStore.Store.TranscriptReplied | apps/cockpit/src/store-delegation.ts:151-163 | a success merges into what is shown then; either way the request is forgotten |
| DelegationStore.Store.LoadRoster | apps/cockpit/src/store-delegation.ts:93-98 | a session with a fetch out joins it |
| DelegationStore.Store.OnAgentRunChanged | apps/cockpit/src/store-delegation.ts:203-211 | a change starts a fetch or marks the one under way for another |
| DelegationStore.Store.NoteSeen | apps/cockpit/src/store-delegation.ts:103-109 | linked runs are appended to their dispatch's list once |
| DelegationStore.Store.RosterReply | apps/cockpit/src/store-delegation.ts:99-134 | a reply installs the roster and fetches exactly the transcripts of the listed runs under way that are neither ready nor being fetched; if the session was marked it is unmarked and fetched again |
| DelegationRows.UpsertExactly | apps/cockpit/src/store-delegation.ts:36-49 | whatever the rows, a live row replaces the first of its tool call or, without one, of its number; else it is added and all are ordered by number, none lost |
| DelegationRows.Upserts | apps/cockpit/src/store-delegation.ts:40-48 | upserting a version of a log row keeps the list ordered, one row per log row, and holds exactly that version of it |
| DelegationRows.Hydrates | apps/cockpit/src/store-delegation.ts:50-64 | merging keeps every live row over the fetched one of the same number, adds no other, and is ordered |
| DelegationTranscriptRuns.TranscriptConvergesInEveryRun | apps/cockpit/src/store-delegation.ts:144-167 | in every run, with all events delivered and some fetch having succeeded the rows are the engine's, in order and content |
| DelegationTranscriptRuns.TranscriptOrderedInEveryRun | apps/cockpit/src/store-delegation.ts:40-64 | in every run the rows are ordered versions of log rows, and at most one fetch is out, exactly while one is marked |
| DelegationRosterProtocol.NoRefreshLostInEveryRun | apps/cockpit/src/store-delegation.ts:202-210 | in every run at most one fetch is out, the session is marked for another exactly if one is out and a change came since it was sent, and with none out the last was issued after the last change |
| DelegationRosterProtocol.RosterConvergesInEveryRun | apps/cockpit/src/store-delegation.ts:93-136 | in every run, with every change announced, no fetch out and the last one a success, the roster is the engine's |
| DelegationRosterProtocol.StatusTellsTheLastReply | apps/cockpit/src/store-delegation.ts:93-136 | in every run the status is loading exactly while a fetch is out, then ready or failed as the last reply was, and idle before the first |
| DelegationRosterProtocol.SeenRunsGrowInEveryRun | apps/cockpit/src/store-delegation.ts:102-110 | a slot's seen list only grows at its end, never repeats a run, and holds exactly the runs of the installed rosters that were dispatched for that slot |
| ApprovalMerge.MergePendingApprovals | apps/cockpit/src/store.ts:175-198 | the loop over both lists computes the merge function |
| ApprovalMerge.MergeRules | apps/cockpit/src/store.ts:163-198 | no key repeats, the keys are exactly those fetched and those of wanted live cards, and fetched cards win |
| ApprovalMerge.MergeKeepsOrder | apps/cockpit/src/store.ts:163-198 | the fetched cards come first, then the live ones, each list's in its own order |
| ApprovalMerge.KeyIsOwnExactly | apps/cockpit/src/store.ts:159-161 | over all ids, a request shares its key with no other exactly if none of its three ids holds a colon |
| ApprovalMerge.KeyIdentifies | apps/cockpit/src/store.ts:159-161 | among requests whose runner and run ids hold no colon, as those issued do not, keys agree exactly if the requests do, whatever the request ids hold |
| ApprovalStore.Store.ApprovalRequested | apps/cockpit/src/store.ts:285-301 | an arrival is appended, shown already or not |
| ApprovalStore.Store.ClearApproval | apps/cockpit/src/store.ts:376-379 | every card of that run and request goes |
| ApprovalStore.Store.RefreshReplied | apps/cockpit/src/store.ts:503-514 | the cards of the runners that answered are merged over the live ones |
| ApprovalProtocol.EndLists | apps/cockpit/src/store.ts:456-514 | card by card, what a refresh leaves: listed by its runner, or live and its runner silent or the card new since the start |
| ApprovalProtocol.RefreshReconcilesInEveryRun | apps/cockpit/src/store.ts:456-514 | in every run: live and parked stays, parked throughout at an answering runner is on show, live but gone before the start is removed if its runner answered, silent runners' cards are untouched, no key repeats |
| ApprovalProtocol.QuietRefreshIsExact | apps/cockpit/src/store.ts:456-514 | a refresh the engines sat still for shows exactly what the answering runners hold |
| ApprovalProtocol.StaleCardsExactly | apps/cockpit/src/store.ts:192-196 | a card no longer parked is on show exactly if the listing still held it or it arrived during the refresh |
| ApprovalProtocol.AnsweredCardReappears | apps/cockpit/src/store.ts:192 | a card answered and cleared after the listing is on show again |
| ApprovalHub.Hub.RegisterInner | crates/core/src/approval.rs:61-73 | a new receiver waits, its entry replaces any other for the key and closes that one's receiver; waiters and entries stay in bijection |
| ApprovalHub.Hub.Resolve | crates/core/src/approval.rs:74-82 | exactly the key's entry is answered and removed, and the result says whether there was one |
| ApprovalHub.Hub.ResolveSession | crates/core/src/approval.rs:90-106 | exactly the session's entries are answered, with that decision once and nothing granted beyond, and removed; their number is returned, nothing else changes |
| ApprovalHub.Hub.HasPending | crates/core/src/approval.rs:108-113 | true exactly while some receiver waits |
| ApprovalHub.ResponsesAreFinal | crates/core/src/approval.rs:75-106 | a receiver that has a response or is closed never changes again |
| ApprovalHub.EveryReceiverMeetsItsFate | crates/core/src/approval.rs:61-106 | in every run each receiver ends as the first later operation that concerns its registration decides (a session's end allows or denies it once, granting nothing more), and waits if there is none |
| ApprovalHub.RegistrationsAreAccountedFor | crates/core/src/approval.rs:61-106 | in every run registrations are those answered or superseded plus those still in the map |
| BackgroundRail.Store.ClaimDeliverable | crates/core/src/store.rs:2922-2965 | one transaction claims the oldest pending, unclaimed, non-learning row with an idle target |
| BackgroundRail.Store.MarkBackgroundDelivered | crates/core/src/store.rs:3027-3037 | exactly that row is delivered |
| BackgroundRail.Store.ReleaseBackgroundClaim | crates/core/src/store.rs:3041-3051 | exactly that row's claim goes, if it is undelivered |
| BackgroundRail.Store.RunRound | crates/core/src/background_rail.rs:47-80 | one round: claim, deliver by kind and origin, then mark or set aside |
| BackgroundRail.Store.DrainTick | crates/core/src/background_rail.rs:38-86 | the bounded loop and the release loop compute the tick function, whatever others do in between |
| RailProperties.TickAttemptsOnceAndReleases | crates/core/src/background_rail.rs:38-86 | under any interference at most eight attempts, none twice, each the oldest idle-target row when claimed, and no claim is left |
| RailProperties.TickConserves | crates/core/src/background_rail.rs:67-86 | a row whose session does not end is still there, delivered exactly if it was or this tick's attempt worked |
| RailArrivals.ArrivalsAreKept | crates/core/src/background_rail.rs:38-86 | whatever arrives while a tick runs gets the next ids in order and, unless its session ends, is there afterwards as it was enqueued, delivered exactly if the tick attempted it and the delivery worked |
| RailAlone.TickAlone | crates/core/src/background_rail.rs:38-86 | left alone a tick attempts what a walk by age picks that skips targets made busy and stops at eight, delivers what works and leaves every other row as it was |
| RailAlone.WalkIsUnique | crates/core/src/background_rail.rs:47-80 | the pool and the budget determine the walk |
| RailAlone.QuietTickTakesTheOldest | crates/core/src/background_rail.rs:38-80 | a quiet tick attempts the eight oldest eligible rows exactly when none of those makes a later one's target busy |
| RailAlone.SharedTargetIsSkipped | crates/core/src/background_rail.rs:47-80 | of two eligible rows on one idle target a tick attempts only the elder, though its budget is eight |
| RailFairness.TickServes | crates/core/src/background_rail.rs:38-86 | a tick with f failing rows delivers every watched row or at least 8 - f of them |
| RailFairness.OldestRowsAreServed | crates/core/src/background_rail.rs:30-86 | the watched oldest rows are all delivered within n ticks once n times (8 - f) reaches their number, however many younger rows arrive and whatever happens to the targets of those already delivered |
| AttachmentNames.ExtOfExactly | crates/core/src/attachments.rs:173-193 | the extension is the one non-empty alphanumeric string the lower-case name ends in after a dot |
| AttachmentNames.FirstListingDecides | crates/core/src/attachments.rs:193-201 | the first signature that lists the extension decides whether the bytes contradict it |
| AttachmentNames.UnlistedNeverContradicts | crates/core/src/attachments.rs:193-201 | an extension no signature lists never contradicts |
| AttachmentNames.ContradictsExactly | crates/core/src/attachments.rs:173-201 | bytes contradict an extension exactly if they do not begin with the bytes its format begins with; nothing is asked of other extensions |
| AttachmentNames.SanitizedExactly | crates/core/src/attachments.rs:206-224 | the result is the one string left of the cleaned text after the last separator when its leading dots go, or "file" when nothing is left; every result is safe, and the safe names are exactly those left alone |
| AttachmentNames.SafeNamesStayInside | crates/core/src/attachments.rs:206-224 | a safe name has no separator, is no directory, and holds only letters, digits, dots, dashes and underscores |
| AttachmentNames.SanitizeIsIdempotent | crates/core/src/attachments.rs:206-224 | sanitizing twice is sanitizing once |
| AttachmentNames.Dedupe | crates/core/src/attachments.rs:228-247 | the name if free, else the first free candidate, found within as many candidates as there are used names |
| AttachmentNames.CandidateExactly | crates/core/src/attachments.rs:228-247 | a candidate is the stem, a dash, the counter in decimal, and the extension with its dot; a name with no dot but its first is all stem |
| AttachmentNames.CandidateKeepsExtension | crates/core/src/attachments.rs:228-247 | deduplicating a safe name keeps its extension |
| AttachmentNames.DedupedIsSafe | crates/core/src/attachments.rs:228-247 | a candidate of a safe name is safe |
| Attachments.Verdict | crates/core/src/attachments.rs:335-419 | a ref has no objection exactly if every check passes, and its objection is the first failed check |
| Attachments.OneReason | crates/core/src/attachments.rs:335-419 | the reasons exclude each other and acceptance |
| Attachments.Examine | crates/core/src/attachments.rs:335-419 | the checks in the order of the code give that verdict |
| Attachments.MaterializeAttachments | crates/core/src/attachments.rs:324-446 | saved are exactly the chosen refs and skipped the others, each in order and with its reason; names are deduplicated in order; an error exactly if a chosen ref's write fails |
| Attachments.PositionsSplit | crates/core/src/attachments.rs:334-341 | chosen and other refs split the input, each list in order |
| Attachments.ChosenFillTheCap | crates/core/src/attachments.rs:334-341 | the chosen refs are the first acceptable ones up to the cap |
| Attachments.FilesAreSafeAndDistinct | crates/core/src/attachments.rs:432-443 | every saved file is a safe direct child and no two are the same |
| Attachments.BytesAreCapped | crates/core/src/attachments.rs:334-443 | at most max_count files and max_count times max_bytes bytes |
| SlashCatalog.Store.LoadSlashCatalog | apps/cockpit/src/store-native.ts:143-150 | a request moves its pairing's token and records the pairing |
| SlashCatalog.Store.SlashCatalogReplied | apps/cockpit/src/store-native.ts:151-153 | a reply is installed only if it succeeded and its token is current |
| SlashCatalog.Store.InvalidateAllSlashCatalogFetches | apps/cockpit/src/store-native.ts:88-92 | every known token moves by one |
| SlashCatalog.Store.MutationAcknowledged | apps/cockpit/src/store-native.ts:98-119 | every token moves and every pairing ever requested is requested again before anything else runs |
| SlashCatalog.KeyIsOwnExactly | apps/cockpit/src/store-native.ts:34-36 | over all ids, a pairing shares its key with no other exactly if both its ids are given, neither is a lone dash, and the separator occurs once |
| SlashCatalog.KeyIdentifies | apps/cockpit/src/store-native.ts:34-36 | among pairings with no lone dash and no colon in a project id, as issued ids are, keys agree exactly if the pairings do |
| SlashCatalogProtocol.NoStaleInstallInAnyRun | apps/cockpit/src/store-native.ts:143-154 | in every run an installed reply was requested after the last acknowledgement before it and shows every mutation acknowledged by then |
| SlashCatalogProtocol.LastReplyInstalls | apps/cockpit/src/store-native.ts:143-154 | in every run a successful reply installs what it brings exactly if its fetch is the last one sent for the pairing, and changes no other entry |
| SlashCatalogProtocol.EveryPairingIsRefreshed | apps/cockpit/src/store-native.ts:98-119 | in every run a pairing ever requested shows every acknowledged mutation, or a fetch sent since the last acknowledgement is out for it, or that fetch failed |
| LearningStore.Store.Begin | apps/cockpit/src/store-learning.ts:32-40 | an operation takes the next generation and clears both marks |
| LearningStore.Store.Install | apps/cockpit/src/store-learning.ts:42-49 | a snapshot is installed only for the current generation |
| LearningStore.Store.LoadReplied | apps/cockpit/src/store-learning.ts:71-92 | only the current load installs and clears its mark |
| LearningStore.Store.MutationReplied | apps/cockpit/src/store-learning.ts:51-62 | true exactly if the snapshot was installed |
| LearningStore.Store.RollbackReplied | apps/cockpit/src/store-learning.ts:199-220 | only the current rollback installs and clears its mark |
| LearningStore.Store.EvictAgent | apps/cockpit/src/store-learning.ts:139-153 | the agent's entries go and its generation moves on |
| LearningProtocol.FlagsTellTheHolder | apps/cockpit/src/store-learning.ts:32-92 | in every run `loading` is shown exactly while the current generation is an unfinished load, and a snapshot rolling back exactly while it is that unfinished rollback |
| LearningProtocol.OnlyTheLatestInstalls | apps/cockpit/src/store-learning.ts:42-62 | after every run, whatever comes next: a snapshot is replaced exactly by a successful reply to its agent's latest operation, begun after the last eviction; only an eviction removes it, and nothing else touches it |
| LearningProtocol.SnapshotAnswersTheLatest | apps/cockpit/src/store-learning.ts:42-62 | in every run an agent shows a snapshot exactly if some reply answered an operation with none begun and no eviction since that operation's begin, and no eviction came later; what it shows is what the last such reply brought |
| LearningProtocol.EvictedStaysGone | apps/cockpit/src/store-learning.ts:139-153 | after an eviction in any run the entry stays gone until a new operation begins, whatever replies come |
| Automation.ControlPlane.DispatchAutomationEvent | crates/core/src/control.rs:584-605 | an event with hooks to run begins a call that goes through them, beside any others under way |
| Automation.ControlPlane.DispatchInboundWebhook | crates/core/src/control.rs:487-540 | a webhook begins a call exactly if every check passes; it is refused as unavailable exactly if the project cannot be looked up, as rate limited exactly if only the limiter is left to object, and as invalid otherwise |
| Automation.ControlPlane.TestHook | crates/core/src/api/automation_api.rs:110-141 | only an outbound hook can be tested, which begins a call for it alone |
| Automation.ControlPlane.CreateRunReplied | crates/core/src/control.rs:606-620 | a row is created queued, or the call goes on to its next hook |
| Automation.ControlPlane.HandleHook | crates/core/src/control.rs:621-764 | a hook the limiter holds back or that is three deep is to be skipped and nothing else happens; any other is delivered, failed or has a session started without an origin yet, as its action decides |
| Automation.ControlPlane.HandleWebhook | crates/core/src/control.rs:541-569 | a webhook's session is started without an origin yet, or the call is given up and its row left alone |
| Automation.ControlPlane.InsertHookOriginReplied | crates/core/src/control/lifecycle.rs:515-534 | with its origin written the session is to be linked; otherwise the call takes the start for failed and the session goes on without one |
| Automation.ControlPlane.FinishRunReplied | crates/core/src/control.rs:879-900 | only an open row is finished; a dispatched one is then to be announced |
| Automation.ControlPlane.LinkRunSessionReplied | crates/core/src/automation.rs:1476-1495 | only a queued row is linked; "running" is to be announced if it was, and on the webhook path whenever the write succeeds |
| Automation.ControlPlane.FinishAutomationSession | crates/core/src/control.rs:860-900 | the end of a session with an origin finishes its open row, to be announced later; any other end changes nothing |
| AutomationRuns.DispatchedRowsSettle | crates/core/src/control.rs:606-764 | in every run a dispatched row its call has left is skipped, success or failed as decided, failed beside a running session whose origin could not be written, or running with its own session until the first end after the origin was written, and success or failed by that; it is queued exactly if the call's write failed and there was no such end |
| AutomationRuns.RunningExactly | crates/core/src/control.rs:860-900 | in every run a row its call has left is running exactly if its session's origin was written, the link did not fail, and no end since was written |
| AutomationRuns.WebhookRunStaysQueued | crates/core/src/control.rs:539-579 | in every run a webhook's row its call has left is queued exactly if no session was started for it, or one goes on without an origin, or the link failed and no end since the origin was written |
| AutomationRuns.TestRowsSettleSilently | crates/core/src/api/automation_api.rs:127-141 | in every run a test's row is success or failed as its delivery went, or queued if that write failed, and nothing is announced of it |
| AutomationRuns.RowsMoveOn | crates/core/src/automation.rs:1432-1495 | over every run and every continuation of it a row only moves on, keeps its hook, and never changes once closed |
| AutomationDecisions.LeftRowsWereDecided | crates/core/src/control.rs:606-764 | in every run each row its call has left was acted on once, and what limiter and action were then fixes its course: a dispatched hook's is skipped unless accepted, then ends by its delivery, or has a session started exactly if gateway, project, envelope and start allow it, and fails otherwise; a webhook's has a session or is left alone; a test's ends by its delivery |
| AutomationDecisions.LimitedHooksAreSkipped | crates/core/src/control.rs:621-636 | in every run a dispatched hook the limiter holds back starts no session, and its row ends skipped unless writing that fails |
| AutomationHooks.CallsGoThroughTheirHooks | crates/core/src/control.rs:606-764 | in every run a call asks for one row for each of its hooks, in order, each row made has its hook, and the call is over exactly when it has asked for all of them and is done with the last, whatever became of the others |
| AutomationRuns.AnnouncementsTellExactly | crates/core/src/control.rs:569-579 | in every run, once a row's call has left it and no end is still to be announced, its last announcement is its status exactly unless "running" was announced of it after its end was |
| AutomationRuns.EndsAfterTheCallTell | crates/core/src/control.rs:879-905 | in every run the last announcement of a row is its status if no end of its session is written before its call has left it |
| AutomationWitnesses.FailedStartLeavesRunQueued | crates/core/src/control.rs:554-572 | a run in which a failed start leaves a webhook's row queued, and one in which it leaves a dispatched hook's failed |
| AutomationWitnesses.DispatchLosesOrigin | crates/core/src/control/lifecycle.rs:515-534 | a run that ends with a failed row, its session running without an origin, and that session's next event setting off another hook |
| AutomationWitnesses.WebhookLosesOrigin | crates/core/src/control/lifecycle.rs:515-534 | the same for a webhook, whose row stays queued |
| AutomationWitnesses.EndBeforeOriginIsLost | crates/core/src/control.rs:860-877 | a run in which a session ends before its origin is written and its row stays running, no write having failed |
| AutomationWitnesses.EarlyEventSetsOffHook | crates/core/src/control.rs:798-813 | a run in which an external event's hook starts a session whose event, looked at before its origin is written, sets off a second hook, no write having failed; the session this one starts has to wait for the worker, and gets its origin before |
| AutomationWitnesses.CascadeIsUnbounded | crates/core/src/control.rs:798-813 | for every n a run of one session-start hook that starts n sessions, each set off by the one before, though root events met one hook in all; every origin write has failed |
| AutomationWitnesses.DispatchAnnouncesTooLate | crates/core/src/control.rs:725-744 | a run of one dispatched hook whose session ends after the link: "success", then "running" is announced |
| AutomationWitnesses.WebhookAnnouncesTooLate | crates/core/src/control.rs:554-573 | a run of one webhook whose session ends before the link: the same |
| AutomationWitnesses.DispatchEndBeforeLinkTells | crates/core/src/control.rs:725-744 | a run of one dispatched hook whose session ends between its origin and the link: only "success" is announced |
| AutomationWorker.SetsOffExactly | crates/core/src/automation.rs:385-404 | in every state of the invariant an event of a session a hook started sets off hooks exactly if the worker is free, the event meets some, and the origin could not be written, or its writing is pending and the hook was not met by an event of a session |
| AutomationWorker.WorkerSessionsAreMute | crates/core/src/automation.rs:385-404 | in every run an event of a session started by a call of the worker's changes nothing unless that session's origin could not be written; if so it sets off what it meets whenever the worker is free |
| AutomationWorker.TwoGenerations | crates/core/src/automation.rs:385-404 | in every run in which no origin write failed, a call set off by a hook-started session means that the hook's own call was not set off by a session |
| AutomationCascades.HooksDoNotSetOffHooks | crates/core/src/control.rs:798-813 | in every run a session with an origin is one step from a root event and has its own row's hook and run; a row has one session at most, no call starts more than the hooks it was given, and all sessions are no more than the hooks met by root events, by events of sessions that external events' and webhooks' calls started and whose origin was still pending, and by events of sessions whose origin could not be written; no other event of a hook-started session changes anything |
| AutomationCascades.NoFailureBound | crates/core/src/control.rs:798-813 | in every run in which no origin write failed, hooks start no more sessions than the hooks met by root events and by events of sessions that external events' and webhooks' calls started and whose origin was still pending |
| RateLimiter.Dispatcher.RateVerdict | crates/core/src/automation.rs:428-453 | the verdict and what the deque keeps |
| RateLimiter.DecidesByWhatIsHeld | crates/core/src/automation.rs:428-453 | in every run the verdict names the limit, if any, used up by the accepted runs that every attempt since came within a minute of; an attempt three hooks deep is refused and leaves no trace |
| RateLimiter.DecidesByTheWindow | crates/core/src/automation.rs:428-453 | in every run an attempt no earlier than those before it is judged by the last minute of the whole history, however late those were |
| RateLimiter.NoWindowIsOverrun | crates/core/src/automation.rs:428-453 | in every run whose accepted attempts are at most L late, no window of a minute less L holds more than 1000 accepted runs, nor more than 60 of one hook and limited trigger |
| RateLimiter.WindowsHoldExactly | crates/core/src/automation.rs:432-433 | windows of n milliseconds are within both limits in all such runs if and only if n + L is at most a minute |
| RateLimiter.LongerIsOverrun | crates/core/src/automation.rs:432-433 | a run with one attempt that is L late and 1001 accepted runs within any window longer than that |

## Left out

Assumptions on the environment, each a guard of an event in the protocol modules:

- This client is the only writer of what its stores mirror; a failed mutation leaves the engine unchanged.
- Events arrive in order and none is lost, from a subscription that precedes the first snapshot.
- New transcript rows get larger positive numbers, and a tool call belongs to one row.
- An approval request is parked once, and runner and run ids hold no colon: run and project ids are UUIDs, and none is a lone dash. `ApprovalMerge.KeyIsOwnExactly` and `SlashCatalog.KeyIsOwnExactly` say what this is needed for.
- A child run's transcript messages carry the whole row, as the engine sends them.
- Nothing else happens between a rail row's claim and its delivery making the target busy.

Not modelled:

- The agent store's `detail`, `models`, recent sessions, stats and `importAgent`: no agreement is promised for them.
- `stop` and `retry` of child runs, which may put an old run back over a newer roster; `select`.
- `setModelEffortPreference` and other engine-side writers of a project's runtime; the `projects` list itself against the engine.
- Toasts, notifications, read state, focus, storage, views and the transport; JSON shapes and message strings; `createdAt` of live rows.
- The SQL text and database errors when a rail row is marked or released; equally old rail rows are taken in insertion order. The learning worker's own claims.
- Unicode lower-casing: an attachment carries its lower-case name. The URL parser, the network and the disk: an attachment carries their answers. Files left behind when a later write fails; the manifest text and the parsing of the allowlists.
- The list of global commands and its own fetch token; conflicts of a global-command update.
- A receiver dropped by its waiter before it is answered, and mutex poisoning.
- Webhook envelopes, prompts and git options; retries of an outbound delivery; the restart sweep over unfinished runs. A hook list or an envelope that cannot be read begins no call, an end whose origin cannot be looked up counts as one that could not be written, and a session row that a start leaves behind when it fails before anything runs counts as any other session. A lifecycle observation dropped because the queue is full does not happen, and a call is not abandoned by a panicking observer.
- Ids are numbers where only their equality matters.
- AgentProtocol.RegistryAgreesInEveryRun: agrees on the registry as a map by agent id (default, subagent model, rows), not on the order of the rows, because an upsert appends.
- TranscriptProtocol.TranscriptExactInEveryRun: speaks of numbers and tool calls, not of contents; those are settled once every event is delivered (TranscriptRuns.QuiescentTranscriptIsTheLog).
- AutomationRuns.RowsMoveOn: speaks of rows that are not deleted; removing a plugin, or syncing away one of its hooks, deletes run rows (crates/core/src/automation.rs:1535-1579), and the model has no such step.
- ApprovalProtocol.RefreshReconcilesInEveryRun: distinct keys hold when a refresh ends; a later arrival of a listed card shows it twice until the next one, because arrivals are appended unchecked.
- RailFairness.OldestRowsAreServed: each watched row has an idle target of its own and every other row outside the failing ones is younger, as the rail itself orders by age alone.
