# Verified models of the observability lab's control logic

The lab runs an AI agent against a deliberately faulty subject system. Much of its control logic is
a set of small protocols over shared state: alerts become incidents, incidents get investigation
runs and re-escalations, the agent may mutate the cluster only through an approval gate, events of
a run are fanned out to browsers. This project models that logic in Dafny and proves what each part
is for. `dafny verify dfyconfig.toml` checks everything.

## What is modelled

- **Incident protocol** (`Ingress`, `IncidentTables`, `IncidentStore`, `IncidentProtocol`; the
  invariant in `IncidentInvariants`, `IncidentKeys`, `IncidentRuns`, `IncidentTiming`,
  `IncidentAlerts`, `IncidentDeadlines`; the theorems in `IncidentSafety`; what goes wrong and exactly
  when in `IncidentGaps`, `IncidentClosing` and `IncidentEndpoint`, by whole runs built in
  `IncidentScenarios`). Webhook handlers, on-call runs with their close-out, and the
  re-escalation watcher are program counters over the incident, alert, link and run tables. Each SQL
  statement is one step, written once as a function on the tables and once as a method of a class
  that holds them. Any interleaving is allowed, handlers may be abandoned and statements may raise
  between any two steps. A run carries the alert it investigates, which is the webhook's event or one
  rebuilt from a stored row, and asks Alertmanager about that alert's stripped name;
  Alertmanager holds a set of names that may change at any time. The theorems speak about
  every state of every run.
- **The code paths themselves** (`IncidentTraces`, `IncidentWebhook`, `IncidentOncall`,
  `IncidentWatcher`): the request, the on-call run from its first status to its last, and a round of
  the watcher, as sequential methods with the tables changed arbitrarily before each statement and
  each statement able to raise. Each method takes only steps of the protocol, and
  `IncidentInterleaving` and `IncidentShuffles` show that any such traces, shuffled over one
  database, are a run of the protocol, so that its theorems hold of the methods.
- **Remediation gate** (`RemediationGate`, `RemediationTools`, `RemediationHistory`,
  `RemediationPasses`, `Text`). The per-run stash of dry-runs, the marker with its nonce, approval rows,
  the execute gate and the seven tools as one dry-run/execute step, in place and as a history of events
  with fresh nonces; and which executes get through, told from the events alone.
- **Event hub and wire** (`EventHub`, `SseWire`, `Json`, `JsonUnique`). Publishing, subscriptions
  suspended at their yields, the frame printer and the browser's incremental parser.
- **Approvals** (`ApprovalRendezvous`). The approval row, the waiter parked in the hub, and the
  endpoint that decides both.
- **Result budget** (`Budget`) and **runbook metadata** (`Frontmatter`, `RunbookText`,
  `RunbookLayouts`).
- **Embedder and its cache** (`Embedding`, `EmbedCache`).
- **Chaos timeline** (`ChaosTimeline`), **load scheduler** (`LoadRunner`), **metrics registry**
  (`Labels`, `Metrics`), **run transcript** (`RunFeed`), with one stable sort (`Sorting`) and a
  few facts about sequences (`Sequences`).

## Where the code does less than it says

Each point names the lemma that gives its exact condition, and the one that gives an input.

- `hub.publish` promises that every event reaches every subscriber exactly once
  (`hub.py:42-45`). A terminal event published while a subscription is still replaying makes it
  return with everything in its queue undelivered: `EarlyReturnIff` says exactly when, and
  `EarlyReturnHappens` gives the run.
- The verify window between two escalations of one incident is not kept when the deadline write
  after the count raises: `EscalationsBounded` names the exception, `FailedWriteEscalatesAtOnce`
  shows it can be used at once, and `EscalatedTwiceAtOnce` gives a whole run from an empty database
  for every firing event.
- An incident can be closed while Alertmanager holds its alert active: `ClosedWhileFiringIff` says for
  which events. Either the alert loses its common labels and title when an escalation rebuilds it, so
  that the re-investigation asks about another name (`NamelessEntryIsClosed` gives the webhook body), or
  its name has outer blanks, which the question strips and the webhook does not (`BlankEndedIsClosed`).
  `AsksOwnNameIff` says of every run whether it asks about its own name.
- A gitops incident is asked about under the name of its notification, which is no alert: the first
  close-out whose question does not fail closes it exactly when no alert of that name is held
  (`GitopsCloses`), whatever became of the cluster, and `FailedSyncIsClosed` gives the notification.
- Dedupe keys collide through a slash: `KeysCollideIff` says for which alert names, and
  `AlertKeyCollides` gives two. Any status other than `firing` counts as a resolution
  (`ingress.py:200-202`), which is why `ResolutionsHaveCause` speaks of an event that is no longer
  firing.
- A run that fails before its session starts gets no close-out (`agents/oncall.py:242-280`), and
  `AbortLeavesIncidentStuck` gives the run, for every firing event, that leaves an open incident with
  nothing to bring anyone back to it. `UnarmedIff` says exactly which open incidents have no
  deadline, and `StuckForever` that no poll will ever list one whose runs are all over.
- An operator's decision that arrives after the approval's row and before its waiter is written to
  the row and never told to the waiter: `AgreeIff`, and `EarlyDecisionIsMissed` for the steps. The
  endpoint then also marks the run as ended while it still works (`app.py:608-613`): `EarlyDecisionIff`
  says exactly when that lets a second run join it, `EarlyDecisionDoubles` gives the run, and
  `LateDecisionsAreHarmless` says what is safe.
- An approval is used up by a success only: `PassesAgainIff`. So the first patch of a promotion can be
  applied twice under one approval, and no other patch can (`OnlyPromotesRepeat`); `FirstPatchTwice`
  gives the history.
- Clearing one chaos phase wipes the overrides of all phases active on the target: `InForceIff` says
  exactly what is in force, and `OverlapLosesFault` gives the schedule.
- The parser of runbook metadata skips a byte-order mark and the stripper does not: `StripsIff`,
  `MarkDefeatsStripping`.
- Entries of one kind keep their array order in the transcript only when that array is
  chronological, not because the sort is stable (`run-feed.ts:38-42`): `KindOrderKept`, and
  `FeedReverses` for two messages.

## Model

| member | source | states |
|---|---|---|
| `IncidentSafety.InvHolds` | apps/agent-service/src/agent_service/app.py:213-276 | every state of every interleaving of handlers, runs, watcher and clock satisfies the protocol invariant (keys, links, runs, watcher list, counts, times, close-outs) |
| `IncidentSafety.OneAlertOneIncident` | apps/agent-service/src/agent_service/app.py:225-257 | at every moment one open incident per dedupe key, at most one investigation run per incident, and every attached alert row lies under an incident of its own key, lookup-then-insert race included |
| `IncidentSafety.OneRunInFlight` | apps/agent-service/src/agent_service/escalation.py:42-70 | a linked run that is queued, running or awaiting approval is the newest link of its incident, so no two linked runs of one incident are ever in flight although the watcher asks only for the newest link's status |
| `IncidentTiming.NewestLinkEnded` | apps/agent-service/src/agent_service/db.py:587-600 | the newest link's status tells about all of them: none in flight there means every linked run has ended, and no status means no link |
| `IncidentSafety.EscalationsBounded` | apps/agent-service/src/agent_service/escalation.py:33-70 | at most 3 escalations and 4 linked runs per incident, and two escalations of it are polled more than the verify window apart unless the earlier one's deadline write raised |
| `IncidentGaps.FailedWriteEscalatesAtOnce` | apps/agent-service/src/agent_service/escalation.py:144-148 | the exception is real: wherever the deadline write after the count raises and the incident is still due, the watcher alone can escalate it again at the same clock reading, whatever else the poll had listed |
| `IncidentGaps.EscalatedTwiceAtOnce` | apps/agent-service/src/agent_service/escalation.py:144-148 | and it is reached: for every firing event, whatever Alertmanager holds, there is a run from an empty database in which nothing else arrives and the incident of the event's key is escalated twice at one clock reading |
| `IncidentSafety.EscalationMeasure` | apps/agent-service/src/agent_service/escalation.py:129-156 | 3 minus escalations never goes below 0, no step raises it, and exactly the steps that log an escalation of the incident lower it |
| `IncidentSafety.EscalatesOnlyWhatFires` | apps/agent-service/src/agent_service/escalation.py:62-70 | every escalation was decided on a reading of the feed, earlier in the run, in which a firing observation of the incident was newer than all its resolved ones |
| `IncidentSafety.CloseOutSticks` | apps/agent-service/src/agent_service/agents/oncall.py:194-236 | after a settled close-out its incident is resolved or has a verify deadline, then and at every later moment; resolved never reopens and a deadline is never dropped |
| `IncidentSafety.ResolutionsHaveCause` | apps/agent-service/src/agent_service/escalation.py:73-85 | every resolved incident had, earlier in the run, an event of its key that was no longer firing, or a run of its own that asked Alertmanager, without an error, about the stripped and non-blank name of the alert it investigates while no alert of that name was held; that alert is one attached to the incident or rebuilt from its rows |
| `IncidentSafety.ClosingRunAsked` | apps/agent-service/src/agent_service/agents/oncall.py:205-222 | a close-out that is about to resolve its incident got, earlier in the run, such an answer itself, about the very alert it was started for |
| `IncidentSafety.AsksOwnNameIff` | apps/agent-service/src/agent_service/tools/backends.py:317-329 | every run investigates an alert of one of its incident's rows, either with the row's own name or rebuilt from its payload; it asks about exactly that row's name if and only if the name survived and has no outer blanks, and a rebuilt name survives if and only if the payload keeps it: a gitops body, an entry with its own alert name, or the fallback name |
| `IncidentClosing.ClosedWhileFiringIff` | apps/agent-service/src/agent_service/tools/backends.py:317-334 | for a firing event: there is a run in which Alertmanager holds its alert active from its first row on, nothing but that event arrives, and yet an incident ends up resolved, if and only if the stored payload does not keep the name, or the name has outer blanks around something |
| `IncidentClosing.NamelessEntryIsClosed` | apps/agent-service/src/agent_service/escalation.py:97 | an input for the first: a Grafana body that names its alert in the common labels only |
| `IncidentClosing.BlankEndedIsClosed` | apps/agent-service/src/agent_service/tools/backends.py:317 | an input for the second: an entry whose own alert name ends in a blank; its payload keeps the name |
| `IncidentClosing.ResolvedUnderIff` | apps/agent-service/src/agent_service/agents/oncall.py:205-222 | with Alertmanager holding any fixed set of names and only that event arriving, an incident can end up resolved if and only if the event's own name or the one its payload rebuilds to is, stripped, non-blank and not in the set |
| `IncidentClosing.AnswerDecides` | apps/agent-service/src/agent_service/agents/oncall.py:205-222 | an answer without an error has the run resolve or verify its incident exactly when no alert of the stripped name is held, and which of the two, like which kind of deadline, goes by whether a remediation was on record |
| `IncidentClosing.GitopsCloses` | apps/agent-service/src/agent_service/ingress.py:131-147 | every run of a gitops incident asks about the notification's name, so the first question that does not fail closes the incident exactly when no alert of that name is held |
| `IncidentClosing.FailedSyncIsClosed` | apps/agent-service/src/agent_service/ingress.py:131-147 | the input: a failed sync, with Alertmanager holding nothing, has a run that resolves its incident |
| `IncidentDeadlines.UnarmedIff` | apps/agent-service/src/agent_service/agents/oncall.py:223-230 | at every moment an open incident has no deadline exactly when none of its runs settled a close-out or re-armed after a remediation |
| `IncidentDeadlines.StuckForever` | apps/agent-service/src/agent_service/db.py:680-687 | an open incident without a deadline whose runs are all over stays so under every step but a resolved notification for it, and no poll ever lists it |
| `IncidentEndpoint.LateDecisionsAreHarmless` | apps/agent-service/src/agent_service/app.py:606-613 | with the endpoint's own status write as one more step: as long as it falls on runs that are over, no two runs are ever at work on one incident |
| `IncidentEndpoint.EarlyDecisionIff` | apps/agent-service/src/agent_service/app.py:606-613 | falling on a run at work, between two rounds of the watcher, it lets the watcher alone bring a second run to the incident if and only if the incident is open under a deadline, has an escalation left, and its newest firing observation is newer than its resolved ones |
| `IncidentEndpoint.EarlyDecisionDoubles` | apps/agent-service/src/agent_service/app.py:606-613 | the run: for every firing event there is a run from an empty database that comes to such a moment |
| `IncidentGaps.AbortLeavesIncidentStuck` | apps/agent-service/src/agent_service/agents/oncall.py:242-280 | for every firing event there is a run from an empty database in which the spawned run fails before its session and leaves its incident like that |
| `IncidentSafety.RowsKept` | apps/agent-service/src/agent_service/db.py:625-687 | between any two moments an incident row keeps its key, stays resolved once resolved, keeps a deadline once armed and never loses escalations |
| `IncidentInvariants.StepKeepsRows` | apps/agent-service/src/agent_service/db.py:644-661 | the same for one step of any actor |
| `IncidentTables.LastSeenIsNewest` | apps/agent-service/src/agent_service/db.py:612-622 | the filtered maximum is the time of an observation of that incident and status, none is newer, and it is absent exactly when there is none |
| `IncidentStore.Database.FindOpenIncidentByKey` | apps/agent-service/src/agent_service/db.py:520-528 | answers an open incident of the key if and only if there is one |
| `IncidentStore.Database.CreateIncident` | apps/agent-service/src/agent_service/db.py:496-517 | inserts the open row and says so exactly when no open incident holds the key; otherwise the tables stay as they were |
| `IncidentStore.Database.AttachAlert` | apps/agent-service/src/agent_service/db.py:531-549 | appends the alert row and changes nothing else |
| `IncidentStore.Database.CreateRun` | apps/agent-service/src/agent_service/db.py:208-215 | adds a queued run once |
| `IncidentStore.Database.LinkRun` | apps/agent-service/src/agent_service/db.py:552-558 | appends the link unless the pair is already linked |
| `IncidentStore.Database.CloseIncident` | apps/agent-service/src/agent_service/db.py:746-755 | resolves that row and leaves `verified` alone |
| `IncidentStore.Database.MarkVerified` | apps/agent-service/src/agent_service/db.py:644-652 | resolves and verifies that row |
| `IncidentStore.Database.SetVerifyDeadline` | apps/agent-service/src/agent_service/db.py:625-628 | overwrites that row's deadline |
| `IncidentStore.Database.EnsureVerifyDeadline` | apps/agent-service/src/agent_service/db.py:631-641 | arms a missing deadline and never moves one |
| `IncidentStore.Database.BumpEscalations` | apps/agent-service/src/agent_service/db.py:655-661 | raises that row's count by one and returns the new count, 0 without such a row |
| `IncidentStore.Database.AlertState` | apps/agent-service/src/agent_service/db.py:612-622 | returns the newest firing and the newest resolved observation |
| `IncidentInterleaving.Transfer` | apps/agent-service/src/agent_service/app.py:223-275 | two systems that agree on the tables, the clock, Alertmanager's alerts and an actor's own progress enable the same step of it, agree again after it, and start the same run |
| `IncidentInterleaving.MeshedIsRun` | apps/agent-service/src/agent_service/app.py:223-275 | traces of any actors, interleaved over one database with each step finding the tables as the one before left them, are a run of the protocol |
| `IncidentShuffles.MeshedIffShuffle` | apps/agent-service/src/agent_service/app.py:223-275 | moments of several actors mesh exactly when they are a shuffle: each actor's own moments are a local trace, as the methods below are proved to leave one, an actor's first moment finds it unstarted or as its starter left it, and the tables and the clock are handed from one moment to the next |
| `IncidentInterleaving.MeshedIsSafe` | apps/agent-service/src/agent_service/app.py:223-275 | so over any such interleaving the same three bounds hold of the tables after every step |
| `IncidentShuffles.ShuffleIsSafe` | apps/agent-service/src/agent_service/app.py:223-275 | so over any shuffle of such traces one open incident per key, one run in flight per incident, and at most 3 escalations and 4 linked runs |
| `IncidentWebhook.ServeWebhook` | apps/agent-service/src/agent_service/app.py:212-276 | one answer per normalised event, in order, up to a statement that raises, which ends the request; events outside the incident namespaces are passed over, and every other event is served by protocol steps only and, when nothing raises, answered as its status and the tables call for |
| `IncidentWebhook.ServeEvent` | apps/agent-service/src/agent_service/app.py:223-275 | the statements performed for one event are a local trace of its handler, whatever the others did before each and whichever raises; and when none raises the tables tell the answer: no longer firing with the key open at the lookup, the alert row is written under an incident open with that key and exactly that incident becomes resolved, with the key free nothing changes; firing with the key open, the row is appended to such an incident; with the key free at the insert, the incident, row, queued run and link are written; after a lost insert the row goes to the incident that won, or nowhere when it is closed again |
| `IncidentWebhook.SpawnIncident` | apps/agent-service/src/agent_service/app.py:235-263 | with the key free at the insert the new incident, its alert, its queued run and its link are on record, in this order; otherwise the alert goes to an open incident of the key found again, or the event is ignored when there is none |
| `IncidentWebhook.Investigate` | apps/agent-service/src/agent_service/app.py:258-263 | alert row, run and link in that order, each a protocol step; only the link starts the run, and a raising statement leaves what the earlier ones wrote |
| `IncidentWebhook.LostRace` | apps/agent-service/src/agent_service/app.py:240-257 | after a lost insert the alert is appended to the open incident of the key found again, or nothing changes when that one has closed meanwhile |
| `IncidentWebhook.CloseByNotice` | apps/agent-service/src/agent_service/app.py:267-273 | a resolved notification appends its row and then resolves exactly the incident it found, if that is still there |
| `IncidentWebhook.Attach` | apps/agent-service/src/agent_service/app.py:228-232 | attaching is one protocol step, after which the handler stands where its branch goes on |
| `IncidentOncall.RunOncall` | apps/agent-service/src/agent_service/agents/oncall.py:239-296 | the whole run takes only protocol steps from begin to its last status; it completes exactly when nothing raised before the session and the session did not crash; once in its session it is closed out, its gate steps are those of its turns up to the crash, and its dry-runs are gone whatever happened |
| `IncidentOncall.RunSession` | apps/agent-service/src/agent_service/agents/oncall.py:280-282 | the session's turns act on the gate in order up to the first that crashes, and the run is marked exactly when one of them moved the deadline after a recorded remediation |
| `IncidentOncall.UseTool` | apps/agent-service/src/agent_service/tools/remediate.py:185-226 | one gate step per tool call; the deadline is moved exactly after an execute of an allowed call whose approval, stash entry and patches were in order, when the run has an incident and no statement of the recording raised |
| `IncidentOncall.RecordRemediation` | apps/agent-service/src/agent_service/tools/remediate.py:185-214 | incident, clock, timeline row and deadline in that order, each a protocol step; the deadline is the window after the clock read before the row was written, and an exception leaves the run in its session |
| `IncidentOncall.AskOperator` | apps/agent-service/src/agent_service/context.py:124-148 | a request that names no dry-run or one the run has stashed is saved, sets the run to awaiting and then gets exactly the operator's answer, an approval setting the run to running again; any other is refused and changes neither rows nor status |
| `IncidentOncall.CloseOutRun` | apps/agent-service/src/agent_service/agents/oncall.py:194-236 | the close-out takes only steps of its run, ends unsettled exactly when a statement raised, and otherwise leaves the incident resolved or under a deadline, whatever others did in between |
| `IncidentOncall.DecideAndWrite` | apps/agent-service/src/agent_service/agents/oncall.py:204-230 | timeline, query and decision are steps of the run; the query asks about the stripped name of the alert the run investigates, a blank one is an error, the answer is whether an alert of that name is held, and an error counts as an active alert |
| `IncidentOncall.WriteDecision` | apps/agent-service/src/agent_service/agents/oncall.py:207-230 | each of the four decisions performs the protocol's write for it |
| `IncidentWatcher.WatchOnce` | apps/agent-service/src/agent_service/escalation.py:163-178 | a round of the watcher, from the clock to the end of the poll, is a local trace of watcher steps that comes back to idle; and of every listed incident whose statements do not raise, the verdict is an escalation, or nothing to rebuild, exactly when the row is open with fewer than 3 escalations and a deadline past, a firing observation is newer than all resolved ones and the newest linked run is not in flight |
| `IncidentWatcher.CheckAll` | apps/agent-service/src/agent_service/escalation.py:166-176 | the poll's loop looks at every due incident once, an exception over one does not keep it from the rest, and each verdict is right in the same sense |
| `IncidentWatcher.CheckIncident` | apps/agent-service/src/agent_service/escalation.py:166-176 | one due incident is handled by watcher steps only and what it reports is what its last step was; told from the tables, it escalates exactly what needs it, and otherwise leaves them as the last statement found them |
| `IncidentWatcher.Escalate` | apps/agent-service/src/agent_service/escalation.py:129-156 | without a firing row to rebuild the alert from the tables stay as they were; otherwise the count goes up by one, the deadline moves to one window after it, and a queued run is created and linked last, each on the row of this incident only |
| `IncidentWatcher.CountAndRearm` | apps/agent-service/src/agent_service/escalation.py:144-148 | the count is raised before the deadline moves: whichever later statement raises, the escalation stays counted and logged, and when it is the deadline write the tables are left as that statement found them; when the count itself raises nothing is counted |
| `IncidentWatcher.LinkNewRun` | apps/agent-service/src/agent_service/escalation.py:150-155 | the run is on record as queued before it is linked, and the link, written last, starts it with the rebuilt alert |
| `IncidentStore.Database.LatestFiringAlert` | apps/agent-service/src/agent_service/db.py:664-677 | answers a firing row of the incident that none is newer than, exactly when there is one |
| `IncidentStore.Database.IncidentForRun` | apps/agent-service/src/agent_service/db.py:561-572 | answers the incident of the run's newest link, exactly when it has one |
| `Ingress.Normalize` | apps/agent-service/src/agent_service/ingress.py:104-159 | the loop yields one event per Grafana entry in order, or the one gitops event, or none for an unknown shape |
| `Ingress.GrafanaEntry` | apps/agent-service/src/agent_service/ingress.py:104-128 | field by field and in the order of preference: the status of the entry, of the notification, or firing; the alert name of the merged labels, the title, or a fixed name; the namespace; the workload from the labels workload, service, deployment and job, an entry's own label before a common one and a filled one before an empty one |
| `Ingress.GitopsEntry` | apps/agent-service/src/agent_service/ingress.py:131-147 | a gitops notification is one event under its own name, an end for the three good outcomes and a start for every other |
| `Ingress.KeysCollideIff` | apps/agent-service/src/agent_service/ingress.py:162-165 | alerts of two different names can share a dedupe key exactly when one name with a slash after it begins the other |
| `Ingress.KeyFixesWorkload` | apps/agent-service/src/agent_service/ingress.py:162-165 | alerts of one name share a key only with the same workload |
| `Ingress.AlertKeyCollides` | apps/agent-service/src/agent_service/ingress.py:162-165 | two different alerts with one key |
| `Ingress.RebuildKeepsAlertname` | apps/agent-service/src/agent_service/escalation.py:88-99 | a stored payload rebuilds to exactly one event; a gitops row to itself, a Grafana row keeps its alert name exactly when the entry itself carries one or the name was the fallback |
| `RemediationHistory.ExecutesAreApproved` | apps/agent-service/src/agent_service/tools/remediate.py:288-321 | in every history each execute that gets to its patches follows, in this order, the latest dry-run of the same run and call, an approval request saved after it whose summary carries that dry-run's marker, and the operator's approval of it |
| `RemediationPasses.PassedIff` | apps/agent-service/src/agent_service/tools/remediate.py:288-321 | the gate told from the events, over every history: an execute of an allowed call gets to its patches if and only if the call is in line, and the request it quotes was saved by its run after the latest dry-run of the call, with a summary that shows that dry-run's id and nonce, and the first decision on it was an approval |
| `RemediationPasses.ApprovedExecutePasses` | apps/agent-service/src/agent_service/tools/remediate.py:288-321 | so an approved call is let through: in line since some dry-run, not executed with success nor cleared since, fewer than 16 other calls of the run dry-run since, requested by its id after its latest dry-run and approved first |
| `RemediationPasses.InLineSince` | apps/agent-service/src/agent_service/tools/remediate.py:139-171 | a call stays in line while it is neither executed with success nor cleared and fewer than 16 others have been dry-run, however often it is dry-run again |
| `RemediationPasses.StashIsLine` | apps/agent-service/src/agent_service/tools/remediate.py:127-182 | the line is told from the events alone: a dry-run joins at the end or keeps its place, the front leaves when there are more than 16, a success leaves, a clear empties; the ids in a run's stash are that line |
| `RemediationHistory.ExecutesConsumeDistinctDryRuns` | apps/agent-service/src/agent_service/tools/remediate.py:217-226 | different successful executes consume different dry-runs: at most once per dry-run |
| `RemediationHistory.ConsumedOnce` | apps/agent-service/src/agent_service/tools/remediate.py:217-226 | of two executes that get to their patches under one dry-run, the earlier failed at a patch |
| `RemediationHistory.OnlyPromotesRepeat` | apps/agent-service/src/agent_service/tools/remediate.py:457-492 | patch by patch: what an execute applied under a dry-run that a later one relies on again is the first patch of a promotion whose second failed |
| `RemediationHistory.PassesAgainIff` | apps/agent-service/src/agent_service/tools/remediate.py:217-226 | right after an execute that got to its patches the gate lets the same one through again exactly when one of its patches failed |
| `RemediationHistory.FirstPatchTwice` | apps/agent-service/src/agent_service/tools/remediate.py:457-492 | the input: for any naming of calls a history of five events in which one approval has the first patch of a promotion applied twice |
| `RemediationHistory.RerunInvalidatesApprovals` | apps/agent-service/src/agent_service/tools/remediate.py:143-162 | re-running an identical dry-run makes every approval already on record useless for that call, for the rest of the history: no execute that quotes it gets to its patches |
| `RemediationHistory.StashBounded` | apps/agent-service/src/agent_service/tools/remediate.py:139-171 | each run's stash holds at most 16 entries with distinct ids in first-insertion order, and the dry-run just made is among them |
| `RemediationHistory.RunsAreIsolated` | apps/agent-service/src/agent_service/tools/remediate.py:174-182 | a step of one run leaves every other run's stash alone |
| `RemediationHistory.InvHolds` | apps/agent-service/src/agent_service/tools/remediate.py:127-182 | the invariant behind them: every stashed entry is the latest unconsumed dry-run of its call, and every saved summary quotes only nonces minted before it was saved |
| `RemediationGate.ValidationIsTheAllowList` | apps/agent-service/src/agent_service/tools/remediate.py:90-113 | a call passes exactly when it is one of the six actions on one of the five workloads with its parameter in bounds; the name pattern refuses none of them |
| `RemediationGate.RefusedFor` | apps/agent-service/src/agent_service/tools/remediate.py:90-113 | which calls are refused and for what: an ill-formed name first, then one that is not on the list, then a count of replicas or an amount of memory that is no integer in bounds, and a vault without a credential |
| `RemediationGate.CallIsNamed` | apps/agent-service/src/agent_service/tools/remediate.py:404-500 | the action and the target an operator is shown for each of the seven tools |
| `RemediationGate.FingerprintExists` | apps/agent-service/src/agent_service/tools/remediate.py:116-124 | the assumption on digests can be met: a naming of calls exists that is injective on the admissible ones |
| `RemediationGate.MarkerInjective` | apps/agent-service/src/agent_service/tools/remediate.py:229-238 | one marker contains another exactly when id and nonce agree |
| `RemediationGate.SummaryMarkers` | apps/agent-service/src/agent_service/tools/remediate.py:241-255 | the markers in an approval summary are those the model quoted, those in the attached diff, and the one of the attached dry-run: the server adds no other |
| `RemediationGate.JustStashed` | apps/agent-service/src/agent_service/tools/remediate.py:157-161 | the entry just stashed survives the eviction it causes |
| `RemediationGate.StashKept` | apps/agent-service/src/agent_service/tools/remediate.py:157-182 | stashing and popping keep distinct ids and the cap and hold no entry but old ones and the new one |
| `RemediationGate.PutShape` | apps/agent-service/src/agent_service/tools/remediate.py:158 | assignment replaces one slot in place or appends one at the end |
| `RemediationGate.RemoveShape` | apps/agent-service/src/agent_service/tools/remediate.py:182 | popping removes exactly the slot of the id, if there is one |
| `RemediationTools.ToolServer.StashDryrun` | apps/agent-service/src/agent_service/tools/remediate.py:143-162 | the eviction loop leaves the newest 16 slots of the run and no other run changes |
| `RemediationTools.ToolServer.PopDryrun` | apps/agent-service/src/agent_service/tools/remediate.py:178-182 | returns the entry of the id and removes it |
| `RemediationTools.ToolServer.RequestApproval` | apps/agent-service/src/agent_service/tools/sdk.py:528-550 | with the id stashed in the run it saves an undecided row of that run whose summary is the prompt followed by the card of the stashed entry, its marker included; with another id it refuses and saves nothing |
| `RemediationTools.ToolServer.DecideApproval` | apps/agent-service/src/agent_service/db.py:336-344 | an undecided row gets exactly this decision; a decided or missing one and all others stay as they were |
| `RemediationTools.ToolServer.ExecuteGate` | apps/agent-service/src/agent_service/tools/remediate.py:288-321 | over the rows and the stash: an execute passes exactly when it quotes an approved row of its own run and the first slot of the run with its id holds an entry whose marker the row's summary contains; it is refused for want of a dry-run exactly when the row is approved and no slot has the id, and for want of an approval otherwise |
| `RemediationTools.ToolServer.DryRunTool` | apps/agent-service/src/agent_service/tools/remediate.py:416-419 | the dry-run of an allowed call stashes exactly the entry it reports, under the call's name and with the nonce it was given, and it survives its own eviction |
| `RemediationTools.ToolServer.ExecuteTool` | apps/agent-service/src/agent_service/tools/remediate.py:420-492 | what an execution of an allowed call answers in each case, over rows, stash and patches: a promotion succeeds when both its patches do, any other call when its one does; a success removes exactly one slot of the id, and nothing else changes the stash |
| `RemediationTools.ToolServer.RunTool` | apps/agent-service/src/agent_service/tools/remediate.py:404-500 | every tool call is one gate step: denied outside the allow-list, a dry-run reports what is then stashed, an execute succeeds exactly when its approved request shows the marker of the stashed entry and its patches succeed, and only then consumes the entry |
| `EventHub.DeliveryIsPrefix` | apps/agent-service/src/agent_service/hub.py:42-71 | in every interleaving what a subscription has received is a prefix of the event log; once returned it ends exactly at the first terminal event, or it returned early and lost exactly its queue |
| `EventHub.StreamsEnd` | apps/agent-service/src/agent_service/hub.py:16-71 | with the types written out: in every run a subscription that yielded an object whose type is done or error returns at its next resume, having yielded nothing after it, no longer registered; and one that returned in full ends at such an object |
| `EventHub.DoneIsForGood` | apps/agent-service/src/agent_service/hub.py:42-51 | once an event of type done or error is published the flag is up at every later moment |
| `EventHub.TerminalIff` | apps/agent-service/src/agent_service/hub.py:16 | an event is terminal exactly when it is an object whose first type field is the text done or error |
| `EventHub.EarlyReturnIff` | apps/agent-service/src/agent_service/hub.py:59-64 | a subscription returns early exactly when it has replayed a non-empty snapshot without a terminal event and a terminal event was published meanwhile |
| `EventHub.ResumeProgresses` | apps/agent-service/src/agent_service/hub.py:53-71 | a resumed subscription that lags behind yields the next event of the log or returns |
| `EventHub.BrowserSeesPrefix` | apps/agent-service/src/agent_service/app.py:97-99 | a browser reading the printed stream in chunks of any size, with a parser that undoes the dump of the events, sees exactly a prefix of the run's log |
| `EventHub.EarlyReturnHappens` | apps/agent-service/src/agent_service/hub.py:59-64 | the run: whatever event comes before and whatever terminal event comes while it replays, the second resume returns and that terminal event is lost |
| `EventHub.LateSubscriberCatchesUp` | apps/agent-service/src/agent_service/hub.py:53-62 | a subscription begun at any moment yields the log from its first event on, one event per resume, as far as no terminal event stops it, and is registered from its first resume |
| `EventHub.InvHolds` | apps/agent-service/src/agent_service/hub.py:53-71 | the stage, queue and received events of every subscription account for the whole log at every moment |
| `EventHub.RunState.Publish` | apps/agent-service/src/agent_service/hub.py:42-51 | the fan-out loop enqueues the event once for every registered subscriber and no other, appends it to the buffer, and raises the flag exactly on an event of type done or error |
| `EventHub.RunState.Resume` | apps/agent-service/src/agent_service/hub.py:53-71 | running a subscription to its next suspension is the modelled step and yields at most one event |
| `EventHub.RunState.Leave` | apps/agent-service/src/agent_service/hub.py:70-71 | leaving discards the queue from the fan-out and nothing else |
| `ApprovalRendezvous.AgreeIff` | apps/agent-service/src/agent_service/context.py:133-148 | what the waiter is told and what the row says agree, then and whatever happens later, exactly when nobody decided between saving the row and parking the waiter |
| `ApprovalRendezvous.EarlyDecisionIsMissed` | apps/agent-service/src/agent_service/context.py:133-139 | the input: a decision between saving and parking is on the row while the waiter waits on |
| `ApprovalRendezvous.RowHoldsFirst` | apps/agent-service/src/agent_service/db.py:336-344 | a row holds the first decision made after it was saved, for good |
| `ApprovalRendezvous.WaiterGetsFirst` | apps/agent-service/src/agent_service/hub.py:75-92 | a waiter gets the first decision made after it was parked and waits exactly until then |
| `ApprovalRendezvous.Approvals.Approve` | apps/agent-service/src/agent_service/app.py:597-599 | the endpoint writes an undecided row and tells a parked waiter, says which it did, and otherwise changes nothing |
| `ApprovalRendezvous.Approvals.Request` | apps/agent-service/src/agent_service/context.py:124-140 | a request from its row to its wait with any decisions in between: the row has the first of them, the waiter none, and they agree exactly when there was none |
| `EventHub.RunState.ResolveApproval` | apps/agent-service/src/agent_service/hub.py:82-92 | the first decision resolves a parked waiter; with none, or a second time, it reports false and changes nothing |
| `SseWire.ReadAgentStream` | apps/web/src/lib/sse.ts:8-35 | a refused response yields one error event with its status; otherwise what the reader yields depends on the concatenated text only, so not on where the chunks are cut, a cut inside the blank line included |
| `SseWire.Drain` | apps/web/src/lib/sse.ts:20-33 | the inner loop takes exactly the complete frames off the buffer and leaves the unfinished rest, unless a frame throws |
| `Text.IndexOf` | apps/web/src/lib/sse.ts:21 | the first occurrence of a text, or -1 exactly when there is none |
| `SseWire.TakeFrame` | apps/web/src/lib/sse.ts:24-32 | a frame without data is skipped, one that fails the schema yields an error event with the schema's message, one that is not JSON throws |
| `SseWire.DataOfJoined` | apps/web/src/lib/sse.ts:24-28 | the data of a frame is that of its lines beginning with data:, in order and less that prefix, one under the other |
| `SseWire.FramesExtend` | apps/web/src/lib/sse.ts:19-23 | text that arrives later only adds frames: those of the unfinished rest with the new text |
| `SseWire.CutStreamIsPrefix` | apps/web/src/lib/sse.ts:17-23 | a stream cut off anywhere has delivered a prefix of its frames |
| `SseWire.FramesIff` | apps/web/src/lib/sse.ts:19-23 | the frames and the leftover of a text are the only way to cut it: glued with their blank lines they are the text, and no blank line comes earlier in a frame or at all in the leftover |
| `SseWire.WireRoundTrip` | apps/agent-service/src/agent_service/app.py:93-99 | events printed and read in chunks of any size come back in order with nothing left over, through any parser that undoes the dump of each of them |
| `JsonUnique.DumpsInjective` | apps/agent-service/src/agent_service/app.py:94 | JSON values are equal exactly when their dumps are |
| `JsonUnique.DumpsUnique` | apps/agent-service/src/agent_service/app.py:94 | the dump of a value can be read off the front of any text in one way only |
| `JsonUnique.DecoderExists` | apps/agent-service/src/agent_service/app.py:94 | so a parser that undoes the dump of every JSON value exists |
| `JsonUnique.StreamDecodes` | apps/agent-service/src/agent_service/app.py:93-99 | a stream of JSON events decodes to exactly these events with every such parser, however it is chunked, and only one list of events is printed as that stream |
| `SseWire.PrintFrames` | apps/agent-service/src/agent_service/app.py:93-94 | each printed event is one frame |
| `SseWire.PrintedText` | apps/agent-service/src/agent_service/app.py:93-94 | one event on the wire: data:, its dump and a blank line |
| `Json.DumpsPrintable` | apps/agent-service/src/agent_service/app.py:94 | the default dump of any value is printable ASCII, so it never holds a line break |
| `Json.ConstantsWritten` | apps/agent-service/src/agent_service/app.py:94 | the constants and the empty text |
| `Json.ListWritten` | apps/agent-service/src/agent_service/app.py:94 | items are separated by a comma and a blank, in lists and tuples alike |
| `Json.DictWritten` | apps/agent-service/src/agent_service/app.py:94 | and fields too, each its quoted key, a colon, a blank and its value |
| `Json.ShortEscapes` | apps/agent-service/src/agent_service/app.py:94 | quotes, backslashes and the common control characters are escaped by one letter |
| `Json.LongEscapes` | apps/agent-service/src/agent_service/app.py:94 | a character outside printable ASCII is its four hex digits, and one beyond the first plane its two surrogates |
| `Budget.BudgetHolds` | apps/agent-service/src/agent_service/tools/backends.py:651-679 | an object's JSON form leaves at most 219 characters over budget, and the collapse path leaves it within budget |
| `Budget.EnforceBudget` | apps/agent-service/src/agent_service/tools/backends.py:651-679 | without a collapse the result has the payload's fields, clipped where overlong and otherwise equal, and one flag; with one, its text is a prefix of the serialized payload followed by the marker; the convergence loop takes exactly two passes, so the fallback after four is never reached |
| `Budget.ClipKeeps` | apps/agent-service/src/agent_service/tools/backends.py:618-640 | for every payload and at every place: the clip keeps shape, keys and order, a string within the limit is kept, and a longer one is its own first limit characters followed by a notice whose decimal number is the count of those dropped |
| `Budget.ResultHolds` | apps/agent-service/src/agent_service/tools/backends.py:651-660 | so every field of an uncollapsed result holds what the payload's did, shortened like that, and only the flag is new |
| `Budget.CollapseHolds` | apps/agent-service/src/agent_service/tools/backends.py:661-679 | a collapsed result is the flag and a prefix of the serialized payload followed by the marker; the prefix has limit - 79 characters less one for every quote and backslash among the first limit, or none when that is not positive |
| `Budget.LongOutputClipped` | apps/agent-service/src/agent_service/tools/backends.py:618-660 | for example, 9000 plain characters of kubectl output come back as the first 8000, the notice of the other 1000 and the flag |
| `Budget.ToolBudgets` | apps/agent-service/src/agent_service/tools/backends.py:598-615 | the limits by tool |
| `Budget.CollapseFits` | apps/agent-service/src/agent_service/tools/backends.py:664-676 | the first candidate is always too long and the second always fits |
| `Budget.WithinBudgetUnchanged` | apps/agent-service/src/agent_service/tools/backends.py:651-659 | a payload within budget comes back unchanged, and so does one at most 200 over it with no overlong string |
| `Budget.ClippedIsFlagged` | apps/agent-service/src/agent_service/tools/backends.py:656-678 | every other object is marked as truncated |
| `Budget.TruncateStrings` | apps/agent-service/src/agent_service/tools/backends.py:618-640 | the recursive clip and its two filling loops return the payload shortened like that, at every place, and report whether any string was overlong |
| `Budget.TruncateFields` | apps/agent-service/src/agent_service/tools/backends.py:625-631 | the dictionary loop keeps keys and order and clips every value |
| `Budget.TruncateItems` | apps/agent-service/src/agent_service/tools/backends.py:632-639 | the list loop keeps the order and clips every element |
| `Budget.ClipOnlyLong` | apps/agent-service/src/agent_service/tools/backends.py:621-640 | a value without an overlong string is left as it is |
| `Budget.FittingHasNoLong` | apps/agent-service/src/agent_service/tools/backends.py:656-659 | a value whose JSON form fits the budget holds no overlong string |
| `Frontmatter.ParseRunbookMeta` | apps/agent-service/src/agent_service/tools/backends.py:484-550 | the index-driven parser ends on every text and computes the line-by-line reading of the first metadata block |
| `Frontmatter.ReadEntry` | apps/agent-service/src/agent_service/tools/backends.py:517-549 | one key reads its items and stops at the right line in all four forms: inline, adopted bracket, scalar, bullets |
| `Frontmatter.ReadFlow` | apps/agent-service/src/agent_service/tools/backends.py:530-538 | lines are gathered until the bracket closes and no further |
| `Frontmatter.ReadBullets` | apps/agent-service/src/agent_service/tools/backends.py:541-549 | bullets are taken up to the first line that is none |
| `Frontmatter.NextFilled` | apps/agent-service/src/agent_service/tools/backends.py:523-525 | the scan stops at the first line that is not blank |
| `Frontmatter.Alphabets` | apps/agent-service/src/agent_service/tools/backends.py:465-506 | the line breaks and the characters of a key, one by one |
| `Text.SpacesAre` | apps/agent-service/src/agent_service/tools/backends.py:475-508 | the white space that stripping removes, character by character |
| `RunbookLayouts.LayoutsParseBack` | apps/agent-service/src/agent_service/tools/backends.py:484-550 | brackets on the key's line or below it over any lines, any number of items on each, with or without a trailing comma, or bullets after an optional first item; any indentation, blank and comment lines between keys, quotes and either line end: all parse back to the metadata they were written from, byte-order mark or not |
| `RunbookLayouts.StripsIff` | apps/agent-service/src/agent_service/tools/backends.py:475-502 | for every text whose metadata the parser finds, stripping removes that block exactly when the text does not begin with a byte-order mark |
| `RunbookLayouts.FlowRead` | apps/agent-service/src/agent_service/tools/backends.py:530-538 | a bracketed list reads as the items of its lines in order, wherever its first line stands |
| `RunbookLayouts.StripGivesBody` | apps/agent-service/src/agent_service/tools/backends.py:475-481 | stripping returns the body less its leading empty lines, hence the body itself exactly when it does not open with one |
| `RunbookLayouts.MarkDefeatsStripping` | apps/agent-service/src/agent_service/tools/backends.py:481-502 | parser and stripper disagree on a byte-order mark: with one in front the metadata is parsed but not stripped |
| `RunbookLayouts.FieldsRead` | apps/agent-service/src/agent_service/tools/backends.py:508-550 | the lines of any fields read back as those fields, later ones winning |
| `RunbookLayouts.KeyValueIff` | apps/agent-service/src/agent_service/tools/backends.py:465 | a line has a key and a value exactly when it is an identifier, blanks, a colon and the value |
| `RunbookLayouts.BulletIff` | apps/agent-service/src/agent_service/tools/backends.py:466 | a line is an item exactly when it is blanks, a dash, a blank and the item |
| `RunbookLayouts.DocumentMatch` | apps/agent-service/src/agent_service/tools/backends.py:464 | the lazy pattern closes at the first line of dashes and leaves exactly the body |
| `Embedding.Fnv1a` | packages/domain/src/embedding.ts:14-21 | the embedder's loop computes the 32-bit FNV-1a hash; for the empty text, a and foobar the reference values |
| `Embedding.OneUnitTells` | packages/domain/src/embedding.ts:14-21 | of two texts of one length that differ in exactly one unit the hashes differ, wherever the unit is and whatever surrounds it |
| `Embedding.HashBoth` | packages/domain/src/embedding.ts:14-21 | the same, of what the loop returns |
| `Embedding.ReferenceHashes` | packages/domain/src/embedding.ts:14-21 | the reference values of the hash |
| `Embedding.DrawsInRange` | packages/domain/src/embedding.ts:24-47 | every draw lies in [-1, 1) |
| `Embedding.ReferenceDraws` | packages/domain/src/embedding.ts:24-47 | the first three draws for the empty text, as exact fractions |
| `EmbedCache.Fnv1aHex` | apps/embedder/src/slices/embed/service.ts:15-22 | the cache key's own loop computes the same hash as the embedder's, in hex; for the empty text, a and foobar the reference values |
| `EmbedCache.HexBoth` | apps/embedder/src/slices/embed/service.ts:15-22 | texts of one length that differ in exactly one unit get different hex hashes from the loop |
| `EmbedCache.HexOfShape` | apps/embedder/src/slices/embed/service.ts:21 | eight lower-case hex digits that denote the hash, leading zeros included |
| `EmbedCache.KeyShape` | apps/embedder/src/slices/embed/service.ts:25-26 | a key is the fixed prefix and the hex hash of the normalised text |
| `Embedding.ComputeEmbedding` | packages/domain/src/embedding.ts:42-56 | the two array loops compute the vector that is a function of the text's hash alone |
| `Embedding.FillDraws` | packages/domain/src/embedding.ts:46-50 | the first loop fills the array with the generator's draws and sums their squares |
| `Embedding.ScaleInPlace` | packages/domain/src/embedding.ts:52-54 | the second loop scales every element in place |
| `Embedding.EmbeddingIsUnit` | packages/domain/src/embedding.ts:39-56 | the vector has square sum one, or zero when every draw is zero |
| `Embedding.CauchySchwarz` | packages/domain/src/embedding.ts:66-72 | dot squared is at most the product of the two square sums, for all equal-length vectors |
| `Embedding.CosineSimilarity` | packages/domain/src/embedding.ts:59-75 | the one-pass loop returns the quotient, 0 for a zero denominator, and a mismatch for different lengths |
| `Embedding.CosineBounded` | packages/domain/src/embedding.ts:59-75 | the similarity lies in [-1, 1] |
| `Embedding.CosineExtremes` | packages/domain/src/embedding.ts:73-74 | it is 0 exactly for a zero vector or orthogonal vectors, and 1 between a non-zero vector and itself |
| `EmbedCache.KeyDeterminesVector` | apps/embedder/src/slices/embed/service.ts:15-26 | two texts share a cache key exactly when they share the hash, and then they share the vector |
| `EmbedCache.EmbedService.Embed` | apps/embedder/src/slices/embed/service.ts:34-43 | the reply is the embedding of the text whether it came from the cache or not, and the cache then holds it |
| `EmbedCache.EmbedService.Expire` | apps/embedder/src/slices/embed/service.ts:41 | entries may go at any time without making a reply wrong |
| `EmbedCache.CacheIsTransparent` | apps/embedder/src/slices/embed/service.ts:32-45 | after any sequence of requests and expiries every reply equals recomputation, hash collisions included |
| `EmbedCache.HeldIff` | apps/embedder/src/slices/embed/service.ts:34-43 | a request finds its key cached exactly when a text of that key was requested before and the key has not expired since |
| `ChaosTimeline.BuildTimeline` | apps/load-generator/src/chaos/schedule.ts:65-80 | the loop and the sort produce the timeline |
| `ChaosTimeline.TimelineShape` | apps/load-generator/src/chaos/schedule.ts:60-80 | it is in time order, clears first at the same instant, and holds exactly the apply and the clear of every phase |
| `ChaosTimeline.PhaseIsTimed` | apps/load-generator/src/chaos/schedule.ts:65-80 | every phase is applied at its start and cleared at its end, in milliseconds |
| `ChaosTimeline.OverrideIsActivePhase` | apps/load-generator/src/chaos/schedule.ts:60-80 | without overlap on a target, replaying up to any time leaves exactly the parameters of the active phase, or none, back-to-back handoffs included |
| `ChaosTimeline.EffectiveIsPhaseOverBase` | apps/model-proxy/src/slices/chaos/state.ts:36-38 | so at any time every knob the active phase sets has the phase's value and every other one the configured value |
| `ChaosTimeline.InForceIff` | apps/model-proxy/src/slices/chaos/state.ts:20-28 | whatever overlaps and however many phases set it, a knob is overridden exactly when a phase that sets it has started and no phase of the target has ended since, and its value is that of the last such phase, by start and then by place in the list |
| `ChaosTimeline.ClearWipesAll` | apps/model-proxy/src/slices/chaos/state.ts:25-28 | at the instant a phase ends and none starts the whole override is empty, even in knobs several phases set and under phases still active |
| `ChaosTimeline.OverlapLosesFault` | apps/model-proxy/src/slices/chaos/state.ts:25-28 | the input: two overlapping phases on one target, where the end of the first leaves the second active without its fault |
| `ChaosTimeline.FinalOverrideEmpty` | apps/load-generator/src/chaos/schedule.ts:65-80 | the whole timeline leaves every target's override empty, overlaps or not |
| `ChaosTimeline.EventsWithinDuration` | apps/load-generator/src/chaos/schedule.ts:46-52 | no event lies past the total duration |
| `ChaosTimeline.CycleLength` | apps/load-generator/src/chaos/schedule.ts:46-52 | a cycle lasts until the cooldown after the end of its last phase, and a second at least; none of the three bounds is slack |
| `ChaosTimeline.FaultControl.SetFaultOverride` | apps/model-proxy/src/slices/chaos/state.ts:20-23 | merges the patch over the override and returns it |
| `ChaosTimeline.FaultControl.ClearFaultOverride` | apps/model-proxy/src/slices/chaos/state.ts:26-28 | empties the override |
| `ChaosTimeline.FaultControl.Drive` | apps/load-generator/src/chaos/runner.ts:18-23 | applying a target's events in order leaves the override the replay describes |
| `LoadRunner.EveryRunBounded` | apps/load-generator/src/runner.ts:58-99 | over every run of the clock and of the callbacks: in flight never exceeds the cap, one latency per count, counts plus in-flight equal dispatches plus those counted but not yet released, and both rate bounds hold |
| `LoadRunner.RateBound` | apps/load-generator/src/runner.ts:61-91 | up to time t at most floor((t - start) / interval) + 1 dispatches |
| `LoadRunner.WindowBound` | apps/load-generator/src/runner.ts:86-91 | any window of length W holds at most floor(W / interval) + 3 dispatches despite the resync |
| `LoadRunner.DispatchesInTime` | apps/load-generator/src/runner.ts:83-92 | the other side of the bounds: below the cap a turn dispatches at the latest when one interval has passed since the last dispatch |
| `LoadRunner.RateReached` | apps/load-generator/src/runner.ts:83-96 | and a loop whose dispatches came promptly, sleeping below the cap at time t, has made at least floor((t - start) / interval) + 1 of them |
| `LoadRunner.AllSettled` | apps/load-generator/src/runner.ts:98 | once every request has settled nothing is in flight and counts and latencies cover all dispatches |
| `LoadRunner.LoopKeeps` | apps/load-generator/src/runner.ts:83-96 | the loop's invariant holds after any turns |
| `LoadRunner.Load.RunLoop` | apps/load-generator/src/runner.ts:83-96 | the loop takes exactly the turns before the deadline, each dispatching or sleeping as specified |
| `LoadRunner.TakenUpTo` | apps/load-generator/src/runner.ts:83 | the turns taken are those before the first guard reading at or past the deadline |
| `LoadRunner.Load.Release` | apps/load-generator/src/runner.ts:85-91 | a dispatch takes the slot's time and moves the next slot one interval on, or to now when far behind |
| `LoadRunner.Load.Run` | apps/load-generator/src/runner.ts:71-78 | a result is counted with its latency before the request is released |
| `LoadRunner.SettledIff` | apps/load-generator/src/runner.ts:71-80 | a pending request is counted exactly when its result comes, and released exactly when its release comes after that, whatever callbacks of other requests come in between |
| `LoadRunner.CountedInPlace` | apps/load-generator/src/runner.ts:72-74 | a result is counted in its own bucket and in no other |
| `LoadRunner.Load.Sleep` | apps/load-generator/src/runner.ts:95 | the callbacks that come due run one after the other |
| `LoadRunner.Load.Dispatch` | apps/load-generator/src/runner.ts:67-80 | a dispatch raises the in-flight count and records its promise |
| `Labels.KeysAgreeIff` | apps/ci-shim/src/metrics.ts:12-16 | label keys are equal exactly when the label sets are, whatever the values hold and in whatever order the labels were written |
| `Labels.UnescapeUndoes` | apps/ci-shim/src/metrics.ts:18-20 | one unescaping pass undoes the three chained replacements |
| `Labels.EscapesOnce` | apps/ci-shim/src/metrics.ts:18-20 | the three replacements run one after the other escape each character exactly once |
| `Labels.NotGreaterIff` | apps/ci-shim/src/metrics.ts:13 | names ascend by code unit: at the first difference the smaller unit, or the end of the name, comes first |
| `Labels.TwoLabels` | apps/ci-shim/src/metrics.ts:12-16 | the key of two labels, whichever was given first |
| `Metrics.Counter.Inc` | apps/ci-shim/src/metrics.ts:29-32 | after any history a counter has one series per label set that was incremented, holding that label set's sum |
| `Metrics.Counter.Reads` | apps/ci-shim/src/metrics.ts:29-32 | any way of writing a label set finds its total, and one never incremented has no series |
| `Metrics.AddedIsTotal` | apps/ci-shim/src/metrics.ts:29-32 | the sum per key is the sum per label set |
| `Metrics.Histogram.constructor` | apps/ci-shim/src/metrics.ts:45-51 | keeps exactly the given bounds, in ascending order |
| `Metrics.Histogram.Seed` | apps/ci-shim/src/metrics.ts:54-59 | creates a zero series once and never resets one |
| `Metrics.Histogram.Observe` | apps/ci-shim/src/metrics.ts:61-73 | after any history bucket i counts the observations of that label set at or below its bound, and sum and count are theirs |
| `Metrics.Histogram.Reads` | apps/ci-shim/src/metrics.ts:61-73 | any way of writing a label set finds the series of its observations, and one never touched has none |
| `Metrics.Bump` | apps/ci-shim/src/metrics.ts:68-72 | the bucket loop raises exactly the buckets at or above the value |
| `Metrics.BucketsCumulative` | apps/ci-shim/src/metrics.ts:68-72 | bucket counts never decrease along the bounds nor exceed the count |
| `Metrics.CountBelowIs` | apps/ci-shim/src/metrics.ts:68-72 | the count is the number of observations at or below the bound |
| `RunFeed.GroupRunFeed` | apps/web/src/lib/run-feed.ts:82-112 | the loop equals the per-turn specification for every feed |
| `RunFeed.TurnsPartition` | apps/web/src/lib/run-feed.ts:83-98 | the turns joined are the feed; every turn but the first opens with a user message and none has another |
| `RunFeed.GroupingKeepsEverything` | apps/web/src/lib/run-feed.ts:70-76 | nothing is lost, duplicated or invented, and only artifacts move: the rest keeps its order, and so do the artifacts among themselves |
| `RunFeed.GroupingIsTidy` | apps/web/src/lib/run-feed.ts:99-108 | no tools block is empty and no two are adjacent, across turns included |
| `RunFeed.ArtifactsLast` | apps/web/src/lib/run-feed.ts:82-112 | within its turn every artifact comes after everything else |
| `RunFeed.TidyIsUnique` | apps/web/src/lib/run-feed.ts:103-108 | there is only one such layout of a list of entries, so tool calls are merged as far as they go |
| `RunFeed.FeedIsChronological` | apps/web/src/lib/run-feed.ts:43-55 | the feed holds the run's messages, tool calls, approvals and artifacts, each exactly as often, by the time each kind carries; at the same time in this order of kinds |
| `RunFeed.KindOrderKept` | apps/web/src/lib/run-feed.ts:38-55 | entries of one kind keep their array order exactly when that array is chronological |
| `RunFeed.FeedReverses` | apps/web/src/lib/run-feed.ts:38-55 | the input: two messages out of time order, which the feed turns round |
| `Sorting.SortKeeps` | apps/web/src/lib/run-feed.ts:52-54 | the sort yields an ordered permutation |
| `Sorting.SortIsStable` | apps/web/src/lib/run-feed.ts:52-54 | elements that come in order already keep their order among themselves |
| `Sorting.SortedUnique` | apps/ci-shim/src/metrics.ts:13 | under an antisymmetric order the sorted sequence is determined by its elements |

## Left out

- Restarts: `fail_orphaned_runs` and the loss of in-memory state; chat resumption of an ended run; `hub.cleanup`.
- IncidentSafety.CloseOutSticks: says nothing about runs whose close-out raised or was never reached, since the code promises nothing there; `UnarmedIff` says what becomes of their incidents.
- IncidentSafety.OneRunInFlight: in this protocol a run's status is written by the run alone. A decision that finds no parked waiter (`app.py:608-613`) writes it from outside: `IncidentEndpoint` adds that write, and shows when it is harmless and exactly when it lets a second run join.
- IncidentEndpoint.EarlyDecisionIff: the run at work is any that got as far as its session, although only one with an undecided approval row can be written for; what follows the write is the watcher and the clock alone.
- IncidentClosing.ClosedWhileFiringIff: what Alertmanager holds is a set of names that may change at any moment; its filter syntax, the count and the start time of its answer are left out, and so is how an alert comes to be held.
- IncidentSafety.EscalationsBounded: one watcher and a clock that does not run backwards.
- IncidentWebhook.ServeEvent: the spawned run is started with the link.
- IncidentOncall.RunOncall: the guard around the run is part of it, so a run that raises before its session writes its status and ends; the gate steps of other runs are not put between its own (`RunsAreIsolated` says why they do not matter to its stash), and an approval is decided before the session goes on.
- IncidentWatcher.WatchOnce: a poll query that raises ends the round before it began; what the query answers is a parameter.
- IncidentStore.Database: rows are values in maps and sequences; the newest open row of a key is any open row, which the unique index makes the same.
- Severities, tenants, summaries, start times, fingerprints of alerts, and webhook signatures.
- The gitops dedupe path (`record_incident`, `find_open_incident`, `resolve_incident`), post-mortems and exam tables.
- RemediationHistory.ExecutesAreApproved: tool calls of one run do not overlap.
- RemediationGate.FingerprintExists: the digest is taken to be injective on admissible calls and nonces to be fresh; text may quote markers already minted but none to come.
- RemediationTools.ToolServer.RunTool: only the outcome of each patch is modelled, not kubectl, the diffs or the vault.
- EventHub.RunState.Resume: the run table (`ensure`, `get`) is one entry at a time; queues are part of their subscription instead of shared objects.
- SseWire.ReadAgentStream: decoding of bytes to text; what the schema and the JSON parser say of a bad event is a parameter.
- Json.DumpsPrintable: numbers are given by their text, object keys are strings, lone surrogates do not occur.
- Budget.EnforceBudget: payload values outside JSON (`default=str`) are strings already.
- Frontmatter.ParseRunbookMeta: the three regular expressions are written out as functions on text; dictionary order is not kept.
- Embedding.ComputeEmbedding: reals without rounding, a square root given by its defining property, text normalisation as an arbitrary function.
- EmbedCache.EmbedService.Embed: the JSON text of a cached vector stands for the vector; cache failures are not modelled.
- ChaosTimeline.FaultControl.Drive: timers fire in order; the control plane's HTTP calls always arrive.
- LoadRunner.Load.RunLoop: how long a sleep lasts only decides which clock reading comes next; scenario choice, requests and percentiles are left out.
- Metrics.Histogram.Observe: a series is a value put back into the map instead of an object updated in place; rendering is left out. Label names are Prometheus names.
- RunFeed.GroupRunFeed: block and part lists are values; timestamps are numbers (an unparsable date is not modelled).
- Sorting.SortKeeps: the language's sort is taken as a stable insertion sort.
- HTTP routing, OpenTelemetry, configuration, React components, schema definitions and the small status classifiers, which a single reading settles.
