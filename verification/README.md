# DrainTracer: a verified model

DrainTracer launches a program or attaches to one, follows its process tree, judges whether memory, handles or
threads grow steadily, and keeps bounded, durable records of what it saw. This project models the parts of it that
have state, order or arithmetic to get wrong, and proves what they promise:

- `ProcessRunner.dfy` over `OperatingSystem.dfy`: control of a process tree by PID, while the operating system exits
  processes, reuses PIDs and refuses questions between any two calls. `ProcessControl.dfy` holds what that class decides
  on values: verdicts, walks, and the relations between two moments of a run.
- `AgentService.dfy` over `AgentState.dfy`: the local agent's requests, records, tombstones and journal, with failed
  writes, crashes and restarts. `AgentEvents.dfy`: the bounded event log and its paging.
- `ControlFiles.dfy`: start-up and removal of the agent over a fence, a lock, a journal and a durable intent.
- `ReportContract.dfy`, `JsonText.dfy`, `ReportExport.dfy`: the bounded JSON contract, counted on values by the writer
  and on text by the reader (sections 2 and 7 of RFC 8259), and the export loop that thins samples until they fit.
- `Subscriptions.dfy`, `SessionCommands.dfy`: callback delivery by four workers, and the command queue with deadlines.
- `ProcessHistory.dfy`, `SnapshotHistory.dfy`, `LeakDetector.dfy`, `Analysis.dfy`: histories, growth attribution,
  window judgement, and the two independent folds over recorded signals.
- `Privacy.dfy`, `PrivacyTimes.dfy`, `PrivacySchema.dfy`: redaction with one renaming and one shift of time, and the
  schema it is used with. `Keys.dfy`: the incremental key decoder (section 5.4 of ECMA-48). `BaselineControl.dfy`: the
  audit log with its digest chain, and the evidence it approves.
- `Arithmetic.dfy` and `Wrappers.dfy` hold what several of these share.

Objects whose methods update their fields are classes; what a method promises is tied to functions on values, and the
hard properties are lemmas about those functions or invariants every method keeps. Times, metric values and scores are
reals. A crash, an exit, a PID reuse or a refusal is a choice the environment makes, within methods and between them.

## Where the code and its promises differ

- A start request that is repeated under another digest is answered with a conflict, and that answer is cached. From
  then on the original request also gets the conflict, although its session runs (`AgentService.ConflictMasksOriginal`);
  `AgentService.RememberedStart` says exactly when a remembered start still gets its session.
- A request may be started a second time: that takes nothing held that answers it, no cached reply, record or tombstone
  (`AgentService.AgentRegistry.Handle`), and its tombstone is lost only when a clock reading of the agent is past its
  expiry, or to 256 newer ones (`AgentService.Run`). The tombstone of a new session is on disk exactly if it had not
  expired by the time it was written (`AgentService.WrittenTombstone`); the record is always there.
- What the agent offers to its journal is valid exactly when no record is stuck (`AgentService.OfferedIsValid`). A look
  leaves a record stuck exactly when its session ended with an export outside the report directory, now or before
  (`AgentService.ObservedOk`).
- An integer too large for a float passes every check of the exporter and is refused by the reader
  (`ReportExport.HugeIntegerIsRefused`). The reader accepts what is exported of a report exactly when every integer of
  that report converts that the rounds leave in place: in the samples kept, in the other keys, and in the doubled stride
  (`ReportExport.GivenDecides`).
- A sequence broken off takes the character that breaks it with it. That loses no input exactly when the character is a
  final byte or names no key; when it is an escape, exactly when the escape would have gone unnoticed anyway
  (`Keys.BrokenSequence`, `Keys.EscapeUnnoticed`). Otherwise a key is lost, or the tail of a second sequence surfaces as
  characters (`Keys.BrokenSequenceLeaks`).

## Model

| member | source | states |
|---|---|---|
| `OperatingSystem.Os.Observe` | src/process_runner.py:887-962 | One open of a PID: time may pass first, every answer is truthful about the process now on the PID, or withheld, and the answers are on record |
| `OperatingSystem.Os.List` | src/process_runner.py:746 | One snapshot of every process and its parent, on record as an answer of the system |
| `OperatingSystem.Os.Send` | src/process_runner.py:991-1034 | A signal hits whoever holds the PID now, is logged with everything the sender had on record, and may raise after its effect |
| `ProcessControl.JudgeSound` | src/process_runner.py:887-962 | From truthful answers: "gone" is only said of an incarnation that is gone, and control is only granted over the recorded incarnation with a known root |
| `ProcessControl.VerdictKeepsSafe` | src/process_runner.py:850-885 | What opening does on its verdict, clearing a debt of the gone or recording a first identity, keeps process control safe |
| `ProcessRunner.ProcessManager.OpenTracked` | src/process_runner.py:887-962 | The result is the verdict on what the system just answered about that PID; an owed resume is cleared only on proof of exit or reuse, an identity recorded only when discovering, and control granted only over the recorded process with a known root |
| `ProcessRunner.ProcessManager.SignalPid` | src/process_runner.py:991-1034 | A signal is sent by the record that identified the process, to its recorded incarnation or to nobody |
| `ProcessControl.EvolutionKeepsSafe` | src/process_runner.py:498-547 | Exits and PID reuse at any time cannot make the manager forget a process it stopped |
| `ProcessControl.SignalKeepsSafe` | src/process_runner.py:991-1022 | A suspend of a process already noted and not yet stopped, or a resume, effective or not, keeps every stopped live process on record and stopped once |
| `ProcessControl.LearningKeepsSafe` | src/process_runner.py:868-878 | Recording the first readable identity of a process nobody stopped keeps process control safe |
| `ProcessControl.ForgettingKeepsSafe` | src/process_runner.py:705-734 | A refresh may drop identities of PIDs it retires without losing an owed resume |
| `ProcessRunner.ProcessManager.SuspendPid` | src/process_runner.py:991-1007 | Sends at most one signal, by the manager's own record. A failed suspend leaves nothing owed; success means signalled and noted, or, on Linux, seen already stopped and not noted |
| `ProcessRunner.ProcessManager.ResumePid` | src/process_runner.py:1009-1022 | Sends at most one signal, by the manager's own record. Success means nothing is owed on that PID any more; an unreadable identity keeps the owed resume |
| `ProcessRunner.ProcessManager.ResumeAll` | src/process_runner.py:534-547 | Succeeds exactly when no suspended process is left, and otherwise keeps those that are |
| `ProcessRunner.ProcessManager.TerminatePid` | src/process_runner.py:1024-1034 | Sends at most one signal, by the manager's own record, and none to a PID that is not tracked. When nothing was refused, a recorded process was signalled or is proved gone |
| `ProcessRunner.ProcessManager.TerminateAll` | src/process_runner.py:563-565 | When nothing raises or is refused and the root is known, each tracked process on record was signalled by its identity, or is proved gone |
| `ProcessRunner.ProcessManager.SuspendAll` | src/process_runner.py:498-532 | Either every tracked process is halted (signalled since, noted before, or on Linux seen stopped by someone else), or what could not be rolled back stays owed a resume; every signal went out by the manager's own record |
| `ProcessRunner.ProcessManager.Pause` | src/process_runner.py:498-532 | On every platform, a successful pause leaves each tracked process halted: signalled since, suspended before, or on Linux seen stopped; a failed one without refusals leaves only processes whose identity is unknown |
| `ProcessRunner.ProcessManager.Detach` | src/process_runner.py:476-496 | Detaching succeeds only when no live process is still stopped by the manager, and then everything is released; otherwise the tree stays tracked |
| `ProcessControl.JoiningExtends` | src/process_runner.py:736-811 | The checks the walk makes on one child are those its justification needs: linked, not the monitor, not older than its parent, an orphan born in time |
| `ProcessControl.Walk.Linked` | src/process_runner.py:736-811 | Everything a walk added hangs by a chain of snapshot parent links from a live member, a recently departed one or a session member |
| `ProcessRunner.ProcessManager.Consider` | src/process_runner.py:736-811 | One child joins exactly if the answers just given and the identities on record justify it: opened and living, not DrainTracer's own chain, not older than its parent, an orphan born before the PID was reused; otherwise one of these failed |
| `ProcessRunner.ProcessManager.AdoptChildren` | src/process_runner.py:736-811 | All children of one walked parent are judged; members grow by exactly those that passed, each judged by answers of this walk |
| `ProcessRunner.ProcessManager.WalkTree` | src/process_runner.py:736-811 | The walk ends for every parent map, cyclic ones included. It first asks for one snapshot of parents and follows exactly that one; its roots are the session members found since, every adoption is justified by answers given since and identities on record, and every child of every parent that was turned away failed a check |
| `ProcessRunner.ProcessManager.SessionMembers` | src/process_runner.py:813-848 | Nobody without a session; once its PID is found reused the session is given up for good; otherwise exactly the listed PIDs that answered with the session, opened, and were not born before the launch |
| `ProcessRunner.ProcessManager.JudgeSession` | src/process_runner.py:830-848 | Every listed process is asked for its session, and those that name it are opened and kept unless they are older than the launch |
| `ProcessRunner.ProcessManager.SortOut` | src/process_runner.py:705-721 | Who is alive is what each tracked PID's sighting said; those found gone are retired incarnations and are remembered as departed with the time |
| `ProcessRunner.ProcessManager.Refresh` | src/process_runner.py:705-734 | Tracked becomes exactly the members of a walk from those seen alive after the clock was read, from departures recent by that clock and from the session, along the snapshot the system then gave and by the answers after it; whoever was tracked is still tracked as that incarnation, or is gone |
| `ProcessRunner.ProcessManager.WaitForPids` | src/process_runner.py:970-989 | Whatever is suspended is among those remaining, and everyone else tracked before has his recorded incarnation proved gone |
| `ProcessRunner.ProcessManager.Terminate` | src/process_runner.py:549-589 | When nothing raises or is refused and the root is known, everyone the refresh found and everyone tracked before it was sent both a terminate and a kill by his identity, or is proved gone; whoever was tracked is still tracked as that incarnation or was proved gone, so a tree is forgotten only when all are gone; nothing happens when the tree contains DrainTracer itself |
| `ProcessRunner.ProcessManager.Kill` | src/process_runner.py:591-629 | When nothing raises or is refused and the root is known, everyone the refresh found and everyone tracked before it was sent a kill by his identity, or is proved gone; whoever was tracked is still tracked as that incarnation or was proved gone, so a tree is forgotten only when all are gone; nothing happens when the tree contains DrainTracer itself |
| `ProcessRunner.ProcessManager.Run` | src/process_runner.py:476-629 | In every run from one start or attach: each live process stopped and not resumed is suspended and tracked under its exact creation time, none is stopped twice, every signal went out by the manager's record with a known root and hit that incarnation or nobody, a record is replaced only once its process is gone, and a released tree is never signalled again |
| `ProcessControl.FollowsTransitive` | src/process_runner.py:476-629 | Two stretches of a run make one: who was tracked at the start is accounted for, and every signal came from a descendant of the first record |
| `AgentState.Disk.Write` | src/agent_state.py:220-240 | The journal is replaced whole or not at all, exactly the states that validate are written, each is kept in the history, and a crash leaves the old or the new one |
| `AgentService.OfferedIsValid` | src/agent_state.py:62-145 | A state offered to the journal passes its validation exactly when no record is stuck in a terminal phase without a result |
| `AgentService.ActiveFalls` | src/agent_service.py:286-318 | Results only arrive, so observing sessions never raises the active count |
| `AgentService.RetiringKeepsActive` | src/agent_service.py:551-571 | Retiring a finished record, or putting it back, leaves the active count as it was |
| `AgentService.ObservedOk` | src/agent_service.py:286-318 | One look at a session keeps its name and any result; it leaves the record stuck exactly when the session ended with an export outside the report directory, or was stuck and shows nothing new |
| `AgentService.AdmissionSound` | src/agent_service.py:496-582 | Admitting a request nothing holds keeps ids distinct and records and tombstones in agreement |
| `AgentService.EnteringSound` | src/agent_service.py:551-572 | One more record and tombstone, one finished record fewer if need be: still sound, one more active session |
| `AgentService.WrittenTombstone` | src/agent_service.py:248-263 | A tombstone written with a start is on disk exactly if it had not expired; otherwise it is lost to that very clock reading |
| `AgentService.PushingRemembers` | src/agent_service.py:564-570 | A tombstone is crowded out only by 256 newer ones, and every start keeps its tombstone or has it among the losses |
| `AgentService.ExpiryKeeps` | src/agent_service.py:248-263 | Dropping what expired at one clock reading costs only tombstones whose time was up, and every start keeps its tombstone or has it among the losses |
| `AgentService.StartRemembered` | src/agent_service.py:496-582 | A start that was just written is remembered, was written ahead, and is no second start under a live tombstone |
| `AgentService.ResumedSound` | src/agent_service.py:197-237 | A restart takes over a sound state within the retained bound in which every session has a result |
| `AgentService.RememberedStart` | src/agent_service.py:332-385 | A repeated start gets its own session back exactly when no reply under another digest is cached for it |
| `AgentService.ConflictingStart` | src/agent_service.py:332-385 | Whatever replies are cached, a remembered start under another digest starts nothing; it is a conflict exactly when every cached reply to that very digest is one |
| `AgentService.ConflictMasksOriginal` | src/agent_service.py:381-385 | A cached conflict also answers the original request |
| `AgentService.AgentRegistry.Load` | src/agent_service.py:142-237 | A new agent process loads a valid registry with no active session and has written nothing |
| `AgentService.AgentRegistry.Persist` | src/agent_service.py:248-263 | Tombstones lose exactly what expired at the one clock reading made; a failed write leaves the rest as it is, a saved one holds all records and the unexpired tombstones; invalid exactly when a record is stuck |
| `AgentService.AgentRegistry.Book` | src/agent_service.py:551-572 | An admitted start is in memory and on disk, or both are as before |
| `AgentService.AgentRegistry.StartSession` | src/agent_service.py:496-582 | One more start exactly when accepted, with its record in a state written during the call; a refusal leaves tombstones and starts as they were; tombstones go only by expiry or by 256 newer ones; records without a result are never retired |
| `AgentService.AgentRegistry.Refresh` | src/agent_service.py:286-318 | Observing all sessions keeps names and results and starts nothing; unless it raises, no record becomes stuck; tombstones stay unless one clock reading is made, and then exactly the expired ones go |
| `AgentService.AgentRegistry.Remember` | src/agent_service.py:381-385 | Replies are cached once per request id within their bound |
| `AgentService.AgentRegistry.Handle` | src/agent_service.py:332-385 | A request still held in replies, tombstones or records is answered from them and changes nothing; any other start is made exactly once, found on disk in a state written meanwhile; tombstones go only by expiry or crowding; unfinished sessions keep their records |
| `AgentService.Run` | src/agent_service.py:197-582 | In every run of agent processes, failed writes, crashes and restarts: every start was written ahead, a request was started again only after its tombstone was lost, every other start has its tombstone on disk, and tombstones are lost only to a clock reading past their expiry or to 256 newer ones |
| `AgentEvents.EventLog.Record` | src/agent_service.py:130-132 | Event numbers run without holes, and exactly the newest two hundred are retained |
| `AgentEvents.EventLog.Read` | src/agent_service.py:429-440 | A page holds the retained events after the cursor in order; cursor, gap and events shown add up to the next cursor |
| `AgentEvents.Follower.Poll` | src/agent_service.py:429-440 | A client that follows its cursor sees no event twice or out of order, and seen plus gaps is always its cursor |
| `AgentEvents.Follow` | src/agent_service.py:130-132 | For any interleaving of events and polls, a last round of polls reaches the end and nothing is unaccounted for |
| `ControlFiles.Exclusive` | src/agent_state.py:148-166 | At most one process is past the fence: start-up and removal never overlap |
| `ControlFiles.StepKeeps` | src/agent_diagnostics.py:258-289 | Every operation of any server or remover, and a death between any two, keeps the protocol invariant |
| `ControlFiles.IntentBars` | src/agent_command.py:31-34 | While a removal intent is durable, no server is past its intent check |
| `ControlFiles.IntentVanishesLast` | src/agent_diagnostics.py:284-288 | The intent disappears only in a remover's last step, when credential, lock and journal are gone |
| `ControlFiles.AdmittedOnlyAfterRemoval` | src/agent_command.py:27-50 | If the intent was there and later a server is admitted, a removal finished in between with all four files gone |
| `ControlFiles.RunKeeps` | src/agent_command.py:75-81 | The protocol invariant holds in every run |
| `ControlFiles.RetryCompletes` | src/agent_diagnostics.py:258-289 | From every crash point of a removal that wrote its intent, a retry without survivors passes its digest check and removes everything |
| `ControlFiles.NoAuthorityNoChange` | src/agent_diagnostics.py:281-282 | A remover that finds neither intent nor journal changes no file |
| `ReportContract.WithinContractTokens` | src/report.py:204-223 | The writer's worklist with early exits accepts exactly values whose values plus keys are within the limit and whose containers nest at most 64 deep |
| `ReportContract.BoundedValues` | src/report_contract.py:146-166 | The reader's worklist accepts exactly values within the count, at most 64 deep, with every number finite and convertible |
| `ReportContract.ExpandingCounts` | src/report.py:204-223 | Replacing a container on the worklist by its children conserves the count |
| `ReportContract.DepthOfChildren` | src/report.py:204-223 | Replacing a container by its children one level down keeps the verdict on depth |
| `ReportContract.ValuesWithinTokens` | src/report_contract.py:146-166 | Counting values never exceeds counting values and keys, and value depth never exceeds nesting |
| `JsonText.CheckTextDepth` | src/report_contract.py:181-211 | The scanner with its early exits accepts exactly texts whose token count and greatest depth are within the limits |
| `JsonText.ScanQuote` | src/report_contract.py:186-195 | Whatever a string holds, quotes, backslashes and surrogate pairs included, its text is one token |
| `JsonText.ScanValue` | src/report_contract.py:181-211 | Scanning the printed text of any value counts exactly its tokens and its nesting |
| `JsonText.TranslateValue` | src/report.py:226-235 | Printed text is ASCII, and its Windows file differs by one character for each line feed of the layout |
| `ReportExport.FiniteOnlyKeeps` | src/report.py:289-297 | Normalising non-finite numbers keeps counts, nesting and text |
| `ReportExport.FiniteOnlyIsFinite` | src/report.py:289-297 | It leaves no non-finite number and does not touch finite values |
| `ReportExport.WithinContractBytes` | src/report.py:226-234 | However the encoder cuts its output: within means finite and small enough, over means too large, an error means a non-finite number |
| `ReportExport.PrepareReportExport` | src/report.py:237-269 | The loop with its error path returns exactly the first thinned report that fits, normalised, and raises exactly when nothing more may be thinned; what it returns is the given report after some rounds, with its first and last samples |
| `ReportExport.SelectKept` | src/report.py:258-262 | One round of thinning goes from positions divisible by a power of two to those divisible by the next, keeping the last |
| `ReportExport.ExportRounds` | src/report.py:237-269 | The export is the report after some number of rounds: samples and stride in closed form, other keys untouched, chart facts in step |
| `ReportExport.EndsSurvive` | src/report.py:258-262 | First and last samples survive any number of rounds |
| `ReportExport.ExportReadable` | src/report_contract.py:226-250 | What is exported is small enough ASCII, the scanner accepts it, and the value check accepts it exactly when the given integers that the rounds leave in place convert to floats |
| `ReportExport.GivenDecides` | src/report_contract.py:146-166 | The numbers of the export convert exactly when those of the given report do that the rounds leave in place, the doubled stride included |
| `ReportExport.HugeIntegerIsRefused` | src/report_contract.py:159-166 | A report with an integer too large for a float is exported as it is begun, and then refused |
| `Subscriptions.Subscription.Offer` | src/api.py:228-242 | Offering appends, drops the oldest at the bound, and schedules the subscription or gives its events up |
| `Subscriptions.Subscription.Begin` | src/api.py:244-252 | A turn takes the oldest event, or unschedules a closed or empty subscription |
| `Subscriptions.Subscription.End` | src/api.py:253-268 | After the callback the subscription is queued again exactly if events wait, it is open and the queue has room |
| `Subscriptions.Subscription.Close` | src/api.py:221-226 | Closing drops what waits and counts it |
| `Subscriptions.OfferKeeps` | src/api.py:228-242 | An offer keeps the subscription's account: accepted, dropped, pending and token |
| `Subscriptions.EndKeeps` | src/api.py:253-268 | The end of a callback keeps the account and returns or passes on the token |
| `Subscriptions.StepKeeps` | src/api.py:174-268 | Every locked section keeps: one token exactly when scheduled, pending only when open and scheduled, every accepted offer begun, pending or lost |
| `Subscriptions.Accounts` | src/api.py:194-268 | In every interleaving: accepted equals delivered plus in flight plus dropped plus pending, and callbacks follow the order of offers |
| `Subscriptions.NoOverlap` | src/api.py:244-268 | No two workers are ever in callbacks of one subscription |
| `Subscriptions.ClosedForGood` | src/api.py:221-226 | Once closed, no later step begins another callback |
| `SessionCommands.StepKeeps` | src/api.py:372-387 | Every locked section of callers and controller keeps queue, futures and answers consistent |
| `SessionCommands.NeverRuns` | src/api.py:382-387 | A caller told that its command cannot have run is right, whatever happens later |
| `SessionCommands.RunsInOrder` | src/api.py:444-473 | Commands run at most once, in the order accepted, and an answer tells whether they ran |
| `SessionCommands.AllResolved` | src/api.py:547-555 | Once a session is over every accepted command is resolved |
| `ProcessHistory.RecordCovered` | src/process_history.py:76-99 | Recording keeps a measured point for every held sample of the process's life |
| `ProcessHistory.RetireKeeps` | src/process_history.py:233-251 | An exit moves a track to the departed ones and keeps every held total |
| `ProcessHistory.UpdateKeeps` | src/process_history.py:206-211 | Recording a known process adds its value to the sample's sum and changes no earlier one |
| `ProcessHistory.EnterKeeps` | src/process_history.py:200-211 | Recording a new process adds its value to the sample's sum and changes no earlier one |
| `ProcessHistory.ProcessHistory.Retire` | src/process_history.py:233-251 | An exit appends exactly that track as gone at that time, is counted once, is a candidate for restarts, and leaves the other tracks alone |
| `ProcessHistory.ProcessHistory.RecordOne` | src/process_history.py:194-211 | A process continues its track, or after a reused PID replaces it; room for points is used when there is any |
| `ProcessHistory.ProcessHistory.Replaced` | src/process_history.py:269-285 | A restart consumes the latest unconsumed exit of the same name and parent at most ten seconds old, and none only if there is none |
| `ProcessHistory.RestartsWithinExits` | src/process_history.py:269-285 | Each restart has an exit of its own, so restarts never outnumber exits |
| `ProcessHistory.ProcessHistory.RestartsBounded` | src/process_history.py:253-267 | Restarts never outnumber starts or exits |
| `ProcessHistory.ProcessHistory.Observe` | src/process_history.py:178-218 | After each sample of distinct PIDs, with times advancing since the windows were last restarted: live is the first tree plus starts minus exits, as many tracks as allowed hold points, every held total is spread over them, every exit since ends a track of before, and a measured sample within the bounds costs nothing younger than the age limit |
| `ProcessHistory.ProcessHistory.RestartWindows` | src/process_history.py:168-176 | Forgetting points keeps tracks and counts, gives up exactly the samples so far, and lets the next sample come at any time, an earlier one included |
| `ProcessHistory.ChangeIsDifference` | src/process_history.py:386-400 | The signed change computed for a track is the difference of what it held at the ends of the window |
| `ProcessHistory.AttributionConserves` | src/process_history.py:385-403 | Over a window of sample times that lost no points since the windows were restarted, signed changes sum to the change of the total, across starts, exits, PID reuse and clock steps before it |
| `ProcessHistory.GrowthBoundsNet` | src/process_history.py:401-403 | New plus existing growth is at least the net change, and equals it exactly when no process shrank |
| `ProcessHistory.ProcessHistory.Attribute` | src/process_history.py:373-421 | The loops compute new growth, existing growth and arrivals, which bound the change of the total with equality exactly when nothing shrank |
| `SnapshotHistory.SnapshotHistory.Append` | src/history.py:60-74 | The kept entries are exactly the appended ones that were pinned or lie at multiples of the stride, fewer than the limit; the stride is a power of two no larger than the session needs |
| `SnapshotHistory.SnapshotHistory.Thin` | src/history.py:76-81 | One thinning doubles the stride and brings a full history below its limit |
| `SnapshotHistory.KeptTwice` | src/history.py:76-81 | Thinning what was kept is keeping at the doubled stride |
| `SnapshotHistory.ThinnedCount` | src/history.py:76-81 | A full history falls below the limit, and had seen enough to need the wider stride |
| `SnapshotHistory.SnapshotHistory.Iterate` | src/history.py:86-95 | Iteration yields what the stride keeps, in order, always with the first and the latest snapshot |
| `LeakDetector.ResourceSeries.Add` | src/leak_detector.py:148-154 | Points stay in increasing time; a clock that did not advance costs all older ones, age only those past it |
| `LeakDetector.ResourceSeries.Extend` | src/leak_detector.py:629-653 | The points are always the longest run of newest observations that were measured over the same processes, at increasing times, within the age |
| `LeakDetector.MonotonicIncreaseRatio` | src/leak_detector.py:1210-1214 | The share of steps that do not fall |
| `LeakDetector.DropRatio` | src/leak_detector.py:1217-1226 | The fraction of steps that end under the highest value so far |
| `LeakDetector.RisesAndDrops` | src/leak_detector.py:1210-1226 | Every step rises or drops |
| `LeakDetector.FewDropsAreMonotonic` | src/leak_detector.py:60-69 | The two ratios sum to at least one, so passing the drop check implies passing the monotonic check |
| `LeakDetector.RisingCross` | src/stats.py:19-27 | Values that never fall over ascending times do not correlate negatively, and positively unless constant |
| `LeakDetector.SlopeSign` | src/stats.py:8-27 | The least-squares slope is positive on values that never fall and rise, and not positive on values that never rise |
| `LeakDetector.FallingNeverQualifies` | src/leak_detector.py:1100-1108 | A window whose values never rise is never a signal |
| `LeakDetector.RisingPassesShape` | src/leak_detector.py:1100-1108 | A window whose values never fall, and rise, passes every shape check |
| `LeakDetector.MoreGrowthIsNoMilder` | src/leak_detector.py:1243-1270 | More growth, a steeper or steadier rise, or a longer window never lowers the severity |
| `LeakDetector.EvaluateWindows` | src/leak_detector.py:1059-1158 | Every window is judged, and the alert is the strongest, from the shortest window of that severity |
| `Analysis.SignalChanges` | src/analysis.py:197-216 | Per resource, the nested loops give exactly the raises and escalations of its own readings |
| `Analysis.AlertEpisodes` | src/analysis.py:234-279 | Per resource, the loops and the final sort give exactly the episodes of its own readings, in order |
| `Analysis.EpisodesAreRuns` | src/analysis.py:234-279 | Episodes are exactly the maximal runs of signalled samples, each with the greatest severity and the first message that reached it |
| `Analysis.RaisesStartEpisodes` | src/analysis.py:197-279 | There is one raise per episode, at the moment it starts |
| `Analysis.SeverityReached` | src/analysis.py:197-279 | Some change inside an episode reaches its severity with its message |
| `Analysis.FoldsAgree` | src/analysis.py:180-279 | Both folds agree on every report whose stored alerts have a rank |
| `Analysis.FoldsAgreeExactly` | src/analysis.py:197-279 | On any readings in time order the raises are the starts of the episodes exactly when each run begins above rank zero and nothing in it rises from rank zero |
| `Analysis.RankZeroDisagrees` | src/analysis.py:255-271 | A reading of rank zero, which the loader drops, would make an episode that was never raised |
| `Privacy.FindOrigin` | src/privacy.py:161-172 | The worklist finds the least moment on any time path, or zero when there is none |
| `Privacy.Redactor.Transform` | src/privacy.py:189-254 | The walk that numbers as it goes gives each value what the finished numbering of the whole report gives it |
| `Privacy.PureStable` | src/privacy.py:176-181 | Once everything a value asks for has its number, later numbering does not change what is left of it |
| `Privacy.PureAgain` | src/privacy.py:189-243 | A redacted value makes the corresponding calls, is left as it is by the corresponding tables, and keeps its moments |
| `Privacy.AfterImages` | src/privacy.py:176-181 | The redacted report numbers one, two, three as one, two, three |
| `Privacy.RedactReport` | src/privacy.py:156-270 | The share profile as a whole: origin, walk, own keys and freshly numbered markers |
| `Privacy.RedactTwice` | src/privacy.py:156-270 | Redacting a redacted report changes its fresh report id and nothing else |
| `Privacy.ViewSuffices` | src/privacy.py:147-153 | Redaction depends only on what the schema can see of a report |
| `Privacy.LookAlikes` | src/privacy.py:156-270 | Two reports that agree through the schema and on the version redact to the same report |
| `Privacy.NumbersDiffer` | src/privacy.py:173-229 | One numbering serves the whole report: different processes and identities get different numbers |
| `PrivacyTimes.TimesMove` | src/privacy.py:183-245 | Through the whole walk, every moment at a permitted path of a report stands at the corresponding path of its redaction, moved by the one shift or dropped if it cannot be written |
| `PrivacyTimes.DifferencesSurvive` | src/privacy.py:183-245 | Between any two time fields of a report that a redaction keeps, the difference is the one in the report, none is before the fixed date, and every stamp that is a number is kept |
| `PrivacySchema.RootIsReportSchema` | src/privacy.py:26-131 | The schema of the share profile, written out, is one for which all of this is proved: each record that names or identifies a process says which one |
| `Keys.DecodeAnsi` | src/keys.py:107-148 | The index loop finds exactly the keys of its chunk and keeps back exactly an unfinished sequence |
| `Keys.ChunksCompose` | src/keys.py:107-148 | Decoding does not depend on where the input is cut |
| `Keys.RemainderWaits` | src/keys.py:107-148 | What is kept back yields no key by itself and stays what it is |
| `Keys.FinalLeavesNothing` | src/keys.py:151-158 | With the final flag nothing is kept back |
| `Keys.SequenceIsOneKey` | src/keys.py:126-147 | A control sequence is at most one key, and what follows it is decoded as if alone |
| `Keys.BrokenSequence` | src/keys.py:126-147 | A sequence broken off at any character decodes as what follows it; no input is lost exactly when that character is a final byte, names no key, or is an escape that would go unnoticed |
| `Keys.EscapeUnnoticed` | src/keys.py:126-147 | An escape typed before further input goes unnoticed exactly when nothing more is there yet, or what follows opens two alike sequences of which the escape takes one |
| `Keys.BrokenSequenceLeaks` | src/keys.py:126-147 | A sequence broken off by an escape leaks the tail of the next one |
| `Keys.KeyReader.ReadPosix` | src/keys.py:235-262 | Over any polls the keys found are those of the whole input; a lone escape is flushed only after it has waited |
| `Keys.KeyReader.Read` | src/keys.py:212-218 | Keys are handed out one at a time, all of them, in order; when none waits the poll's whole input is decoded and accounted for, and a lone escape is flushed only after it has waited |
| `BaselineControl.ReplayAll` | src/baseline_control.py:355-399 | Replaying from the front with early refusal is the replay of the whole log |
| `BaselineControl.ReplayExtended` | src/baseline_control.py:355-399 | Replaying a longer log is one step from replaying the log |
| `BaselineControl.RefusedStays` | src/baseline_control.py:355-399 | A log is accepted only if every beginning of it is |
| `BaselineControl.ReplayMeans` | src/baseline_control.py:372-399 | The revision counts promotions, the evidence is the latest promotion's, and every live suppression was recorded for the current revision and workload |
| `BaselineControl.EqualHeads` | src/baseline_control.py:362-368 | Two accepted logs with equal head digests are identical, or two different entries of theirs have one digest; no assumption on the digest is made |
| `BaselineControl.SoundIsIntact` | src/baseline_control.py:429-445 | In a sound store the approved evidence is present under its digests; and unless two different reports with one digest were ever offered, it is exactly what was approved, within the group's bytes and eligible |
| `BaselineControl.BaselineStore.Append` | src/baseline_control.py:401-427 | In memory the state stays the replay of the audit; on disk the manifest is replaced whole and stays sound, crashes included |
| `BaselineControl.BaselineStore.PublishAll` | src/baseline_control.py:472-490 | Evidence within the group's bytes is published under its digest; existing objects are verified and never replaced; in a sound store what is then there is the reports given, unless different reports with one digest were offered |
| `BaselineControl.BaselineStore.Promote` | src/baseline_control.py:447-492 | Reports that are not eligible, or that do not compare as accepted with the intact approved evidence, are refused before anything is written. A promotion raises the revision, names exactly its evidence, takes its budgets and workload, and clears suppressions; the baseline is then ready with exactly these reports, unless digests clash; at every crash point the manifest's evidence is on disk |
| `BaselineControl.BaselineStore.Suppress` | src/baseline_control.py:514-528 | A suppression needs intact and usable evidence, a known scope and an expiry within ninety days, names the current revision and workload, and is added to the others; clocks may step between its readings |
| `BaselineControl.BaselineStore.Reports` | src/baseline_control.py:429-445 | Evidence is returned exactly when there is a baseline and all of it is present, unchanged, within the group's bytes and eligible together, which in a sound store it is unless digests clash |
| `BaselineControl.BaselineStore.Check` | src/baseline_control.py:530-562 | A verdict is given exactly when the commit, the reports and the budgets given are admissible and the baseline's evidence is ready. It is on the comparison of that evidence with the reports under the merged budgets: three exactly when inconclusive, zero exactly when an active suppression of the current baseline covers every finding, one exactly when a regression is not covered |
| `BaselineControl.Open` | src/baseline_control.py:306-353 | A store opens exactly when its manifest is within bounds and replays |

## Left out

- Rendering, the terminal interface, argument parsing, configuration discovery and message texts.
- Process creation, pipes, job objects, Windows security, psutil and `/proc`: these are choices of the environment here.
- `ProcessRunner`: a second start of one manager, the poll thread (covered by refreshing at any time), ending the launched
  child by its handle, and the order by depth in which processes are signalled (any order is allowed).
- `AgentService.AgentRegistry.StartSession`: the checks on arguments, targets and storage that come before admission are
  one answer of the environment; exports and checkpoints are outside, except that an export may leave the report directory.
- `AgentService.PuttingBackKeeps`: after a failed start a retired record returns to the front, so the set of records is
  restored and their order is not, as in the code.
- `ControlFiles.RetryCompletes`: a single retry left alone; the checks of file ownership are answers of the environment.
- Real file systems: a replace, an unlink and the release of a lock by a dying process are single steps.
- Python's JSON parser: what the reader decodes is taken to be the value that was printed. Integers of more than 4300
  digits, which Python refuses to print, and dictionary keys that are not strings are outside.
- `src/report_contract.py` schema validation, summaries, and the reader's error texts.
- `Subscriptions.CallbackQueue`: a queue of subscription numbers; the interleaving is over values, with one method per
  locked section proved against them.
- `SessionCommands.StepKeeps`: the steps are modelled on values; the session's own fields and what a command does are not.
- `ProcessHistory.ProcessHistory.Attribute`: one metric is followed, and the ranking and naming of contributors is left out.
- `LeakDetector.EvaluateWindows`: warm-up, clock checks and the wording of an alert; rounding of floats.
- `Privacy.RedactReport`: the schema is a parameter, proved to fit for the share profile's own; the version pattern is a
  parameter, dates are known by their moment, and the minimal profile is left out. Both validations of a report are outside.
- `PrivacyTimes.DifferencesSurvive`: a moment whose shifted date cannot be written is dropped, as in the code; which
  dates those are is decided by Python's calendar and is not part of this model.
- `Keys.KeyReader.ReadPosix`: UTF-8 decoding, terminal modes and the Windows console.
- `BaselineControl.BaselineStore.Promote`: eligibility, budgets, signals and the comparison of runs are functions of the
  reports given as parameters (`Criteria`), not modelled themselves; the writer lock is held throughout.
- `BaselineControl.BaselineStore.Check`: the comparison is such a parameter, applied to the evidence, reports and budgets.
- `BaselineControl.BaselineStore.Reports`: an object that cannot be read or parsed counts as absent.
- Budget comparison, repeated-run comparison, HTML, headless output and the installation check.
