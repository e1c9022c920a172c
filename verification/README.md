# Event module: verified model

A Dafny model of the hard cores of an event-management module written in Rust, and proofs of what
they promise. Each service that works step by step is a class whose methods are proved equal to a
function of its state; the laws are lemmas about those functions, over every input, every reply of the
outside world and every run.

- **Lead generation** (`Lead*.dfy`): the leased, batch-capped walk that groups registrations and shows
  them to a host's sink. The host, the database and crashes are one oracle, asked once per awaited
  operation: it accepts, refuses, or fails with or without the write having landed.
- **Mail and SMS scheduling** (`Mail*.dfy`): receipts materialised lazily, a receipt loop without a
  cursor, completion by receipt truth, the overflow re-arm, and passes that overlap.
- **Capability tokens** (`Base64.dfy`, `Capability.dfy`, `MyTickets.dfy`): base64url on 8-, 6- and
  32-bit vectors, the token frame, and the ticket report. HMAC-SHA256, JSON and uuid parsing are
  parameters: MACs have 32 bytes, JSON and printed uuids read back.
- **The /ics body** (`Ics.dfy`, `IcsFeed.dfy`): escaping, folding and joining against a reader written
  from sections 3.1 and 3.3.11 of RFC 5545.
- **Throttling and intake** (`Throttle.dfy`, `Intake.dfy`), **seats, sales and the desk**
  (`Seats.dfy`, `SaleSeam.dfy`, `SaleLaws.dfy`, `Desk.dfy`, `DeskProtocol.dfy`), **lead rules**
  (`LeadRules.dfy`), and which of these steps wake the mail rows and the lead queue (`Arming.dfy`).

Beside the laws stand the answers: the `*Columns.dfy` files say, without the functions the services are proved
equal to, when each operation succeeds, what it answers otherwise, and every column it writes; `LeadSolo.dfy`
and the `Solo` lemmas of the protocols say that each interleaved model, left undisturbed, is the serial one.

`Text.dfy`, `Sets.dfy`, `Wrappers.dfy`, `Registrations.dfy` and `EventReads.dfy` hold what they share.
Check everything with `dafny verify dfyconfig.toml`.

## Where the text and the code part

The model follows the code. These are the places where its own comments say something else; each is a
lemma.

- Folding is said to be at 75 octets; it counts characters. `Ics.OctetBoundIff` says exactly when the
  octet bound holds, `Ics.ThirtyIdeographsOverrun` shows it broken. The last line has no CRLF after it.
- No failure is said to wedge a scheduler; the receipt loop has no cursor and a refused receipt stays
  due, so `batch` refusers keep one run turning until the event ends (`MailWalk.WalkGoesOn`,
  `MailWalk.WindowEndsIt`, `MailWalk.WalkEndsIffFewRefuseOrWindowShuts`).
- Running a scheduler row by hand is said to duplicate nothing; a pass that fetched a receipt before
  another settled it sends it again (`MailProtocol.TakenTwiceIffTwoFetchedInTime`,
  `MailProtocol.StaleFetchSendsAgain`).
- A late registrant is said to re-open a completed row; only rows of the subscription kind are re-opened,
  and only by somebody entering as open (`Arming.LateRegistrantReopensIff`).
- The paid heal is said to re-arm the lead queue on its own; neither heal writes it
  (`Arming.NewcomerQueuesIff`, `Arming.PaidLateNeverQueued`).
- A re-run over an expired lease is said to be idempotent through the provenance unique; a walker that
  upserted before a lead was stored creates one all the same (`LeadCreates.CreatedTwiceIffTwoSawNoLead`).
- The escaping is said to be that of RFC 5545; a carriage return or other control character goes through
  (`Ics.EscapeIsTextIff`).
- The lease is said to cover the whole walk; it covers `LEASE_SECONDS` of it, and a finish releases
  whichever lease is on the row, and whatever was armed meanwhile (`LeadLease.SecondClaimIffOverdue`,
  `LeadLease.FinishReleasesTheOther`, `LeadLease.ArmDuringWalkIsLost`, `LeadOwed.DoneOwesOnlyTheLate`).
- One register head is said to be the only seat-taking path; the two heals write `open` beside it
  (`SaleLaws.HealKeepsCapIff`, `SaleLaws.PaidOrderOversells`), and it counts per slot wherever a row
  names one, on an event not flagged multi-slot too (`Seats.RegisterKeepsBoundIff`, `Seats.CapExceeded`).
- A second scan is said to be refused without a write, and a cancelled ticket too; that holds for scans one
  after another. The look and the write are separate transactions: two desks admit one ticket when both
  look before either writes, and a single desk admits a ticket cancelled between the two, undoing the
  cancellation (`DeskProtocol.AdmittedAgainIff`, `DeskProtocol.WrittenOverIff`,
  `DeskProtocol.TwoDesksBothAdmit`, `DeskProtocol.CancelledTicketAdmitted`).
- An /ics token is said to expire; minted to end at second zero it never does (`Capability.IcsLifetime`).

## Model

| member | source | states |
|---|---|---|
| `LeadGrouping.GroupByPartitions` | src/application/service/lead_generation_service.rs:229-259 | grouping a batch is a partition: groups in key order, exactly the batch's keys, sizes adding up to the batch |
| `LeadGrouping.GroupBySelects` | src/application/service/lead_generation_service.rs:229-259 | each group holds exactly the batch rows of its key, in walk order |
| `LeadGrouping.KeyDeterminesSlot` | src/application/service/lead_generation_service.rs:229-253 | the group key alone decides the grouping, the order, and for a day group the event |
| `LeadDrain.GroupByHomes` | src/application/service/lead_generation_service.rs:229-259 | every batch row lands in exactly one (rule, key) group and nowhere else |
| `LeadColumns.TogetherIff` | src/application/service/lead_generation_service.rs:229-259 | two rows of a batch share a group if and only if both are on one order, or neither is on any and they were created on the same day, a missing day counting as unknown-day |
| `LeadColumns.GroupNames` | src/application/service/lead_generation_service.rs:231-253 | an order's group is per_order under the order's id, a walk-in's per_event_day under the event and the day |
| `LeadColumns.GroupOrder` | src/application/service/lead_generation_service.rs:229-261 | groups are committed by grouping and then key, each in character order |
| `LeadColumns.PredicatesConjoin` | src/infrastructure/persistence/lead_command_repository.rs:507-556 | a rule fetches whom each half of its predicates alone would fetch |
| `LeadColumns.UnfilteredFetch` | src/infrastructure/persistence/lead_command_repository.rs:557-569 | under no predicate exactly the event's active open or done rows that no group of the rule holds |
| `LeadColumns.AxisFetch` | src/infrastructure/persistence/lead_command_repository.rs:522-556 | under one predicate those of them whose column answers its axis, column by column for the four axes |
| `LeadColumns.PendingInOrder` | src/infrastructure/persistence/lead_command_repository.rs:566-569 | a fetch cut short takes the lowest ids, in order |
| `LeadColumns.RulesOfEvent` | src/infrastructure/persistence/lead_command_repository.rs:491-505 | the rules walked are the active ones whose scope is the event or none, in id order |
| `LeadInvariant.CommitCallIsFull` | src/application/service/lead_generation_service.rs:255-316 | a commit makes at most one sink call, and it carries the group's junctioned members followed by the newcomers, nobody twice |
| `LeadColumns.CommitCallTells` | src/application/service/lead_generation_service.rs:255-310 | the call names group, event, grouping and the lead to update, and shows each member's or newcomer's own columns; it is made unless a read failed or the group has its lead and gains nobody |
| `LeadColumns.AnsweredCommit` | src/application/service/lead_generation_service.rs:288-318 | with no fault met: a refusal parks with its reason, an accepted create stores the very lead the host returned, an update keeps the lead, and exactly the members not in the group before are junctioned |
| `LeadInvariant.CommitGroupKeepsJunctionInv` | src/application/service/lead_generation_service.rs:255-319 | committing one group, cut off anywhere, keeps: junctioned rows have a lead, were in the last payload accepted for their group, and sit in one group per rule |
| `LeadInvariant.CommitGroupKeepsPayloadInv` | src/application/service/lead_generation_service.rs:261-316 | no payload ever sent names a registration twice |
| `LeadInvariant.CommitGroupKeepsCreateInv` | src/application/service/lead_generation_service.rs:304-316 | a group has been created as often as it has a lead, plus at most once per fault |
| `LeadDrain.CommitGroupsJunction` | src/application/service/lead_generation_service.rs:255-319 | the groups committed are exactly those before the refused one in map order; a fault may add the one it hit |
| `LeadDrain.CommitGroupParkedWritesNothing` | src/application/service/lead_generation_service.rs:294-310 | a refused group junctions nobody and leaves one unaccepted call in the log |
| `LeadRuns.CreateIsLostExactly` | src/application/service/lead_generation_service.rs:304-316 | a lead will be created again if and only if the host took the create and the walk was cut off before the lead id was stored |
| `LeadRuns.SinkBeforeJunction` | src/application/service/lead_generation_service.rs:288-318 | over every run of passes, officer walks, edits and merges, with a fault or crash between any two writes: a junctioned row was in an accepted call and in the last accepted payload of its group, the group has a lead, one group per rule, creates at most 1 + faults |
| `LeadProtocol.SinkBeforeJunctionConcurrently` | src/application/service/lead_generation_service.rs:255-319 | the same safety for any number of walkers interleaved one awaited operation at a time, each free to die |
| `LeadSolo.SoloIsCommit` | src/application/service/lead_generation_service.rs:255-319 | one walker's interleaved moves, undisturbed, leave the provenance, junction and log of the serial commit |
| `LeadProtocol.SharedOrderCreatesTwice` | src/application/service/lead_generation_service.rs:231-237 | a run in which two walkers of different events share an order's group: created twice without a fault or a death, the last payload missing a member |
| `LeadCreates.CreatedTwiceIffTwoSawNoLead` | src/application/service/lead_generation_service.rs:255-316 | over every run of any number of walkers, deaths included, a group has been created once for each accepted call of a walker whose upsert saw no lead; with nobody dead, twice if and only if two walkers upserted it before a lead was stored and both calls were accepted |
| `LeadApart.ApartIsSafe` | src/application/service/lead_generation_service.rs:255-319 | walkers at once, no two inside one group's commit nor holding one registration under one rule: last payload, lead, one group per rule, no repeats, creates at most 1 + deaths, as for one walker |
| `LeadApart.EventsMeetInAnOrder` | src/application/service/lead_generation_service.rs:231-237 | walkers of different events meet in a group exactly when both carry the same order |
| `LeadFleet.LeaseKeepsWalksSafe` | src/application/service/lead_generation_service.rs:158-319 | claims, walks, deaths, finishes, arms and edits in any interleaving: with no walk outliving its lease and no order across events, no two walkers are on one event or in one group, and the laws of a single walk hold, creates at most 1 + deaths |
| `LeadConvergence.WalkKeepsTarget` | src/application/service/lead_generation_service.rs:158-217 | whatever the host replies, a walk does not move what the event is owed; a completed walk has delivered all of it |
| `LeadShape.BatchIndependence` | src/application/service/lead_generation_service.rs:166-202 | completed walks of one state leave the junction and provenance rows of the one-shot grouping of all eligible rows, whatever the batch sizes and minted leads |
| `LeadConvergence.ParkRetryConverges` | src/application/service/lead_generation_service.rs:183-216 | with k bad replies (refusals, faults, crashes) at most k walks fail, the next completes, and everybody owed is grouped |
| `LeadConvergence.ConvergesToUndisturbed` | src/application/service/lead_generation_service.rs:183-216 | the junction a retried event ends with is that of one undisturbed walk |
| `LeadConvergence.RerunIsQuiet` | src/application/service/lead_generation_service.rs:166-202 | walking a completed event again calls no sink and writes no group |
| `LeadAccounting.WalkRuleAccounts` | src/application/service/lead_generation_service.rs:170-198 | undisturbed, N eligible rows take N / batch + 1 fetches, N matches, one accepted call per group written, created and grown counted alike on both sides |
| `LeadRun.BatchStepShrinks` | src/application/service/lead_generation_service.rs:170-198 | each trip of the drain loop that goes on leaves fewer rows un-junctioned, whatever the host replies |
| `LeadPass.PassConserves` | src/application/service/lead_generation_service.rs:116-136 | a pass claims at most the cron limit and no event twice; on normal return claimed = completed + parked |
| `LeadPass.PassLoopNeverReclaims` | src/application/service/lead_generation_service.rs:104-136 | an event completed or parked by a pass is not claimed by it again |
| `LeadPass.PassLoopExhausts` | src/application/service/lead_generation_service.rs:119-135 | a pass that returns under its limit has looked, at its own last operation, at a queue with nothing due but the events it parked, and leaves that queue |
| `LeadPass.OfficerRunsIffUnleased` | src/infrastructure/persistence/lead_command_repository.rs:401-445 | the officer verb runs exactly when nobody holds a fresh lease, is busy or not found otherwise and then writes nothing; its lease keeps passes off until it expires |
| `LeadLease.OneWalkerPerEvent` | src/application/service/lead_generation_service.rs:50-56 | while every walk ends within its lease no reachable state has two walkers on one event |
| `LeadLease.SecondClaimIffOverdue` | src/infrastructure/persistence/lead_command_repository.rs:350-445 | an event being walked can be claimed again exactly once its walk has outlived the lease |
| `LeadLease.FinishReleasesTheOther` | src/infrastructure/persistence/lead_command_repository.rs:466-490 | of two overlapping walks the first to finish releases the other's lease |
| `LeadLease.ArmDuringWalkIsLost` | src/infrastructure/persistence/lead_command_repository.rs:466-490 | an arm that falls into a walk leaves no trace once the walk completes: the row is done and no pass claims it |
| `LeadOwed.CompletedWalkJoins` | src/application/service/lead_generation_service.rs:166-202 | a walk that completes has junctioned every row it fetched, however many others were at work, overlapping it or not |
| `LeadOwed.DoneIff` | src/infrastructure/persistence/lead_command_repository.rs:466-490 | an event is done exactly when a walk of it completed and no arm or other finish has come since |
| `LeadOwed.DoneOwesOnlyTheLate` | src/application/service/lead_generation_service.rs:166-217 | of a done event, whoever a rule still owes was not eligible when the completed walk made the fetch that took all there was: owed until the next arm, even if an arm announced them |
| `LeadColumns.ClaimTakes` | src/infrastructure/persistence/lead_command_repository.rs:370-399 | a claim stamps the first row not done, not excluded, and not leased within the last 900 seconds, and changes nothing else |
| `LeadSolo.ClaimIsCronClaim` | src/infrastructure/persistence/lead_command_repository.rs:370-399 | the pass's claim is the lease model's cron claim, made exactly when one is enabled |
| `LeadSolo.TryLeaseIsOfficerClaim` | src/infrastructure/persistence/lead_command_repository.rs:406-427 | the officer's lease is the lease model's officer claim, taken exactly when enabled |
| `LeadSolo.FinishIsFinish` | src/infrastructure/persistence/lead_command_repository.rs:472-490 | a finish is the lease model's finish |
| `LeadSolo.ArmIsArm` | src/infrastructure/persistence/lead_command_repository.rs:344-355 | an arm is the lease model's arm |
| `LeadService.LeadGeneration.CommitOne` | src/application/service/lead_generation_service.rs:255-316 | one group's writes, in order, are the commit function the invariants are about |
| `LeadService.LeadGeneration.GenerateGroups` | src/application/service/lead_generation_service.rs:222-319 | the two loops group and commit exactly as the specification, first refusal returned |
| `LeadService.LeadGeneration.DrainRule` | src/application/service/lead_generation_service.rs:166-202 | the batch loop ends, and equals the recursive drain |
| `LeadService.LeadGeneration.RunEvent` | src/application/service/lead_generation_service.rs:158-217 | one event's walk and the finish of its row |
| `LeadService.LeadGeneration.ClaimNextDueRequest` | src/infrastructure/persistence/lead_command_repository.rs:350-399 | the first due row outside the excluded ones is leased |
| `LeadService.LeadGeneration.RunDueLeadRequests` | src/application/service/lead_generation_service.rs:116-136 | the pass loop equals the pass function, claims and parks in order |
| `LeadService.LeadGeneration.RunRequestOfEvent` | src/application/service/lead_generation_service.rs:143-152 | the officer verb equals its specification |
| `LeadRules.ValidatePredicates` | src/application/service/lead_command_service.rs:194-237 | passes every predicate unchanged, or names the first flaw; passes exactly the lists whose every member has a known axis, values, and a question on question_answer only |
| `LeadRules.LeadRuleCommandService.CreateRule` | src/application/service/lead_command_service.rs:102-130 | refusals in order; otherwise the whole row and the armed queue rows are added together, and every stored rule stays one the gate admits |
| `LeadRules.LeadRuleCommandService.FromAnswer` | src/application/service/lead_command_service.rs:145-161 | the bridged predicate is one the gate would admit |
| `LeadRules.LeadRuleCommandService.PatchRule` | src/application/service/lead_command_service.rs:132-141 | an empty name refused first, an unknown rule not found; otherwise name, scope and active flag move, no predicate or trigger does, and reactivation arms the new scope |
| `LeadRules.WalkDrainsIffVocabulary` | src/application/service/lead_command_service.rs:191-194 | with everything accepted, a walk drains if and only if every active rule keeps to the vocabulary the gate enforces |
| `LeadRules.GatedRulesDrain` | src/application/service/lead_command_service.rs:191-194 | over rules the gate let through, nothing but a refusal or a fault keeps a walk from completing |
| `LeadRules.ArmQueuesTheScope` | src/infrastructure/persistence/lead_command_repository.rs:157-168 | a new rule queues every event in its scope wherever the new rows land in the queue's order, loses no queued one and queues none twice |
| `RuleColumns.GateAnswers` | src/application/service/lead_command_service.rs:194-237 | the gate names the first predicate with a foreign axis, no values, or a question missing or refused, and passes a list exactly when there is none |
| `RuleColumns.RuleRefusals` | src/application/service/lead_command_service.rs:102-127 | which of the refusals a rule gets, each exactly when the checks before its own pass |
| `Text.TrimIsBare` | src/application/service/lead_command_service.rs:103-104 | trimming leaves what stands between the white space, and nothing of it |
| `Text.SpaceIffWhite` | src/application/service/lead_command_service.rs:103-104 | white space is the characters Unicode calls so |
| `RuleColumns.StoredRule` | src/application/service/lead_command_service.rs:103-129 | the rule stored, column by column: bare name, scope, basis, active, and each trigger exactly as asked |
| `RuleColumns.PatchedRule` | src/infrastructure/persistence/lead_command_repository.rs:192-206 | a patch moves name, scope and active flag where given and no other column |
| `RuleColumns.ArmedRow` | src/infrastructure/persistence/lead_command_repository.rs:344-355 | an arm undoes the event's row and nothing else, or adds one where its id falls |
| `MailModel.DueRowsFacts` | src/infrastructure/persistence/scheduler_repository.rs:207-228 | a fetch considers exactly the unsent, due receipts of eligible registrations |
| `MailWalk.FetchFacts` | src/infrastructure/persistence/scheduler_repository.rs:207-228 | a fetch returns due rows without repeats: all of them, or as many as the limit |
| `MailColumns.FetchInOrder` | src/infrastructure/persistence/scheduler_repository.rs:205-226 | of the unsent receipts due, of registrations taking part, the first ones: the unscheduled first, then by date, then by registration |
| `MailColumns.MissingIs` | src/infrastructure/persistence/scheduler_repository.rs:136-184 | those taking part without a receipt, in id order |
| `MailColumns.ReceiptsMade` | src/infrastructure/persistence/scheduler_repository.rs:136-184 | the first batch of them get a receipt, unsent, due the row's delay after their creation, and no other receipt is touched |
| `MailColumns.SettledIs` | src/infrastructure/persistence/scheduler_repository.rs:283-308 | a row is done exactly when everybody taking part has a receipt that is sent |
| `MailColumns.TurnAddresses` | src/application/service/scheduler_service.rs:210-272 | a turn adds to the log nothing, a drop once the window is shut, or one message to its own registration: by sms to its bare telephone number, by mail to its stored address, which holds an at sign |
| `MailColumns.TurnEnds` | src/application/service/scheduler_service.rs:161-272 | how a turn ends, receipt, error, counter and message: dropped, failed to render, without an address exactly when the channel's column holds none, refused by its own queue, or queued |
| `MailColumns.RunAddresses` | src/application/service/scheduler_service.rs:134-299 | every message of a run goes to a registration of its event, on the row's channel |
| `MailColumns.HistoryAddresses` | src/application/service/scheduler_service.rs:134-299 | over any history of runs and edits every message went to a registration the row had at the time, on the channel it had |
| `MailPasses.ClaimableIs` | src/infrastructure/persistence/scheduler_repository.rs:79-112 | a row is claimed while its event is on, it is not done, its date has come, and somebody taking part has no sent receipt |
| `MailPasses.WithoutTemplate` | src/application/service/scheduler_service.rs:135-145 | a row without a template records that failure and nothing else |
| `MailPasses.CloseClears` | src/application/service/scheduler_service.rs:280-286 | a close clears the failure exactly when the row is done |
| `MailWalk.WalkEnds` | src/application/service/scheduler_service.rs:154-278 | the cursor-less receipt loop ends whenever fewer than batch receipts may keep refusing, and whenever the window shuts, whoever refuses; with any clock and any database fault |
| `MailWalk.WindowEndsIt` | src/application/service/scheduler_service.rs:161-170 | any clock that reaches the event's end ends the loop |
| `MailWalk.NobodyStarves` | src/application/service/scheduler_service.rs:154-278 | whenever the loop exits, everybody due at its last fetch who does not refuse has been queued or dropped |
| `MailWalk.WalkEndsIffFewRefuse` | src/application/service/scheduler_service.rs:156-278 | a clock that never runs back, and the window still open after more rounds than unsent receipts: the loop goes on if batch refusers were due at its start, has ended if fewer are due at that moment, and exactly so when none falls due in between |
| `MailWalk.WalkEndsIffFewRefuseOrWindowShuts` | src/application/service/scheduler_service.rs:156-278 | if no refuser falls due later, the loop ends if and only if fewer than batch due receipts refuse or the clock reaches the event's end |
| `MailWalk.WalkGoesOn` | src/application/service/scheduler_service.rs:156-278 | with batch or more refusers due, after any number of rounds that end before the event does the loop still goes on, the refusers untouched |
| `MailWalk.OneBadAddressJams` | src/application/service/scheduler_service.rs:246-253 | one open registration with an empty e-mail and a batch of one: no number of rounds ends the loop while the event is on |
| `MailWalk.AllRefuseNothingMoves` | src/application/service/scheduler_service.rs:156-278 | if everybody due refuses and fills a batch, no receipt changes while the window is open |
| `MailWalk.RoundsStable` | src/application/service/scheduler_service.rs:156-278 | rounds beyond the last change nothing, so the number allowed is no part of the outcome |
| `MailLaws.EnqueueOnce` | src/application/service/scheduler_service.rs:155-278 | over any history of runs, edits of rows, settings and event, and sweeps: a message is taken at most once beyond the faults met, never after its drop, and dropped at most once |
| `MailLaws.WalkDropsLast` | src/application/service/scheduler_service.rs:161-170 | with a clock that never runs back nothing is queued after a drop within a walk, whatever the host and database do |
| `MailLaws.WalkAddsUp` | src/application/service/scheduler_service.rs:155-278 | mail queued + sms queued + dropped counts exactly the receipts made terminal |
| `MailProtocol.TakenTwiceIffTwoFetchedInTime` | src/infrastructure/persistence/scheduler_repository.rs:77-94 | any number of passes at once, each with the channel and event end it read, none cut off: a message has been taken once for each pass that fetched its receipt before anybody settled it and got a yes; so twice if and only if there were two |
| `MailProtocol.StaleFetchSendsAgain` | src/application/service/scheduler_service.rs:161-272 | a run of two passes in which the second sends a receipt the first has already sent and marked |
| `MailProtocol.MessagesAreAddressed` | src/application/service/scheduler_service.rs:161-272 | however many passes overlap, every message went to the registration it names, on the channel its pass had read |
| `MailProtocol.HoldsWhatItRead` | src/application/service/scheduler_service.rs:134-153 | a pass holds the channel as of its claim and the event's end as of its read, whatever is edited between |
| `MailProtocol.SoloIsTurn` | src/application/service/scheduler_service.rs:161-272 | one pass's interleaved moves through a receipt, undisturbed, leave the receipts and the log of the serial turn |
| `MailProtocol.SoloIsRound` | src/application/service/scheduler_service.rs:154-278 | a fetch and its whole batch, undisturbed, leave those of the serial round |
| `MailPasses.CloseRearmsIffWorkLeft` | src/application/service/scheduler_service.rs:280-298 | done if and only if every eligible registration is settled; re-armed if and only if work is left at the moment of the look; never both |
| `MailPasses.NeverWedged` | src/application/service/scheduler_service.rs:135-145 | a claimed row of a live event, run to the end, is done with everybody settled, or claimable at every later moment |
| `MailPasses.PassServesABatch` | src/application/service/scheduler_service.rs:147-298 | an accepting pass serves the first batch of missing registrations and everybody with an unsent receipt, and is done or re-armed |
| `MailPasses.PassesComplete` | src/application/service/scheduler_service.rs:147-298 | with N registrations without a receipt and any number with an unsent one, all due, pass p ends done if and only if N <= p * batch, re-arming on every earlier one |
| `MailPasses.RunByHandReopens` | src/application/service/scheduler_service.rs:301-315 | a run by hand leaves a row done exactly when everybody eligible is settled, completed or not before |
| `MailService.Scheduler.MaterializeReceipts` | src/infrastructure/persistence/scheduler_repository.rs:143-184 | the missing receipts, at most a batch, made in id order |
| `MailService.Scheduler.WalkReceipt` | src/application/service/scheduler_service.rs:161-272 | one receipt's turn ends in one of its seven ways, as specified |
| `MailService.Scheduler.WalkReceipts` | src/application/service/scheduler_service.rs:155-278 | the loop ends, whether few refuse or the window shuts, and equals the rounds function |
| `MailService.Scheduler.CloseRun` | src/application/service/scheduler_service.rs:280-298 | completion, clearing and re-arm as specified |
| `MailService.Scheduler.RunOne` | src/application/service/scheduler_service.rs:134-299 | one run of a row, state and outcome, equals its specification |
| `Base64.AlphabetText` | src/application/service/capability.rs:63-63 | the alphabet is the URL-safe one of section 5 of RFC 4648 |
| `Base64.B64UrlEncode` | src/application/service/capability.rs:60-78 | chunking, padding and trimming give sextet j of the bytes at character j, ceil(4n / 3) of them |
| `Base64.B64UrlDecode` | src/application/service/capability.rs:80-95 | the unmasked 32-bit accumulator reads exactly bits 8k to 8k + 7 of the sextets; None exactly outside the alphabet |
| `Base64.DecodeEncode` | src/application/service/capability.rs:60-95 | decoding undoes encoding, for every byte sequence |
| `Base64.EncodeInjective` | src/application/service/capability.rs:60-78 | different bytes have different texts |
| `Base64.EncodeDecode` | src/application/service/capability.rs:60-95 | decoding accepts exactly the alphabet with floor(3 * length / 4) bytes, and encoding undoes it if and only if the text is canonical |
| `Capability.VerifyAcceptsIff` | src/application/service/capability.rs:138-172 | exactly which tokens are accepted, and with which claims |
| `Capability.RefusalsAreUniform` | src/application/service/capability.rs:134-172 | an unset secret is its own error whatever the token; every other refusal is the same |
| `Capability.MintedVerifies` | src/application/service/capability.rs:126-172 | minting needs a secret and nothing else; the token verifies to its claims if and only if it is live |
| `Capability.OtherPurposeRefused` | src/application/service/capability.rs:155-167 | a token never verifies under another purpose, whatever the MAC collides on |
| `Capability.OtherSecretNeedsACollision` | src/application/service/capability.rs:155-161 | under another secret it verifies exactly where the MACs agree |
| `Capability.MessageSeparates` | src/application/service/capability.rs:103-107 | the signed message determines purpose and payload |
| `Capability.PurposesSeparate` | src/application/service/capability.rs:37-41 | the two purposes never sign the same message |
| `Capability.IcsLifetime` | src/application/service/capability.rs:177-194 | an /ics token is accepted before its end, or for ever when that end is second zero |
| `Capability.TicketTokenIgnoresOrder` | src/application/service/capability.rs:198-213 | two ticket tokens are equal if and only if they name the same event and the same multiset of ids |
| `Capability.LinkTexts` | src/application/service/capability.rs:174-213 | the two links written out: version, the encoded claims with purpose, end, event, slot or sorted ids, and the encoded MAC of context, purpose and claims |
| `Capability.NoSecretNoLink` | src/application/service/capability.rs:124-128 | without a secret no link is minted, and that is the answer |
| `Text.UuidTextIs` | src/application/service/ics_service.rs:139-145 | a printed uuid is its thirty-two hexadecimal digits in groups of 8, 4, 4, 4 and 12 |
| `MyTickets.Report` | src/application/service/my_tickets_service.rs:77-113 | the gated read is verification followed by the granted rows |
| `MyTickets.MintedReport` | src/application/service/my_tickets_service.rs:77-113 | a minted link shows, in text order, exactly the pinned ids that resolve to rows of its published event, each with its row's fields |
| `MyTickets.OnlyPinnedRows` | src/application/service/my_tickets_service.rs:72-103 | whatever token was accepted, only pinned ids and only rows of the event it names are shown |
| `Ics.ChainIsOnePass` | src/application/service/ics_service.rs:101-106 | the four chained replacements escape each character once |
| `Ics.EscapeReadsBack` | src/application/service/ics_service.rs:101-106 | reading the escapes of section 3.3.11 of RFC 5545 recovers any text |
| `Ics.EscapeIsTextIff` | src/application/service/ics_service.rs:99-106 | the escaped name is in the TEXT grammar if and only if it holds no control character but line feeds and tabs |
| `Ics.IcsFold` | src/application/service/ics_service.rs:110-125 | the loop folds into pieces of 74 characters, lines of 75 octets or fewer untouched |
| `Ics.IcsReadsBack` | src/application/service/ics_service.rs:133-160 | unfolding and splitting the body recovers the twelve logical lines, and SUMMARY the exact name |
| `Ics.BodyReadsAs` | src/application/service/ics_service.rs:133-160 | line by line: the fixed lines, the UID of event and slot, DTSTAMP now, DTSTART the slot's or else the event's beginning, DTEND its end, SUMMARY the name |
| `Ics.BodyDeterminesName` | src/application/service/ics_service.rs:133-160 | equal bodies carry the same name and UID |
| `Ics.PhysicalLinesAreShort` | src/application/service/ics_service.rs:110-125 | no physical line has more than 75 characters |
| `Ics.OctetBoundIff` | src/application/service/ics_service.rs:108-125 | every physical line keeps to 75 octets if and only if the summary line is 75 octets or fewer or its 74-character stretches are light enough |
| `Ics.AsciiNameKeepsOctets` | src/application/service/ics_service.rs:108-125 | an ASCII name keeps the octet bound |
| `Ics.ThirtyIdeographsOverrun` | src/application/service/ics_service.rs:108-113 | thirty ideographs break it |
| `IcsFeed.MintedFeed` | src/application/service/ics_service.rs:52-87 | a minted link opens exactly while live, its event published and its slot the event's; its body reads back to that event's lines and name over the slot's hours |
| `IcsFeed.FailuresAreUniform` | src/application/service/ics_service.rs:47-87 | with the database answering every failed read under a secret is the same refusal; a database failure shows only behind a token that verified |
| `Throttle.FixedWindows.Allow` | src/application/service/intake_service.rs:83-119 | one hit restarts a stale window, refuses a full one, counts otherwise, and touches no other key |
| `Throttle.HitIs` | src/application/service/intake_service.rs:92-119 | while the last window runs a hit is counted there if there is room; otherwise it opens a new one |
| `Throttle.StoredWindowBound` | src/application/service/intake_service.rs:69-119 | the stretch of any stored window holds at most max accepted hits, before and after |
| `Throttle.SlidingBound` | src/application/service/intake_service.rs:83-119 | any half-open stretch of a window's length holds at most 2 * max - 1 accepted hits of a key |
| `Throttle.BoundIsMet` | src/application/service/intake_service.rs:83-119 | that bound is met for every max and every window of two seconds or more |
| `Throttle.KeysAreIndependent` | src/application/service/intake_service.rs:83-119 | a key's decisions are those of its own hits run alone |
| `Throttle.SlidingBoundPerKey` | src/application/service/intake_service.rs:83-119 | the sliding bound in any interleaving of keys |
| `Intake.IntakeService.Intake` | src/application/service/intake_service.rs:167-209 | identity, then address, then the register verb with no party named; a throttled call registers nothing |
| `Intake.KeysNeverCollide` | src/application/service/intake_service.rs:175-179 | no identity shares a key with an address |
| `Intake.KeysTell` | src/application/service/intake_service.rs:175-179 | mail addresses that lower alike share a count, callers' addresses only when equal, each under its own limit |
| `Intake.CommandIs` | src/application/service/intake_service.rs:192-207 | the command registered carries every posted field, no party, and no exemption from the lead queue |
| `Intake.GuardCharges` | src/application/service/intake_service.rs:174-191 | a served request charges one hit to each of its two keys; refused for its identity it leaves the address alone, refused for its address it has paid for its identity |
| `Intake.ServedAreIpAccepts` | src/application/service/intake_service.rs:167-209 | the register calls from an address are exactly the accepted hits of its key |
| `Intake.RegisterCallsBounded` | src/application/service/intake_service.rs:167-209 | for requests one after another, register calls per address, and per identity, in any stretch of the window's length number at most 2 * max - 1 |
| `Intake.InterleavedCallsBounded` | src/application/service/intake_service.rs:167-209 | the same for any number of requests at once, their two throttle reads interleaved in any order |
| `Intake.DefaultBounds` | src/application/service/intake_service.rs:133-141 | with the default policy, at most 9 calls per identity and 59 per address in any hour |
| `Intake.DefaultBoundsMet` | src/application/service/intake_service.rs:133-141 | both default bounds are reached by a burst across a window's turn |
| `Intake.RetryAfterIs` | src/application/service/intake_service.rs:183-190 | the wait is the smaller window, at least a second, cut to 32 bits |
| `Intake.RetryAfterIsPositiveIff` | src/application/service/intake_service.rs:183-190 | the advertised wait, cut to 32 bits, is zero exactly for multiples of 2^32 seconds |
| `Seats.SeatRepository.Register` | src/infrastructure/persistence/seat_repository.rs:222-462 | the one register head: refusals in order, one count, the table's own rule on slots, one row, the arm |
| `Seats.SeatRepository.Move` | src/infrastructure/persistence/seat_repository.rs:519-670 | any state to any state, into the seats only through the head; a refusal leaves no trace |
| `SeatColumns.RegisterSucceedsIff` | src/infrastructure/persistence/seat_repository.rs:227-333 | a registration succeeds exactly for an event that exists and is not cancelled, with the slot it needs, no ticket or one of the event's on sale, room among those counted, and a fresh id and barcode |
| `SeatColumns.RegisterRefusals` | src/infrastructure/persistence/seat_repository.rs:227-333 | which refusal it gets otherwise, each exactly when the checks before its own pass; the sale window is shut exactly before its start or after its end |
| `SeatColumns.RegisteredRow` | src/infrastructure/persistence/seat_repository.rs:335-426 | the row registered, column by column; no other row moves; the mails are armed for a row born open |
| `SeatColumns.TransitionSucceedsIff` | src/infrastructure/persistence/seat_repository.rs:519-615 | a state verb succeeds exactly for a known row that needs no seat, or finds its event and room in it beside everybody else |
| `SeatColumns.MovedRow` | src/infrastructure/persistence/seat_repository.rs:519-630 | the row moved: its state, its closing date on the first done, nothing else; armed when it enters open from draft or cancel |
| `Seats.RegisterKeepsBoundIff` | src/infrastructure/persistence/seat_repository.rs:299-333 | an accepted registration keeps every event within its cap if and only if it was not born seated, under a slot, into a full capped event that is not multi-slot |
| `Seats.TransitionKeepsBoundIff` | src/infrastructure/persistence/seat_repository.rs:547-618 | the same for the state verbs |
| `Seats.CapExceeded` | src/infrastructure/persistence/seat_repository.rs:273-275 | a one-seat event that owns two slot rows but is not flagged multi-slot seats two registrations, one per slot |
| `SaleSeam.DistinctEvents` | src/application/service/sale_seam_service.rs:133-139 | the order's events, ascending and once each |
| `SaleSeam.SaleSeamService.OnOrderConfirmed` | src/application/service/sale_seam_service.rs:120-181 | empty refusal, slot guard, one command per spec, then the delivery; an error leaves rows and inbox as they were |
| `SaleColumns.UnroutableIsTold` | src/application/service/sale_seam_service.rs:120-151 | an order without specs is refused, and one with a slot-less spec on a multi-slot event with the event of the first such spec |
| `SaleColumns.CommandsAre` | src/application/service/sale_seam_service.rs:152-170 | each spec becomes a command with its own columns, not exempt from the lead queue |
| `SaleColumns.ConfirmationIs` | src/infrastructure/persistence/sale_seam_repository.rs:146-263 | past the guard: consumed before, nothing changes; known to the order, its rows are lifted or held and counted; only a refused mint is refused, and only what is answered is consumed |
| `SaleColumns.VerbsKeepApart` | src/infrastructure/persistence/sale_seam_repository.rs:117-128 | a confirmation, a payment and a cancellation never consume each other's deliveries |
| `SaleSeam.SaleSeamService.OnOrderPaid` | src/infrastructure/persistence/sale_seam_repository.rs:353-449 | the paid fact once per delivery: held rows open and sold, the others sold, the lines' booths latched |
| `SaleSeam.SaleSeamService.OnOrderCancelled` | src/infrastructure/persistence/sale_seam_repository.rs:294-343 | the active group to cancel, once per delivery, payability kept |
| `SaleLaws.FirstConfirmationMints` | src/infrastructure/persistence/sale_seam_repository.rs:174-214 | a first confirmation gives the order exactly one new row per spec and moves no other row |
| `SaleColumns.MintedColumns` | src/infrastructure/persistence/sale_seam_repository.rs:174-199 | the row of each spec, column by column: born open and free, or a draft to be paid |
| `SaleColumns.FreeHealRows` | src/infrastructure/persistence/sale_seam_repository.rs:216-229 | a free order confirmed again opens its active drafts and cancelled rows and moves no other |
| `SaleColumns.PaidHealRows` | src/infrastructure/persistence/sale_seam_repository.rs:378-403 | a payment sells the order's active rows to be paid, opens those not taking part, and moves no other |
| `SaleColumns.HealArmsEvents` | src/infrastructure/persistence/sale_seam_repository.rs:230-243 | a heal arms the mails of each event the order has a row on, once |
| `SaleColumns.HeldAndCancelledRows` | src/infrastructure/persistence/sale_seam_repository.rs:251-263 | holding moves nobody and marks the active rows to be paid; cancelling cancels them and keeps what they owe |
| `SaleColumns.FreshPaymentIs` | src/infrastructure/persistence/sale_seam_repository.rs:353-449 | a fresh payment: the heal, the rows and booths counted, the delivery consumed |
| `SaleColumns.FreshCancellationIs` | src/infrastructure/persistence/sale_seam_repository.rs:294-343 | a fresh cancellation: the group cancelled and counted, the delivery consumed, no booth moved |
| `SaleLaws.ConfirmedOnce` | src/infrastructure/persistence/sale_seam_repository.rs:97-172 | a consumed delivery changes nothing when it comes again |
| `SaleLaws.PaidAndCancelledOnce` | src/infrastructure/persistence/sale_seam_repository.rs:300-376 | so do a payment and a cancellation |
| `SaleLaws.BoothsPaidIff` | src/infrastructure/persistence/sale_seam_repository.rs:353-449 | over any payments, in any order and however often repeated, a booth is paid at the end exactly when it was at the start or the first copy of some delivery named its line |
| `SaleLaws.RoutedMintHasItsSlots` | src/application/service/sale_seam_service.rs:126-151 | past the routing guard a mint is never refused for a missing slot |
| `SaleLaws.MintKeepsCapIff` | src/infrastructure/persistence/sale_seam_repository.rs:184-199 | an accepted mint leaves an event within its cap if and only if its rows are drafts, or the event counts per slot, or the seats held and the specs naming it fit together |
| `SaleLaws.HealKeepsCapIff` | src/infrastructure/persistence/sale_seam_repository.rs:216-250 | a heal keeps an event within its cap if and only if there was room for all the rows it lifts |
| `SaleLaws.HoldAndCancelKeepBound` | src/infrastructure/persistence/sale_seam_repository.rs:251-263 | holding and cancelling give no seat |
| `SaleLaws.PaidOrderOversells` | src/infrastructure/persistence/sale_seam_repository.rs:378-394 | an order for two is minted for a one-seat event and its payment seats both |
| `SaleLaws.PaidLaterSameRows` | src/infrastructure/persistence/sale_seam_repository.rs:132-199 | an order that would have fitted born sold is minted held too, and payment leaves the very rows it would have been born with |
| `Desk.DeskService.RegisterAttendee` | src/application/service/desk_service.rs:43-92 | the ordered refusals and the single write equal the scan function |
| `Desk.ScanSucceedsIff` | src/application/service/desk_service.rs:43-92 | a scan succeeds exactly on an active, open row of the scanned ongoing event, and then closes that row and changes nothing else |
| `Desk.ScanAnswers` | src/application/service/desk_service.rs:49-92 | which of the refusals a scan gets, each exactly when the checks before its own pass |
| `Desk.UnknownTicket` | src/application/service/desk_service.rs:49-54 | a barcode no row carries is an invalid ticket |
| `Desk.OneAdmissionPerOpening` | src/application/service/desk_service.rs:43-92 | between two successful scans of one barcode some step other than a scan took that row back into open |
| `Desk.SecondScanRefused` | src/application/service/desk_service.rs:82-85 | scanned again while the event is on, a ticket is already registered |
| `Desk.SeatBoundOverHistories` | src/application/service/registration_service.rs:79-125 | no event is ever over its cap in exactly those histories whose every step fits |
| `DeskProtocol.UndisturbedIsScan` | src/application/service/desk_service.rs:43-92 | the look, the judgement and the write, with nothing in between, are the scan |
| `DeskProtocol.SoloIsScan` | src/application/service/desk_service.rs:43-92 | a desk's three interleaved moves, undisturbed, leave the hall of the scan and record an admission exactly when it succeeds |
| `DeskProtocol.AdmittedAgainIff` | src/application/service/desk_service.rs:49-91 | any number of desks among all other verbs: of two admissions of one row, the later was looked up before the earlier was written if and only if nothing re-opened the row between that write and that look; at one desk something always did |
| `DeskProtocol.SameTicketIff` | src/application/service/desk_service.rs:49-54 | two admissions are of one row exactly when their barcodes are the same |
| `DeskProtocol.WrittenOverIff` | src/application/service/desk_service.rs:49-91 | an admission is written onto a row that is not open if and only if a step closed it after the look and none re-opened it since |
| `DeskProtocol.AdmissionsCount` | src/application/service/desk_service.rs:49-91 | admissions of a row number its openings, less those another verb ended or that still last, plus the writes onto a row not open |
| `DeskProtocol.TwoDesksBothAdmit` | src/application/service/desk_service.rs:49-91 | a run in which two desks that decide before either writes admit one ticket |
| `DeskProtocol.CancelledTicketAdmitted` | src/application/service/desk_service.rs:49-91 | a run in which one desk admits a ticket cancelled between its look and its write, where a fresh scan answers cancelled |
| `Arming.EntersOpenIffArmed` | src/infrastructure/persistence/seat_repository.rs:411-426 | whatever the verb or delivery, a registration that newly takes a seat arms its event's mails in that step if and only if it takes it as open |
| `Arming.LateRegistrantReopensIff` | src/infrastructure/persistence/seat_repository.rs:617-630 | a completed mail row becomes claimable by such a step if and only if it is of the subscription kind and the registration enters as open |
| `Arming.StepQueuesIff` | src/infrastructure/persistence/seat_repository.rs:427-442 | after any verb or delivery an event is queued for leads exactly when it was, or the step went through and a register not exempt met an active rule of the event waking on creation or confirmation, or a verb or scan moved an active row into a state one wakes on |
| `Arming.NewcomerQueuesIff` | src/infrastructure/persistence/seat_repository.rs:632-657 | so a newcomer's event is queued exactly as its step says, and by a heal never |
| `Arming.PaidLateNeverQueued` | src/infrastructure/persistence/sale_seam_repository.rs:378-413 | a paid order's drafts queue their event at the mint; if a walk completes before the payment, the payment seats them and queues nothing |

## Left out

- SQL text, transactions and row locks: each repository statement is one atomic operation on maps and
  sequences, with the predicates, ordering, limits and conflict rules of its SQL; tables a statement
  reads are listed in id order.
- Provenance ids: a provenance row is known by its unique (rule, key) pair.
- A sink that does not answer for ever, and clocks that jump within one statement.
- The registrations and rules do not change while one walk of an event runs; between walks and passes
  they may change at will (`LeadRuns.Action`), and under concurrent walkers at every step
  (`LeadProtocol.Move`).
- LeadApart.ApartIsSafe: takes it that walkers stay apart; `LeadFleet.LeaseKeepsWalksSafe` derives it from
  the lease where no order spans two events, and `LeadCreates.CreatedTwiceIffTwoSawNoLead` says exactly what
  happens without either.
- LeadFleet.LeaseKeepsWalksSafe: a registration keeps its event, the table is in id order and no row is
  deleted; a walk may fetch for any rule at any time, of which the walk over the event's active rules is one case.
- MailService.Scheduler.RunOne: asks that fewer than `batch` receipts may refuse or that the window shuts at
  some operation, because otherwise the loop it models need not end (`MailWalk.WalkGoesOn`); one row only: the
  pass over many claimed rows is this run for each in turn, and the cancellation sweep is an edit between runs
  (`MailLaws.Action`).
- MailProtocol.TakenTwiceIffTwoFetchedInTime: receipts are only added while passes walk; the sweep that
  deletes unsent ones meanwhile is not in it.
- MailPasses.PassesComplete: ports that accept everything and registrations all due; with refusals only
  `MailPasses.CloseRearmsIffWorkLeft` and `MailPasses.NeverWedged` are claimed.
- Intake.InterleavedCallsBounded: the clock does not run back from one throttle read to the next in the
  order the table sees them.
- The interval arithmetic of a receipt's due date: a delay in seconds added to the creation stamp.
- The last-registration watermark and the error timestamps, which nothing reads.
- Overflow of unix seconds in 64 bits, when a token's end is computed.
- Date formatting, lower-casing, uuid parsing, decimal parsing of order totals, HMAC and JSON: parameters.
- The check on the shape of a barcode, which the mint always meets.
- Rendered message bodies, attendee answers of the intake, audit rows, organisation scoping.
- The due date of mail rows not of the subscription kind, beyond their being claimed when it has come.
- `sync_from_partner`, seat availability reads, booth verbs other than the paid latch, event publication verbs,
  HTTP routes, generated CRUD: easy members, or other components.
- Two sale deliveries or two state verbs at once: each is one transaction under row locks.
