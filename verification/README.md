# The mail-Telegram bridge, modelled

The bridge mails new Telegram messages to one user and posts the user's mail replies back. This project
models its two cycles over its SQLite tables as one transition system, with a crash possible between any two
port calls or transactions, and proves what holds in every run; and it models the algorithms those cycles
lean on: splitting a batch into mails, printing formatted spans, skipping quotations, retention, backoff,
routing.

## How it is laid out

- `Domain`, `Database`: values, the tables, what each transaction does to them. `Store`: the store as a class
  whose methods are proved to do just that.
- `Protocol`: the machine. A state holds the tables, the outside world, a log of what happened and the place
  in the code; an action is one port call, one transaction, one event outside, or a crash.
- `Delivery`, `Cursors`, `Intake`, `Tally`, `Confirmations`, `Gates`, `Pacing`: one invariant each, kept by
  every step. Each looks at a view of the state, so that steps which do not concern it are dealt with at once.
- `Isolation`: an inbound cycle is the product of its dialogs. `Cycles`: a cycle goes through to its end.
  `Replies`: a reply reaches the peer it answers.
- `Interruptions`: which confirmations are lost. `Runs`: the theorems over all runs. `Gaps`, `Retention`: exactly
  when a fetch loses a message, and when a purge lets a mail act again or an echo come back. `Counterexamples`: runs
  in which they do.
- `Ports`, `Orchestrator`: the cycles as the source writes them, methods that call ports and run transactions.
  A ghost log lists the machine steps they take, so the theorems of `Runs` hold of this code. The ports record every
  answer they give, and the service is valid only while its steps took just these answers. `Hearing`: rows and marks
  against those answers, in every run.
- `Downloads`, `Composer`, `Render`, `RenderTheorems`, `PrintedTags`, `QuoteSkipper`, `MailText`, `IsoTime`, `Backoff`,
  `Routing`: the algorithms. `FiniteSets`, `Sequences`: what they share.

Every lemma carries `{:induction false}`: each induction is written out.

## What is asked of the surroundings

Theorems that need it say so by a `Trust`: that fetches leave no gap, tail bootstrap aside; and of purges, each told
from what is there before the purge, that they take no echo above its cursor (`Delivery.EchoesLast`), wake no used mail
(`Intake.Harmless`), take no recorded Message-ID (`Confirmations.NoticesLast`). Beyond that: a mail keeps its reference,
which a change of UIDVALIDITY breaks (`src/mailtg_bridge/mail_in.py:116-124`), so that `Runs.NoReplay` speaks of mails
under one UIDVALIDITY; Telegram numbers the messages of a dialog upwards from 1; Message-IDs are fresh; the clock does
not run backwards; one process at a time (the lock). Where backoff is measured, 0 < minimum <= maximum, as the
configuration demands.

## Where the code differs from what is said about it

- `src/mailtg_bridge/telegram.py:61-64` fetches the newest messages first, so a backlog above the limit is
  partly lost; the repository's README.md:45 promises at-least-once delivery. `Gaps.LosesExactlyWhen` gives the exact
  condition, `Counterexamples.NewestFirstMissesTheOldest` a run.
- Trimming consumed marks by count (`src/mailtg_bridge/state.py:164-165`) can let an old mail act again:
  `Retention.HarmlessExactlyWhen` gives the exact condition, `Counterexamples.TrimmedMarkActsAgain` a run.
- A crash between carrying out a command and queueing its confirmation
  (`src/mailtg_bridge/orchestrator.py:87-89`) loses the confirmation: `Runs.ForgottenExactlyWhenInterrupted`, and
  `Counterexamples.ConfirmationLost` for a run.
- A purge can take the echo row of a reply not fetched yet (`src/mailtg_bridge/state.py:155-165`), and the reply comes
  back as a mail: `Retention.EchoesLastExactlyWhen` gives the exact condition,
  `Counterexamples.ForgottenEchoIsMailed` a run.
- A post that landed although the call failed is neither marked nor recorded as an echo; it can be posted again
  and mailed back. It counts as lost in `Runs.BoundedDuplication`.
- A void element of a quote class (`src/mailtg_bridge/mail_in.py:31-41`) swallows the rest of the mail.
- Spans of zero or negative length are opened and never closed, and crossing spans of different tags are badly nested
  unless others lend them their tags (`PrintedTags`). Two boundaries before the start of the text repeat the text
  between them (`src/mailtg_bridge/mail_out.py:34-40`).
- An oversized message with an unavailable medium raises FileNotFoundError at
  `src/mailtg_bridge/mail_out.py:92`, which nobody handles; `Composer.TryGroup` says exactly when,
  `Composer.OversizedWithoutItsFile` gives an input.
- A download that gives no path returns an empty list (`src/mailtg_bridge/telegram.py:77-80`), and then nothing stands
  for the medium: `Downloads.ShownExactlyWhenAnswered`, `Downloads.NoPathNoMarker`.
- An echo row names one dialog id (`src/mailtg_bridge/state.py:120-125`). When a topic and its whole group are both
  tracked, a reply posted into the topic is not recognised in the group's fetch; the echo theorems speak of a message
  as seen through one dialog id (`Counterexamples.TopicReplyReturnsThroughGroup`).
- `mail:notice:*` and `mail:session-notice` backoff is written and never looked at, so only the other scopes
  are paced; `tg:post:*` backoff stays after a success.

## Model

| member | source | states |
|---|---|---|
| `Runs.AtLeastOnce` | src/mailtg_bridge/orchestrator.py:36-73 | In every run with crashes anywhere, a message still held at or below its dialog's cursor was in a mail that SMTP accepted and the cursor's own transaction booked, or was passed over as an echo, as not addressed, or as history that tail bootstrap leaves out; asks that no other fetch leaves a gap, which the first fetch in tail mode may |
| `Hearing.TakenAtLeastOnce` | src/mailtg_bridge/orchestrator.py:36-73 | At least once by the word of SMTP: in every run without gaps, a message held at or below its dialog's cursor was in a part that the SMTP port answered to have taken, or was passed over on purpose |
| `Hearing.LedgerWasTaken` | src/mailtg_bridge/orchestrator.py:62-65 | In every run a ledger row stands for a mail SMTP answered to have taken, handed over for the dialog of the row; a part put off or refused has none |
| `Hearing.AcceptedExactly` | src/mailtg_bridge/mail_out.py:100-113 | The log names as accepted exactly the parts the port accepted, in every run, the ambiguous ones included |
| `Delivery.GapFreeIff` | src/mailtg_bridge/telegram.py:58-64 | A fetch leaves nothing behind below its highest id if and only if it takes the oldest messages or there are no more than the limit |
| `Gaps.LosesExactlyWhen` | src/mailtg_bridge/telegram.py:58-64 | The converse: when the cursor moves after a fetch, whatever came between, and nothing above the cursor was accounted for before, some message below the highest fetched is now behind the cursor unaccounted if and only if the fetch took the newest of more than its limit |
| `Gaps.LeftOutIsMissed` | src/mailtg_bridge/orchestrator.py:45-65 | Message by message: one that was not accounted for and lies below the highest fetched is missed if and only if the fetch left it out, by the commit or by nothing being selected |
| `Gaps.LostForGood` | src/mailtg_bridge/state.py:80-97 | And then every continuation leaves it missed |
| `Runs.CommitMisses` | src/mailtg_bridge/orchestrator.py:45-65 | Committing a batch from a fetch that left a message out puts that message behind the cursor, unaccounted for |
| `Runs.MissedForGood` | src/mailtg_bridge/state.py:80-97 | A message behind the cursor and unaccounted for stays so in every continuation |
| `Counterexamples.NewestFirstMissesTheOldest` | src/mailtg_bridge/telegram.py:61-64 | A reachable state in which newest-first fetching, the order the call really asks for, has lost a message that the repository's README.md:45 promises to deliver |
| `Runs.NoDoubleCommit` | src/mailtg_bridge/state.py:87-97 | Over all runs, two committed deliveries of one dialog cover id ranges one above the other, so no message is in two |
| `Runs.CursorsNeverFallBack` | src/mailtg_bridge/state.py:69-85 | Over all runs cursors never decrease and commits are never undone |
| `Runs.CommitNeverRaises` | src/mailtg_bridge/state.py:87-97 | In no reachable state can the delivery transaction raise: there is a part to record and no Message-ID is taken |
| `Runs.NoEchoIsMailed` | src/mailtg_bridge/orchestrator.py:48-52 | In every run, no reply posted into a dialog and committed is ever selected into a batch of that dialog; asks of each purge what can be told before it: that every echo above its cursor lasts |
| `Retention.EchoesLastExactlyWhen` | src/mailtg_bridge/state.py:155-165 | Of tables, cursors, limits and clock before the purge: every echo above its cursor is young and within its cap if and only if no purge the limits allow takes one |
| `Counterexamples.ForgottenEchoIsMailed` | src/mailtg_bridge/state.py:155-165 | A run from a new database in which a reply is posted and committed, no fetch follows for longer than echoes are kept, a purge takes the row, and the reply is selected into a batch |
| `Counterexamples.TopicReplyReturnsThroughGroup` | src/mailtg_bridge/state.py:120-125 | The echo row of a reply posted into a topic keeps it out of the topic's batch and not out of the whole group's |
| `Runs.SelectedExactly` | src/mailtg_bridge/orchestrator.py:48-51 | A message is selected if and only if it was fetched, is above the cursor, is addressed and has no echo row |
| `Runs.GateSafety` | src/mailtg_bridge/orchestrator.py:31-35 | In every reachable state a list, fetch, download or post happens only with the bridge enabled and the session valid, also within a poll that held an OFF |
| `Runs.SilentUntilSetup` | src/mailtg_bridge/orchestrator.py:24-30 | From an invalid session on, no step goes to Telegram and the session stays invalid until setup |
| `Runs.SilentUntilCommand` | src/mailtg_bridge/orchestrator.py:19-32 | With the bridge off, no step goes to Telegram and it stays off until a command is applied |
| `Runs.NoReplay` | src/mailtg_bridge/orchestrator.py:78-97 | In every run a mail that was answered or obeyed once never acts again, also after its mark was purged by age; asks of each purge what can be told before it: that it is harmless |
| `Retention.HarmlessExactlyWhen` | src/mailtg_bridge/state.py:155-165 | Of tables, limits and clock before the purge: it is harmless if and only if no purge the limits allow leaves a used mail able to act |
| `Retention.PurgeWakesExactlyWhen` | src/mailtg_bridge/state.py:155-165 | Mail by mail: some purge leaves a used mail able to act if and only if its young mark has maxConsumed others at least as new beside it while a row it acts on is young and within its cap; a command acts on deliveries and notices, a reply on deliveries |
| `Retention.ActsIff` | src/mailtg_bridge/orchestrator.py:82-95 | What able to act means: a command is obeyed at once, a reply posted as soon as the gates and its backoff let it |
| `Retention.WithinTheCap` | src/mailtg_bridge/state.py:164-165 | No more young marks than the cap: the purge is harmless |
| `Counterexamples.TrimmedMarkActsAgain` | src/mailtg_bridge/state.py:164-165 | A run from a new database in which OFF and ON are carried out and confirmed, a purge by count takes the mark of OFF, and OFF is carried out a second time |
| `Runs.BoundedDuplication` | src/mailtg_bridge/orchestrator.py:78-99 | Posts for a mail are at most one more than those lost to crashes and ambiguous failures; a consumed reply was posted; a command counts once; enabled equals the fold of the applied commands |
| `Runs.PostsAreBounded` | src/mailtg_bridge/orchestrator.py:95-99 | Counted over the run itself: messages put into Telegram for one mail are at most one more than the deaths between post and record and the failed calls whose message landed |
| `Tally.RunCounted` | src/mailtg_bridge/orchestrator.py:95-99 | The log's counters of posts and losses are the numbers of such steps in the run |
| `Hearing.PostsWereAnswered` | src/mailtg_bridge/orchestrator.py:95-99 | In every run the log counts as posted for a mail exactly what the port says landed, and as lost exactly what landed with an error for an answer plus what the process died over between the post and its transaction |
| `Hearing.AnsweredIsRecorded` | src/mailtg_bridge/orchestrator.py:96-97 | A post answered with an id is on record as an echo, and its mail as replied to, unless its transaction is the next step or the process died before it |
| `Hearing.RunAnswered` | src/mailtg_bridge/orchestrator.py:82-107 | In every run an echo row is a reply Telegram answered with that id, a mark stands for such a reply or for a command carried out, and what a confirmation says, pending or handed to SMTP, is what was carried out |
| `Runs.SessionNotices` | src/mailtg_bridge/orchestrator.py:24-30 | Since the last setup at most one session notice beyond those lost; notified means one was sent and its id recorded |
| `Runs.SessionNoticesAreBounded` | src/mailtg_bridge/orchestrator.py:24-30 | Counted over the run itself, since its last setup: session notices accepted are at most one more than the deaths before the session was marked and the failed calls whose notice was accepted; exactly one more when it is marked |
| `Confirmations.NoticesCounted` | src/mailtg_bridge/orchestrator.py:24-30 | The log's counters of session notices are the numbers of such steps since the last setup |
| `Runs.NoConfirmationForgotten` | src/mailtg_bridge/orchestrator.py:82-107 | Every applied command has its confirmation pending, sent and recorded, about to be queued, or is one of at most as many as there were crashes; without crashes none is missing |
| `Runs.ForgottenOnlyWhenInterrupted` | src/mailtg_bridge/orchestrator.py:87-89 | Counted over the run itself: an applied command without a confirmation pending, sent or about to be queued is one after which the run died before queueing it |
| `Runs.ForgottenExactlyWhenInterrupted` | src/mailtg_bridge/orchestrator.py:87-89 | And conversely, while purges are harmless: such a command never gets its confirmation |
| `Interruptions.UnqueuedExactlyWhen` | src/mailtg_bridge/orchestrator.py:87-89 | The log names exactly the commands after which the run died so |
| `Counterexamples.ConfirmationLost` | src/mailtg_bridge/orchestrator.py:87-89 | A run from a new database in which OFF is carried out and its confirmation is neither waiting nor sent, with the mark in place |
| `Confirmations.ConfirmationCanBeAnswered` | src/mailtg_bridge/state.py:104-115 | A trusted command that answers a sent confirmation is obeyed, as long as no recorded id was purged |
| `Retention.NoticesLastExactlyWhen` | src/mailtg_bridge/state.py:155-165 | No recorded id is past its age before the purge if and only if no purge the limits allow takes one |
| `Runs.BackoffRespected` | src/mailtg_bridge/orchestrator.py:20-42 | In every run, an attempt under a watched scope with failures on record comes after the flood waits in full and after the sum of the doubling delays |
| `Runs.FailuresAreWaitedOut` | src/mailtg_bridge/orchestrator.py:20-42 | Counted over the run itself: an attempt comes after every flood wait among the failures noted under its scope since the row was last cleared, and, if all were transient, after the sum of the doubling delays since the first |
| `Runs.DueAfterTheWait` | src/mailtg_bridge/algorithms.py:35-42 | Nor longer: after any run a scope is due once its last failure was waited out, at most the seconds of a flood wait, at least the minimum, or the lesser of the maximum and a tenth above the doubling delay, and at once when no failure is on record |
| `Pacing.FailuresHoldAtMost` | src/mailtg_bridge/orchestrator.py:20-23 | In every run a row holds its scope back no longer than the last failure noted asks for |
| `Pacing.SuccessClears` | src/mailtg_bridge/orchestrator.py:30-65 | A success clears the row of its scope and no other: the list came, the mailbox was polled, a dialog is done with, the session notice was sent |
| `Pacing.FailuresCounted` | src/mailtg_bridge/orchestrator.py:22-42 | The log's streak of a scope with a row is that of the failures the run noted since the row was last cleared |
| `Pacing.DoublingBelowTheCap` | src/mailtg_bridge/algorithms.py:35-42 | k transient failures below the cap keep the next attempt away for at least minimum*(2^k-1) seconds since the first, whatever the jitter |
| `Pacing.AttemptsWait` | src/mailtg_bridge/orchestrator.py:20-23 | The same for any state in which rows and failures are in step |
| `Pacing.TimedStep` | src/mailtg_bridge/orchestrator.py:22-42 | Every step keeps each watched row in step with the failures it stands for |
| `Cycles.InboundIsWhole` | src/mailtg_bridge/orchestrator.py:31-73 | A run that asks for the list, begins nothing else, that nothing kills and that ends with nothing running: every listed dialog got its turn, in order, and the cycle ended; or a beginning of them did and the session is lost; or the failed list was noted |
| `Cycles.MailboxIsWhole` | src/mailtg_bridge/orchestrator.py:74-107 | Likewise for a poll: every mail was skipped, obeyed or posted, in order, or a beginning of them up to a post that found the session gone; and then every waiting confirmation had its turn; or the failed poll was noted. A session lost earlier stops no mail |
| `Isolation.CycleIsTheProductOfItsDialogs` | src/mailtg_bridge/orchestrator.py:36-73 | After any steps of a cycle each dialog's cursor, ledger rows, echoes, backoff and stage are what its own steps, taken alone, make of them |
| `Isolation.FaultsStayLocal` | src/mailtg_bridge/orchestrator.py:36-73 | Two cycles that differ only in what happens to other dialogs leave a dialog's rows the same |
| `Isolation.GuardsAreLocal` | src/mailtg_bridge/orchestrator.py:36-73 | What may be done for a dialog depends on its own share and the surroundings alone, not on other dialogs' rows nor on which come before or after |
| `Isolation.TurnIsItsOwn` | src/mailtg_bridge/orchestrator.py:36-73 | However the cycle went for the dialogs before it, faults included, a dialog's turn starts from its own rows as they were, and its first step may be just what it might have been had the cycle begun with it; that the turn comes is Cycles.InboundIsWhole |
| `Isolation.VisitIsItsOwn` | src/mailtg_bridge/orchestrator.py:36-73 | Whole visits: between two cycles that stand alike for a dialog, whatever other dialogs they have, a run is a legal visit to it in one if and only if in the other, and leaves it the same share |
| `Isolation.CycleAlone` | src/mailtg_bridge/orchestrator.py:36-73 | One step touches only the dialog it is for |
| `Replies.RepliesGoBack` | src/mailtg_bridge/state.py:99-103 | In every run a reply is posted into the dialog whose messages were in the nearest known mail it answers |
| `Replies.RepliesReachTheirPeer` | src/mailtg_bridge/telegram.py:82-85 | And its decoded target is the peer and topic those messages came from |
| `Replies.NewestReferenceDecides` | src/mailtg_bridge/mail_in.py:103 | When In-Reply-To names nothing known, the last known reference decides (section 3.6.4 of RFC 5322) |
| `Replies.LedgerDialogIsNearest` | src/mailtg_bridge/state.py:99-103 | The lookup gives the dialog of the first known id, and none exactly when no id is known |
| `Runs.InvariantHolds` | src/mailtg_bridge/orchestrator.py:13-107 | Every legal run keeps the whole invariant: gates, delivery, intake, notices and pace |
| `Runs.EveryRunIsReachable` | src/mailtg_bridge/orchestrator.py:13-107 | With nothing asked of the surroundings every legal run counts |
| `Ports.LegalLeads` | src/mailtg_bridge/orchestrator.py:13-107 | Every legal run leads to where it ends with the answers it took: the theorems on answers speak of all runs |
| `Delivery.StockedStep` | src/mailtg_bridge/orchestrator.py:31-73 | Every step keeps cursor, desk, ledger and log in agreement; completeness unless a fetch leaves a gap; knowledge of echoes unless a purge takes one too early |
| `Delivery.CommitSucceeds` | src/mailtg_bridge/state.py:87-97 | In such a state the transaction does not raise |
| `Delivery.CommitRecords` | src/mailtg_bridge/state.py:87-97 | In every state a run leaves, the transaction adds exactly one row per part, with its dialog and the time, keeps the old rows, raises the cursor of its dialog to the highest id fetched and touches nothing else |
| `Cursors.OnwardStep` | src/mailtg_bridge/state.py:69-97 | No step moves a cursor back, undoes a commit, or accounts for a message at or below its cursor |
| `Gates.GatedStep` | src/mailtg_bridge/orchestrator.py:19-35 | Every step keeps: within a cycle the bridge is enabled and the session valid; a valid session is not marked notified |
| `Gates.InvalidStays` | src/mailtg_bridge/state.py:134-140 | Only setup makes an invalid session valid |
| `Intake.SettledStep` | src/mailtg_bridge/orchestrator.py:74-101 | Every step keeps, harmful purges aside: a used mail still has its mark or no row it could act on is known, and no row it cites is younger than its use |
| `Intake.UsedMailsRest` | src/mailtg_bridge/state.py:99-117 | In such a state a used mail neither posts nor commands |
| `Intake.ActsOnlyOnce` | src/mailtg_bridge/orchestrator.py:78-97 | A mail that acts now was never used before |
| `Tally.BalancedStep` | src/mailtg_bridge/state.py:122-133 | Every step keeps posts, losses, replies, applied commands and the switch adding up |
| `Confirmations.ToldStep` | src/mailtg_bridge/orchestrator.py:82-107 | Every step keeps confirmations and session notices accounted for |
| `Orchestrator.BridgeService.constructor` | src/mailtg_bridge/orchestrator.py:14-17 | The service starts with a new database in step with the machine |
| `Orchestrator.BridgeService.RunInboundCycle` | src/mailtg_bridge/orchestrator.py:31-73 | The code of the cycle takes only steps of the machine and leaves the tables the machine has. Not allowed or not due: no step. Otherwise it asks for the list, and unless an exception escapes nothing dies on the way and every listed dialog has its turn up to the end of the cycle, or the session is lost, or the failed list is noted |
| `Orchestrator.BridgeService.ListAndVisit` | src/mailtg_bridge/orchestrator.py:32-36 | The list port's answer is acted on: a lost session is noted as lost, a failure writes the row of the list, and only dialogs lead to visits |
| `Orchestrator.BridgeService.VisitDialog` | src/mailtg_bridge/orchestrator.py:37-43 | A dialog that is due is asked for its messages above the cursor, unless its newest id is known and not above the cursor; no other is. Only machine steps are taken, and it ends before the next dialog or out of the cycle |
| `Orchestrator.BridgeService.FetchAndDeliver` | src/mailtg_bridge/orchestrator.py:42-73 | Whatever the port answers is acted on: a lost session is noted as lost, a gone peer leaves the tables alone, a failure writes the row of the dialog; with nothing to send the cursor goes to the highest id fetched and the row is cleared |
| `Orchestrator.BridgeService.TakeIn` | src/mailtg_bridge/orchestrator.py:45-52 | A non-empty fetch: tail bootstrap or nothing selected moves the cursor and clears the backoff; otherwise there is a batch to send |
| `Orchestrator.BridgeService.SelectMessages` | src/mailtg_bridge/orchestrator.py:48-50 | The selection loop gives the selected items and their messages |
| `Orchestrator.BridgeService.SendBatch` | src/mailtg_bridge/orchestrator.py:53-65 | What SMTP is handed of a batch are, in order, the drafts composed of the messages fetched and of what the media port answered for them |
| `Orchestrator.BridgeService.DownloadAll` | src/mailtg_bridge/orchestrator.py:53-61 | The loop stores what came for each message with media, a stand-in per medium when it could not be had, and nothing for the others; it leaves off only at an answer that is neither, and acts on that one |
| `Orchestrator.BridgeService.Address` | src/mailtg_bridge/mail_out.py:66-71 | Fresh Message-IDs for the drafts, whose groups make up the batch in order: the composer's partition feeds the machine |
| `Orchestrator.BridgeService.SendParts` | src/mailtg_bridge/orchestrator.py:62-73 | Ledger and cursor change only if the port answered to have taken every part, and then by the transaction in one step; a part put off leaves both as they were and writes the dialog's row, a part refused leaves all tables; the parts are handed over in order up to that answer |
| `Orchestrator.BridgeService.CommitParts` | src/mailtg_bridge/orchestrator.py:65 | Ledger rows and cursor in one step, then the backoff is cleared; a raise leaves the tables and the cycle |
| `Orchestrator.BridgeService.RecordFailure` | src/mailtg_bridge/orchestrator.py:22-23 | The row of the scope becomes the next decision for some jitter draw |
| `Orchestrator.BridgeService.InvalidateSession` | src/mailtg_bridge/orchestrator.py:24-30 | The session ends up invalid and nothing but its record changes; unless it was down and notified before, mail about it is tried: taken, it is on record as notified; put off, not; refused, the exception escapes |
| `Orchestrator.BridgeService.RunMailboxCycle` | src/mailtg_bridge/orchestrator.py:74-101 | Likewise: not due, no step; otherwise it polls, and unless an exception escapes nothing dies on the way, every mail has its turn or a post finds the session gone, and then every waiting confirmation has its turn; or the failed poll is noted |
| `Orchestrator.BridgeService.PollAndWork` | src/mailtg_bridge/orchestrator.py:75-78 | A failing poll writes the row of the mailbox and ends the cycle |
| `Orchestrator.BridgeService.HandleMail` | src/mailtg_bridge/orchestrator.py:78-99 | The code for one mail (consumed, untrusted, command, reply, skipped) takes only machine steps, so it acts exactly when the machine does |
| `Orchestrator.BridgeService.HandleCommand` | src/mailtg_bridge/orchestrator.py:82-90 | A command that answers something the bridge sent switches it and marks the mail in one step and queues the confirmation in another; one answering nothing known is skipped |
| `Orchestrator.BridgeService.PostReply` | src/mailtg_bridge/orchestrator.py:95-99 | Telegram is asked once. Answered with an id, the echo and the mark are in the tables and the cycle goes on; answered with a failure, the row of the post is written; with a lost session, it is noted as lost; echoes and marks change in the first case only |
| `Orchestrator.BridgeService.FlushNotices` | src/mailtg_bridge/orchestrator.py:100-107 | Every pending confirmation is handed to SMTP saying what was queued, and is still pending unless SMTP took it; a lost session is dealt with at the end |
| `Orchestrator.BridgeService.FlushNotice` | src/mailtg_bridge/orchestrator.py:102-107 | One confirmation: dropped if and only if SMTP took it; put off, its row is written |
| `Orchestrator.BridgeService.RunSetup` | src/mailtg_bridge/setup.py:6-12 | Session valid and not notified, Telegram backoff cleared |
| `Orchestrator.BridgeService.RunPurge` | src/mailtg_bridge/state.py:155-165 | Retention by the configured limits, while no cycle runs |
| `Orchestrator.BridgeService.RunOnce` | src/mailtg_bridge/orchestrator.py:108-110 | Each cycle exactly when asked for, with what it promises: the inbound one first, the mailbox one after it unless an exception escaped |
| `Orchestrator.BridgeService.StandsInARun` | src/mailtg_bridge/orchestrator.py:13-107 | The tables of the service are always those of a reachable state, so the theorems on runs hold of the code |
| `Orchestrator.BridgeService.LedgerRowsWereTaken` | src/mailtg_bridge/orchestrator.py:62-65 | Of the code: every ledger row in the tables stands for a mail that the SMTP port answered to have taken, for the dialog of the row |
| `Orchestrator.BridgeService.NothingIsLost` | src/mailtg_bridge/orchestrator.py:36-73 | Of the code: a message held at or below its cursor was in a mail the port answered to have taken, or was passed over on purpose, when no fetch left a gap |
| `Orchestrator.BridgeService.RecordsWereAnswered` | src/mailtg_bridge/orchestrator.py:82-107 | Of the code: echoes and marks in the tables stand for answers of the Telegram port or commands carried out, pending confirmations for commands carried out |
| `Orchestrator.BridgeService.DiesInARun` | src/mailtg_bridge/state.py:33-40 | Dying after any step of the code leaves a reachable state |
| `Store.SQLiteStore.GetCursor` | src/mailtg_bridge/state.py:69-78 | The upsert never resets a cursor |
| `Store.SQLiteStore.AdvanceCursor` | src/mailtg_bridge/state.py:80-85 | The cursor becomes the maximum; a negative one raises and changes nothing |
| `Store.SQLiteStore.CommitDelivery` | src/mailtg_bridge/state.py:87-97 | All rows and the cursor, or, on a foreign dialog, a known Message-ID or no rows, nothing |
| `Store.SQLiteStore.LedgerDialog` | src/mailtg_bridge/state.py:99-103 | The loop finds the dialog of the first known id |
| `Store.SQLiteStore.IsBridgeMessage` | src/mailtg_bridge/state.py:108-115 | The loop answers whether some id is in the ledger or among the notices |
| `Store.SQLiteStore.CommitReply` | src/mailtg_bridge/state.py:122-125 | Echo and mark, each kept if already there |
| `Store.SQLiteStore.SetBridgeEnabled` | src/mailtg_bridge/state.py:130-133 | Switch and mark together |
| `Store.SQLiteStore.PendingNotices` | src/mailtg_bridge/state.py:152 | Every pending notice once, oldest first |
| `Store.SQLiteStore.PurgeRetention` | src/mailtg_bridge/state.py:155-165 | Each table keeps the newest of the rows not older than the cut |
| `Ports.Surroundings.FetchSince` | src/mailtg_bridge/telegram.py:58-64 | A fetch answers with at most the limit of messages above the cursor, sorted, the oldest or the newest of them, or with an error |
| `Ports.Surroundings.PostAsUser` | src/mailtg_bridge/telegram.py:82-85 | A post is answered with an id above all of its dialog, or with an error, and may have landed all the same; the port records its answer |
| `Ports.Surroundings.SendDraft` | src/mailtg_bridge/mail_out.py:100-113 | A draft is taken, put off or refused, and may have been accepted all the same; the port records its answer and the draft |
| `Store.Trim` | src/mailtg_bridge/state.py:159-165 | Deleting the old and then the oldest beyond the limit leaves the newest `limit` of the young |
| `Database.PurgeKeepsTheNewest` | src/mailtg_bridge/state.py:155-165 | Caps hold; in every table kept rows are old rows, not past their age, and at least as new as the rows trimmed by count; ledger rows keep their cursors |
| `Database.GoesExactlyWhen` | src/mailtg_bridge/state.py:164-165 | Some purge takes a young key if and only if the cap's number of other young keys are at least as new |
| `Database.StaysExactlyWhen` | src/mailtg_bridge/state.py:164-165 | Some purge keeps a key if and only if it is young and fewer young keys than the cap are newer |
| `Database.PurgeTwiceIsPurgeOnce` | src/mailtg_bridge/state.py:155-165 | A second purge at the same time changes nothing |
| `Database.AllYoungKept` | src/mailtg_bridge/state.py:164-165 | Within the cap only age counts |
| `IsoTime.TextOrderIsTimeOrder` | src/mailtg_bridge/state.py:31-32 | For all UTC stamps the text order used by purge and ORDER BY is the order of time, although zero microseconds are left out |
| `IsoTime.EarlierIsBefore` | src/mailtg_bridge/state.py:31-32 | Field-wise order of valid stamps is the order of their instants |
| `Backoff.DelayBounds` | src/mailtg_bridge/algorithms.py:35-42 | A flood wait in full; a transient delay between its bounds and never below the doubling sequence |
| `Backoff.DelayAtMost` | src/mailtg_bridge/algorithms.py:35-42 | A flood wait takes exactly the greater of its seconds and the minimum; a transient delay is at most the maximum and at most a tenth above the doubling delay |
| `Backoff.DelaysDouble` | src/mailtg_bridge/algorithms.py:39-42 | Without jitter the first transient delay is the minimum and each further one twice the one before, up to the maximum |
| `Backoff.SpanBelowCap` | src/mailtg_bridge/algorithms.py:40 | The doubling delays below the cap add up to minimum*(2^k-1) |
| `Routing.DialogIdRoundTrip` | src/mailtg_bridge/telegram.py:53-57 | Decoding a dialog id gives back the peer number and the topic |
| `Routing.DialogIdsDistinct` | src/mailtg_bridge/telegram.py:56 | Different peers and topics have different dialog ids |
| `Routing.PrivateLinkRoundTrip` | src/mailtg_bridge/algorithms.py:44-50 | A private link names the entity id, the topic and the message |
| `Routing.PrivateLinksDistinct` | src/mailtg_bridge/algorithms.py:44-50 | No two messages share a private link |
| `Routing.PublicLinks` | src/mailtg_bridge/algorithms.py:44-50 | A chat with a user name is linked by it, with or without its @, topic included; a direct message has no link |
| `Routing.DialogIdsAreNumeric` | src/mailtg_bridge/telegram.py:56 | Dialog ids begin with a digit or a minus sign, as the scope keys need |
| `Routing.ScopeKeysDistinct` | src/mailtg_bridge/state.py:142-149 | No two backoff scopes share a key, and the prefix tg: takes in exactly the Telegram scopes |
| `Routing.SetupLiftsWaits` | src/mailtg_bridge/state.py:149 | Setup removes exactly the waits whose key begins with tg: and changes nothing else |
| `Composer.ComposeBatch` | src/mailtg_bridge/mail_out.py:82-96 | Terminates; the drafts' groups come from halving only groups too large, number their parts i of N and fit as measured with that i of N; a rejection names a message too large with all its media omitted and no file missing, a missing file a message too large whose file never came. For one message both failures come exactly then |
| `Composer.HalvedPartitions` | src/mailtg_bridge/mail_out.py:83-90 | Such groups are non-empty and concatenate to exactly the batch |
| `Composer.TryGroup` | src/mailtg_bridge/mail_out.py:86-95 | One turn of the inner loop, by exact conditions on size, number of messages and missing files: a draft that fits, a group to halve, a file missing, a rejection |
| `Composer.OversizedWithoutItsFile` | src/mailtg_bridge/mail_out.py:91-92 | An input on which composing ends in the error nobody handles |
| `Composer.BuildMessage` | src/mailtg_bridge/mail_out.py:66-81 | The loops build exactly the mail of the group, whose prose Composer.DraftsTellAll and whose media Composer.MailShowsAll pin down |
| `Composer.RenderMedia` | src/mailtg_bridge/mail_out.py:53-63 | The media loop marks, shows and keeps items as classified |
| `Composer.MailShowsAll` | src/mailtg_bridge/mail_out.py:53-80 | In one mail each item is marked in both bodies, related or attached, as often as given, and shown pictures are the related parts' content ids |
| `Composer.DraftsShowAll` | src/mailtg_bridge/mail_out.py:53-93 | Over all drafts, degraded or not, each item given is represented as often as given |
| `Composer.DraftsTellAll` | src/mailtg_bridge/mail_out.py:45-65 | Over all drafts in order, the prose of the plain bodies, and of the HTML bodies, is that of each message of the batch, once and in order: author, date, text or the word for media alone, and link; in HTML escaped, with the text as the entity printer gives it |
| `Composer.BreaksAtNewlines` | src/mailtg_bridge/mail_out.py:50 | Line breaks of the printed text, and only they, become breaks in HTML |
| `Downloads.NoMediumIsLost` | src/mailtg_bridge/orchestrator.py:52-62 | Every file that came, and a stand-in for every medium reported as not to be had, is embedded, attached or marked in the composed mails |
| `Downloads.ShownExactlyWhenAnswered` | src/mailtg_bridge/orchestrator.py:52-62 | For all answers: a medium is embedded, attached or marked in the mails if and only if a file of its own came or its message's media were reported as not to be had |
| `Downloads.NoPathNoMarker` | src/mailtg_bridge/telegram.py:77-80 | The empty answer: no mail shows the medium, whatever the drafts |
| `Downloads.CollectedGives` | src/mailtg_bridge/orchestrator.py:54-61 | The composer is given, for each message, exactly what was stored for it |
| `Downloads.BatchIdsAreDistinct` | src/mailtg_bridge/telegram.py:63-64 | The messages of a batch, as selected from a fetch, have ids of their own, as the media theorems ask |
| `Composer.ImageTypesAgree` | src/mailtg_bridge/mail_out.py:60-80 | The two tests for an image, by prefix and by main type, agree |
| `Render.RenderEntities` | src/mailtg_bridge/mail_out.py:21-41 | The loop over positions with its stack prints exactly the pieces of the specification |
| `RenderTheorems.KindsPrintTheirTags` | src/mailtg_bridge/mail_out.py:19-41 | A span over a whole text prints, kind by kind and spelled out, the tags b, i, code, pre or a with its address around the escaped text; any other kind the escaped text alone |
| `Render.UnescapeUndoesEscape` | src/mailtg_bridge/mail_out.py:24-35 | Unescaping an escaped text gives it back |
| `RenderTheorems.EscapedIsInert` | src/mailtg_bridge/mail_out.py:24-35 | Escaped text holds none of the characters that open or close a tag or an attribute, each replaced by its entity |
| `RenderTheorems.RenderRoundTrip` | src/mailtg_bridge/mail_out.py:21-41 | For all inputs: tags removed and unescaped, the output is the slices of the text in order of position |
| `RenderTheorems.TextSurvives` | src/mailtg_bridge/mail_out.py:34-40 | The text comes back unchanged if and only if no text lies between two boundaries before its start; a single such boundary does no harm |
| `RenderTheorems.TextSurvivesOrdinarySpans` | src/mailtg_bridge/mail_out.py:21-41 | In particular for spans of non-negative offset and length |
| `RenderTheorems.OpenedAndClosed` | src/mailtg_bridge/mail_out.py:34-40 | For all inputs, every span is opened as often as listed; closed as often, exactly when it has positive length |
| `RenderTheorems.NestsExactlyWhenLaminar` | src/mailtg_bridge/mail_out.py:28-40 | Of the pieces the printer goes through, those that print nothing included: opened and closed in nested order if and only if all spans are laminar and of positive length |
| `PrintedTags.OutputTags` | src/mailtg_bridge/mail_out.py:28-41 | The tags read off the printed text are those of the spans with a tag, in order; text and addresses add none |
| `PrintedTags.TagsNestWhenNamesAreApart` | src/mailtg_bridge/mail_out.py:28-40 | Printed tags are well nested, by name, whenever the spans that print one have positive length and those of different tags do not cross |
| `PrintedTags.TagsNestExactlyWhenLaminar` | src/mailtg_bridge/mail_out.py:28-40 | When no two spans of one tag cross, the printed tags are well nested if and only if the spans that print one are laminar and of positive length |
| `PrintedTags.OwnTagsNestExactlyWhenLaminar` | src/mailtg_bridge/mail_out.py:28-40 | For all inputs: each printed closing tag meets the opening tag of its own span if and only if the spans that print a tag are laminar and of positive length |
| `PrintedTags.NestedTagsArePositive` | src/mailtg_bridge/mail_out.py:28-40 | For all inputs: well-nested printed tags come from spans of positive length only |
| `PrintedTags.CrossingMayStillNest` | src/mailtg_bridge/mail_out.py:28-40 | Why the tags must be told apart: three crossing spans of two tags whose printed tags are well nested all the same |
| `QuoteSkipper.Text.HandleStartTag` | src/mailtg_bridge/mail_in.py:31-37 | One start tag moves the machine as specified |
| `QuoteSkipper.Text.HandleEndTag` | src/mailtg_bridge/mail_in.py:38-41 | One end tag moves the machine as specified |
| `QuoteSkipper.Extract` | src/mailtg_bridge/mail_in.py:46-47 | Feeding all events gives the parts the specification gives |
| `QuoteSkipper.QuotesAreKnown` | src/mailtg_bridge/mail_in.py:21-30 | What is taken for a quote, spelled out: the two tags, and a class that has one of the three names within it |
| `QuoteSkipper.BlocksBreakLines` | src/mailtg_bridge/mail_in.py:20-43 | Outside quotes exactly the listed block elements begin a line, and a closed br does |
| `QuoteSkipper.MachineReadsTree` | src/mailtg_bridge/mail_in.py:28-45 | For every well-tagged forest, void quote elements included, the counter machine gives what reading the tree gives |
| `QuoteSkipper.OwnWordsSurvive` | src/mailtg_bridge/mail_in.py:23-27 | What is kept is a prefix of the text outside quotes, and all of it if and only if no void quote element precedes any of it |
| `QuoteSkipper.VoidQuoteLosesTheRest` | src/mailtg_bridge/mail_in.py:31-41 | A rule of class quoted swallows everything after it |
| `QuoteSkipper.ClosesAtItsOwnEnd` | src/mailtg_bridge/mail_in.py:31-41 | The skip counter reaches zero exactly at the end tag of the quote's opener, however deep the same tag nests |
| `MailText.CollapseBlanks` | src/mailtg_bridge/mail_in.py:49-51 | The loop gives the collapsed lines |
| `MailText.CollapsingKeepsTheText` | src/mailtg_bridge/mail_in.py:49-51 | Lines with text stay in order, blanks stay single, and doing it twice changes nothing |
| `MailText.BlanksBecomeOne` | src/mailtg_bridge/mail_in.py:49-51 | After a line with text, any number of blank lines becomes one, and none stays none |
| `MailText.StripQuotedTail` | src/mailtg_bridge/mail_in.py:72-77 | The longest prefix without a line that heads a quotation |

## Left out

- Ports.Surroundings.FetchSince: the order of a truncated fetch is a parameter, so that both what the cursor needs and what Telethon gives can be spoken about.
- Orchestrator.BridgeService.RunInboundCycle: every listed dialog gets its turn, but a message too large for the limit raises at every turn, and nothing is claimed about eventual delivery.
- Orchestrator.BridgeService.FetchAndDeliver: an error nobody handles, from a list, fetch, download or poll, is the process dying at that point.
- Store.SQLiteStore.SetBridgeEnabled: an empty mail reference, for which the source writes no mark, does not occur; nor does an empty Message-ID in RecordNoticeSent.
- Backoff.DelayBounds: times are real numbers; rounding to microseconds in stored timestamps is not modelled.
- Store.SQLiteStore.PurgeRetention: which of several equally old rows go by count is left open, as SQL leaves it.
- Composer.ComposeBatch: the size of a serialized mail is an arbitrary function of its parts and its part number; headers, the subject among them, encodings and the order in which the degraded path sorts its files are not modelled. A message comes with its author and date as the texts shown and with the link `Routing` builds for it.
- Orchestrator.BridgeService.SendBatch: the files of a download are part of what is composed, not of the machine, whose step only says that something was had or stood in for.
- Composer.DraftsShowAll: counts items, so one path given twice counts twice; that a picture's content id is shown once needs distinct paths.
- MailText.StripQuotedTail: the regular expression that spots a quotation is an arbitrary predicate on lines.
- QuoteSkipper.Extract: works on the events of the HTML parser; tokenizing is the library's.
- Render.RenderEntities: offsets are positions in the text, as the code uses them; that Telegram counts UTF-16 units is not modelled.
- Replies.RepliesReachTheirPeer: the user name and entity lookups behind a peer number are Telegram's.
- SMTP, IMAP and Telethon transport, TLS, login, the copy in the Sent folder: only their outcomes appear, as arbitrary answers of the ports.
- SQL, WAL and locking: tables are maps, a transaction is one step; process exclusion is taken for granted.
- Command parsing, trust headers and `is_addressed`: a mail comes with its verdicts, a fetched message with whether it is addressed.
- Waiting for the next round (`run`, `stop`), temporary files, logging, configuration, prompts: no claim depends on them.
- `MAX(last_id)` and row counts are unbounded integers; SQLite's 64-bit limits are not modelled.
