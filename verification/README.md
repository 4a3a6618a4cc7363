# forgelet-bridge, modelled and verified

forgelet-bridge keeps a forge's dashboard files and a set of Matrix rooms in step. Each tick it
plans what is missing from pure readings of both sides, keeps the plan as work under keys, tries
every kept piece once, and remembers what landed in a state file, so that refused work is tried
again and a restart repeats nothing. This project models that protocol and proves what it keeps
over whole runs.

`dafny verify dfyconfig.toml` checks everything.

## What is modelled

| Part | Modules |
|---|---|
| Texts the protocol compares: trimming, lines, Go's string order, the phone's quote and its undoing, the request file | `Text`, `Quote`, `RequestFile` |
| The durable bookkeeping, who owns each entry, and its save | `Relay` |
| Work kept under keys and listed in their order | `PendingWork` |
| The chat relay: plan, carry out, pair; what is due, its runs, pairing, threads, anchors, echoes, owners, isolation and the exact cost of a failed save | `ChatPlan`, `ChatDue`, `Chat`, `ChatKeys`, `ChatRuns`, `ChatPairing`, `ChatInvariants`, `ChatThreads`, `ChatReplies`, `ChatEcho`, `ChatOwners`, `ChatIsolation`, `ChatLost` |
| Approvals: plan, carry out; who decides, what one tick keeps, isolation between forges, runs of all forges, where calls and records come from, how often it is posted, what is reported, state events, order | `ApprovalPlan`, `ApprovalDecisions`, `Approvals`, `ApprovalTries`, `ApprovalIsolation`, `ApprovalRuns`, `ApprovalSources`, `ApprovalPosts`, `ApprovalReports`, `ApprovalEvents`, `ApprovalOrder` |
| Clarifications: the same | `ClarificationPlan`, `Clarifications`, `ClarificationTries`, `ClarificationIsolation`, `ClarificationRuns`, `ClarificationSources`, `ClarificationPosts`, `ClarificationEvents` |
| The write-through mirror of room state, and what failed saves and restarts cost it | `WaitingKeys`, `Facts`, `FactRuns` |
| What the activity room hears of the board | `Activity`, `ActivityRuns`, `ActivityNews` |
| The resumable removal of a forge | `Forges`, `Purge`, `Removal`, `RemovalRuns` |

Code that changes things step by step is a class or a method with its loops; each method is proved
equal to a function of the state before it, and the results about whole runs are lemmas about those
functions. A call to Matrix or to the forge is a given answer: refused with no effect, or landed
with a new id, together with whether the save after it goes through. A run is any sequence of ticks
with any such answers, restarts from the state file, saves made by other parts of the bridge, and
what the forge and the desk do in between.

The functions the methods are proved equal to are pinned down in turn without them: what a plan holds
is said of the messages and records it is made from (`ChatDue`, `ApprovalDecisions`,
`ClarificationPlan`, `ActivityNews`), and each call, record, thread and owner a run leaves behind is
traced to the message and the call it came from (`ChatDue`, `ChatThreads`, `ChatOwners`,
`ApprovalSources`, `ClarificationSources`).

## What is assumed

- Matrix events and messages have ids that are not empty, and a forge root has a name.
- For isolation between roots: the ids of a root's requests and messages are its own, as are the keys
  of its approvals and questions, which start with the root (internal/dashboard/api.go:190-192), its
  cards' keys and its rooms.
- For approvals and clarifications: the forge lists exactly what it still holds, never lists a key
  again, and takes a resolution or an answer only of what it still holds.
- For approvals: what the desk takes, from the bridge or by itself, it writes down or not; what it
  writes of an approval it took from the bridge is what it took (swarmforge/scripts/pack_web.bb:1208-1228,
  1386-1400). The record may come late or go at any time, as the dashboard keeps the newest hundred only
  (swarmforge/scripts/pack_web.bb:540-580), but not while a report waits to be sent again that would then
  say otherwise. `ApprovalReports.ChangedRecordIsToldTwice` shows that this is needed.
- For the activity room: cards of a board have keys of their own, and a card is done exactly in the
  done lane (internal/board/store.go:34-36).
- For the facts: a room id and an event type are one line each, and content is a string that is not
  empty and that equal contents share.
- During a removal the bridge itself is stopped, so nothing else writes the state file.

## What the proofs found

- A call that lands and whose save then fails is made again (internal/bridge/bridge.go:435-440).
  "At most once" therefore holds as "at most once more than the landings whose save failed", and
  `ChatLost.BoundIsReached` shows that this many do happen. The comment that a restart does not
  repeat work is true of work that was saved: `ChatRuns.RememberedWorkNeverLands`.
- Disjointness of pending and relayed messages, and of kept hand-overs from both, is kept by a tick
  exactly when the save after each hand-over that lands goes through, whatever becomes of the other
  calls and saves (`ChatInvariants.LostHandOverIsUnclean`, `ChatInvariants.RunStaysClean`); otherwise
  a message handed over again is pending after it was relayed (`ChatLost.FailedSaveBreaksDisjointness`).
- A removal leaves one kind of owned entry behind: one under an empty id, because its scope key
  does not read back as one (`Purge.EmptyIdSurvivesRemoval`). `Purge.PurgeIsExactForOwned` is the
  exact condition.
- The chat of a single-agent project is owned by the project's root, so a forge's removal leaves
  those entries; the exactness is therefore stated for an owner.
- The phone marks a quoted line once, but the reader takes a lone carriage return for a line's end.
  A quoted body leaks into the operator's own words exactly when such a return starts, inside one of
  its lines, a piece that is neither blank nor opens with `>`; a carriage return in front of a newline
  is harmless. For every other body the quote is undone, but for words that themselves open with `>`
  (`Quote.SwipeReplyReadsAsItsWords`, `Quote.OwnWordsUndoesTheQuote`).
- A reply that only quotes a question answers it with the empty string
  (`ClarificationPlan.QuoteAloneAnswersWithNothing`), and the room then says it was resolved on the
  desktop (`ClarificationRuns.OperatorsAnswerIsMarkedIffItHasWords`). The comment above `awaitingAnswer`
  takes an empty answer for none.
- An approval and a send-back of one approval that wait together are sent in the order of their
  keys, so the approval is what the forge takes, whichever the operator gave first
  (`ApprovalOrder.KeptTogetherApproves`).
- When the save after a resolution fails and the bridge restarts, only the dashboard's record still
  knows how the approval ended. With the record the room is told what was taken
  (`ApprovalReports.TakenIsWhatIsReported`); without it, that the desktop resolved it, and nothing worse
  (`ApprovalReports.TakenOrTheDesktopIsReported`).
- A report that was refused waits under a key that holds its words. When the dashboard's record comes,
  or is pruned, before the report is sent, the next tick plans one with other words beside it and both
  are sent (`ApprovalReports.ChangedRecordIsToldTwice`). The comment above `record-resolution!` says that
  the record is there before the pending file goes; the code deletes that file first
  (swarmforge/scripts/pack_web.bb:1227-1228, 1399-1400).
- A fact whose write was not saved before a restart is neither remembered nor in the state file; unless it
  is wanted again it stays in the room (`FactRuns.LostSaveForgetsAFact`, `FactRuns.ForgottenFactStays`),
  though the comment above `clearStoppedFacts` says that no stale item is ever shown. Everywhere else
  the memory is right (`FactRuns.MemoryIsRightButForTheLost`).
- A request's answer finds its post only because post keys sort below reply keys
  (`ChatKeys.PostSortsBeforeReply`); nothing else in the code says so.

## Model

| member | source | states |
|---|---|---|
| `ChatRuns.LandsAtMostOnceMoreThanLost` | internal/bridge/bridge.go:409-440 | over any run of ticks of any roots, with any call refused, any save failing and restarts at any point, each message is handed over, each request posted and each answer sent at most once more than its landings whose save failed |
| `ChatRuns.RememberedWorkNeverLands` | internal/bridge/bridge.go:409-440 | work the state file remembers at a start never lands in any run from it, whatever fails |
| `ChatRuns.StepIsSafe` | internal/bridge/bridge.go:409-440 | the invariant behind both: either every landing of a piece of work was lost again, or one more landed and is remembered in the bookkeeping and in the state file and is not waiting to be tried; each step of any root keeps it |
| `ChatLost.FailedSavesRepeat` | internal/bridge/bridge.go:435-440 | for every n there is a run in which n failed saves make one message land n times more, and once again when a save succeeds |
| `ChatLost.BoundIsReached` | internal/bridge/bridge.go:435-440 | the bound above is exact: for every n a run from a fresh start has n lost landings and n + 1 landings of one message |
| `ChatRuns.OwedIsWhatWasNotCarriedOut` | internal/bridge/bridge.go:282-303 | the work a tick leaves owed is the work it tried less the calls that landed and were saved: nothing refused, unanchored or unsaved is forgotten, nothing carried out stays |
| `ChatLost.FailedSaveBreaksDisjointness` | internal/bridge/bridge.go:435-440 | a failed save after a hand-over is enough to break the next result: for any message and any request of its text there is a run from a fresh start after which the message is pending and relayed at once |
| `ChatInvariants.RunStaysClean` | internal/bridge/apply.go:45-57 | while the saves after landed hand-overs go through, whatever else fails, in every reachable state no message is both pending and relayed, and a kept hand-over is of a message that is neither |
| `ChatInvariants.LostHandOverIsUnclean` | internal/bridge/bridge.go:435-440 | the condition is exact: a tick keeps that invariant if and only if the save after every hand-over that landed went through |
| `ChatInvariants.RunStaysInjective` | internal/bridge/apply.go:61-123 | in every reachable state, whatever fails, no two messages a root counts as its own became the same request |
| `ChatPairing.PairingConserves` | internal/bridge/apply.go:61-123 | pairing moves each paired message from pending to relayed with nothing lost or added, leaves every other entry and owner as it was, and pairs each message of that root with a request of its very text that was not taken before, giving it the message or its thread to answer under |
| `ChatPairing.PairingIsMaximal` | internal/bridge/apply.go:61-88 | after the pass no unpaired message of the root has an untaken request of its text |
| `ChatPairing.NoFreeRequestIsLeft` | internal/bridge/apply.go:61-99 | the same read off the bookkeeping after the pass: every request of a still pending text is one a relayed message of the root became |
| `ChatPairing.PairingStaysInjective` | internal/bridge/apply.go:61-123 | a pass over one root keeps every root's relayed messages injective |
| `ChatPairing.ApplyingStaysInjective` | internal/bridge/apply.go:13-57 | posting, answering and handing over keep it too |
| `ChatPairing.TakeRequestIsFirst` | internal/bridge/apply.go:138-145 | the request chosen is the first untaken one of the text, and none is chosen only when every request of the text is taken |
| `ChatPairing.PassMeans` | internal/bridge/apply.go:61-123 | what a pass makes of each waiting message, said of the bookkeeping: it waits on, and if it is the root's or nobody's then every request of its text is taken; or it becomes a request of the queue with its very text that was free, is the root's from then on, and leaves for that request the thread it was asked in, or itself |
| `ChatPairing.PassReports` | internal/bridge/apply.go:61-88 | the number a pass reports is how many messages wait no more, and it goes through exactly when nothing waited, or the queue was read back and the save, if called for, went through |
| `ChatReplies.TickExplainsMissingAnchors` | internal/bridge/apply.go:25-40 | on every tick an answer that finds no message to thread under was preceded on that tick by the refusal of its request's post |
| `ChatReplies.RunExplainsMissingAnchors` | internal/bridge/pending.go:33-65 | the same over whole runs: an answer lacks its anchor only after its own post was refused |
| `ChatReplies.PlannedIsDone` | internal/bridge/bridge.go:409-433 | after a tick whose calls and saves all go through, nothing is kept and everything it planned is remembered as carried out |
| `ChatReplies.ServedTickPlansNothing` | internal/bridge/bridge.go:409-433 | such a tick leaves nothing to plan: the same queue and the same redelivered messages then ask for nothing |
| `ChatThreads.PairedMessageLeavesItsThread` | internal/bridge/apply.go:52-55 | over any run, when a tick makes a message a request, the thread on record for the request is the one the message was handed over with in a landed call, or the message itself when it was asked in none |
| `ChatThreads.HandedOverIsCalledFor` | internal/relay/relay.go:230-258 | and that one is where it was asked, as the planning tick saw the room: the message's own thread; else the thread of the shown message it quotes, or that message; else the quoted message when the bridge posted it |
| `ChatThreads.ThreadsAreWhereTheyWereAsked` | internal/bridge/apply.go:106-123 | in every reachable state each thread on record, in memory and in the file, is the event of a landed post of that request, the thread of a message that became it, or was there at the start |
| `ChatThreads.AnswersGoWhereTheyBelong` | internal/bridge/apply.go:25-40 | and every answer sent in any run went to such a thread, or to a message that had become the request at the start; where its plan knew the thread, to that |
| `ChatEcho.HandedOverIsNeverEchoed` | internal/bridge/apply.go:42-88 | the operator's messages are never echoed: from any start, when a tick reads back a request not shown before, and no more requests of its text are free than messages of that text wait, the request is one of those messages from then on and no later tick tries to post it, through any refusals and restarts while the saves after hand-overs go through |
| `ChatEcho.NeverEchoed` | internal/relay/relay.go:275-316 | once a message became a request, no run tries to post that request again while the saves after hand-overs go through, and the message stays that request, in memory and in the file |
| `ChatEcho.FreeRequestsArePaired` | internal/bridge/apply.go:61-99 | when no more requests of a text are free than messages of it wait, the pass pairs every one of those requests with one of those messages |
| `ChatEcho.RelayedIsNotPosted` | internal/relay/relay.go:275-316 | no plan posts a request some message became |
| `ChatKeys.ActionKeyInjective` | internal/bridge/pending.go:63-65 | two planned actions share a key exactly when kind, request and source agree |
| `ChatKeys.PostSortsBeforeReply` | internal/bridge/pending.go:33-65 | a post's key sorts strictly before a reply's, whatever the requests are called |
| `ChatOwners.EveryEntryNamesItsRoot` | internal/relay/relay.go:138-152 | over any run every chat entry on record, in memory and in the file, was there at the start or names as its owner a root that was served, which is what a removal goes by |
| `ChatIsolation.TickLeavesOthersAlone` | internal/bridge/bridge.go:409-433 | whatever fails, a tick of one root changes no chat entry and no owner under an id that is not its own and nothing of the other parts of the bookkeeping; the state file holds of them what it held or what the bookkeeping did; and its kept work and pending messages stay its own |
| `ChatPlan.StrangersDecideNoChat` | internal/relay/relay.go:206-271 | deleting every other sender's messages leaves the requests handed to the forge, words and message, as they were |
| `ChatDue.PlanIsDue` | internal/relay/relay.go:204-316 | a planned hand-over is exactly an operator's message that says something and neither waits nor became a request, with their own words and the thread it was asked in; a planned post is exactly a listed request's own text, not blank, when the request has no thread on record and no message became it; a planned answer is a listed request's response not sent yet, to the recorded thread, else to a message that became the request, else to none yet, and every such response is planned |
| `ChatDue.EveryCallIsDue` | internal/bridge/bridge.go:409-440 | over any run every hand-over, post and answer tried, so every one that landed, was due in some tick of its root: it says that message's words, that request's text or its response |
| `ChatPlan.PlannedIsUnsettled` | internal/relay/relay.go:206-306 | nothing the bookkeeping remembers as carried out is planned, and each planned action carries what its kind needs |
| `ChatPlan.UnanchoredReplyComesWithItsPost` | internal/relay/relay.go:275-306 | an answer planned without a message to thread under comes with the post of its request in the same plan |
| `ChatPlan.RelayedOrigins` | internal/relay/relay.go:310-316 | the loop yields an inverse of the relayed map: every request has a message that became it, and only such |
| `ChatPlan.FindQuotedThread` | internal/relay/relay.go:234-258 | the loop finds the thread of the quoted message among those just seen, any sender's, and else knows a quoted post of the bridge from the bookkeeping |
| `ChatPlan.AskForEvent` | internal/relay/relay.go:214-271 | one event yields a hand-over exactly when the operator asked |
| `ChatPlan.PlanOperatorRequests` | internal/relay/relay.go:214-228 | the loop yields the operator's hand-overs in order |
| `ChatPlan.AskForRequest` | internal/relay/relay.go:275-306 | one request yields its post, its answer, both or neither, by what the bookkeeping holds; `ChatDue.PlanIsDue` says what they carry |
| `ChatPlan.PlanForgeRequests` | internal/relay/relay.go:275-306 | the loop yields the requests' work in order, for some index of origins |
| `ChatPlan.MakePlan` | internal/relay/relay.go:206-209 | the plan, as the specification the results above are about |
| `Chat.ForgeChat.PostRequestMessage` | internal/bridge/apply.go:13-21 | a post that lands is remembered as the request's thread, owned by the root |
| `Chat.ForgeChat.PostRequestReply` | internal/bridge/apply.go:25-40 | an answer that lands is remembered, owned by the root |
| `Chat.ForgeChat.CreateForgeRequest` | internal/bridge/apply.go:45-57 | a message handed over is pending with its text and its thread, owned by the root; `ChatThreads.ThreadsAreWhereTheyWereAsked` rests on them |
| `Chat.ForgeChat.Apply` | internal/bridge/bridge.go:435-453 | an answer without an anchor and a refused call change nothing; a landed call changes exactly its entries and the file only when the save goes through |
| `Chat.ForgeChat.TryOne` | internal/bridge/bridge.go:419-428 | a piece of work leaves the kept work exactly when its call and its save went through |
| `Chat.ForgeChat.TryEach` | internal/bridge/bridge.go:418-428 | the loop tries each kept piece once, in order, going on after a refusal, and counts the calls that landed and were saved |
| `Chat.ForgeChat.TakenRequests` | internal/bridge/apply.go:90-99 | the loop yields the requests the root's relayed messages became, unowned messages counted with every root |
| `Chat.ForgeChat.RecordRelayed` | internal/bridge/apply.go:106-118 | the first half of a pair: the message is relayed and its request has a thread, the planned one or the message |
| `Chat.ForgeChat.ForgetPending` | internal/bridge/apply.go:119-123 | the second half: the message waits no longer, nor its thread |
| `Chat.ForgeChat.RecordPair` | internal/bridge/apply.go:106-123 | a pair moves the message, gives the request its thread and moves the scopes with them |
| `Chat.ForgeChat.PairEvent` | internal/bridge/apply.go:74-84 | one pending message is paired exactly when it belongs to the root and an untaken request has its text |
| `Chat.ForgeChat.PairEvents` | internal/bridge/apply.go:72-84 | the loop pairs the messages in order, each seeing what the earlier ones took |
| `Chat.ForgeChat.PairPendingRequests` | internal/bridge/apply.go:61-88 | the pass reads no queue when nothing is pending, saves only when something was paired, and reports the number of pairs and whether it went through |
| `Chat.ForgeChat.CarryOutChat` | internal/bridge/bridge.go:409-433 | one tick of one root's chat: plan, keep, try, pair; and the number reported is the calls that landed and were saved, with the pairs made when the pass went through |
| `PendingWork.KeptMembers` | internal/bridge/pending.go:25 | each kept action was kept before or is planned, under its own key |
| `PendingWork.KeptKeys` | internal/bridge/pending.go:25 | nothing kept or planned is left out |
| `PendingWork.KeptIsLatest` | internal/bridge/pending.go:20-27 | under each key the last action planned with it is kept, and where none was, what was kept before |
| `PendingWork.Work.Keep` | internal/bridge/pending.go:25 | keeping replaces the action of its key and no other |
| `PendingWork.Work.KeepAll` | internal/bridge/bridge.go:411-413 | the loop keeps a whole plan, a later action replacing an earlier one of its key |
| `PendingWork.Work.Done` | internal/bridge/pending.go:27 | exactly the action's key is dropped |
| `PendingWork.Work.Count` | internal/bridge/pending.go:29 | the count is the number of pieces the next tick will try |
| `PendingWork.Work.List` | internal/bridge/pending.go:33-44 | the kept work in the order of its keys |
| `Relay.ScopeKeyRoundTrip` | internal/relay/relay.go:189-196 | reading a scope key back undoes writing it, newlines in the key included, and is refused exactly for an empty key |
| `Relay.KeyInInjective` | internal/relay/relay.go:189-191 | no two entries of any sections share a scope key |
| `Relay.ScopedOwner` | internal/relay/relay.go:139-160 | scoping an entry sets its owner and no other entry's |
| `Relay.Bookkeeping.Scope` | internal/relay/relay.go:139-142 | the whole new bookkeeping after an entry is scoped |
| `Relay.Bookkeeping.Unscope` | internal/relay/relay.go:146-149 | the whole new bookkeeping after a scope is dropped |
| `Relay.Bookkeeping.DropScope` | internal/relay/relay.go:167-185 | one scope drops exactly the entry of the section it names |
| `Relay.Bookkeeping.ForgetScoped` | internal/relay/relay.go:163-187 | walking the scopes in any order forgets exactly the entries the root owns |
| `Relay.Bookkeeping.Save` | internal/state/state.go:122-136 | the file is the whole bookkeeping, or as it was when the save fails |
| `ApprovalRuns.ResolvedOnceAndRecorded` | internal/bridge/approvals.go:45-59 | over any run of all forges at most one resolution of an approval is taken, even when an approval and a send-back are kept together, and a resolution taken and saved is what the record says in every later state, in memory and in the file |
| `ApprovalRuns.RecordedIsVouchedFor` | internal/bridge/approvals.go:146-212 | the other way round, whatever fails: a record saying approved or sent back says what the forge took or the desk wrote, unless it said so at the start, which no approval open or unproposed then did; whatever the desk writes down, late or never, and forgets |
| `ApprovalRuns.ReportedOnceAndTruly` | internal/bridge/approvals.go:146-180 | over any run of all forges an ending is reported at most once more than its reports whose save failed, by a mark or by words and never both, and a saved report says the recorded ending |
| `ApprovalRuns.OpenIsUntouched` | internal/bridge/approvals.go:193-219 | in every state any run of all forges reaches, an approval still held has no resolution taken, recorded or reported |
| `ApprovalSources.TakenIsWhatWasGestured` | internal/bridge/approvals.go:45-60 | over any run of all forges what the forge took of an approval is what a gesture of the operator's said of it in some tick, or was taken before the start |
| `ApprovalSources.EveryCallIsDue` | internal/bridge/approvals.go:31-69 | over any run every call tried was due in some tick, on the records of its own room |
| `ApprovalSources.RecordsComeFromCalls` | internal/bridge/approvals.go:129-219 | over any run each part of a record, in memory and in the file, is as at the start or was written by the landed call it stands for: the message by a post into a room of its forge, the ending by a resolution or a report, the report by that report; a written record names its forge |
| `ApprovalPosts.PostedOnce` | internal/relay/approvals.go:296-304 | over any run, while its forge keeps its room, an approval is posted at most once more than its posts whose save failed |
| `ApprovalReports.TakenIsWhatIsReported` | internal/relay/approvals.go:322-357 | over any run of all forges in which the desk writes down what it takes of an approval and keeps the record, every report of a resolution the forge took from the bridge says what was taken, by its mark, also after a lost save and a restart; and the record says that or nothing yet, in memory and in the file |
| `ApprovalReports.TakenOrTheDesktopIsReported` | internal/relay/approvals.go:329-337 | whatever the desk writes down or forgets, such a report says what was taken or that the desktop resolved it |
| `ApprovalReports.ChangedRecordIsToldTwice` | internal/bridge/approvals.go:45-59 | when the desk's record changed while a report that now says otherwise waits, a quiet tick whose calls and saves all go through reports the approval twice, so the assumption about the record is needed |
| `ApprovalReports.VisitStaysStraight` | internal/bridge/approvals.go:31-69 | a tick of its own forge, whatever is refused, tells nothing of an approval before it is over, and of one taken from the bridge only what was taken or some given other words that the desk's record may call for |
| `ApprovalTries.RoomDecidesOnlyItsOwn` | internal/bridge/approvals.go:162-166 | what a room resolves or reports was posted in that very room |
| `ApprovalTries.VisitStaysHealthy` | internal/bridge/approvals.go:31-69 | the invariant behind these: a tick of its own forge keeps it for every approval, whatever is refused and whichever save fails |
| `ApprovalTries.OpenIsNotReported` | internal/relay/approvals.go:311-320 | a tick that began with the approval open leaves no report of it waiting, so what the desk writes down in that tick contradicts none |
| `ApprovalIsolation.VisitLeavesOthersAlone` | internal/bridge/bridge.go:319-404 | serving one forge's approvals, whatever fails, leaves every approval of another forge as it was: its record, what the file holds of it but for a save of the whole, what was taken and what was reported |
| `ApprovalIsolation.VisitStaysAtHome` | internal/bridge/approvals.go:129-166 | a posted approval's message stays in a room of its own forge and kept work stays its forge's, which is what the isolation rests on |
| `ApprovalEvents.IndexesAgree` | internal/bridge/approvals.go:74-102 | the index facts are written by and the index events are remembered by name the same approval, also where two approvals share an id |
| `ApprovalEvents.RememberedEventsAreTrue` | internal/bridge/approvals.go:87-102 | over any run of all forges each remembered state event was sent with the content of the very approval it is remembered under, which its forge held then, in memory and in the file |
| `ApprovalEvents.EventIsOfNoOther` | internal/relay/facts.go:48-60 | so where contents tell the approvals held apart, no event of another approval is remembered, not even of one that shares the id |
| `ApprovalEvents.VisitRemembersItsEvents` | internal/bridge/approvals.go:87-102 | after a tick each approval held has on record the last state event written for it, and in the file when the save went through |
| `ApprovalOrder.ApprovalSortsFirst` | internal/bridge/pending.go:89-91 | an approval's key sorts before its send-back's, whatever the approval is called |
| `ApprovalOrder.ActionKeyInjective` | internal/bridge/pending.go:89-91 | for resolutions without a slash, as all planned here are, two pieces of work share a key exactly when kind, approval and resolution agree |
| `ApprovalOrder.KindsSortInOrder` | internal/bridge/pending.go:31-44 | work is tried kind by kind: gestures, posts, marks, replies, resolutions |
| `ApprovalOrder.KeptTogetherApproves` | internal/bridge/pending.go:33-44 | kept together, the approval is asked for first whichever was given first, so it is what the forge takes when its call goes through |
| `ApprovalOrder.PlannedResolutionIsKnown` | internal/relay/approvals.go:170-244 | a plan resolves an approval as approved or sent back and no other way |
| `ApprovalDecisions.StrangersDecideNoApproval` | internal/relay/approvals.go:138-257 | deleting every other sender's reactions and messages leaves the whole plan as it is |
| `ApprovalDecisions.PlanMembers` | internal/relay/approvals.go:138-357 | a plan holds exactly what is due, said of the gestures and records: a resolution of a posted, undecided approval by a check mark on its event, by a reply under it - approved when it is a yes or the card's name, else sent back with exactly the words - or by naming its card in the room; the gestures exactly when the operator's reaction or message reads as nothing; posts; and reports with the ending, its mark or its words, and the message it goes under |
| `ApprovalDecisions.EveryReplyDecides` | internal/relay/approvals.go:196-244 | each of the operator's messages under an approval that waits for a decision decides it in the plan: approved with no feedback if and only if the trimmed, folded words are one of the seven or the card's name, else sent back with exactly the words |
| `ApprovalDecisions.EveryMarkApproves` | internal/relay/approvals.go:170-188 | each of the operator's check marks on an event of such an approval approves it in the plan |
| `ApprovalDecisions.ByEventIsLast` | internal/relay/approvals.go:153-167 | where approvals share an event the index holds it under the last |
| `ApprovalDecisions.PlanIsConsistent` | internal/relay/approvals.go:138-320 | one plan never resolves and reports, posts and resolves, or posts and reports the same approval |
| `ApprovalDecisions.ByEventNames` | internal/relay/approvals.go:153-167 | the index knows an event exactly when some pending approval has it, and then names one that does |
| `ApprovalDecisions.ByEventIsInverse` | internal/relay/approvals.go:153-167 | with events of their own the index is the exact inverse of the remembered messages and state events |
| `ApprovalPlan.ApprovalsByEvent` | internal/relay/approvals.go:153-167 | the loop builds the index, later approvals winning, and the set of pending keys |
| `ApprovalPlan.PlanApprovedByReaction` | internal/relay/approvals.go:170-188 | the loop yields one approval for each of the operator's check marks on an undecided approval's event |
| `ApprovalPlan.PlanTextGestures` | internal/relay/approvals.go:196-218 | the loop yields what each of the operator's messages does, in order; `ApprovalDecisions.EveryReplyDecides` says what a reply decides |
| `ApprovalPlan.PlanUnpostedApprovals` | internal/relay/approvals.go:296-304 | the loop yields the posts due |
| `ApprovalPlan.PlanResolutionsToReport` | internal/relay/approvals.go:311-320 | walking the records in any order yields exactly the reports due |
| `ApprovalPlan.MakePlan` | internal/relay/approvals.go:138-146 | the plan, as the specification the results above are about |
| `Approvals.ApprovalStore.Resolve` | internal/bridge/approvals.go:193-205 | the forge's side: taken exactly when the approval is open and the call goes through, and then open no more |
| `Approvals.ApprovalsRoom.RecordApproval` | internal/bridge/approvals.go:214-219 | what each kind of work writes into the record, and that no other record changes |
| `Approvals.ApprovalsRoom.ApplyApproval` | internal/bridge/approvals.go:104-126 | a refused call changes nothing but the record of calls; a landed one changes exactly its record, and the file when the save goes through |
| `Approvals.ApprovalsRoom.TryOne` | internal/bridge/approvals.go:51-60 | work leaves the kept work exactly when its call and its save went through |
| `Approvals.ApprovalsRoom.TryEach` | internal/bridge/approvals.go:50-60 | the loop tries each kept piece once, in key order |
| `Approvals.ApprovalsRoom.RememberStateEvents` | internal/bridge/approvals.go:87-102 | each event written is remembered under the last approval of its id, in order |
| `Approvals.ApprovalsRoom.CarryOutApprovals` | internal/bridge/approvals.go:31-69 | one tick: plan on the room's share, keep, try, remember; the number reported is the calls that landed and were saved, and the other parts of the bookkeeping and of the file are left alone but for whole saves |
| `ClarificationRuns.AnsweredOnceAndRecorded` | internal/bridge/clarifications.go:25-55 | over any run of all forges a question takes at most one answer, and one taken and saved is what the record holds in every later state, in memory and in the file |
| `ClarificationRuns.RecordedIsVouchedFor` | internal/bridge/clarifications.go:133-179 | the other way round, whatever fails: an answer on record is the one the forge took, unless it was on record at the start, which no question open or unasked then had |
| `ClarificationRuns.ReportedOnceAndTruly` | internal/bridge/clarifications.go:133-179 | over any run of all forges what came of a question is reported at most once more than its reports whose save failed, marked or replied and never both, as the record says |
| `ClarificationRuns.OperatorsAnswerIsMarkedIffItHasWords` | internal/relay/clarifications.go:169-184 | an answer given here, taken and saved, is marked as the operator's exactly when it is not empty; an empty one is reported as resolved on the desktop |
| `ClarificationSources.TakenIsWhatWasSaid` | internal/bridge/clarifications.go:156-165 | over any run of all forges what the forge took as a question's answer is the own words of a message of the operator's that some tick read under it, or was taken before the start |
| `ClarificationSources.EveryCallIsDue` | internal/bridge/clarifications.go:25-55 | over any run every call tried was due in some tick, on the records of its own room |
| `ClarificationSources.RecordsComeFromCalls` | internal/bridge/clarifications.go:117-186 | over any run each part of a record, in memory and in the file, is as at the start or was written by the landed call it stands for; a written record names its forge |
| `ClarificationPosts.PostedOnce` | internal/relay/clarifications.go:142-151 | over any run, while its forge keeps its room, a question is posted at most once more than its posts whose save failed |
| `ClarificationTries.RoomAnswersOnlyItsOwn` | internal/bridge/clarifications.go:148-152 | what a room answers or reports was posted in that very room |
| `ClarificationTries.VisitStaysHealthy` | internal/bridge/clarifications.go:25-55 | the invariant behind these: a tick of its own forge keeps it for every question, whatever is refused and whichever save fails |
| `ClarificationIsolation.VisitLeavesOthersAlone` | internal/bridge/bridge.go:319-404 | serving one forge's clarifications, whatever fails, leaves every question of another forge as it was |
| `ClarificationIsolation.VisitStaysAtHome` | internal/bridge/clarifications.go:117-152 | a posted question's message stays in a room of its own forge and kept work stays its forge's |
| `ClarificationEvents.IndexesAgree` | internal/bridge/clarifications.go:60-88 | the index facts are written by and the index events are remembered by name the same question, also where two share an id |
| `ClarificationEvents.RememberedEventsAreTrue` | internal/bridge/clarifications.go:73-88 | over any run of all forges each remembered state event was sent with the content of the very question it is remembered under, which its forge held then, in memory and in the file |
| `ClarificationEvents.EventIsOfNoOther` | internal/relay/facts.go:65-77 | so where contents tell the questions held apart, no event of another question is remembered, not even of one that shares the id |
| `ClarificationEvents.VisitRemembersItsEvents` | internal/bridge/clarifications.go:73-88 | after a tick each question held has on record the last state event written for it, and in the file when the save went through |
| `ClarificationPlan.StrangersAnswerNothing` | internal/relay/clarifications.go:80-129 | deleting every other sender's messages leaves the whole plan as it is |
| `ClarificationPlan.PlanMembers` | internal/relay/clarifications.go:80-204 | a plan holds exactly what is due, said of the replies and records: an answer with exactly the operator's own words from a reply under the waiting question, posts, and reports with their mark or words and the message they go under |
| `ClarificationPlan.PlanIsConsistent` | internal/relay/clarifications.go:80-163 | one plan does one kind of thing about a question |
| `ClarificationPlan.ByEventNames` | internal/relay/clarifications.go:93-107 | the index knows an event exactly when some pending question has it, and then names one that does |
| `ClarificationPlan.ByEventIsLast` | internal/relay/clarifications.go:92-106 | where questions share an event the index holds it under the last |
| `ClarificationPlan.EveryReplyIsSentOn` | internal/relay/clarifications.go:110-128 | every reply of the operator's under a waiting question is in the plan as its answer, with exactly the own words of that reply |
| `ClarificationPlan.QuoteAloneAnswersWithNothing` | internal/relay/clarifications.go:110-128 | so a phone's reply that quotes the question and adds no words plans the empty answer, for every quoted body that leaks nothing |
| `ClarificationPlan.ClarificationsByEvent` | internal/relay/clarifications.go:93-107 | the loop builds the index, later questions winning, and the set of waiting keys |
| `ClarificationPlan.PlanAnsweredByReply` | internal/relay/clarifications.go:111-129 | the loop yields the answers in order; `ClarificationPlan.EveryReplyIsSentOn` says what it carries |
| `ClarificationPlan.PlanUnposted` | internal/relay/clarifications.go:140-148 | the loop yields the posts due |
| `ClarificationPlan.PlanAnswersToReport` | internal/relay/clarifications.go:154-163 | walking the records in any order yields exactly the reports due |
| `ClarificationPlan.MakePlan` | internal/relay/clarifications.go:80-86 | the plan, as the specification the results above are about |
| `Clarifications.ClarificationStore.TakeAnswer` | internal/bridge/clarifications.go:156-165 | the forge's side: taken exactly when the question is waiting and the call goes through, and then waiting no more |
| `Clarifications.ActionKeysAgree` | internal/bridge/pending.go:100-102 | two pieces of work share a key exactly when they are of one kind and the answer behind the question's key reads the same |
| `Clarifications.KindsSortInOrder` | internal/bridge/pending.go:31-44 | work is tried kind by kind: answers, posts, marks, replies |
| `Clarifications.ClarificationsRoom.RecordClarification` | internal/bridge/clarifications.go:181-186 | what each kind of work writes into the record, and that no other record changes |
| `Clarifications.ClarificationsRoom.ApplyClarification` | internal/bridge/clarifications.go:92-113 | a refused call changes nothing but the record of calls; a landed one changes exactly its record, and the file when the save goes through |
| `Clarifications.ClarificationsRoom.TryOne` | internal/bridge/clarifications.go:40-45 | work leaves the kept work exactly when its call and its save went through |
| `Clarifications.ClarificationsRoom.TryEach` | internal/bridge/clarifications.go:39-46 | the loop tries each kept piece once, in key order |
| `Clarifications.ClarificationsRoom.RememberStateEvents` | internal/bridge/clarifications.go:73-88 | each event written is remembered under the last question of its id, in order |
| `Clarifications.ClarificationsRoom.CarryOutClarifications` | internal/bridge/clarifications.go:25-55 | one tick: plan on the room's share, keep, try, remember; the number reported is the calls that landed and were saved, and the other parts of the bookkeeping and of the file are left alone but for whole saves |
| `Facts.FactMirror.CarryOutFacts` | internal/bridge/facts.go:22-41 | one pass, with rooms and memory apart: what is written and cleared, up to the first failure, changes both alike; when it succeeds every missing fact was written and every stopped one cleared with one call each, and the room carries exactly the wanted facts if and only if the memory was right where the pass decides by it; the file is the bookkeeping after a success that made a call and else as it was, so it mirrors the memory exactly when it did or a call was made; what the memory has costs no call, so a restart from such a file writes nothing the rooms already have |
| `Facts.FactMirror.WriteChangedFacts` | internal/bridge/facts.go:56-78 | writing in any order, up to the first failure: memory and rooms are the old ones overlaid with what was done, and the events are of exactly the changed facts |
| `Facts.FactMirror.ClearStoppedFacts` | internal/bridge/facts.go:82-99 | clearing in any order, up to the first failure: it succeeds exactly when every remembered fact no longer wanted is gone |
| `Facts.FactMirror.WriteFact` | internal/bridge/facts.go:58-76 | a fact remembered as held costs no call; a failed call leaves room and memory as they were |
| `Facts.FactMirror.ClearFact` | internal/bridge/facts.go:92-96 | a cleared fact leaves the room and the memory together or not at all |
| `Facts.FactsByKey` | internal/bridge/facts.go:45-51 | the loop keeps the last fact of each key |
| `Facts.ByKeyIsLast` | internal/bridge/facts.go:45-51 | a key stands for the content of the last fact with it |
| `Facts.NothingToDo` | internal/bridge/facts.go:22-41 | a room carries exactly the wanted facts if and only if there is nothing to write and nothing to clear |
| `Facts.PassCarriesWhenKnown` | internal/bridge/facts.go:56-99 | after a pass that goes through a room carries exactly the wanted facts if and only if every wanted fact taken for held is held and every unwanted one that is held is remembered |
| `Facts.PassIsMoving` | internal/bridge/facts.go:56-99 | a pass, however far it comes, leaves every other room and type as it was and each key of its own as it was or as wanted |
| `FactRuns.MemoryIsRightButForTheLost` | internal/bridge/facts.go:12-41 | over any passes, failures, saves and restarts, memory and rooms agree at every place but those whose last change a restart forgot before it was saved, and so does the file but for changes still to be saved |
| `FactRuns.UnlostRoomCarriesTheWanted` | internal/bridge/facts.go:22-41 | over any run, a pass that goes through over a room of which no change was lost leaves it carrying exactly the wanted facts |
| `FactRuns.ForgottenFactStays` | internal/bridge/facts.go:80-99 | a fact neither memory nor file knows stays in the room over every run in which it is not wanted again |
| `FactRuns.LostSaveForgetsAFact` | internal/bridge/facts.go:36-41 | a write followed by a failure and a restart ends in such a fact, for any new fact of any room |
| `Facts.MirroredAt` | internal/bridge/facts.go:103-115 | a waiting key is in the bookkeeping exactly when its place is remembered, with the same content |
| `Facts.MirroredPut` | internal/bridge/facts.go:71-72 | putting a content under an event's waiting key remembers that place and changes no other |
| `Facts.MirroredDrop` | internal/bridge/facts.go:92-96 | deleting an event's waiting key forgets that place and no other |
| `WaitingKeys.WaitingKeyRoundTrip` | internal/bridge/facts.go:103-115 | reading a waiting key back undoes writing it, whatever newlines the state key holds |
| `ActivityRuns.PassConserves` | internal/bridge/activity.go:34-63 | over a pass in which anything may fail, what is owed of a card and what was said of it add up to the same; after a pass that succeeds nothing is owed |
| `ActivityRuns.PassStaysWithin` | internal/bridge/activity.go:34-63 | and no more is said or owed of a card than before, in memory and in the file, but for what a failed save lost |
| `ActivityRuns.PassLeavesOthersAlone` | internal/bridge/activity.go:34-63 | a pass over one forge's board, whatever fails, leaves every card of other boards as it was: what is remembered, what the file holds but for a save of the whole, and what was said |
| `ActivityRuns.ChangeIsAnnouncedOnce` | internal/bridge/activity.go:34-63 | on an unchanged board, over any passes over this and other boards, failures and restarts, a change is announced at most once more than its announcements that were not saved |
| `ActivityRuns.ChangeIsAnnouncedExactlyOnce` | internal/bridge/activity.go:87-148 | without a restart it is announced exactly once, however many passes and saves failed before, and then the same board asks for nothing |
| `ActivityRuns.PassRemembersTheBoard` | internal/bridge/activity.go:136-175 | after a pass that succeeds each card of the board is remembered in its lane, as finished exactly when it is done |
| `ActivityRuns.PassIsConsistent` | internal/relay/activity.go:83-90 | whatever fails, what is remembered as finished is what sits in the done lane, in memory and in the file |
| `ActivityRuns.PlanSaysWhatIsOwed` | internal/relay/activity.go:59-79 | a plan names a card exactly as often as there is something to say of it: once or never |
| `ActivityNews.PlanIsNews` | internal/relay/activity.go:52-90 | the plan tells exactly the news: appeared for a card never seen and not done, finished for one seen, done and not reported so, moved on for one seen, not done and in another lane |
| `ActivityNews.PassSays` | internal/bridge/activity.go:34-63 | a pass says, whatever fails, at most one message of news and then one of moves, each of nothing but news and in the board's order; one that succeeds says all there is |
| `ActivityNews.PassRemembersWhatItTold` | internal/bridge/activity.go:136-175 | what a pass remembers of each card, in memory and in the file, is what it did or the card as told: its forge, lane, project, name and what was said; after success exactly that |
| `ActivityNews.SavingDecidesOnlyTheFile` | internal/bridge/activity.go:52-56 | the history is remembered whether or not its save goes through, and a pass that succeeds leaves nothing it changed unsaved |
| `Activity.MakePlan` | internal/relay/activity.go:59-79 | the loop yields what each card calls for, in order |
| `Activity.TellCard` | internal/relay/activity.go:61-76 | one card calls for one update or none, by what is remembered of it |
| `Activity.SplitCardUpdates` | internal/bridge/activity.go:112-121 | the loop splits a plan into news and moves, each in order |
| `Activity.ActivityRoom.RememberCardUpdates` | internal/bridge/activity.go:136-148 | the cards announced are remembered with their lane and what was said |
| `Activity.ActivityRoom.PostCards` | internal/bridge/activity.go:87-107 | one group is one post: refused, nothing is remembered; landed, all of it is, and saved only when the save goes through |
| `Activity.ActivityRoom.RememberQuietCards` | internal/bridge/activity.go:155-175 | cards with nothing to say are remembered where they are and no known card changes |
| `Activity.ActivityRoom.CarryOutActivity` | internal/bridge/activity.go:34-63 | one pass: news, then moves, then the quiet cards, stopping at the first failure |
| `RemovalRuns.AttemptsKeepOrder` | internal/removal/removal.go:70-149 | over any number of attempts, with any call, load or save failing and a crash anywhere, the Matrix calls are in the order of the work, and either a prefix of the work is recorded as done with every room still recorded, or all of it succeeded and the forge is gone |
| `RemovalRuns.NothingAfterLeaving` | internal/removal/removal.go:101-149 | so no room is cleared of facts or of the operator once the bridge may have left it, in whichever attempt, nor of facts after the operator may have been removed |
| `RemovalRuns.RemovedMeansAllSucceeded` | internal/removal/removal.go:70-166 | Removed is answered exactly when the forge is gone from the record, and then every stage of every recorded room succeeded; every other end keeps all but the cleanup progress |
| `RemovalRuns.RemovedForgetsTheForge` | internal/removal/relay.go:10-64 | after Removed no approval, question, card, chat entry with an id or state event of the forge is left, and everything else is as it was, owner and all; every other end leaves the bookkeeping alone |
| `RemovalRuns.AttemptAnswers` | internal/removal/removal.go:70-166 | what an attempt answers and why: the inspection's answer, that Matrix cannot be reached, the fresh inspection's, the reason of the very stage whose call failed, or the state file; all its calls but the last succeeded |
| `RemovalRuns.RecordClaimsOnlyWhatSucceeded` | internal/removal/removal.go:127-149 | the record says a room's facts are cleared, its operator removed or the bridge gone only where that very call succeeded |
| `RemovalRuns.AttemptKeepsOrder` | internal/removal/removal.go:70-166 | one attempt never loses progress and makes at most one Matrix call more than the stages it records |
| `RemovalRuns.StageKeepsOrder` | internal/removal/removal.go:127-149 | one stage makes a call exactly when it is the first not recorded, and goes on only with that stage recorded |
| `RemovalRuns.FineAttemptRemoves` | internal/removal/removal.go:70-166 | an attempt whose calls, loads and saves go through removes the forge |
| `RemovalRuns.FirstAttempt` | internal/removal/removal.go:182-189 | a recorded forge whose removal has not begun is at the start of that order |
| `Removal.Service.Remove` | internal/removal/removal.go:70-99 | one attempt, as the specification the results above are about |
| `Removal.Service.CleanRoom` | internal/removal/removal.go:101-125 | the three stages of one room in order, each given what the last one saved |
| `Removal.Service.CleanStage` | internal/removal/removal.go:127-149 | a stage recorded as done is skipped without a call; one that succeeds is recorded and saved |
| `Removal.Service.SaveForge` | internal/removal/removal.go:173-180 | progress is written over a freshly loaded state, or not at all |
| `Removal.Service.Finalize` | internal/removal/removal.go:151-166 | the forge and what is kept of it go from a freshly loaded state in one save |
| `Forges.InspectIsReadyWhen` | internal/removal/inspect.go:14-84 | a removal may start exactly for a configured absolute root without parent parts whose forge is recorded with every room id; nothing else names a room to touch |
| `Forges.InspectAnswers` | internal/removal/inspect.go:14-84 | the answer and the reason of every inspection, said of the root, the configured roots and base names and the record; only a ready one names a root, a forge and rooms |
| `Forges.OrderedRoomsAreTheRecordedOnes` | internal/removal/inspect.go:86-113 | the rooms to clean are exactly the recorded ones, each once |
| `Forges.RoomsAreVisitedInOrder` | internal/removal/inspect.go:86-113 | of two rooms the one first named comes first: the space, the forge's room, approvals, activity, clarifications, then the projects' by name |
| `Forges.ListOrderedRooms` | internal/removal/inspect.go:86-113 | the loop lists each non-empty room where it is first named |
| `Forges.FindMatchingRoots` | internal/removal/inspect.go:48-59 | the loop lists the configured roots an absolute root or a base name means |
| `Purge.PurgeIsExactForOwned` | internal/relay/relay.go:163-187 | a chat entry goes with a removal exactly when the removed root owns it and its id is not empty; every other entry and owner survives unchanged |
| `Purge.PurgeIsExactForWaiting` | internal/removal/relay.go:32-39 | a fact is forgotten exactly when its room is one of the removed forge's |
| `Purge.PurgeIsExactForRecords` | internal/removal/relay.go:45-64 | an approval's or question's record goes if and only if it names the removed root or one of its rooms, a card's if and only if it names the root, and every other stays as it was |
| `Purge.PurgesCommute` | internal/relay/relay.go:163-187 | what two roots own goes in either order alike |
| `Purge.PurgeRelay` | internal/removal/relay.go:10-22 | the whole new bookkeeping after a purge, the file untouched |
| `Purge.PurgeWaiting` | internal/removal/relay.go:32-39 | walking the facts in any order forgets those of the rooms and no other |
| `Purge.PurgeRoomStates` | internal/removal/relay.go:45-56 | approvals and clarifications go exactly when the root or one of the rooms is theirs; `Purge.PurgeIsExactForRecords` says the same without them |
| `Purge.PurgeActivity` | internal/removal/relay.go:58-64 | cards go exactly when the root is theirs |
| `Purge.ListRemovalRooms` | internal/removal/relay.go:24-30 | the set of the rooms a removal visits |
| `Quote.OwnWordsUndoesTheQuote` | internal/relay/quote.go:10-36 | for every quoted body and any words, a swipe-reply reads as its words trimmed if and only if the body leaks nothing and the words do not themselves open with a quote marker |
| `Quote.SwipeReplyReadsAsItsWords` | acceptance/fixtures/user.go:244-280 | for every quoted body and any words, a swipe-reply reads exactly as its words alone would if and only if no carriage return inside a quoted line starts a piece that is neither blank nor marked |
| `Quote.LeakIsRead` | internal/relay/quote.go:10-41 | from a body that leaks, the operator's words are everything from the first leaking piece, then the words, whole: more than the words |
| `Quote.CarriageReturnLeaksTheQuote` | acceptance/fixtures/user.go:244-280 | a quoted line with a carriage return in it, before a piece that is neither blank nor marked, is one that leaks, and the piece is what leaks |
| `Quote.OwnWordsAre` | internal/relay/quote.go:10-36 | the own words are the body from its first line that neither opens with `>` nor is blank, trimmed |
| `Quote.QuoteBackMarks` | acceptance/fixtures/user.go:274-280 | the quote has the quoted lines, each behind `>` and a space |
| `Quote.ReadOwnWords` | internal/relay/quote.go:10-36 | the loop yields the lines from the first that is neither quoted nor blank, joined and trimmed |
| `Quote.WriteQuote` | acceptance/fixtures/user.go:274-280 | rewriting the lines in place marks every line |
| `RequestFile.ParseUndoesRender` | internal/dashboard/request.go:34-90 | reading undoes writing if and only if the header fields are trimmed lines, the response can be carried and the body ends no line |
| `RequestFile.ParseOfRender` | internal/dashboard/request.go:34-90 | what reading back yields, whatever the response and the body |
| `RequestFile.ResponseRoundTrip` | internal/dashboard/request.go:34-90 | a response comes back if and only if it has no space to trim at either end and holds no literal backslash and n |
| `RequestFile.RenderIs` | internal/dashboard/request.go:34-57 | what is written, spelled out line by line |
| `RequestFile.ParseMeans` | internal/dashboard/request.go:62-90 | what is read, said of the text: each field is what the last header line naming it says, and the body is what follows the first empty line, without the newlines at its end |
| `RequestFile.EscapeIs` | internal/dashboard/request.go:34-57 | a response is written as its lines joined by a backslash and an n |
| `RequestFile.OwnWordsSurviveTheFile` | internal/bridge/apply.go:138-145 | what the operator said comes back from the request file unchanged, so comparing texts finds its request |
| `RequestFile.WriteHeader` | internal/dashboard/request.go:34-49 | the header written line by line is its lines, each ended |
| `RequestFile.WriteRequest` | internal/dashboard/request.go:34-57 | the file is the header, a blank line and the body ended by one newline |
| `RequestFile.ReadRequest` | internal/dashboard/request.go:62-90 | the loop assigns the fields the header lines name, the last one winning, and takes the body after the first blank line |

## Left out

- ChatInvariants.RunStaysClean: requires that the saves after landed hand-overs go through, which is exactly when a tick keeps the invariant, and that each message is one root's.
- ApprovalPosts.PostedOnce: is about a forge that keeps its approvals room; a forge given another room has what it holds posted there again, because a room reports only on its own records. ClarificationPosts.PostedOnce likewise.
- ChatReplies.ServedTickPlansNothing: is about ticks whose calls and saves all succeed; a refused call leaves its work to be planned again.
- Facts.FactMirror.CarryOutFacts: does not model the error of content that cannot be marshalled.
- ActivityRuns.ChangeIsAnnouncedExactlyOnce: is about one unchanged board; a card that moves between two passes is announced where it then is.
- Approvals.ApprovalsRoom.CarryOutApprovals: takes the state events the facts wrote as given, in any order, and leaves the facts' own count out of the number it reports; clarifications likewise.
- The Matrix client, encryption, room provisioning and HTTP: calls that land with a new id or fail.
- File formats of the state and its reading and writing: a saved copy of the bookkeeping.
- `Run`, `backOff`, the clock and sleeping.
- `Tick`'s order of forges, `forgeReport`, the status file and the counts of owed work beyond `PendingWork.Work.Count`.
- Finding a forge's single-agent projects: a project is one more root with its own queue.
- The wording of messages and the one-off notices that something could not be done.
- ChatEcho.HandedOverIsNeverEchoed: requires that the queue shows the request by the time it is read back and not before, and that the saves after hand-overs and after that pairing go through; with more free requests of a text than messages the pass takes the first shown, and the others are the dashboard's own.
- `filepath.Base` and `filepath.Clean` are given with the configuration, and `strings.ToLower` folds one character at a time by a given function.
- Agents, rules, installers, pruning and the command line.
