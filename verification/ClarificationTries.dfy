/** What one tick of a forge's clarifications keeps of each of them, whatever is refused and
    whichever save fails (internal/bridge/clarifications.go). */
module ClarificationTries {
  import opened Options
  import opened Text
  import opened Quote
  import opened Relay
  import opened PendingWork
  import opened ClarificationPlan
  import opened Clarifications

  /** One tick of one forge's clarifications: what it reads, and what becomes of its calls. */
  datatype Visit = Visit(
    root: string, room: string, operator: string, order: seq<string>, pending: seq<Clarification>,
    replies: seq<RoomEvent>, answers: map<string, Outcome>, events: seq<(string, string)>, saves: bool)

  predicate GoodAnswer(answer: Outcome) {
    answer.Landed? ==> answer.eventID != ""
  }

  predicate GoodAnswers(answers: map<string, Outcome>) {
    forall k | k in answers :: GoodAnswer(answers[k])
  }

  /** The forge lists exactly what it holds, and messages have ids. */
  ghost predicate Ready(d: Desk, v: Visit) {
    Walks(v.order, ScopedToRoom(d.book, v.room)) && Keys(v.pending) == d.open && GoodAnswers(v.answers)
  }

  ghost function Planned(d: Desk, v: Visit): seq<Action>
    requires Ready(d, v)
  {
    Plan(v.operator, ScopedToRoom(d.book, v.room), v.pending, v.replies, v.order)
  }

  /** The work kept once the tick has planned. */
  ghost function KeptAt(d: Desk, v: Visit): map<string, Action>
    requires Ready(d, v)
  {
    Kept(d.kept, ActionKey, Planned(d, v))
  }

  /** The tick before it remembers state events. */
  ghost function TriedAt(d: Desk, v: Visit): Desk
    requires Ready(d, v)
  {
    TryAll(d.(kept := KeptAt(d, v)), v.root, v.room, Listed(KeptAt(d, v)), v.answers)
  }

  ghost function Visited(d: Desk, v: Visit): Desk
    requires Ready(d, v)
  {
    ClarificationTick(d, v.root, v.room, v.operator, v.order, v.pending, v.replies, v.answers, v.events, v.saves)
  }

  lemma VisitedIs(d: Desk, v: Visit)
    requires Ready(d, v)
    ensures var tried, after := TriedAt(d, v), Visited(d, v);
            && after.book == WithEvents(tried.book, v.root, KeysByFact(v.pending), v.events)
            && (after.file == tried.file || after.file == after.book)
            && after.kept == tried.kept && after.open == tried.open && after.taken == tried.taken
            && after.log == tried.log
  {
    hide TryAll, WithEvents, Plan, Kept, Listed, ScopedToRoom, Walks;
  }

  // Counting.

  /** A report of this clarification that landed. */
  predicate Told(e: Entry, key: string) {
    IsReport(e.action) && e.action.key == key && e.outcome.Landed?
  }

  /** An answer to this clarification that was taken. */
  predicate Taken(e: Entry, key: string) {
    e.action.kind == AnswerClarification && e.action.key == key && e.outcome.Landed?
  }

  function Reports(log: seq<Entry>, key: string): nat {
    if log == [] then 0
    else var e := log[|log| - 1]; Reports(log[..|log| - 1], key) + if Told(e, key) then 1 else 0
  }

  function LostReports(log: seq<Entry>, key: string): nat {
    if log == [] then 0
    else var e := log[|log| - 1];
         LostReports(log[..|log| - 1], key) + if Told(e, key) && !e.outcome.saved then 1 else 0
  }

  function AnswersTaken(log: seq<Entry>, key: string): nat {
    if log == [] then 0
    else var e := log[|log| - 1]; AnswersTaken(log[..|log| - 1], key) + if Taken(e, key) then 1 else 0
  }

  /** The last answer that was taken and then saved, if any. */
  function TakenAndSaved(log: seq<Entry>, key: string): Option<string> {
    if log == [] then None
    else var e := log[|log| - 1];
         if Taken(e, key) && e.outcome.saved then Some(e.action.answer) else TakenAndSaved(log[..|log| - 1], key)
  }

  /** The last report that landed and was then saved, if any. */
  function SavedReport(log: seq<Entry>, key: string): Option<Action> {
    if log == [] then None
    else var e := log[|log| - 1];
         if Told(e, key) && e.outcome.saved then Some(e.action) else SavedReport(log[..|log| - 1], key)
  }

  /** How often a question was posted, and how often the save after it failed. */
  function Posts(log: seq<Entry>, key: string): nat {
    if log == [] then 0
    else var e := log[|log| - 1]; Posts(log[..|log| - 1], key) + if Posted(e, key) then 1 else 0
  }

  function LostPosts(log: seq<Entry>, key: string): nat {
    if log == [] then 0
    else var e := log[|log| - 1];
         LostPosts(log[..|log| - 1], key) + if Posted(e, key) && !e.outcome.saved then 1 else 0
  }

  predicate Posted(e: Entry, key: string) {
    e.action.kind == PostClarification && e.action.key == key && e.outcome.Landed?
  }

  lemma CountOne(log: seq<Entry>, e: Entry, key: string)
    ensures Reports(log + [e], key) == Reports(log, key) + if Told(e, key) then 1 else 0
    ensures LostReports(log + [e], key)
            == LostReports(log, key) + if Told(e, key) && !e.outcome.saved then 1 else 0
    ensures AnswersTaken(log + [e], key) == AnswersTaken(log, key) + if Taken(e, key) then 1 else 0
    ensures TakenAndSaved(log + [e], key)
            == if Taken(e, key) && e.outcome.saved then Some(e.action.answer) else TakenAndSaved(log, key)
    ensures SavedReport(log + [e], key)
            == if Told(e, key) && e.outcome.saved then Some(e.action) else SavedReport(log, key)
    ensures Posts(log + [e], key) == Posts(log, key) + if Posted(e, key) then 1 else 0
    ensures LostPosts(log + [e], key) == LostPosts(log, key) + if Posted(e, key) && !e.outcome.saved then 1 else 0
  {
    assert (log + [e])[..|log|] == log;
  }

  /** Two records of calls say the same of one clarification. */
  predicate SameCounts(a: seq<Entry>, b: seq<Entry>, key: string) {
    && Reports(a, key) == Reports(b, key) && LostReports(a, key) == LostReports(b, key)
    && AnswersTaken(a, key) == AnswersTaken(b, key) && TakenAndSaved(a, key) == TakenAndSaved(b, key)
    && SavedReport(a, key) == SavedReport(b, key)
    && Posts(a, key) == Posts(b, key) && LostPosts(a, key) == LostPosts(b, key)
  }

  /** What the forge took as the answer. */
  function TookOf(taken: map<string, string>, key: string): Option<string> {
    if key in taken then Some(taken[key]) else None
  }

  // The invariant of one clarification.

  /** A report says what the record says: a mark for an answer given here, the desktop's reply
      when there is none. */
  predicate ReportSays(a: Action, answer: string) {
    && a.answer == ""
    && (if answer != "" then a.kind == ReactClarification && a.reaction == "\U{27A1}"
        else a.kind == ReplyClarification && a.text == "Resolved on the desktop")
  }

  /** A question is marked only where an answer is recorded and replied to only where none is. */
  predicate MarkMatches(state: ClarificationState) {
    (state.reactionID != "" ==> state.answer != "") && (state.replyID != "" ==> state.answer == "")
  }

  predicate Untouched(state: ClarificationState) {
    state.answer == "" && !Reported(state)
  }

  /** A record with an answer has it from what the forge took, or from the start. */
  predicate Vouched(state: ClarificationState, store: Option<string>, first: string) {
    state.answer != "" ==> store == Some(state.answer) || first == state.answer
  }

  /** No report is kept of an open question, and only the one the record calls for afterwards. */
  predicate KeptWell(d: Desk, key: string, open: bool) {
    forall s | s in d.kept && d.kept[s].key == key ::
      IsReport(d.kept[s]) ==> !open && ReportSays(d.kept[s], StateOf(d.book, key).answer)
  }

  predicate KeptKeyed(d: Desk) {
    forall s | s in d.kept :: ActionKey(d.kept[s]) == s
  }

  predicate NoKeptReport(d: Desk, key: string) {
    forall s | s in d.kept && d.kept[s].key == key :: !IsReport(d.kept[s])
  }

  /** What is known of a question from outside the bridge: whether it is still to be asked, and the
      answer its record had at the start. */
  datatype Past = Past(unborn: bool, first: string)

  /** A question nothing has come of: open, or not asked yet. */
  predicate Undone(d: Desk, key: string, unborn: bool) {
    unborn || key in d.open
  }

  predicate FacetGood(here: ClarificationState, saved: ClarificationState, undone: bool, answers: nat,
                      taken: Option<string>, store: Option<string>, told: Option<Action>, reports: nat, lost: nat,
                      noneKept: bool)
  {
    && MarkMatches(here) && MarkMatches(saved)
    && (undone ==> Untouched(here) && Untouched(saved))
    && answers + (if undone then 1 else 0) <= 1
    && (taken.Some? ==> answers == 1 && here.answer == taken.value == saved.answer && store == taken)
    && (told.Some? ==>
          ReportSays(told.value, here.answer) && here.answer == saved.answer
          && Reported(here) && Reported(saved) && noneKept)
    && (reports <= lost || (reports <= lost + 1 && Reported(here) && Reported(saved) && noneKept))
  }

  predicate Facet(d: Desk, key: string, unborn: bool) {
    FacetGood(StateOf(d.book, key), StateOf(d.file, key), Undone(d, key, unborn), AnswersTaken(d.log, key),
              TakenAndSaved(d.log, key), TookOf(d.taken, key), SavedReport(d.log, key), Reports(d.log, key),
              LostReports(d.log, key), NoKeptReport(d, key))
  }

  predicate AllVouched(d: Desk, key: string, p: Past) {
    && Vouched(StateOf(d.book, key), TookOf(d.taken, key), p.first)
    && Vouched(StateOf(d.file, key), TookOf(d.taken, key), p.first)
  }

  /** A question that was never asked: no message, and no work of its own. */
  predicate Unheard(d: Desk, key: string) {
    && key !in d.open && StateOf(d.book, key).messageID == "" && StateOf(d.file, key).messageID == ""
    && forall s | s in d.kept :: d.kept[s].key != key
  }

  predicate Good(d: Desk, key: string, p: Past) {
    && KeptKeyed(d) && KeptWell(d, key, Undone(d, key, p.unborn)) && Facet(d, key, p.unborn)
    && (p.unborn ==> key !in d.open)
  }

  /** The invariant, for one question that is open, is still to come, or is over. */
  predicate Healthy(d: Desk, key: string, p: Past) {
    Good(d, key, p) && AllVouched(d, key, p) && (p.unborn ==> Unheard(d, key))
  }

  // Trying.

  lemma TryShape(d: Desk, root: string, room: string, a: Action, given: Outcome)
    ensures var after, answer := Try(d, root, room, a, given), AnswerOf(d.open, a, given);
            var took := answer.Landed? && a.kind == AnswerClarification;
            && after.log == d.log + [Entry(a, answer)]
            && after.book == (if answer.Landed? then Applied(d.book, root, room, a, answer.eventID) else d.book)
            && after.file == (if answer.Landed? && answer.saved then after.book else d.file)
            && after.kept == (if answer.Landed? && answer.saved then d.kept - {ActionKey(a)} else d.kept)
            && after.open == (if took then d.open - {a.key} else d.open)
            && after.taken == (if took then d.taken[a.key := a.answer] else d.taken)
            && (answer.Landed? ==> answer == given)
            && (took ==> a.key in d.open)
  {
    hide ActionKey, Applied;
    assert d.kept - {} == d.kept;
  }

  lemma AppliedState(book: map<string, ClarificationState>, root: string, room: string, a: Action, eventID: string,
                     key: string)
    ensures StateOf(Applied(book, root, room, a, eventID), key)
            == if key == a.key then Recorded(StateOf(book, key), root, room, a, eventID) else StateOf(book, key)
  {
  }

  /** The record of one clarification after an action was tried. */
  lemma TriedState(d: Desk, root: string, room: string, a: Action, given: Outcome, key: string)
    ensures var after, answer := Try(d, root, room, a, given), AnswerOf(d.open, a, given);
            && StateOf(after.book, key)
               == (if answer.Landed? && key == a.key
                   then Recorded(StateOf(d.book, key), root, room, a, answer.eventID) else StateOf(d.book, key))
            && StateOf(after.file, key)
               == (if answer.Landed? && answer.saved then StateOf(after.book, key) else StateOf(d.file, key))
  {
    hide Try, Applied, ActionKey, StateOf, Recorded;
    TryShape(d, root, room, a, given);
    if AnswerOf(d.open, a, given).Landed? {
      AppliedState(d.book, root, room, a, given.eventID, key);
    }
  }

  lemma TryKeepsLess(d: Desk, root: string, room: string, a: Action, given: Outcome)
    ensures var after := Try(d, root, room, a, given);
            forall s | s in after.kept :: s in d.kept && after.kept[s] == d.kept[s]
  {
    hide Try, ActionKey, Applied;
    TryShape(d, root, room, a, given);
  }

  lemma KeptWellShrinks(d: Desk, after: Desk, key: string, open: bool, open': bool)
    requires KeptKeyed(d) && KeptWell(d, key, open)
    requires forall s | s in after.kept :: s in d.kept && after.kept[s] == d.kept[s]
    requires open' ==> open
    requires open || StateOf(after.book, key).answer == StateOf(d.book, key).answer
    ensures KeptKeyed(after) && KeptWell(after, key, open')
    ensures NoKeptReport(d, key) ==> NoKeptReport(after, key)
    ensures open ==> NoKeptReport(after, key)
  {
    hide ActionKey, ReportSays, StateOf;
  }

  /** Work that is no report and no answer of this question leaves it as good. */
  lemma TryBeside(d: Desk, root: string, room: string, a: Action, given: Outcome, key: string, p: Past)
    requires Good(d, key, p) && GoodAnswer(given) && (a.key != key || a.kind == PostClarification)
    ensures Good(Try(d, root, room, a, given), key, p)
  {
    hide ActionKey, ReportSays, Try, Applied, KeptWell, KeptKeyed, NoKeptReport, StateOf, AnswerOf;
    var after := Try(d, root, room, a, given);
    TryShape(d, root, room, a, given);
    CountOne(d.log, Entry(a, AnswerOf(d.open, a, given)), key);
    TriedState(d, root, room, a, given, key);
    TryKeepsLess(d, root, room, a, given);
    KeptWellShrinks(d, after, key, Undone(d, key, p.unborn), Undone(after, key, p.unborn));
  }

  /** An answer the forge takes is the first and is what the record then holds. */
  lemma TryAnswers(d: Desk, root: string, room: string, a: Action, given: Outcome, key: string, p: Past)
    requires Good(d, key, p) && GoodAnswer(given) && a.key == key && a.kind == AnswerClarification
    ensures Good(Try(d, root, room, a, given), key, p)
  {
    hide ActionKey, ReportSays, Try, Applied, KeptWell, KeptKeyed, NoKeptReport, StateOf, AnswerOf;
    var after := Try(d, root, room, a, given);
    TryShape(d, root, room, a, given);
    CountOne(d.log, Entry(a, AnswerOf(d.open, a, given)), key);
    TriedState(d, root, room, a, given, key);
    TryKeepsLess(d, root, room, a, given);
    KeptWellShrinks(d, after, key, Undone(d, key, p.unborn), Undone(after, key, p.unborn));
  }

  /** What is kept of a question's reports is this one only. */
  lemma LastReport(d: Desk, after: Desk, a: Action, open: bool)
    requires KeptKeyed(d) && KeptWell(d, a.key, open) && IsReport(a)
    requires ActionKey(a) in d.kept && d.kept[ActionKey(a)] == a
    requires after.kept == d.kept - {ActionKey(a)}
    ensures NoKeptReport(after, a.key)
  {
    hide ClarificationsReply, StateOf;
    forall s | s in d.kept && d.kept[s].key == a.key && IsReport(d.kept[s]) ensures s == ActionKey(a) {
      assert ActionKey(d.kept[s]) == s && d.kept[s].answer == a.answer && d.kept[s].kind == a.kind;
    }
  }

  /** A report that lands says what the record says, and is the last one once it is saved. */
  lemma TryReports(d: Desk, root: string, room: string, a: Action, given: Outcome, p: Past)
    requires Good(d, a.key, p) && GoodAnswer(given) && IsReport(a)
    requires ActionKey(a) in d.kept && d.kept[ActionKey(a)] == a
    ensures Good(Try(d, root, room, a, given), a.key, p)
  {
    hide ActionKey, Try, Applied, KeptKeyed, ClarificationsReply, StateOf;
    var key := a.key;
    var after := Try(d, root, room, a, given);
    TryShape(d, root, room, a, given);
    CountOne(d.log, Entry(a, AnswerOf(d.open, a, given)), key);
    TriedState(d, root, room, a, given, key);
    if given.Landed? && given.saved {
      LastReport(d, after, a, Undone(d, key, p.unborn));
    }
    TryKeepsLess(d, root, room, a, given);
    KeptWellShrinks(d, after, key, Undone(d, key, p.unborn), Undone(after, key, p.unborn));
  }

  lemma TryStaysGood(d: Desk, root: string, room: string, a: Action, given: Outcome, key: string, p: Past)
    requires Good(d, key, p) && GoodAnswer(given)
    requires ActionKey(a) in d.kept && d.kept[ActionKey(a)] == a
    ensures Good(Try(d, root, room, a, given), key, p)
  {
    hide Good, Try, ActionKey;
    if a.key != key || a.kind == PostClarification {
      TryBeside(d, root, room, a, given, key, p);
    } else if a.kind == AnswerClarification {
      TryAnswers(d, root, room, a, given, key, p);
    } else {
      TryReports(d, root, room, a, given, p);
    }
  }

  /** What a record says stays vouched for. */
  lemma TryStaysVouched(d: Desk, root: string, room: string, a: Action, given: Outcome, key: string, p: Past)
    requires Good(d, key, p) && AllVouched(d, key, p)
    ensures AllVouched(Try(d, root, room, a, given), key, p)
  {
    hide ActionKey, Try, Applied, KeptKeyed, KeptWell, ReportSays, MarkMatches, StateOf, NoKeptReport, Reported;
    TryShape(d, root, room, a, given);
    TriedState(d, root, room, a, given, key);
  }

  lemma TryStaysUnheard(d: Desk, root: string, room: string, a: Action, given: Outcome, key: string)
    requires Unheard(d, key) && ActionKey(a) in d.kept && d.kept[ActionKey(a)] == a
    ensures Unheard(Try(d, root, room, a, given), key)
  {
    hide Try, ActionKey, Applied, StateOf;
    TryShape(d, root, room, a, given);
    TryKeepsLess(d, root, room, a, given);
    TriedState(d, root, room, a, given, key);
  }

  lemma TryStaysHealthy(d: Desk, root: string, room: string, a: Action, given: Outcome, key: string, p: Past)
    requires Healthy(d, key, p) && GoodAnswer(given)
    requires ActionKey(a) in d.kept && d.kept[ActionKey(a)] == a
    ensures Healthy(Try(d, root, room, a, given), key, p)
  {
    hide Good, Unheard, AllVouched, Try, ActionKey;
    TryStaysGood(d, root, room, a, given, key, p);
    TryStaysVouched(d, root, room, a, given, key, p);
    if p.unborn {
      TryStaysUnheard(d, root, room, a, given, key);
    }
  }

  /** The actions still to try are kept, each under its own key. */
  predicate Waiting(kept: map<string, Action>, actions: seq<Action>) {
    && (forall a | a in actions :: ActionKey(a) in kept && kept[ActionKey(a)] == a)
    && (forall i, j | 0 <= i < j < |actions| :: ActionKey(actions[i]) != ActionKey(actions[j]))
  }

  lemma WaitingAfter(d: Desk, root: string, room: string, actions: seq<Action>, given: Outcome)
    requires actions != [] && Waiting(d.kept, actions)
    ensures Waiting(Try(d, root, room, actions[0], given).kept, actions[1..])
  {
    hide Try, ActionKey, Applied;
    TryShape(d, root, room, actions[0], given);
    forall a | a in actions[1..] ensures ActionKey(a) in Try(d, root, room, actions[0], given).kept {
      var i :| 0 < i < |actions| && actions[i] == a;
    }
    TryKeepsLess(d, root, room, actions[0], given);
  }

  lemma ListedIsWaiting(kept: map<string, Action>)
    requires forall s | s in kept :: ActionKey(kept[s]) == s
    ensures Waiting(kept, Listed(kept))
  {
    hide ActionKey, Sorted, InOrder;
    var keys, actions := Sorted(kept.Keys), Listed(kept);
    SortedIsAscending(kept.Keys);
    forall i | 0 <= i < |actions|
      ensures ActionKey(actions[i]) == keys[i] && keys[i] in kept && kept[keys[i]] == actions[i]
    {
      assert keys[i] in keys;
    }
  }

  lemma {:induction false} TryAllStaysHealthy(d: Desk, root: string, room: string, actions: seq<Action>,
                                              answers: map<string, Outcome>, key: string, p: Past)
    requires Healthy(d, key, p) && GoodAnswers(answers) && Waiting(d.kept, actions)
    ensures Healthy(TryAll(d, root, room, actions, answers), key, p)
    decreases |actions|
  {
    hide Healthy, Try, ActionKey;
    if actions != [] {
      var given := AnswerTo(answers, ActionKey(actions[0]));
      TryStaysHealthy(d, root, room, actions[0], given, key, p);
      WaitingAfter(d, root, room, actions, given);
      TryAllStaysHealthy(Try(d, root, room, actions[0], given), root, room, actions[1..], answers, key, p);
    }
  }

  lemma {:induction false} OpenOnlyCloses(d: Desk, root: string, room: string, actions: seq<Action>,
                                          answers: map<string, Outcome>)
    ensures TryAll(d, root, room, actions, answers).open <= d.open
    decreases |actions|
  {
    hide Try, ActionKey;
    if actions != [] {
      var given := AnswerTo(answers, ActionKey(actions[0]));
      TryShape(d, root, room, actions[0], given);
      OpenOnlyCloses(Try(d, root, room, actions[0], given), root, room, actions[1..], answers);
    }
  }

  // Keeping a plan.

  /** Work a plan may hold: for an open question, its post or an answer; for one that is over,
      posted in that room and not reported, the report its record calls for. */
  predicate FitsPlan(d: Desk, room: string, a: Action) {
    || (a.kind in {PostClarification, AnswerClarification} && a.key in d.open)
    || (IsReport(a) && a.key !in d.open && !Reported(StateOf(d.book, a.key)) && StateOf(d.book, a.key).messageID != ""
        && StateOf(d.book, a.key).roomID == room && ReportSays(a, StateOf(d.book, a.key).answer))
  }

  lemma ScopedState(all: map<string, ClarificationState>, room: string, key: string)
    requires key in ScopedToRoom(all, room)
    ensures ScopedToRoom(all, room)[key] == StateOf(all, key) && all[key].roomID == room
  {
  }

  lemma PlannedFits(d: Desk, v: Visit, a: Action)
    requires Ready(d, v) && a in Planned(d, v)
    ensures FitsPlan(d, v.room, a)
  {
    hide Plan, AnsweredIn, ScopedToRoom, AwaitingAnswer, Walks;
    PlanMembers(v.operator, ScopedToRoom(d.book, v.room), v.pending, v.replies, v.order, a);
    if a.kind == AnswerClarification {
      AnswersAreToTheWaiting(v.operator, ScopedToRoom(d.book, v.room), v.pending, v.replies, a);
    }
    if IsReport(a) {
      ScopedState(d.book, v.room, a.key);
    } else {
      assert a.key == a.clarification.key && a.clarification in v.pending;
      assert a.key in Keys(v.pending);
    }
  }

  /** A room answers and reports only what was posted in it, whatever another forge's room holds. */
  lemma RoomAnswersOnlyItsOwn(all: map<string, ClarificationState>, room: string, operator: string, order: seq<string>,
                              pending: seq<Clarification>, replies: seq<RoomEvent>, a: Action)
    requires Walks(order, ScopedToRoom(all, room))
    requires a in Plan(operator, ScopedToRoom(all, room), pending, replies, order) && a.kind != PostClarification
    ensures a.key in all && all[a.key].roomID == room && all[a.key].messageID != ""
  {
    hide Plan, AnsweredIn, Walks;
    PlanMembers(operator, ScopedToRoom(all, room), pending, replies, order, a);
    if a.kind == AnswerClarification {
      AnswersAreToTheWaiting(operator, ScopedToRoom(all, room), pending, replies, a);
    }
  }

  /** Each kept action was kept before or fits a plan. */
  predicate KeptFits(d: Desk, kept: map<string, Action>, room: string) {
    forall s | s in kept ::
      ActionKey(kept[s]) == s && ((s in d.kept && kept[s] == d.kept[s]) || FitsPlan(d, room, kept[s]))
  }

  lemma KeptAtFits(d: Desk, v: Visit)
    requires Ready(d, v) && KeptKeyed(d)
    ensures KeptFits(d, KeptAt(d, v), v.room) && Waiting(KeptAt(d, v), Listed(KeptAt(d, v)))
  {
    hide ActionKey, Planned, Ready, FitsPlan, Kept, Waiting, Listed;
    var kept := KeptAt(d, v);
    forall s | s in kept
      ensures ActionKey(kept[s]) == s && ((s in d.kept && kept[s] == d.kept[s]) || FitsPlan(d, v.room, kept[s]))
    {
      KeptMembers(d.kept, ActionKey, Planned(d, v), s);
      if kept[s] in Planned(d, v) {
        PlannedFits(d, v, kept[s]);
      }
    }
    ListedIsWaiting(kept);
  }

  lemma FittingStaysWell(d: Desk, kept: map<string, Action>, room: string, key: string, open: bool)
    requires KeptFits(d, kept, room) && KeptKeyed(d) && KeptWell(d, key, open)
    requires open == (key in d.open) || NoKeptReport(d.(kept := kept), key)
    ensures KeptKeyed(d.(kept := kept)) && KeptWell(d.(kept := kept), key, open)
    ensures NoKeptReport(d, key) && Reported(StateOf(d.book, key)) ==> NoKeptReport(d.(kept := kept), key)
  {
    hide ActionKey, ReportSays, Reported, StateOf;
  }

  lemma FittingStaysUnheard(d: Desk, kept: map<string, Action>, room: string, key: string)
    requires KeptFits(d, kept, room) && Unheard(d, key)
    ensures Unheard(d.(kept := kept), key) && NoKeptReport(d.(kept := kept), key)
  {
    hide ActionKey, ReportSays, Reported, StateOf;
  }

  lemma KeepingStaysHealthy(d: Desk, v: Visit, key: string, p: Past)
    requires Ready(d, v) && Healthy(d, key, p)
    ensures Healthy(d.(kept := KeptAt(d, v)), key, p) && Waiting(KeptAt(d, v), Listed(KeptAt(d, v)))
  {
    hide ActionKey, KeptAt, Ready, MarkMatches, Untouched, NoKeptReport, KeptWell, Unheard, Waiting, Listed, KeptFits,
         KeptKeyed, StateOf;
    var kept := KeptAt(d, v);
    KeptAtFits(d, v);
    if p.unborn {
      FittingStaysUnheard(d, kept, v.room, key);
    }
    FittingStaysWell(d, kept, v.room, key, Undone(d, key, p.unborn));
  }

  // Remembering state events.

  lemma {:induction false} KeysByFactNames(pending: seq<Clarification>, stateKey: string)
    requires stateKey in KeysByFact(pending)
    ensures KeysByFact(pending)[stateKey] in Keys(pending)
  {
    var last, rest := pending[|pending| - 1], pending[..|pending| - 1];
    assert pending == rest + [last];
    if stateKey != last.id {
      KeysByFactNames(rest, stateKey);
    }
  }

  /** Two records read the same wherever an answer or a report is read from. */
  predicate SameAnswer(a: ClarificationState, b: ClarificationState) {
    && a.messageID == b.messageID && a.answer == b.answer
    && a.replyID == b.replyID && a.reactionID == b.reactionID && a.roomID == b.roomID
  }

  lemma {:induction false} WithEventsAnswersNothing(book: map<string, ClarificationState>, root: string,
                                                    keys: map<string, string>, events: seq<(string, string)>,
                                                    key: string)
    ensures SameAnswer(StateOf(book, key), StateOf(WithEvents(book, root, keys, events), key))
    decreases |events|
  {
    if events != [] {
      WithEventsAnswersNothing(WithEvent(book, root, keys, events[0].0, events[0].1), root, keys, events[1..], key);
    }
  }

  /** What another hand did to the records leaves one question as it was. */
  predicate ReadsTheSame(d: Desk, after: Desk, key: string) {
    && SameAnswer(StateOf(d.book, key), StateOf(after.book, key))
    && (SameAnswer(StateOf(d.file, key), StateOf(after.file, key))
        || SameAnswer(StateOf(d.book, key), StateOf(after.file, key)))
    && TookOf(after.taken, key) == TookOf(d.taken, key) && SameCounts(after.log, d.log, key)
  }

  lemma ReadingTheSameStaysHealthy(d: Desk, after: Desk, key: string, p: Past)
    requires Healthy(d, key, p) && ReadsTheSame(d, after, key)
    requires after.kept == d.kept && (key in after.open <==> key in d.open)
    ensures Healthy(after, key, p)
  {
    hide ActionKey, ReportSays, StateOf, TookOf;
  }

  /** A question that is asked is open from then on. */
  lemma AskedStaysHealthy(d: Desk, after: Desk, key: string, p: Past)
    requires Healthy(d, key, p) && p.unborn && after == d.(open := after.open) && key in after.open
    ensures Healthy(after, key, p.(unborn := false))
  {
    hide ActionKey, ReportSays, StateOf, TookOf;
  }

  /** One the desk answers is over. */
  lemma AnsweredAtDeskStaysHealthy(d: Desk, after: Desk, key: string, p: Past)
    requires Healthy(d, key, p) && !p.unborn && after == d.(open := after.open) && key !in after.open && key in d.open
    ensures Healthy(after, key, p)
  {
    hide ActionKey, ReportSays, StateOf, TookOf;
  }

  /** A restart forgets the kept work and goes back to what was saved. */
  lemma RestartedStaysHealthy(d: Desk, key: string, p: Past)
    requires Healthy(d, key, p)
    ensures Healthy(d.(book := d.file, kept := map[]), key, p)
  {
    hide ActionKey, ReportSays, StateOf, TookOf;
  }

  /** A tick of its own forge keeps the invariant of each question. */
  lemma VisitStaysHealthy(d: Desk, v: Visit, key: string, p: Past)
    requires Ready(d, v) && Healthy(d, key, p)
    ensures Healthy(Visited(d, v), key, p)
  {
    hide ActionKey, Healthy, TryAll, WithEvents, KeptAt, Ready, Waiting, Listed, StateOf, Visited;
    var kept := KeptAt(d, v);
    var tried := TriedAt(d, v);
    KeepingStaysHealthy(d, v, key, p);
    assert GoodAnswers(v.answers) by { AnswersOf(d, v); }
    TryAllStaysHealthy(d.(kept := kept), v.root, v.room, Listed(kept), v.answers, key, p);
    VisitedIs(d, v);
    WithEventsAnswersNothing(tried.book, v.root, KeysByFact(v.pending), v.events, key);
    ReadingTheSameStaysHealthy(tried, Visited(d, v), key, p);
  }

  lemma AnswersOf(d: Desk, v: Visit)
    requires Ready(d, v)
    ensures GoodAnswers(v.answers)
  {
  }
}
