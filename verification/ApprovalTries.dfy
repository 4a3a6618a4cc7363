/** What one tick of a forge's approvals keeps of each of them, whatever is refused and whichever
    save fails (internal/bridge/approvals.go). */
module ApprovalTries {
  import opened Options
  import opened Text
  import opened Quote
  import opened Relay
  import opened PendingWork
  import opened ApprovalPlan
  import opened ApprovalDecisions
  import opened Approvals

  /** One tick of one forge's approvals: what it reads, and what becomes of its calls. */
  datatype Visit = Visit(
    root: string, room: string, reader: Reader, order: seq<string>, pending: seq<Approval>,
    reactions: seq<Reaction>, replies: seq<RoomEvent>, answers: map<string, Outcome>,
    events: seq<(string, string)>, saves: bool)

  predicate GoodAnswer(answer: Outcome) {
    answer.Landed? ==> answer.eventID != ""
  }

  predicate GoodAnswers(answers: map<string, Outcome>) {
    forall k | k in answers :: GoodAnswer(answers[k])
  }

  /** The forge lists exactly what it holds, and messages have ids. */
  ghost predicate Ready(d: Desk, v: Visit) {
    Walks(v.order, ScopedToRoom(d.approvals, v.room)) && Keys(v.pending) == d.open && GoodAnswers(v.answers)
  }

  ghost function Planned(d: Desk, desk: map<string, string>, v: Visit): seq<Action>
    requires Ready(d, v)
  {
    Plan(v.reader, ScopedToRoom(d.approvals, v.room), v.pending, desk, v.reactions, v.replies, v.order)
  }

  /** The work kept once the tick has planned. */
  ghost function KeptAt(d: Desk, desk: map<string, string>, v: Visit): map<string, Action>
    requires Ready(d, v)
  {
    Kept(d.kept, ActionKey, Planned(d, desk, v))
  }

  /** The tick before it remembers state events. */
  ghost function TriedAt(d: Desk, desk: map<string, string>, v: Visit): Desk
    requires Ready(d, v)
  {
    TryAll(d.(kept := KeptAt(d, desk, v)), v.root, v.room, Listed(KeptAt(d, desk, v)), v.answers)
  }

  ghost function Visited(d: Desk, desk: map<string, string>, v: Visit): Desk
    requires Ready(d, v)
  {
    ApprovalTick(d, v.root, v.room, v.reader, v.order, v.pending, desk, v.reactions, v.replies, v.answers, v.events,
                 v.saves)
  }

  lemma VisitedIs(d: Desk, desk: map<string, string>, v: Visit)
    requires Ready(d, v)
    ensures var tried, after := TriedAt(d, desk, v), Visited(d, desk, v);
            && after.approvals == WithEvents(tried.approvals, v.root, KeysByFact(v.pending), v.events)
            && (after.file == tried.file || after.file == after.approvals)
            && after.kept == tried.kept && after.open == tried.open && after.taken == tried.taken
            && after.log == tried.log
  {
    hide TryAll, WithEvents, Plan, Kept, Listed, ScopedToRoom, Walks;
  }

  // Counting.

  /** A report of this approval's ending that landed. */
  predicate Told(e: Entry, key: string) {
    IsReport(e.action) && e.action.key == key && e.outcome.Landed?
  }

  /** A resolution of this approval that was taken. */
  predicate Taken(e: Entry, key: string) {
    e.action.kind == ResolveApproval && e.action.key == key && e.outcome.Landed?
  }

  /** How often an ending was reported, and how often the save after it failed. */
  function Reports(log: seq<Entry>, key: string): nat {
    if log == [] then 0
    else var e := log[|log| - 1]; Reports(log[..|log| - 1], key) + if Told(e, key) then 1 else 0
  }

  function LostReports(log: seq<Entry>, key: string): nat {
    if log == [] then 0
    else var e := log[|log| - 1];
         LostReports(log[..|log| - 1], key) + if Told(e, key) && !e.outcome.saved then 1 else 0
  }

  /** How often a resolution was taken. */
  function Resolutions(log: seq<Entry>, key: string): nat {
    if log == [] then 0
    else var e := log[|log| - 1]; Resolutions(log[..|log| - 1], key) + if Taken(e, key) then 1 else 0
  }

  /** The last resolution that was taken and then saved, if any. */
  function TakenAndSaved(log: seq<Entry>, key: string): Option<string> {
    if log == [] then None
    else var e := log[|log| - 1];
         if Taken(e, key) && e.outcome.saved then Some(e.action.resolution)
         else TakenAndSaved(log[..|log| - 1], key)
  }

  /** The last report that landed and was then saved, if any. */
  function SavedReport(log: seq<Entry>, key: string): Option<Action> {
    if log == [] then None
    else var e := log[|log| - 1];
         if Told(e, key) && e.outcome.saved then Some(e.action) else SavedReport(log[..|log| - 1], key)
  }

  /** The reports that landed. */
  function Tellings(log: seq<Entry>, key: string): set<Action> {
    if log == [] then {}
    else var e := log[|log| - 1]; Tellings(log[..|log| - 1], key) + if Told(e, key) then {e.action} else {}
  }

  /** How often an approval was posted, and how often the save after it failed. */
  function Posts(log: seq<Entry>, key: string): nat {
    if log == [] then 0
    else var e := log[|log| - 1]; Posts(log[..|log| - 1], key) + if Posted(e, key) then 1 else 0
  }

  function LostPosts(log: seq<Entry>, key: string): nat {
    if log == [] then 0
    else var e := log[|log| - 1];
         LostPosts(log[..|log| - 1], key) + if Posted(e, key) && !e.outcome.saved then 1 else 0
  }

  predicate Posted(e: Entry, key: string) {
    e.action.kind == PostApproval && e.action.key == key && e.outcome.Landed?
  }

  lemma CountOne(log: seq<Entry>, e: Entry, key: string)
    ensures Reports(log + [e], key) == Reports(log, key) + if Told(e, key) then 1 else 0
    ensures LostReports(log + [e], key)
            == LostReports(log, key) + if Told(e, key) && !e.outcome.saved then 1 else 0
    ensures Resolutions(log + [e], key) == Resolutions(log, key) + if Taken(e, key) then 1 else 0
    ensures TakenAndSaved(log + [e], key)
            == if Taken(e, key) && e.outcome.saved then Some(e.action.resolution) else TakenAndSaved(log, key)
    ensures SavedReport(log + [e], key)
            == if Told(e, key) && e.outcome.saved then Some(e.action) else SavedReport(log, key)
    ensures Tellings(log + [e], key) == Tellings(log, key) + if Told(e, key) then {e.action} else {}
    ensures Posts(log + [e], key) == Posts(log, key) + if Posted(e, key) then 1 else 0
    ensures LostPosts(log + [e], key) == LostPosts(log, key) + if Posted(e, key) && !e.outcome.saved then 1 else 0
  {
    assert (log + [e])[..|log|] == log;
  }

  /** Two records of calls say the same of one approval. */
  predicate SameCounts(a: seq<Entry>, b: seq<Entry>, key: string) {
    && Reports(a, key) == Reports(b, key) && LostReports(a, key) == LostReports(b, key)
    && Resolutions(a, key) == Resolutions(b, key) && TakenAndSaved(a, key) == TakenAndSaved(b, key)
    && SavedReport(a, key) == SavedReport(b, key) && Tellings(a, key) == Tellings(b, key)
    && Posts(a, key) == Posts(b, key) && LostPosts(a, key) == LostPosts(b, key)
  }

  /** What the forge took of an approval. */
  function TookOf(taken: map<string, string>, key: string): Option<string> {
    if key in taken then Some(taken[key]) else None
  }

  // The invariant of one approval.

  /** An approval's ending is on its message exactly as its record says: a mark for an approved or
      sent-back one, a reply for any other, and never both. */
  predicate MarkMatches(state: ApprovalState) {
    && (state.reactionID != "" ==> state.resolution in {"approved", "sent_back"})
    && (state.replyID != "" ==> state.resolution !in {"", "approved", "sent_back"})
  }

  /** Nothing has been decided or reported of an approval yet. */
  predicate Untouched(state: ApprovalState) {
    state.resolution == "" && !Reported(state)
  }

  /** A record that says approved or sent back has it from the forge, from the desk, or from the
      start. */
  predicate Vouched(state: ApprovalState, store: Option<string>, desk: string, first: string) {
    state.resolution in {APPROVED, SENT_BACK}
    ==> store == Some(state.resolution) || desk == state.resolution || first == state.resolution
  }

  /** No report is kept of an open approval, and afterwards only the one its record and the desk
      call for. */
  predicate KeptWell(d: Desk, key: string, open: bool, desk: map<string, string>) {
    forall s | s in d.kept && d.kept[s].key == key ::
      IsReport(d.kept[s]) ==>
        && !open && SaysEnding(d.kept[s])
        && d.kept[s].resolution == Ending(StateOf(d.approvals, key).resolution, Get(desk, key))
  }

  predicate KeptKeyed(d: Desk) {
    forall s | s in d.kept :: ActionKey(d.kept[s]) == s
  }

  predicate NoKeptReport(d: Desk, key: string) {
    forall s | s in d.kept && d.kept[s].key == key :: !IsReport(d.kept[s])
  }

  /** What is known of an approval from outside the bridge: whether it is still to be proposed, the
      records the desk still keeps and all it ever wrote, and the resolution its record had at the
      start. */
  datatype Past = Past(unborn: bool, desk: map<string, string>, wrote: map<string, string>, first: string)

  /** The desk keeps what it wrote of an approval, or nothing. */
  predicate Remembers(desk: map<string, string>, wrote: map<string, string>, key: string) {
    key in desk ==> key in wrote && wrote[key] == desk[key]
  }

  /** An approval nothing has been decided of: open, or not proposed yet. */
  predicate Undone(d: Desk, key: string, unborn: bool) {
    unborn || key in d.open
  }

  /** What the invariant says of one approval, put on the parts that trying an action changes. */
  predicate FacetGood(here: ApprovalState, saved: ApprovalState, undone: bool, resolutions: nat, taken: Option<string>,
                      store: Option<string>, told: Option<Action>, reports: nat, lost: nat, noneKept: bool)
  {
    && MarkMatches(here) && MarkMatches(saved)
    && (undone ==> Untouched(here) && Untouched(saved))
    && resolutions + (if undone then 1 else 0) <= 1
    && (taken.Some? ==> taken.value != "" && here.resolution == taken.value == saved.resolution && store == taken)
    && (told.Some? ==>
          SaysEnding(told.value) && here.resolution == told.value.resolution == saved.resolution
          && Reported(here) && Reported(saved) && noneKept)
    && (reports <= lost || (reports <= lost + 1 && Reported(here) && Reported(saved) && noneKept))
  }

  predicate Facet(d: Desk, key: string, unborn: bool) {
    FacetGood(StateOf(d.approvals, key), StateOf(d.file, key), Undone(d, key, unborn), Resolutions(d.log, key),
              TakenAndSaved(d.log, key), TookOf(d.taken, key), SavedReport(d.log, key),
              Reports(d.log, key), LostReports(d.log, key), NoKeptReport(d, key))
  }

  predicate AllVouched(d: Desk, key: string, p: Past) {
    && Vouched(StateOf(d.approvals, key), TookOf(d.taken, key), Get(p.wrote, key), p.first)
    && Vouched(StateOf(d.file, key), TookOf(d.taken, key), Get(p.wrote, key), p.first)
  }

  /** An approval that was never proposed: no message, and no work of its own. */
  predicate Unheard(d: Desk, key: string) {
    && key !in d.open && StateOf(d.approvals, key).messageID == "" && StateOf(d.file, key).messageID == ""
    && forall s | s in d.kept && d.kept[s].key == key :: d.kept[s].kind == AnswerGestures
  }

  predicate Good(d: Desk, key: string, p: Past) {
    && KeptKeyed(d) && KeptWell(d, key, Undone(d, key, p.unborn), p.desk) && Facet(d, key, p.unborn)
    && (Undone(d, key, p.unborn) ==> key !in p.wrote) && (p.unborn ==> key !in d.open)
    && Remembers(p.desk, p.wrote, key)
  }

  /** The invariant, for one approval that is open, is still to come, or is over. */
  predicate Healthy(d: Desk, key: string, p: Past) {
    Good(d, key, p) && AllVouched(d, key, p) && (p.unborn ==> Unheard(d, key))
  }

  // Trying.

  /** The shape of what trying one action does. */
  lemma TryShape(d: Desk, root: string, room: string, a: Action, given: Outcome)
    ensures var after, answer := Try(d, root, room, a, given), AnswerOf(d.open, a, given);
            var took := answer.Landed? && a.kind == ResolveApproval;
            && after.log == d.log + [Entry(a, answer)]
            && after.approvals
               == (if answer.Landed? then Applied(d.approvals, root, room, a, answer.eventID) else d.approvals)
            && after.file == (if answer.Landed? && answer.saved then after.approvals else d.file)
            && after.kept == (if answer.Landed? && answer.saved then d.kept - {ActionKey(a)} else d.kept)
            && after.open == (if took then d.open - {a.key} else d.open)
            && after.taken == (if took then d.taken[a.key := a.resolution] else d.taken)
            && (answer.Landed? ==> answer == given)
            && (took ==> a.key in d.open && a.resolution in {APPROVED, SENT_BACK})
  {
    hide ActionKey, Applied;
    assert d.kept - {} == d.kept;
  }

  lemma AppliedState(approvals: map<string, ApprovalState>, root: string, room: string, a: Action, eventID: string,
                     key: string)
    ensures StateOf(Applied(approvals, root, room, a, eventID), key)
            == if key == a.key && a.kind != AnswerGestures
               then Recorded(StateOf(approvals, key), root, room, a, eventID)
               else StateOf(approvals, key)
  {
  }

  /** The record of one approval after an action was tried. */
  lemma TriedState(d: Desk, root: string, room: string, a: Action, given: Outcome, key: string)
    ensures var after, answer := Try(d, root, room, a, given), AnswerOf(d.open, a, given);
            && StateOf(after.approvals, key)
               == (if answer.Landed? && key == a.key && a.kind != AnswerGestures
                   then Recorded(StateOf(d.approvals, key), root, room, a, answer.eventID)
                   else StateOf(d.approvals, key))
            && StateOf(after.file, key)
               == (if answer.Landed? && answer.saved then StateOf(after.approvals, key) else StateOf(d.file, key))
  {
    hide Try, Applied, ActionKey, StateOf, Recorded;
    TryShape(d, root, room, a, given);
    if AnswerOf(d.open, a, given).Landed? {
      AppliedState(d.approvals, root, room, a, given.eventID, key);
    }
  }

  lemma TryKeepsLess(d: Desk, root: string, room: string, a: Action, given: Outcome)
    ensures var after := Try(d, root, room, a, given);
            forall s | s in after.kept :: s in d.kept && after.kept[s] == d.kept[s]
  {
    hide Try, ActionKey, Applied;
    TryShape(d, root, room, a, given);
  }

  /** The kept work after some of it is taken out, when the record's ending stayed. */
  lemma KeptWellShrinks(d: Desk, after: Desk, key: string, open: bool, open': bool, desk: map<string, string>)
    requires KeptKeyed(d) && KeptWell(d, key, open, desk)
    requires forall s | s in after.kept :: s in d.kept && after.kept[s] == d.kept[s]
    requires open' ==> open
    requires open || Ending(StateOf(after.approvals, key).resolution, Get(desk, key))
                     == Ending(StateOf(d.approvals, key).resolution, Get(desk, key))
    ensures KeptKeyed(after) && KeptWell(after, key, open', desk)
    ensures NoKeptReport(d, key) ==> NoKeptReport(after, key)
    ensures open ==> NoKeptReport(after, key)
  {
    hide ActionKey, Ending, ResolutionMark;
  }

  /** Work that is no report and no resolution of this approval leaves it as good. */
  lemma TryBeside(d: Desk, root: string, room: string, a: Action, given: Outcome, key: string, p: Past)
    requires Good(d, key, p) && GoodAnswer(given)
    requires a.key != key || a.kind in {AnswerGestures, PostApproval}
    ensures Good(Try(d, root, room, a, given), key, p)
  {
    hide ActionKey, Ending, ResolutionMark, Try, Applied, KeptWell, KeptKeyed, NoKeptReport, SaysEnding, GoodAnswer,
         StateOf, AnswerOf;
    var after := Try(d, root, room, a, given);
    TryShape(d, root, room, a, given);
    CountOne(d.log, Entry(a, AnswerOf(d.open, a, given)), key);
    TriedState(d, root, room, a, given, key);
    TryKeepsLess(d, root, room, a, given);
    KeptWellShrinks(d, after, key, Undone(d, key, p.unborn), Undone(after, key, p.unborn), p.desk);
  }

  /** A resolution the forge takes is the first and is what the record then says. */
  lemma TryResolves(d: Desk, root: string, room: string, a: Action, given: Outcome, key: string, p: Past)
    requires Good(d, key, p) && GoodAnswer(given) && a.key == key && a.kind == ResolveApproval
    ensures Good(Try(d, root, room, a, given), key, p)
  {
    hide ActionKey, Ending, Try, Applied, KeptWell, KeptKeyed, NoKeptReport, StateOf, AnswerOf;
    var after := Try(d, root, room, a, given);
    TryShape(d, root, room, a, given);
    CountOne(d.log, Entry(a, AnswerOf(d.open, a, given)), key);
    TriedState(d, root, room, a, given, key);
    TryKeepsLess(d, root, room, a, given);
    KeptWellShrinks(d, after, key, Undone(d, key, p.unborn), Undone(after, key, p.unborn), p.desk);
  }

  /** What is kept of an approval's reports is this one only. */
  lemma LastReport(d: Desk, after: Desk, a: Action, open: bool, desk: map<string, string>)
    requires KeptKeyed(d) && KeptWell(d, a.key, open, desk) && IsReport(a)
    requires ActionKey(a) in d.kept && d.kept[ActionKey(a)] == a
    requires after.kept == d.kept - {ActionKey(a)}
    ensures NoKeptReport(after, a.key)
  {
    hide Ending, ResolutionMark;
    forall s | s in d.kept && d.kept[s].key == a.key && IsReport(d.kept[s]) ensures s == ActionKey(a) {
      assert ActionKey(d.kept[s]) == s && d.kept[s].resolution == a.resolution && d.kept[s].kind == a.kind;
    }
  }

  /** A report that lands says what the record and the desk call for, and is the last one once it
      is saved. */
  lemma TryReports(d: Desk, root: string, room: string, a: Action, given: Outcome, p: Past)
    requires Good(d, a.key, p) && GoodAnswer(given) && IsReport(a)
    requires ActionKey(a) in d.kept && d.kept[ActionKey(a)] == a
    ensures Good(Try(d, root, room, a, given), a.key, p)
  {
    hide ActionKey, Try, Applied, KeptKeyed, StateOf;
    var key := a.key;
    var after := Try(d, root, room, a, given);
    TryShape(d, root, room, a, given);
    CountOne(d.log, Entry(a, AnswerOf(d.open, a, given)), key);
    TriedState(d, root, room, a, given, key);
    if given.Landed? && given.saved {
      LastReport(d, after, a, Undone(d, key, p.unborn), p.desk);
    }
    TryKeepsLess(d, root, room, a, given);
    KeptWellShrinks(d, after, key, Undone(d, key, p.unborn), Undone(after, key, p.unborn), p.desk);
  }

  lemma TryStaysGood(d: Desk, root: string, room: string, a: Action, given: Outcome, key: string, p: Past)
    requires Good(d, key, p) && GoodAnswer(given)
    requires ActionKey(a) in d.kept && d.kept[ActionKey(a)] == a
    ensures Good(Try(d, root, room, a, given), key, p)
  {
    hide Good, Try, ActionKey;
    if a.key != key || a.kind in {AnswerGestures, PostApproval} {
      TryBeside(d, root, room, a, given, key, p);
    } else if a.kind == ResolveApproval {
      TryResolves(d, root, room, a, given, key, p);
    } else {
      TryReports(d, root, room, a, given, p);
    }
  }

  /** What a record says stays vouched for. */
  lemma TryStaysVouched(d: Desk, root: string, room: string, a: Action, given: Outcome, key: string, p: Past)
    requires Good(d, key, p) && AllVouched(d, key, p)
    requires ActionKey(a) in d.kept && d.kept[ActionKey(a)] == a
    ensures AllVouched(Try(d, root, room, a, given), key, p)
  {
    hide ActionKey, Try, Applied, KeptKeyed, SaysEnding, MarkMatches, StateOf, NoKeptReport, Reported;
    TryShape(d, root, room, a, given);
    TriedState(d, root, room, a, given, key);
  }

  lemma TryStaysUnheard(d: Desk, root: string, room: string, a: Action, given: Outcome, key: string)
    requires Unheard(d, key) && ActionKey(a) in d.kept && d.kept[ActionKey(a)] == a
    ensures Unheard(Try(d, root, room, a, given), key)
  {
    hide Try, ActionKey, Applied, StateOf;
    TryShape(d, root, room, a, given);
    TryKeepsLess(d, root, room, a, given);
    TriedState(d, root, room, a, given, key);
  }

  lemma TryStaysHealthy(d: Desk, root: string, room: string, a: Action, given: Outcome, key: string, p: Past)
    requires Healthy(d, key, p) && GoodAnswer(given)
    requires ActionKey(a) in d.kept && d.kept[ActionKey(a)] == a
    ensures Healthy(Try(d, root, room, a, given), key, p)
  {
    hide Good, Unheard, AllVouched, Try, ActionKey;
    TryStaysGood(d, root, room, a, given, key, p);
    TryStaysVouched(d, root, room, a, given, key, p);
    if p.unborn {
      TryStaysUnheard(d, root, room, a, given, key);
    }
  }

  /** The actions still to try are kept, each under its own key. */
  predicate Waiting(kept: map<string, Action>, actions: seq<Action>) {
    && (forall a | a in actions :: ActionKey(a) in kept && kept[ActionKey(a)] == a)
    && (forall i, j | 0 <= i < j < |actions| :: ActionKey(actions[i]) != ActionKey(actions[j]))
  }

  lemma WaitingAfter(d: Desk, root: string, room: string, actions: seq<Action>, given: Outcome)
    requires actions != [] && Waiting(d.kept, actions)
    ensures Waiting(Try(d, root, room, actions[0], given).kept, actions[1..])
  {
    hide Try, ActionKey, Applied;
    TryShape(d, root, room, actions[0], given);
    forall a | a in actions[1..] ensures ActionKey(a) in Try(d, root, room, actions[0], given).kept {
      var i :| 0 < i < |actions| && actions[i] == a;
    }
    TryKeepsLess(d, root, room, actions[0], given);
  }

  lemma ListedIsWaiting(kept: map<string, Action>)
    requires forall s | s in kept :: ActionKey(kept[s]) == s
    ensures Waiting(kept, Listed(kept))
  {
    hide ActionKey, Sorted, InOrder;
    var keys, actions := Sorted(kept.Keys), Listed(kept);
    SortedIsAscending(kept.Keys);
    forall i | 0 <= i < |actions|
      ensures ActionKey(actions[i]) == keys[i] && keys[i] in kept && kept[keys[i]] == actions[i]
    {
      assert keys[i] in keys;
    }
  }

  lemma {:induction false} TryAllStaysHealthy(d: Desk, root: string, room: string, actions: seq<Action>,
                                              answers: map<string, Outcome>, key: string, p: Past)
    requires Healthy(d, key, p) && GoodAnswers(answers) && Waiting(d.kept, actions)
    ensures Healthy(TryAll(d, root, room, actions, answers), key, p)
    decreases |actions|
  {
    hide Healthy, Try, ActionKey;
    if actions != [] {
      var given := AnswerTo(answers, ActionKey(actions[0]));
      TryStaysHealthy(d, root, room, actions[0], given, key, p);
      WaitingAfter(d, root, room, actions, given);
      TryAllStaysHealthy(Try(d, root, room, actions[0], given), root, room, actions[1..], answers, key, p);
    }
  }

  lemma {:induction false} OpenOnlyCloses(d: Desk, root: string, room: string, actions: seq<Action>,
                                          answers: map<string, Outcome>)
    ensures TryAll(d, root, room, actions, answers).open <= d.open
    decreases |actions|
  {
    hide Try, ActionKey;
    if actions != [] {
      var given := AnswerTo(answers, ActionKey(actions[0]));
      TryShape(d, root, room, actions[0], given);
      OpenOnlyCloses(Try(d, root, room, actions[0], given), root, room, actions[1..], answers);
    }
  }

  // Keeping a plan.

  lemma ScopedState(all: map<string, ApprovalState>, room: string, key: string)
    requires key in ScopedToRoom(all, room)
    ensures ScopedToRoom(all, room)[key] == StateOf(all, key) && all[key].roomID == room
  {
  }

  /** Work a plan may hold: for an open approval, its post or its resolution; for one that is
      over, posted in that room and not reported, the report its record and the desk call for. */
  predicate FitsPlan(d: Desk, desk: map<string, string>, room: string, a: Action) {
    || a.kind == AnswerGestures
    || (a.kind in {PostApproval, ResolveApproval} && a.key in d.open)
    || (IsReport(a) && a.key !in d.open && !Reported(StateOf(d.approvals, a.key))
        && StateOf(d.approvals, a.key).messageID != "" && StateOf(d.approvals, a.key).roomID == room && SaysEnding(a)
        && a.resolution == Ending(StateOf(d.approvals, a.key).resolution, Get(desk, a.key)))
  }

  lemma PlannedFits(d: Desk, desk: map<string, string>, v: Visit, a: Action)
    requires Ready(d, v) && a in Planned(d, desk, v)
    ensures FitsPlan(d, desk, v.room, a)
  {
    hide Plan, ByMark, ByReply, ByText, ScopedToRoom, Undecided, Walks;
    var st := ScopedToRoom(d.approvals, v.room);
    PlanMembers(v.reader, st, v.pending, desk, v.reactions, v.replies, v.order, a);
    if a.kind == ResolveApproval {
      ResolvedIsPending(v.reader, st, v.pending, v.reactions, v.replies, a);
    }
    if IsReport(a) {
      ScopedState(d.approvals, v.room, a.key);
    } else if a.kind != AnswerGestures {
      assert a.key == a.approval.key && a.approval in v.pending;
      assert a.key in Keys(v.pending);
    }
  }

  /** A room resolves and reports only what was posted in it, whatever another forge's room holds. */
  lemma RoomDecidesOnlyItsOwn(all: map<string, ApprovalState>, room: string, r: Reader, order: seq<string>,
                              pending: seq<Approval>, desk: map<string, string>, reactions: seq<Reaction>,
                              replies: seq<RoomEvent>, a: Action)
    requires Walks(order, ScopedToRoom(all, room))
    requires a in Plan(r, ScopedToRoom(all, room), pending, desk, reactions, replies, order)
    requires IsReport(a) || a.kind == ResolveApproval
    ensures a.key in all && all[a.key].roomID == room && all[a.key].messageID != ""
  {
    hide Plan, ByMark, ByReply, ByText, Walks;
    PlanMembers(r, ScopedToRoom(all, room), pending, desk, reactions, replies, order, a);
  }

  /** Each kept action was kept before or fits a plan. */
  predicate KeptFits(d: Desk, kept: map<string, Action>, desk: map<string, string>, room: string) {
    forall s | s in kept ::
      ActionKey(kept[s]) == s && ((s in d.kept && kept[s] == d.kept[s]) || FitsPlan(d, desk, room, kept[s]))
  }

  lemma KeptAtFits(d: Desk, desk: map<string, string>, v: Visit)
    requires Ready(d, v) && KeptKeyed(d)
    ensures KeptFits(d, KeptAt(d, desk, v), desk, v.room) && Waiting(KeptAt(d, desk, v), Listed(KeptAt(d, desk, v)))
  {
    hide ActionKey, Planned, Ready, FitsPlan, Kept, Waiting, Listed;
    var kept := KeptAt(d, desk, v);
    forall s | s in kept
      ensures ActionKey(kept[s]) == s
      ensures (s in d.kept && kept[s] == d.kept[s]) || FitsPlan(d, desk, v.room, kept[s])
    {
      KeptMembers(d.kept, ActionKey, Planned(d, desk, v), s);
      if kept[s] in Planned(d, desk, v) {
        PlannedFits(d, desk, v, kept[s]);
      }
    }
    ListedIsWaiting(kept);
  }

  lemma FittingStaysWell(d: Desk, kept: map<string, Action>, desk: map<string, string>, room: string, key: string,
                         open: bool)
    requires KeptFits(d, kept, desk, room) && KeptKeyed(d) && KeptWell(d, key, open, desk)
    requires open == (key in d.open) || NoKeptReport(d.(kept := kept), key)
    ensures KeptKeyed(d.(kept := kept)) && KeptWell(d.(kept := kept), key, open, desk)
    ensures NoKeptReport(d, key) && Reported(StateOf(d.approvals, key)) ==> NoKeptReport(d.(kept := kept), key)
  {
    hide ActionKey, Ending, SaysEnding, Reported, StateOf;
  }

  lemma FittingStaysUnheard(d: Desk, kept: map<string, Action>, desk: map<string, string>, room: string, key: string)
    requires KeptFits(d, kept, desk, room) && Unheard(d, key)
    ensures Unheard(d.(kept := kept), key) && NoKeptReport(d.(kept := kept), key)
  {
    hide ActionKey, Ending, SaysEnding, Reported, StateOf;
  }

  lemma KeepingStaysHealthy(d: Desk, v: Visit, key: string, p: Past)
    requires Ready(d, v) && Healthy(d, key, p)
    ensures Healthy(d.(kept := KeptAt(d, p.desk, v)), key, p)
    ensures Waiting(KeptAt(d, p.desk, v), Listed(KeptAt(d, p.desk, v)))
  {
    hide ActionKey, KeptAt, Ready, MarkMatches, Untouched, NoKeptReport, KeptWell, Unheard, Waiting, Listed, KeptFits,
         KeptKeyed, StateOf;
    var kept := KeptAt(d, p.desk, v);
    KeptAtFits(d, p.desk, v);
    if p.unborn {
      FittingStaysUnheard(d, kept, p.desk, v.room, key);
    }
    FittingStaysWell(d, kept, p.desk, v.room, key, Undone(d, key, p.unborn));
  }

  // Remembering state events.

  lemma {:induction false} KeysByFactNames(pending: seq<Approval>, stateKey: string)
    requires stateKey in KeysByFact(pending)
    ensures KeysByFact(pending)[stateKey] in Keys(pending)
  {
    var last, rest := pending[|pending| - 1], pending[..|pending| - 1];
    assert pending == rest + [last];
    if stateKey != last.id {
      KeysByFactNames(rest, stateKey);
    }
  }

  /** Two records read the same wherever an ending or a report is read from. */
  predicate SameDecision(a: ApprovalState, b: ApprovalState) {
    && a.messageID == b.messageID && a.resolution == b.resolution
    && a.replyID == b.replyID && a.reactionID == b.reactionID && a.roomID == b.roomID
  }

  lemma {:induction false} WithEventsDecidesNothing(approvals: map<string, ApprovalState>, root: string,
                                                    keys: map<string, string>, events: seq<(string, string)>,
                                                    key: string)
    ensures SameDecision(StateOf(approvals, key), StateOf(WithEvents(approvals, root, keys, events), key))
    decreases |events|
  {
    if events != [] {
      var one := WithEvent(approvals, root, keys, events[0].0, events[0].1);
      WithEventsDecidesNothing(one, root, keys, events[1..], key);
    }
  }

  /** What another hand did to the records leaves one approval as it was: its record reads the
      same, the file holds what it held or what the records said, and nothing was taken or reported
      of it. */
  predicate ReadsTheSame(d: Desk, after: Desk, key: string) {
    && SameDecision(StateOf(d.approvals, key), StateOf(after.approvals, key))
    && (SameDecision(StateOf(d.file, key), StateOf(after.file, key))
        || SameDecision(StateOf(d.approvals, key), StateOf(after.file, key)))
    && TookOf(after.taken, key) == TookOf(d.taken, key) && SameCounts(after.log, d.log, key)
  }

  lemma ReadingTheSameStaysHealthy(d: Desk, after: Desk, key: string, p: Past)
    requires Healthy(d, key, p) && ReadsTheSame(d, after, key)
    requires after.kept == d.kept && (key in after.open <==> key in d.open)
    ensures Healthy(after, key, p)
  {
    hide ActionKey, Ending, SaysEnding, ResolutionMark, StateOf, TookOf, Get;
  }

  /** Nor does what is proposed, decided or written down of other approvals. */
  lemma OtherNewsStaysHealthy(d: Desk, after: Desk, key: string, p: Past, p': Past)
    requires Healthy(d, key, p) && after == d.(open := after.open) && (key in after.open <==> key in d.open)
    requires p'.unborn == p.unborn && p'.first == p.first
    requires (key in p'.desk <==> key in p.desk) && Get(p'.desk, key) == Get(p.desk, key)
    requires (key in p'.wrote <==> key in p.wrote) && Get(p'.wrote, key) == Get(p.wrote, key)
    ensures Healthy(after, key, p')
  {
    hide ActionKey, Ending, SaysEnding, ResolutionMark, StateOf, TookOf, FacetGood;
  }

  /** An approval that is proposed is open from then on. */
  lemma ProposedStaysHealthy(d: Desk, after: Desk, key: string, p: Past)
    requires Healthy(d, key, p) && p.unborn && after == d.(open := after.open) && key in after.open
    ensures Healthy(after, key, p.(unborn := false))
  {
    hide ActionKey, Ending, SaysEnding, ResolutionMark, StateOf, TookOf, Get;
  }

  /** One the desk decides is over, with whatever the desk wrote down. */
  lemma DecidedStaysHealthy(d: Desk, after: Desk, key: string, p: Past, p': Past)
    requires Healthy(d, key, p) && !p.unborn && key in d.open && after == d.(open := after.open) && key !in after.open
    requires !p'.unborn && p'.first == p.first && Remembers(p'.desk, p'.wrote, key)
    ensures Healthy(after, key, p')
  {
    hide ActionKey, Ending, SaysEnding, ResolutionMark, StateOf, TookOf;
  }

  /** Every report that waits says what the record and a given word of the desk call for. */
  predicate ReportsAgree(d: Desk, key: string, word: string) {
    forall s | s in d.kept && d.kept[s].key == key ::
      IsReport(d.kept[s]) ==> d.kept[s].resolution == Ending(StateOf(d.approvals, key).resolution, word)
  }

  /** Nor does a record the desk writes, or loses, of an approval that is over, when no report that
      waits says otherwise. */
  lemma RewritingStaysHealthy(d: Desk, key: string, p: Past, p': Past)
    requires Healthy(d, key, p) && !p.unborn && key !in d.open
    requires ReportsAgree(d, key, Get(p'.desk, key)) && Remembers(p'.desk, p'.wrote, key)
    requires !p'.unborn && p'.first == p.first
    requires key in p.wrote ==> key in p'.wrote && p'.wrote[key] == p.wrote[key]
    ensures Healthy(d, key, p')
  {
    hide ActionKey, Ending, SaysEnding, ResolutionMark, StateOf, TookOf;
  }

  /** A restart forgets the kept work and goes back to what was saved. */
  lemma RestartedStaysHealthy(d: Desk, key: string, p: Past)
    requires Healthy(d, key, p)
    ensures Healthy(d.(approvals := d.file, kept := map[]), key, p)
  {
    hide ActionKey, Ending, SaysEnding, ResolutionMark, StateOf, TookOf, Get;
  }

  /** A tick of its own forge keeps the invariant of each approval. */
  lemma VisitStaysHealthy(d: Desk, v: Visit, key: string, p: Past)
    requires Ready(d, v) && Healthy(d, key, p)
    ensures Healthy(Visited(d, p.desk, v), key, p)
  {
    hide ActionKey, Healthy, TryAll, WithEvents, KeptAt, Ready, Waiting, Listed, StateOf, Visited;
    var kept := KeptAt(d, p.desk, v);
    var tried := TriedAt(d, p.desk, v);
    KeepingStaysHealthy(d, v, key, p);
    assert GoodAnswers(v.answers) by { AnswersOf(d, v); }
    TryAllStaysHealthy(d.(kept := kept), v.root, v.room, Listed(kept), v.answers, key, p);
    VisitedIs(d, p.desk, v);
    WithEventsDecidesNothing(tried.approvals, v.root, KeysByFact(v.pending), v.events, key);
    ReadingTheSameStaysHealthy(tried, Visited(d, p.desk, v), key, p);
  }

  lemma {:induction false} TryAllKeepsLess(d: Desk, root: string, room: string, actions: seq<Action>,
                                           answers: map<string, Outcome>, key: string)
    requires NoKeptReport(d, key)
    ensures NoKeptReport(TryAll(d, root, room, actions, answers), key)
    decreases |actions|
  {
    hide Try, ActionKey;
    if actions != [] {
      var given := AnswerTo(answers, ActionKey(actions[0]));
      TryKeepsLess(d, root, room, actions[0], given);
      TryAllKeepsLess(Try(d, root, room, actions[0], given), root, room, actions[1..], answers, key);
    }
  }

  lemma OpenKeepsNoReport(d: Desk, key: string, p: Past)
    requires Healthy(d, key, p) && key in d.open
    ensures NoKeptReport(d, key)
  {
    hide Facet, AllVouched, Unheard, KeptKeyed;
  }

  lemma OpenIsUnwritten(d: Desk, key: string, p: Past)
    requires Healthy(d, key, p) && key in d.open
    ensures !p.unborn && key !in p.wrote && key !in p.desk
  {
    hide Facet, AllVouched, Unheard, KeptKeyed, KeptWell;
  }

  /** No report is kept of an approval that was open when the tick began. */
  lemma OpenIsNotReported(d: Desk, v: Visit, key: string, p: Past)
    requires Ready(d, v) && Healthy(d, key, p) && key in d.open
    ensures NoKeptReport(Visited(d, p.desk, v), key)
  {
    hide Healthy, Ready, KeptAt, Visited, Listed, NoKeptReport, TryAll;
    var start := d.(kept := KeptAt(d, p.desk, v));
    KeepingStaysHealthy(d, v, key, p);
    OpenKeepsNoReport(start, key, p);
    TryAllKeepsLess(start, v.root, v.room, Listed(KeptAt(d, p.desk, v)), v.answers, key);
    VisitedIs(d, p.desk, v);
    SameKept(TriedAt(d, p.desk, v), Visited(d, p.desk, v), key);
  }

  lemma SameKept(d: Desk, after: Desk, key: string)
    requires after.kept == d.kept && NoKeptReport(d, key)
    ensures NoKeptReport(after, key)
  {
  }

  lemma AnswersOf(d: Desk, v: Visit)
    requires Ready(d, v)
    ensures GoodAnswers(v.answers)
  {
  }
}
