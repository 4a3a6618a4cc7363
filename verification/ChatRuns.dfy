/** What holds of the chat relay over whole runs: any ticks of any roots, with any call refused,
    any save failing, and a restart from the state file at any point. */
module ChatRuns {
  import opened Options
  import opened Text
  import opened Quote
  import opened Relay
  import opened ChatPlan
  import opened PendingWork
  import opened Chat
  import opened ChatKeys

  /** Every root's chat: the shared bookkeeping and state file, each root's pending work, and
      the record of every call. */
  datatype Sys = Sys(book: State, file: State, kept: map<string, map<string, Action>>, log: seq<Entry>)

  /** A tick of one root's chat, a restart, or a save by another part of the bridge. */
  datatype Step =
    | Tick(root: string, operator: string, origins: map<string, string>, requests: seq<Request>,
           events: seq<RoomEvent>, answers: map<string, Outcome>, readBack: Option<seq<Request>>, saves: bool)
    | Restart
    | SavedElsewhere

  function KeptFor(s: Sys, root: string): map<string, Action> {
    if root in s.kept then s.kept[root] else map[]
  }

  function ServingOf(s: Sys, root: string): Serving {
    Serving(s.book, s.file, KeptFor(s, root), s.log)
  }

  function TickServing(s: Sys, step: Step): Serving
    requires step.Tick?
  {
    ChatTick(ServingOf(s, step.root), step.root, step.operator, step.origins, step.requests, step.events,
             step.answers, step.readBack, step.saves)
  }

  function Do(s: Sys, step: Step): Sys {
    match step
    case Tick(root, _, _, _, _, _, _, _) =>
      var v := TickServing(s, step);
      Sys(v.book, v.file, s.kept[root := v.kept], v.log)
    case Restart => Sys(s.file, s.file, map[], s.log)
    case SavedElsewhere => s.(file := s.book)
  }

  /** What Matrix, the forge and the configuration promise: events and messages have ids, and
      forge roots have names. */
  predicate Possible(s: Sys, step: Step) {
    step.Tick? ==>
      && step.root != ""
      && InvertsRelayed(s.book, step.origins)
      && (forall e | e in step.events :: e.eventID != "")
      && (forall k | k in step.answers && step.answers[k].Landed? :: step.answers[k].eventID != "")
  }

  predicate IsRun(s: Sys, steps: seq<Step>)
    decreases |steps|
  {
    steps == [] || (Possible(s, steps[0]) && IsRun(Do(s, steps[0]), steps[1..]))
  }

  function Run(s: Sys, steps: seq<Step>): Sys
    decreases |steps|
  {
    if steps == [] then s else Run(Do(s, steps[0]), steps[1..])
  }

  /** A bridge that has just started from some state file. */
  predicate Started(s: Sys) {
    s.book == s.file && s.kept == map[] && s.log == [] && Sound(s.book)
  }

  predicate Sound(book: State) {
    "" !in book.pending && "" !in book.relayed
  }

  // Counting the calls that landed.

  predicate Is(e: Entry, root: string, key: string) {
    e.root == root && ActionKey(e.action) == key
  }

  predicate DidLand(e: Entry) {
    e.tried.Answered? && e.tried.outcome.Landed?
  }

  predicate WasLost(e: Entry) {
    DidLand(e) && !e.tried.outcome.saved
  }

  /** How often one root's action was accepted. */
  function Landings(log: seq<Entry>, root: string, key: string): nat {
    if log == [] then 0
    else var e := log[|log| - 1];
         Landings(log[..|log| - 1], root, key) + if Is(e, root, key) && DidLand(e) then 1 else 0
  }

  /** How often it was accepted and the save after it failed. */
  function Losses(log: seq<Entry>, root: string, key: string): nat {
    if log == [] then 0
    else var e := log[|log| - 1];
         Losses(log[..|log| - 1], root, key) + if Is(e, root, key) && WasLost(e) then 1 else 0
  }

  lemma CountOne(log: seq<Entry>, e: Entry, root: string, key: string)
    ensures Landings(log + [e], root, key) == Landings(log, root, key) + if Is(e, root, key) && DidLand(e) then 1 else 0
    ensures Losses(log + [e], root, key) == Losses(log, root, key) + if Is(e, root, key) && WasLost(e) then 1 else 0
  {
    assert (log + [e])[..|log|] == log;
  }

  // The invariant.

  predicate GoodAction(a: Action) {
    WellFormed(a) && (a.kind == CreateForgeRequest ==> a.source != "")
  }

  predicate GoodKept(kept: map<string, Action>) {
    forall k | k in kept :: ActionKey(kept[k]) == k && GoodAction(kept[k])
  }

  predicate Good(v: Serving) {
    Sound(v.book) && Sound(v.file) && GoodKept(v.kept)
  }

  /** Either every landing of the work was lost again, or one more landed and is remembered,
      here and in the state file, and is not waiting to be tried again. Work `known` from the
      start has always been remembered, and never landed. */
  predicate Safe(v: Serving, root: string, b: Action, known: bool) {
    var landed, lost := Landings(v.log, root, ActionKey(b)), Losses(v.log, root, ActionKey(b));
    || (!known && landed <= lost)
    || (landed <= (if known then 0 else lost + 1)
        && Settled(v.book, b) && Settled(v.file, b) && ActionKey(b) !in v.kept)
  }

  // Carrying work out.

  lemma AppliedCreate(book: State, root: string, a: Action, eventID: string)
    requires a.kind == CreateForgeRequest
    ensures var b := Applied(book, root, a, eventID);
            b.pending == book.pending[a.source := a.body] && b.relayed == book.relayed
            && b.threads == book.threads && b.replied == book.replied
  {
  }

  lemma AppliedOther(book: State, root: string, a: Action, eventID: string)
    requires a.kind != CreateForgeRequest
    ensures var b := Applied(book, root, a, eventID); b.pending == book.pending && b.relayed == book.relayed
  {
  }

  lemma AppliedSettles(book: State, root: string, a: Action, eventID: string)
    requires eventID != ""
    ensures Settled(Applied(book, root, a, eventID), a)
  {
    match a.kind
    case PostRequestMessage =>
    case PostRequestReply =>
    case CreateForgeRequest =>
      AppliedCreate(book, root, a, eventID);
  }

  lemma AppliedKeepsSettled(book: State, root: string, a: Action, eventID: string, b: Action)
    requires eventID != "" && Settled(book, b)
    ensures Settled(Applied(book, root, a, eventID), b)
  {
    hide ActionKey;
    match a.kind
    case PostRequestMessage =>
      assert Applied(book, root, a, eventID).threads == book.threads[a.requestID := eventID];
    case PostRequestReply =>
      assert Applied(book, root, a, eventID).replied == book.replied[a.requestID := eventID];
    case CreateForgeRequest =>
      AppliedCreate(book, root, a, eventID);
  }

  lemma AppliedIsSound(book: State, root: string, a: Action, eventID: string)
    requires Sound(book) && GoodAction(a)
    ensures Sound(Applied(book, root, a, eventID))
  {
    if a.kind == CreateForgeRequest {
      AppliedCreate(book, root, a, eventID);
    }
  }

  predicate GoodAnswer(answer: Outcome) {
    answer.Landed? ==> answer.eventID != ""
  }

  /** A call that is made: an answer without a message to be threaded under is not. */
  predicate Called(book: State, a: Action) {
    a.kind == PostRequestReply ==> ReplyAnchor(book, a) != ""
  }

  /** The shape of what trying one action does. */
  lemma TryShape(v: Serving, root: string, a: Action, answer: Outcome)
    ensures var after, called := Try(v, root, a, answer), Called(v.book, a);
            && after.log == v.log + [Entry(root, a, SentTo(v.book, a), if called then Answered(answer) else NoAnchor)]
            && after.book
               == (if called && answer.Landed? then Applied(v.book, root, a, answer.eventID) else v.book)
            && after.file == (if called && answer.Landed? && answer.saved then after.book else v.file)
            && after.kept == (if called && answer.Landed? && answer.saved then v.kept - {ActionKey(a)} else v.kept)
  {
    hide ActionKey, Applied, ReplyAnchor;
  }

  lemma TryIsGood(v: Serving, root: string, a: Action, answer: Outcome)
    requires Good(v) && GoodAction(a)
    ensures Good(Try(v, root, a, answer))
  {
    if answer.Landed? {
      AppliedIsSound(v.book, root, a, answer.eventID);
    }
  }

  /** Trying work this root keeps is safe for every piece of its work. */
  lemma TryIsSafe(v: Serving, root: string, a: Action, answer: Outcome, b: Action, known: bool)
    requires Good(v) && Safe(v, root, b, known) && GoodAction(b) && GoodAnswer(answer)
    requires ActionKey(a) in v.kept && GoodAction(a)
    ensures Safe(Try(v, root, a, answer), root, b, known)
  {
    hide ActionKey, Applied, Try, Called, Settled, Landings, Losses;
    var key := ActionKey(b);
    TryShape(v, root, a, answer);
    CountOne(v.log, Entry(root, a, SentTo(v.book, a), NoAnchor), root, key);
    CountOne(v.log, Entry(root, a, SentTo(v.book, a), Answered(answer)), root, key);
    assert ActionKey(a) == key ==> (Settled(v.book, a) <==> Settled(v.book, b)) && SameWork(a, b) by {
      SameKeyIsSameWork(v.book, a, b);
    }
    if answer.Landed? {
      AppliedSettles(v.book, root, a, answer.eventID);
      SameWorkSettles(Applied(v.book, root, a, answer.eventID), a, b);
      if Settled(v.book, b) {
        AppliedKeepsSettled(v.book, root, a, answer.eventID, b);
      }
    }
  }

  predicate SameWork(a: Action, b: Action) {
    a.kind == b.kind && a.requestID == b.requestID && a.source == b.source
  }

  lemma SameWorkSettles(book: State, a: Action, b: Action)
    ensures SameWork(a, b) ==> (Settled(book, a) <==> Settled(book, b))
  {
  }

  lemma SameKeyIsSameWork(book: State, a: Action, b: Action)
    requires GoodAction(a) && GoodAction(b)
    ensures ActionKey(a) == ActionKey(b) ==> SameWork(a, b) && (Settled(book, a) <==> Settled(book, b))
  {
    hide ActionKey;
    ActionKeyInjective(a, b);
  }

  /** Another root's work does not count here, and forgets nothing. */
  lemma TryElsewhereIsSafe(v: Serving, other: string, kept: map<string, Action>, a: Action, answer: Outcome,
                           root: string, b: Action, known: bool)
    requires other != root && Safe(v, root, b, known) && GoodAnswer(answer)
    ensures Safe(Try(v.(kept := kept), other, a, answer).(kept := v.kept), root, b, known)
  {
    var key := ActionKey(b);
    CountOne(v.log, Entry(other, a, "", NoAnchor), root, key);
    CountOne(v.log, Entry(other, a, SentTo(v.book, a), Answered(answer)), root, key);
    if answer.Landed? && Settled(v.book, b) {
      AppliedKeepsSettled(v.book, other, a, answer.eventID, b);
    }
  }

  predicate GoodAnswers(answers: map<string, Outcome>) {
    forall k | k in answers :: GoodAnswer(answers[k])
  }

  /** The actions still to try are kept, each under its own key. */
  predicate Waiting(kept: map<string, Action>, actions: seq<Action>) {
    && (forall a | a in actions :: ActionKey(a) in kept && kept[ActionKey(a)] == a && GoodAction(a))
    && (forall i, j | 0 <= i < j < |actions| :: ActionKey(actions[i]) != ActionKey(actions[j]))
  }

  lemma WaitingAfter(v: Serving, root: string, actions: seq<Action>, answer: Outcome)
    requires actions != [] && Waiting(v.kept, actions)
    ensures Waiting(Try(v, root, actions[0], answer).kept, actions[1..])
  {
    var kept := Try(v, root, actions[0], answer).kept;
    forall a | a in actions[1..] ensures ActionKey(a) in kept && kept[ActionKey(a)] == a {
      var i :| 0 < i < |actions| && actions[i] == a;
    }
  }

  lemma {:induction false} TryAllIsGood(v: Serving, root: string, actions: seq<Action>, answers: map<string, Outcome>)
    requires Good(v) && forall a | a in actions :: GoodAction(a)
    ensures Good(TryAll(v, root, actions, answers))
    decreases |actions|
  {
    if actions != [] {
      var answer := AnswerTo(answers, ActionKey(actions[0]));
      TryIsGood(v, root, actions[0], answer);
      TryAllIsGood(Try(v, root, actions[0], answer), root, actions[1..], answers);
    }
  }

  lemma {:induction false} TryAllIsSafe(v: Serving, root: string, actions: seq<Action>, answers: map<string, Outcome>,
                                        b: Action, known: bool)
    requires Good(v) && Safe(v, root, b, known) && GoodAction(b) && GoodAnswers(answers) && Waiting(v.kept, actions)
    ensures Safe(TryAll(v, root, actions, answers), root, b, known)
    decreases |actions|
  {
    if actions != [] {
      var answer := AnswerTo(answers, ActionKey(actions[0]));
      TryIsGood(v, root, actions[0], answer);
      TryIsSafe(v, root, actions[0], answer, b, known);
      WaitingAfter(v, root, actions, answer);
      TryAllIsSafe(Try(v, root, actions[0], answer), root, actions[1..], answers, b, known);
    }
  }

  lemma {:induction false} TryAllElsewhereIsSafe(
      v: Serving, other: string, kept: map<string, Action>, actions: seq<Action>, answers: map<string, Outcome>,
      root: string, b: Action, known: bool)
    requires other != root && Safe(v, root, b, known) && GoodAnswers(answers)
    ensures Safe(TryAll(v.(kept := kept), other, actions, answers).(kept := v.kept), root, b, known)
    decreases |actions|
  {
    if actions != [] {
      var answer := AnswerTo(answers, ActionKey(actions[0]));
      var next := Try(v.(kept := kept), other, actions[0], answer);
      TryElsewhereIsSafe(v, other, kept, actions[0], answer, root, b, known);
      TryAllElsewhereIsSafe(next.(kept := v.kept), other, next.kept, actions[1..], answers, root, b, known);
    }
  }

  // Pairing.

  lemma PairedKeepsSettled(book: State, root: string, eventID: string, requestID: string, b: Action)
    requires eventID != "" && Settled(book, b)
    ensures Settled(Paired(book, root, eventID, requestID), b)
  {
  }

  lemma {:induction false} PairAllKeepsSettled(p: Pairing, root: string, events: seq<string>, requests: seq<Request>,
                                               b: Action)
    requires Distinct(events) && forall e | e in events :: e in p.book.pending
    requires Sound(p.book)
    ensures Sound(PairAll(p, root, events, requests).book)
    ensures Settled(p.book, b) ==> Settled(PairAll(p, root, events, requests).book, b)
    decreases |events|
  {
    if events != [] {
      assert forall i | 0 < i < |events| :: events[i] == events[1..][i - 1];
      assert events[0] in events;
      var next := PairOne(p, root, events[0], requests);
      if Settled(p.book, b) && next != p {
        PairedKeepsSettled(p.book, root, events[0], TakeRequest(requests, p.book.pending[events[0]], p.taken).value, b);
      }
      PairAllKeepsSettled(next, root, events[1..], requests, b);
    }
  }

  /** Pairing forgets nothing that was carried out. */
  lemma PairPassKeepsSettled(v: Serving, other: string, readBack: Option<seq<Request>>, saves: bool, b: Action)
    requires Good(v)
    ensures Good(PairPass(v, other, readBack, saves))
    ensures Settled(v.book, b) ==> Settled(PairPass(v, other, readBack, saves).book, b)
    ensures Settled(v.book, b) && Settled(v.file, b) ==> Settled(PairPass(v, other, readBack, saves).file, b)
  {
    if readBack.Some? {
      SortedIsAscending(v.book.pending.Keys);
      PairAllKeepsSettled(Pairing(v.book, Taken(v.book, other), []), other, Sorted(v.book.pending.Keys), readBack.value,
                          b);
    }
  }

  lemma PairPassIsSafe(v: Serving, other: string, readBack: Option<seq<Request>>, saves: bool, root: string, b: Action,
                       known: bool)
    requires Good(v) && Safe(v, root, b, known)
    ensures Safe(PairPass(v, other, readBack, saves), root, b, known)
  {
    PairPassKeepsSettled(v, other, readBack, saves, b);
  }

  // Keeping a plan.

  lemma PlannedIsGood(st: State, operator: string, origins: map<string, string>, requests: seq<Request>,
                      events: seq<RoomEvent>, a: Action)
    requires a in Plan(st, operator, origins, requests, events) && forall e | e in events :: e.eventID != ""
    ensures GoodAction(a) && !Settled(st, a)
  {
    PlannedIsUnsettled(st, operator, origins, requests, events, a);
    PlanMembers(st, operator, origins, requests, events, a);
  }

  lemma KeptPlan(v: Serving, operator: string, origins: map<string, string>, requests: seq<Request>,
                 events: seq<RoomEvent>,
                 k: string)
    returns (kept: map<string, Action>)
    requires GoodKept(v.kept) && forall e | e in events :: e.eventID != ""
    ensures kept == Kept(v.kept, ActionKey, Plan(v.book, operator, origins, requests, events))
    ensures k in kept ==>
              && ActionKey(kept[k]) == k && GoodAction(kept[k])
              && ((k in v.kept && kept[k] == v.kept[k])
                  || (kept[k] in Plan(v.book, operator, origins, requests, events) && !Settled(v.book, kept[k])))
  {
    hide ActionKey, Plan, Settled, GoodAction, Kept;
    var plan := Plan(v.book, operator, origins, requests, events);
    kept := Kept(v.kept, ActionKey, plan);
    if k in kept {
      KeptMembers(v.kept, ActionKey, plan, k);
      if kept[k] in plan {
        PlannedIsGood(v.book, operator, origins, requests, events, kept[k]);
      }
    }
  }

  lemma KeepingIsGood(v: Serving, operator: string, origins: map<string, string>, requests: seq<Request>,
                      events: seq<RoomEvent>)
    requires Good(v) && forall e | e in events :: e.eventID != ""
    ensures Good(v.(kept := Kept(v.kept, ActionKey, Plan(v.book, operator, origins, requests, events))))
  {
    var kept := Kept(v.kept, ActionKey, Plan(v.book, operator, origins, requests, events));
    forall k | k in kept ensures ActionKey(kept[k]) == k && GoodAction(kept[k]) {
      var _ := KeptPlan(v, operator, origins, requests, events, k);
    }
  }

  lemma KeepingIsSafe(v: Serving, operator: string, origins: map<string, string>, requests: seq<Request>,
                      events: seq<RoomEvent>,
                      root: string, b: Action, known: bool)
    requires Good(v) && (forall e | e in events :: e.eventID != "") && Safe(v, root, b, known) && GoodAction(b)
    ensures Safe(v.(kept := Kept(v.kept, ActionKey, Plan(v.book, operator, origins, requests, events))), root, b, known)
  {
    var kept := KeptPlan(v, operator, origins, requests, events, ActionKey(b));
    if ActionKey(b) in kept && ActionKey(b) !in v.kept {
      ActionKeyInjective(kept[ActionKey(b)], b);
    }
  }

  lemma ListedIsWaiting(kept: map<string, Action>)
    requires GoodKept(kept)
    ensures Waiting(kept, Listed(kept))
  {
    hide ActionKey, GoodAction, Sorted, InOrder;
    var keys, actions := Sorted(kept.Keys), Listed(kept);
    SortedIsAscending(kept.Keys);
    forall i | 0 <= i < |actions|
      ensures ActionKey(actions[i]) == keys[i] && GoodAction(actions[i])
      ensures keys[i] in kept && kept[keys[i]] == actions[i]
    {
      assert keys[i] in keys;
    }
  }

  /** Every kept action is listed. */
  lemma KeptIsListed(kept: map<string, Action>, k: string) returns (b: Action)
    requires k in kept && GoodKept(kept)
    ensures b in Listed(kept) && b == kept[k] && ActionKey(b) == k && GoodAction(b)
  {
    hide ActionKey, GoodAction, Sorted, InOrder;
    var keys := Sorted(kept.Keys);
    b := kept[k];
    assert k in keys;
    var i :| 0 <= i < |keys| && keys[i] == k;
    assert Listed(kept)[i] == b;
  }


  // What is still owed.

  lemma TryOwes(v: Serving, root: string, a: Action, answer: Outcome)
    requires ActionKey(a) in v.kept
    ensures var after := Try(v, root, a, answer); |after.kept| + CarriedOut(after.log) == |v.kept| + CarriedOut(v.log)
  {
    hide ActionKey, Applied, ReplyAnchor;
    OneLess(v.kept, ActionKey(a));
    assert (v.log + [Entry(root, a, "", NoAnchor)])[..|v.log|] == v.log;
    assert (v.log + [Entry(root, a, SentTo(v.book, a), Answered(answer))])[..|v.log|] == v.log;
  }

  lemma OneLess(kept: map<string, Action>, k: string)
    requires k in kept
    ensures |kept - {k}| == |kept| - 1
  {
    assert (kept - {k}).Keys == kept.Keys - {k};
    assert |kept| == |kept.Keys| && |kept - {k}| == |(kept - {k}).Keys|;
  }

  lemma {:induction false} TryAllOwes(v: Serving, root: string, actions: seq<Action>, answers: map<string, Outcome>)
    requires Waiting(v.kept, actions)
    ensures var after := TryAll(v, root, actions, answers);
            |after.kept| + CarriedOut(after.log) == |v.kept| + CarriedOut(v.log)
    decreases |actions|
  {
    hide ActionKey, Try, CarriedOut, GoodAction;
    if actions != [] {
      var answer := AnswerTo(answers, ActionKey(actions[0]));
      TryOwes(v, root, actions[0], answer);
      WaitingAfter(v, root, actions, answer);
      TryAllOwes(Try(v, root, actions[0], answer), root, actions[1..], answers);
    }
  }

  // Steps and runs.

  function TickKept(s: Sys, step: Step): map<string, Action>
    requires step.Tick?
  {
    Kept(KeptFor(s, step.root), ActionKey, Plan(s.book, step.operator, step.origins, step.requests, step.events))
  }

  /** The tick before it pairs. */
  function TickTried(s: Sys, step: Step): Serving
    requires step.Tick?
  {
    TryAll(ServingOf(s, step.root).(kept := TickKept(s, step)), step.root, Listed(TickKept(s, step)), step.answers)
  }

  lemma TickIsGood(s: Sys, step: Step)
    requires step.Tick? && Possible(s, step) && Good(ServingOf(s, step.root))
    ensures Good(ServingOf(s, step.root).(kept := TickKept(s, step)))
    ensures Waiting(TickKept(s, step), Listed(TickKept(s, step)))
    ensures Good(TickTried(s, step)) && Good(TickServing(s, step))
  {
    var v, kept := ServingOf(s, step.root), TickKept(s, step);
    KeepingIsGood(v, step.operator, step.origins, step.requests, step.events);
    ListedIsWaiting(kept);
    TryAllIsGood(v.(kept := kept), step.root, Listed(kept), step.answers);
    PairPassKeepsSettled(TickTried(s, step), step.root, step.readBack, step.saves, PostAction(Request("", "", "")));
  }

  /** The work a tick leaves owed is the work it tried less what it carried out: nothing that was
      refused, unanchored or not saved is forgotten, and nothing carried out stays. */
  lemma OwedIsWhatWasNotCarriedOut(s: Sys, step: Step)
    requires step.Tick? && Possible(s, step) && Good(ServingOf(s, step.root))
    ensures var after := TickServing(s, step);
            |Listed(after.kept)| == |Listed(TickKept(s, step))| - (CarriedOut(after.log) - CarriedOut(s.log))
  {
    hide Good, Possible, TryAll, Plan, Kept, ActionKey, CarriedOut, Waiting, Listed, PairedUp;
    var v := ServingOf(s, step.root).(kept := TickKept(s, step));
    TickIsGood(s, step);
    TryAllOwes(v, step.root, Listed(v.kept), step.answers);
    ListedAll(v.kept);
    ListedAll(TickServing(s, step).kept);
  }

  lemma ListedAll(kept: map<string, Action>)
    ensures |Listed(kept)| == |kept|
  {
    assert |kept| == |kept.Keys|;
  }

  /** A tick of one root is safe for that root's work. */
  lemma OwnTickIsSafe(s: Sys, step: Step, b: Action, known: bool)
    requires step.Tick? && Possible(s, step) && Good(ServingOf(s, step.root))
    requires Safe(ServingOf(s, step.root), step.root, b, known) && GoodAction(b)
    ensures Safe(TickServing(s, step), step.root, b, known)
  {
    var v, kept := ServingOf(s, step.root), TickKept(s, step);
    TickIsGood(s, step);
    KeepingIsSafe(v, step.operator, step.origins, step.requests, step.events, step.root, b, known);
    TryAllIsSafe(v.(kept := kept), step.root, Listed(kept), step.answers, b, known);
    PairPassIsSafe(TickTried(s, step), step.root, step.readBack, step.saves, step.root, b, known);
  }

  /** And it is safe for every other root's. */
  lemma TickElsewhereIsSafe(s: Sys, step: Step, root: string, b: Action, known: bool)
    requires step.Tick? && Possible(s, step) && step.root != root
    requires Good(ServingOf(s, step.root)) && Good(ServingOf(s, root)) && Safe(ServingOf(s, root), root, b, known)
    ensures Safe(TickServing(s, step).(kept := KeptFor(s, root)), root, b, known)
  {
    var mine, kept := ServingOf(s, root), TickKept(s, step);
    TickIsGood(s, step);
    TryAllElsewhereIsSafe(mine, step.root, kept, Listed(kept), step.answers, root, b, known);
    assert mine.(kept := kept) == ServingOf(s, step.root).(kept := kept);
    var tried := TickTried(s, step).(kept := mine.kept);
    PairPassIsSafe(tried, step.root, step.readBack, step.saves, root, b, known);
    assert PairPass(tried, step.root, step.readBack, step.saves) == TickServing(s, step).(kept := mine.kept);
  }

  predicate AllGood(s: Sys) {
    Sound(s.book) && Sound(s.file) && forall root | root in s.kept :: GoodKept(s.kept[root])
  }

  lemma GoodOfAll(s: Sys, root: string)
    requires AllGood(s)
    ensures Good(ServingOf(s, root))
  {
  }

  lemma AllGoodAfter(s: Sys, step: Step)
    requires step.Tick? && AllGood(s) && Good(TickServing(s, step))
    ensures AllGood(Do(s, step))
  {
    hide TickServing, GoodKept;
  }

  lemma StepIsSafe(s: Sys, step: Step, root: string, b: Action, known: bool)
    requires AllGood(s) && Possible(s, step) && GoodAction(b) && Safe(ServingOf(s, root), root, b, known)
    ensures AllGood(Do(s, step)) && Safe(ServingOf(Do(s, step), root), root, b, known)
  {
    hide ActionKey;
    if step.Tick? {
      hide Safe, TickServing, Possible, Good, GoodAction, GoodKept;
      GoodOfAll(s, step.root);
      GoodOfAll(s, root);
      TickIsGood(s, step);
      AllGoodAfter(s, step);
      if step.root == root {
        OwnTickIsSafe(s, step, b, known);
      } else {
        TickElsewhereIsSafe(s, step, root, b, known);
      }
    }
  }

  lemma {:induction false} RunIsSafe(s: Sys, steps: seq<Step>, root: string, b: Action, known: bool)
    requires AllGood(s) && IsRun(s, steps) && GoodAction(b) && Safe(ServingOf(s, root), root, b, known)
    ensures AllGood(Run(s, steps)) && Safe(ServingOf(Run(s, steps), root), root, b, known)
    decreases |steps|
  {
    if steps != [] {
      StepIsSafe(s, steps[0], root, b, known);
      RunIsSafe(Do(s, steps[0]), steps[1..], root, b, known);
    }
  }

  /** Over any run from a start, however calls are refused, saves fail and the bridge restarts,
      each piece of chat work lands at most once more than its landings that were not saved:
      each message is handed over, each request posted and each answer sent at most once when
      no save after it fails. */
  lemma LandsAtMostOnceMoreThanLost(s: Sys, steps: seq<Step>, root: string, b: Action)
    requires Started(s) && IsRun(s, steps) && GoodAction(b)
    ensures var log := Run(s, steps).log;
            Landings(log, root, ActionKey(b)) <= Losses(log, root, ActionKey(b)) + 1
  {
    RunIsSafe(s, steps, root, b, false);
  }

  /** A restart repeats nothing: work the state file remembers is never carried out again. */
  lemma RememberedWorkNeverLands(s: Sys, steps: seq<Step>, root: string, b: Action)
    requires Started(s) && IsRun(s, steps) && GoodAction(b) && Settled(s.file, b)
    ensures Landings(Run(s, steps).log, root, ActionKey(b)) == 0
  {
    RunIsSafe(s, steps, root, b, true);
  }
}
