/** Serving one root leaves the chat bookkeeping of every other root alone, whatever fails
    (internal/bridge/bridge.go, internal/bridge/apply.go). */
module ChatIsolation {
  import opened Options
  import opened Text
  import opened Relay
  import opened ChatPlan
  import opened PendingWork
  import opened Chat
  import opened ChatRuns
  import opened ChatInvariants

  function Look(m: map<string, string>, k: string): Option<string> {
    if k in m then Some(m[k]) else None
  }

  /** Every entry under one id, and the owner of each, is the same in both. */
  ghost predicate Same(a: State, b: State, id: string) {
    && Look(a.threads, id) == Look(b.threads, id)
    && Look(a.replied, id) == Look(b.replied, id)
    && Look(a.relayed, id) == Look(b.relayed, id)
    && Look(a.pending, id) == Look(b.pending, id)
    && Look(a.pendingThreads, id) == Look(b.pendingThreads, id)
    && forall section :: Look(a.scopes, KeyIn(section, id)) == Look(b.scopes, KeyIn(section, id))
  }

  /** The other reconcilers' bookkeeping is the same in both. */
  predicate SameElsewhere(a: State, b: State) {
    a.approvals == b.approvals && a.clarifications == b.clarifications
    && a.activity == b.activity && a.waiting == b.waiting
  }

  /** The ids an action writes entries under. */
  predicate Writes(a: Action, mine: set<string>) {
    if a.kind == CreateForgeRequest then a.source in mine else a.requestID in mine
  }

  lemma ScopedTouchesOne(st: State, s1: Section, k1: string, root: string, id: string)
    requires k1 != id
    ensures Same(Scoped(st, s1, k1, root), st, id)
  {
    hide KeyIn;
    forall section ensures KeyIn(section, id) != KeyIn(s1, k1) {
      KeyInInjective(section, id, s1, k1);
    }
  }

  lemma SameIsTransitive(a: State, b: State, c: State, id: string)
    requires Same(a, b, id) && Same(b, c, id)
    ensures Same(a, c, id)
  {
    hide KeyIn;
  }

  lemma AppliedTouchesOwn(book: State, root: string, a: Action, eventID: string, mine: set<string>, id: string)
    requires Writes(a, mine) && id !in mine
    ensures Same(Applied(book, root, a, eventID), book, id) && SameElsewhere(Applied(book, root, a, eventID), book)
  {
    match a.kind
    case PostRequestMessage => AppliedPostTouches(book, root, a, eventID, id);
    case PostRequestReply => AppliedReplyTouches(book, root, a, eventID, id);
    case CreateForgeRequest => AppliedCreateTouches(book, root, a, eventID, id);
  }

  lemma AppliedPostTouches(book: State, root: string, a: Action, eventID: string, id: string)
    requires a.kind == PostRequestMessage && a.requestID != id
    ensures Same(Applied(book, root, a, eventID), book, id) && SameElsewhere(Applied(book, root, a, eventID), book)
  {
    hide KeyIn;
    var posted := book.(threads := book.threads[a.requestID := eventID]);
    assert Same(posted, book, id);
    ScopedTouchesOne(posted, Threads, a.requestID, root, id);
    SameIsTransitive(Applied(book, root, a, eventID), posted, book, id);
  }

  lemma AppliedReplyTouches(book: State, root: string, a: Action, eventID: string, id: string)
    requires a.kind == PostRequestReply && a.requestID != id
    ensures Same(Applied(book, root, a, eventID), book, id) && SameElsewhere(Applied(book, root, a, eventID), book)
  {
    hide KeyIn;
    var answered := book.(replied := book.replied[a.requestID := eventID]);
    assert Same(answered, book, id);
    ScopedTouchesOne(answered, Replied, a.requestID, root, id);
    SameIsTransitive(Applied(book, root, a, eventID), answered, book, id);
  }

  lemma ScopedElsewhere(st: State, section: Section, key: string, root: string)
    ensures SameElsewhere(Scoped(st, section, key, root), st)
  {
    hide KeyIn;
  }

  /** Handing a message over, but for the thread it was asked in. */
  lemma HandingOverTouches(book: State, root: string, a: Action, id: string)
    requires a.source != id
    ensures var taken := Scoped(book.(pending := book.pending[a.source := a.body]), Pending, a.source, root);
            Same(taken, book, id) && SameElsewhere(taken, book)
  {
    hide KeyIn, Scoped;
    var asked := book.(pending := book.pending[a.source := a.body]);
    assert Same(asked, book, id);
    ScopedTouchesOne(asked, Pending, a.source, root, id);
    ScopedElsewhere(asked, Pending, a.source, root);
    SameIsTransitive(Scoped(asked, Pending, a.source, root), asked, book, id);
  }

  lemma ThreadingTouches(taken: State, root: string, a: Action, id: string)
    requires a.source != id
    ensures var threaded := Scoped(taken.(pendingThreads := taken.pendingThreads[a.source := a.thread]), PendingThreads,
                                   a.source, root);
            Same(threaded, taken, id) && SameElsewhere(threaded, taken)
  {
    hide KeyIn, Scoped;
    var threaded := taken.(pendingThreads := taken.pendingThreads[a.source := a.thread]);
    assert Same(threaded, taken, id);
    ScopedTouchesOne(threaded, PendingThreads, a.source, root, id);
    ScopedElsewhere(threaded, PendingThreads, a.source, root);
    SameIsTransitive(Scoped(threaded, PendingThreads, a.source, root), threaded, taken, id);
  }

  lemma AppliedCreateTouches(book: State, root: string, a: Action, eventID: string, id: string)
    requires a.kind == CreateForgeRequest && a.source != id
    ensures Same(Applied(book, root, a, eventID), book, id) && SameElsewhere(Applied(book, root, a, eventID), book)
  {
    hide Scoped, Same;
    var taken := Scoped(book.(pending := book.pending[a.source := a.body]), Pending, a.source, root);
    HandingOverTouches(book, root, a, id);
    if a.thread != "" {
      ThreadingTouches(taken, root, a, id);
      SameIsTransitive(Applied(book, root, a, eventID), taken, book, id);
    }
  }

  lemma PairedTouchesTwo(book: State, root: string, eventID: string, requestID: string, id: string)
    requires id != eventID && id != requestID
    ensures Same(Paired(book, root, eventID, requestID), book, id)
            && SameElsewhere(Paired(book, root, eventID, requestID), book)
  {
    hide KeyIn;
    forall section
      ensures KeyIn(section, id) != KeyIn(Relayed, eventID) && KeyIn(section, id) != KeyIn(Threads, requestID)
      ensures KeyIn(section, id) != KeyIn(PendingThreads, eventID) && KeyIn(section, id) != KeyIn(Pending, eventID)
    {
      KeyInInjective(section, id, Relayed, eventID);
      KeyInInjective(section, id, Threads, requestID);
      KeyInInjective(section, id, PendingThreads, eventID);
      KeyInInjective(section, id, Pending, eventID);
    }
  }

  /** Untouched, whatever the id, as long as it is not one of this root's. */
  ghost predicate OthersSame(a: State, b: State, mine: set<string>) {
    SameElsewhere(a, b) && forall id | id !in mine :: Same(a, b, id)
  }

  /** The file is as it was, or was saved whole with nothing of others changed. */
  ghost predicate FiledAlone(file: State, before: State, book: State, mine: set<string>) {
    file == before || OthersSame(file, book, mine)
  }

  lemma OthersSameIsTransitive(a: State, b: State, c: State, mine: set<string>)
    requires OthersSame(a, b, mine) && OthersSame(b, c, mine)
    ensures OthersSame(a, c, mine)
  {
    hide Same;
    forall id | id !in mine ensures Same(a, c, id) {
      SameIsTransitive(a, b, c, id);
    }
  }

  lemma OthersSameIsReflexive(a: State, mine: set<string>)
    ensures OthersSame(a, a, mine)
  {
    hide KeyIn;
  }

  lemma TryTouchesOwn(v: Serving, root: string, a: Action, answer: Outcome, mine: set<string>)
    requires Writes(a, mine)
    ensures OthersSame(Try(v, root, a, answer).book, v.book, mine)
    ensures Try(v, root, a, answer).file in {v.file, Try(v, root, a, answer).book}
  {
    hide ActionKey, Applied, Same;
    OthersSameIsReflexive(v.book, mine);
    if answer.Landed? {
      var after := Applied(v.book, root, a, answer.eventID);
      AppliedElsewhere(v.book, root, a, answer.eventID);
      forall id | id !in mine ensures Same(after, v.book, id) {
        AppliedTouchesOwn(v.book, root, a, answer.eventID, mine, id);
      }
    }
  }

  lemma AppliedElsewhere(book: State, root: string, a: Action, eventID: string)
    ensures SameElsewhere(Applied(book, root, a, eventID), book)
  {
    hide Applied, Same;
    var own := if a.kind == CreateForgeRequest then a.source else a.requestID;
    AppliedTouchesOwn(book, root, a, eventID, {own}, if own == "" then "-" else "");
  }

  lemma {:induction false} TryAllTouchesOwn(v: Serving, root: string, actions: seq<Action>,
                                            answers: map<string, Outcome>, mine: set<string>)
    requires forall a | a in actions :: Writes(a, mine)
    ensures OthersSame(TryAll(v, root, actions, answers).book, v.book, mine)
    ensures FiledAlone(TryAll(v, root, actions, answers).file, v.file, v.book, mine)
    decreases |actions|
  {
    hide ActionKey, Try, OthersSame, Writes;
    OthersSameIsReflexive(v.book, mine);
    if actions != [] {
      var answer := AnswerTo(answers, ActionKey(actions[0]));
      var next := Try(v, root, actions[0], answer);
      assert actions[0] in actions;
      TryTouchesOwn(v, root, actions[0], answer, mine);
      TryAllTouchesOwn(next, root, actions[1..], answers, mine);
      var after := TryAll(v, root, actions, answers);
      OthersSameIsTransitive(after.book, next.book, v.book, mine);
      if OthersSame(after.file, next.book, mine) {
        OthersSameIsTransitive(after.file, next.book, v.book, mine);
      }
    }
  }

  /** The pending messages this root may pair are its own. */
  predicate PairsOwn(book: State, root: string, mine: set<string>) {
    forall e | e in book.pending && BelongsTo(book, root, e) :: e in mine
  }

  lemma PairsOwnStays(a: State, b: State, root: string, mine: set<string>)
    requires PairsOwn(b, root, mine) && OthersSame(a, b, mine)
    ensures PairsOwn(a, root, mine)
  {
    hide KeyIn;
    forall e | e in a.pending && BelongsTo(a, root, e) ensures e in mine {
      assert e in mine || Look(a.scopes, KeyIn(Pending, e)) == Look(b.scopes, KeyIn(Pending, e));
    }
  }

  lemma TakenIsShown(requests: seq<Request>, body: string, taken: set<string>, mine: set<string>)
    requires forall q | q in requests :: q.id in mine
    ensures var r := TakeRequest(requests, body, taken); r.Some? ==> r.value in mine
  {
    if requests != [] {
      assert requests[0] in requests;
      TakenIsShown(requests[1..], body, taken, mine);
    }
  }

  lemma {:induction false} PairAllTouchesOwn(p: Pairing, root: string, events: seq<string>, requests: seq<Request>,
                                             mine: set<string>)
    requires Distinct(events) && forall e | e in events :: e in p.book.pending
    requires PairsOwn(p.book, root, mine) && forall q | q in requests :: q.id in mine
    ensures OthersSame(PairAll(p, root, events, requests).book, p.book, mine)
    decreases |events|
  {
    hide OthersSame, PairsOwn, Paired;
    OthersSameIsReflexive(p.book, mine);
    if events != [] {
      assert forall i | 0 < i < |events| :: events[i] == events[1..][i - 1];
      assert events[0] in events;
      var next := PairOne(p, root, events[0], requests);
      PairOneTouchesOwn(p, root, events[0], requests, mine);
      PairsOwnStays(next.book, p.book, root, mine);
      PairAllTouchesOwn(next, root, events[1..], requests, mine);
      OthersSameIsTransitive(PairAll(p, root, events, requests).book, next.book, p.book, mine);
    }
  }

  lemma PairOneTouchesOwn(p: Pairing, root: string, eventID: string, requests: seq<Request>, mine: set<string>)
    requires eventID in p.book.pending && PairsOwn(p.book, root, mine) && forall q | q in requests :: q.id in mine
    ensures OthersSame(PairOne(p, root, eventID, requests).book, p.book, mine)
    ensures forall e | e in p.book.pending && e != eventID :: e in PairOne(p, root, eventID, requests).book.pending
  {
    hide Same;
    OthersSameIsReflexive(p.book, mine);
    TakenIsShown(requests, p.book.pending[eventID], p.taken, mine);
    var r := TakeRequest(requests, p.book.pending[eventID], p.taken);
    if BelongsTo(p.book, root, eventID) && r.Some? {
      forall id | id !in mine ensures Same(Paired(p.book, root, eventID, r.value), p.book, id) {
        PairedTouchesTwo(p.book, root, eventID, r.value, id);
      }
    }
  }

  /** A root whose queue, room and kept work name only its own ids. */
  predicate OwnIds(s: Sys, step: Step, mine: set<string>)
    requires step.Tick?
  {
    && (forall q | q in step.requests :: q.id in mine)
    && (forall e | e in step.events :: e.eventID in mine)
    && (step.readBack.Some? ==> forall q | q in step.readBack.value :: q.id in mine)
    && (forall k | k in KeptFor(s, step.root) :: Writes(KeptFor(s, step.root)[k], mine))
    && PairsOwn(s.book, step.root, mine)
  }

  lemma PlannedWritesOwn(s: Sys, step: Step, mine: set<string>, a: Action)
    requires step.Tick? && OwnIds(s, step, mine)
    requires a in Plan(s.book, step.operator, step.origins, step.requests, step.events)
    ensures Writes(a, mine)
  {
    hide Plan, OperatorAsked, AskedInThread, Posted, AnswerDue, AnswerAnchor, PairsOwn;
    PlanMembers(s.book, step.operator, step.origins, step.requests, step.events, a);
  }

  lemma KeptWritesOwn(s: Sys, step: Step, mine: set<string>, k: string)
    requires step.Tick? && OwnIds(s, step, mine) && k in TickKept(s, step)
    ensures Writes(TickKept(s, step)[k], mine)
  {
    hide ActionKey, Plan, Kept, Writes;
    var plan := Plan(s.book, step.operator, step.origins, step.requests, step.events);
    KeptMembers(KeptFor(s, step.root), ActionKey, plan, k);
    if TickKept(s, step)[k] in plan {
      PlannedWritesOwn(s, step, mine, TickKept(s, step)[k]);
    }
  }

  /** Whatever fails, serving one root changes no entry and no owner under an id that is not one
      of its own, and nothing of the approvals, clarifications, activity and waiting facts; the
      state file holds of them what it held, or what the bookkeeping did; and its kept work and its
      pending messages stay its own. */
  lemma TickLeavesOthersAlone(s: Sys, step: Step, mine: set<string>)
    requires step.Tick? && Possible(s, step) && Good(ServingOf(s, step.root)) && OwnIds(s, step, mine)
    ensures OthersSame(TickServing(s, step).book, s.book, mine)
    ensures FiledAlone(TickServing(s, step).file, s.file, s.book, mine)
    ensures PairsOwn(TickServing(s, step).book, step.root, mine)
    ensures forall k | k in TickServing(s, step).kept :: Writes(TickServing(s, step).kept[k], mine)
  {
    hide ActionKey, Plan, Kept, Writes, OthersSame, TryAll, PairAll, PairsOwn, Good, GoodAction, Possible;
    var v := ServingOf(s, step.root).(kept := TickKept(s, step));
    forall k | k in v.kept ensures Writes(v.kept[k], mine) {
      KeptWritesOwn(s, step, mine, k);
    }
    TickIsGood(s, step);
    forall a | a in Listed(v.kept) ensures Writes(a, mine) {
      assert v.kept[ActionKey(a)] == a;
    }
    var tried := TickTried(s, step);
    TryAllTouchesOwn(v, step.root, Listed(v.kept), step.answers, mine);
    TryAllKeepsLess(v, step.root, Listed(v.kept), step.answers);
    PairsOwnStays(tried.book, s.book, step.root, mine);
    OthersSameIsReflexive(tried.book, mine);
    if step.readBack.Some? {
      SortedIsAscending(tried.book.pending.Keys);
      PairAllTouchesOwn(Pairing(tried.book, Taken(tried.book, step.root), []), step.root,
                        Sorted(tried.book.pending.Keys), step.readBack.value, mine);
    }
    OthersSameIsTransitive(TickServing(s, step).book, tried.book, s.book, mine);
    PairsOwnStays(TickServing(s, step).book, s.book, step.root, mine);
  }
}
