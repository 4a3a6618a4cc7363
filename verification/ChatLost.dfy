/** What a failed save costs: each one really can repeat work, so the bound of `ChatRuns` is
    reached (internal/bridge/bridge.go, `apply`). */
module ChatLost {
  import opened Options
  import opened Text
  import opened Quote
  import opened Relay
  import opened ChatPlan
  import opened PendingWork
  import opened Chat
  import opened ChatRuns
  import opened ChatInvariants

  /** A quiet tick: nothing new is said, the queue is empty and cannot be read back, and the
      one kept action is accepted. */
  function Again(root: string, operator: string, key: string, saved: bool): Step {
    Tick(root, operator, map[], [], [], map[key := Landed("$taken", saved)], None, true)
  }

  /** A forge that keeps taking one message while the saves after it fail. */
  predicate Stuck(s: Sys, root: string, a: Action) {
    && s.book.relayed == map[] && KeptFor(s, root) == map[ActionKey(a) := a]
    && a.kind == CreateForgeRequest
  }

  lemma SortedOne(key: string)
    ensures Sorted({key}) == [key]
  {
    assert Least({key}) == key;
    assert {key} - {key} == {};
  }

  /** Trying the one kept action. */
  lemma TryingOne(s: Sys, step: Step, a: Action)
    requires step.Tick? && step.requests == [] && step.events == [] && KeptFor(s, step.root) == map[ActionKey(a) := a]
    ensures TickServing(s, step)
            == PairPass(Try(ServingOf(s, step.root), step.root, a, AnswerTo(step.answers, ActionKey(a))),
                        step.root, step.readBack, step.saves)
  {
    hide ActionKey, Applied, Try, PairPass;
    var key := ActionKey(a);
    var kept := map[key := a];
    assert Plan(s.book, step.operator, step.origins, [], []) == [];
    assert Kept(kept, ActionKey, []) == kept && kept.Keys == {key};
    SortedOne(key);
    assert Listed(kept) == [a] by {
      assert InOrder(kept, [key]) == [a];
    }
    assert [a][1..] == [];
    var v := ServingOf(s, step.root).(kept := kept);
    assert v == ServingOf(s, step.root);
    assert TryAll(v, step.root, [a], step.answers) == Try(v, step.root, a, AnswerTo(step.answers, key));
  }


  lemma StuckTick(s: Sys, root: string, operator: string, a: Action, saved: bool)
    requires Stuck(s, root, a) && root != ""
    ensures var step := Again(root, operator, ActionKey(a), saved);
            var next := Do(s, step);
            && Possible(s, step)
            && next.log == s.log + [Entry(root, a, "", Answered(Landed("$taken", saved)))]
            && (!saved ==> Stuck(next, root, a))
  {
    hide ActionKey, Applied, Try, TickServing, Called;
    var step := Again(root, operator, ActionKey(a), saved);
    TryingOne(s, step, a);
    TryShape(ServingOf(s, root), root, a, Landed("$taken", saved));
    assert Called(s.book, a) by { CreateIsCalled(s.book, a); }
    AppliedCreate(s.book, root, a, "$taken");
  }

  lemma {:induction false} CountsAfter(log: seq<Entry>, root: string, a: Action, saved: bool)
    ensures var more := log + [Entry(root, a, "", Answered(Landed("$taken", saved)))];
            && Landings(more, root, ActionKey(a)) == Landings(log, root, ActionKey(a)) + 1
            && Losses(more, root, ActionKey(a)) == Losses(log, root, ActionKey(a)) + if saved then 0 else 1
  {
    CountOne(log, Entry(root, a, "", Answered(Landed("$taken", saved))), root, ActionKey(a));
  }

  /** From such a forge, `n` failed saves make the message land `n` times more, and once again
      when a save succeeds. */
  lemma {:induction false} FailedSavesRepeat(s: Sys, root: string, operator: string, a: Action, n: nat)
    returns (steps: seq<Step>)
    requires Stuck(s, root, a) && root != ""
    ensures IsRun(s, steps)
    ensures Landings(Run(s, steps).log, root, ActionKey(a)) == Landings(s.log, root, ActionKey(a)) + n + 1
    ensures Losses(Run(s, steps).log, root, ActionKey(a)) == Losses(s.log, root, ActionKey(a)) + n
    decreases n
  {
    hide ActionKey, Do, Possible, Stuck;
    var step := Again(root, operator, ActionKey(a), n == 0);
    StuckTick(s, root, operator, a, n == 0);
    CountsAfter(s.log, root, a, n == 0);
    if n == 0 {
      steps := [step];
      assert steps[1..] == [];
    } else {
      var rest := FailedSavesRepeat(Do(s, step), root, operator, a, n - 1);
      steps := [step] + rest;
      assert steps[1..] == rest;
    }
  }

  const NOTHING := State(map[], map[], map[], map[], map[], map[], map[], map[], map[], map[])
  const FRESH := Sys(NOTHING, NOTHING, map[], [])

  /** The message is said and the forge is down: the bridge keeps it. */
  function Said(root: string, operator: string, event: RoomEvent): Step {
    Tick(root, operator, map[], [], [event], map[], None, true)
  }

  lemma SaidIsStuck(root: string, operator: string, event: RoomEvent) returns (a: Action)
    requires root != "" && event.sender == operator && OwnWords(event.body) != "" && event.eventID != ""
    ensures GoodAction(a) && a.source == event.eventID && a.body == OwnWords(event.body)
    ensures event.threadRoot == "" && event.replyTo == "" ==> a.thread == ""
    ensures Possible(FRESH, Said(root, operator, event))
    ensures var next := Do(FRESH, Said(root, operator, event));
            Stuck(next, root, a) && next.book == NOTHING
                && Landings(next.log, root, ActionKey(a)) == 0 == Losses(next.log, root, ActionKey(a))
  {
    hide ActionKey, OwnWords;
    a := CreateAction(NOTHING, event, [event]);
    var key := ActionKey(a);
    var step := Said(root, operator, event);
    assert OperatorRequests(NOTHING, operator, [event][1..], [event]) == [];
    assert Plan(NOTHING, operator, map[], [], [event]) == [a];
    assert [a][1..] == [];
    assert Kept(map[], ActionKey, [a]) == map[key := a];
    assert map[key := a].Keys == {key};
    SortedOne(key);
    assert Listed(map[key := a]) == [a] by {
      assert InOrder(map[key := a], [key]) == [a];
    }
    var v := ServingOf(FRESH, root).(kept := map[key := a]);
    assert TryAll(v, root, [a], map[]) == Try(v, root, a, Refused);
    assert TickServing(FRESH, step) == Try(v, root, a, Refused);
    CountOne([], Entry(root, a, "", Answered(Refused)), root, key);
    assert [] + [Entry(root, a, "", Answered(Refused))] == [Entry(root, a, "", Answered(Refused))];
  }

  /** The bound is reached: for every number of failed saves there is a run from a fresh start
      that hands one message over that many times and once more. */
  lemma BoundIsReached(root: string, operator: string, event: RoomEvent, n: nat) returns (a: Action, steps: seq<Step>)
    requires root != "" && event.sender == operator && OwnWords(event.body) != "" && event.eventID != ""
    ensures Started(FRESH) && IsRun(FRESH, steps) && GoodAction(a) && a.source == event.eventID
    ensures Losses(Run(FRESH, steps).log, root, ActionKey(a)) == n
    ensures Landings(Run(FRESH, steps).log, root, ActionKey(a)) == n + 1
  {
    hide ActionKey, OwnWords, Do, Possible, Stuck, GoodAction;
    a := SaidIsStuck(root, operator, event);
    var step := Said(root, operator, event);
    var rest := FailedSavesRepeat(Do(FRESH, step), root, operator, a, n);
    steps := [step] + rest;
    assert steps[1..] == rest;
  }

  // What a failed save does to the bookkeeping itself.

  /** The kept message is taken, the save fails, and the queue already shows its request. */
  function TakenAndShown(root: string, operator: string, key: string, q: Request): Step {
    Tick(root, operator, map[], [], [], map[key := Landed("$taken", false)], Some([q]), true)
  }

  /** And once more, after the pair. */
  function TakenAgain(root: string, operator: string, key: string, e: string, q: Request): Step {
    Tick(root, operator, map[q.id := e], [], [], map[key := Landed("$taken", true)], None, true)
  }

  /** What a hand-over that lands leaves. */
  lemma HandedOverOnce(v: Serving, root: string, a: Action, eventID: string, saved: bool)
    requires a.kind == CreateForgeRequest && a.thread == ""
    ensures var after := Try(v, root, a, Landed(eventID, saved));
            && after.book.pending == v.book.pending[a.source := a.body] && after.book.relayed == v.book.relayed
            && Owner(after.book, Pending, a.source) == root
            && (!saved ==> after.kept == v.kept)
  {
    hide KeyIn, ActionKey;
  }

  lemma PairAllOfOne(p: Pairing, root: string, e: string, requests: seq<Request>)
    requires e in p.book.pending
    ensures PairAll(p, root, [e], requests) == PairOne(p, root, e, requests)
  {
    hide PairOne;
    assert [e][1..] == [];
  }

  lemma PairedRelays(book: State, root: string, e: string, id: string)
    ensures Paired(book, root, e, id).relayed == book.relayed[e := id]
  {
    hide KeyIn;
  }

  /** The one pending message is paired with the one request of its text. */
  lemma PairingOne(book: State, root: string, e: string, q: Request)
    requires book.pending == map[e := q.body] && book.relayed == map[] && Owner(book, Pending, e) == root
    ensures PairedUp(book, root, [q]) == Pairing(Paired(book, root, e, q.id), {q.id}, [e])
  {
    hide Paired, Owner, PairAll, Sorted;
    assert book.pending.Keys == {e};
    SortedOne(e);
    assert Taken(book, root) == {};
    var p := Pairing(book, {}, []);
    assert TakeRequest([q], q.body, {}) == Some(q.id);
    PairAllOfOne(p, root, e, [q]);
  }

  lemma PairedWhileKept(s: Sys, root: string, operator: string, a: Action, q: Request)
    requires Stuck(s, root, a) && s.book == NOTHING && root != "" && a.thread == "" && q.body == a.body
    ensures var step := TakenAndShown(root, operator, ActionKey(a), q);
            var next := Do(s, step);
            Possible(s, step) && next.book.relayed == map[a.source := q.id]
                && KeptFor(next, root) == map[ActionKey(a) := a]
  {
    hide ActionKey, PairedUp, Try, Owner, Paired, TickServing;
    var step := TakenAndShown(root, operator, ActionKey(a), q);
    TryingOne(s, step, a);
    HandedOverOnce(ServingOf(s, root), root, a, "$taken", false);
    var tried := Try(ServingOf(s, root), root, a, Landed("$taken", false));
    PairingOne(tried.book, root, a.source, q);
    PairedRelays(tried.book, root, a.source, q.id);
  }

  lemma InvertsOne(book: State, e: string, id: string)
    requires book.relayed == map[e := id]
    ensures InvertsRelayed(book, map[id := e])
  {
    assert e in book.relayed && book.relayed[e] == id;
  }

  lemma PendingAfterRelayed(s: Sys, root: string, operator: string, a: Action, q: Request)
    requires root != "" && a.kind == CreateForgeRequest && a.thread == "" && KeptFor(s, root) == map[ActionKey(a) := a]
    requires s.book.relayed == map[a.source := q.id]
    ensures var step := TakenAgain(root, operator, ActionKey(a), a.source, q);
            var next := Do(s, step);
            Possible(s, step) && a.source in next.book.pending && a.source in next.book.relayed
  {
    hide ActionKey, Try, Owner, TickServing, InvertsRelayed;
    InvertsOne(s.book, a.source, q.id);
    var step := TakenAgain(root, operator, ActionKey(a), a.source, q);
    TryingOne(s, step, a);
    HandedOverOnce(ServingOf(s, root), root, a, "$taken", true);
  }

  /** When the save after a hand-over fails, a message can be pending and relayed at
      once: a run from a fresh start that ends so, for any message and any request of its text. */
  lemma FailedSaveBreaksDisjointness(root: string, operator: string, event: RoomEvent, q: Request)
    returns (steps: seq<Step>)
    requires root != "" && event.sender == operator && OwnWords(event.body) != "" && event.eventID != ""
    requires event.threadRoot == "" && event.replyTo == "" && q.body == OwnWords(event.body)
    ensures Started(FRESH) && IsRun(FRESH, steps)
    ensures event.eventID in Run(FRESH, steps).book.pending && event.eventID in Run(FRESH, steps).book.relayed
  {
    hide ActionKey, OwnWords, Do, Possible, GoodAction;
    var a := SaidIsStuck(root, operator, event);
    var s1 := Do(FRESH, Said(root, operator, event));
    PairedWhileKept(s1, root, operator, a, q);
    var second, third := TakenAndShown(root, operator, ActionKey(a), q),
        TakenAgain(root, operator, ActionKey(a), a.source, q);
    PendingAfterRelayed(Do(s1, second), root, operator, a, q);
    steps := [Said(root, operator, event), second, third];
    RunOfThree(FRESH, Said(root, operator, event), second, third);
  }

  lemma RunOfThree(s: Sys, x: Step, y: Step, z: Step)
    requires Possible(s, x) && Possible(Do(s, x), y) && Possible(Do(Do(s, x), y), z)
    ensures IsRun(s, [x, y, z]) && Run(s, [x, y, z]) == Do(Do(Do(s, x), y), z)
  {
    hide Do, Possible;
    assert [x, y, z][1..] == [y, z] && [y, z][1..] == [z] && [z][1..] == [];
    assert IsRun(Do(Do(s, x), y), [z]) && Run(Do(Do(s, x), y), [z]) == Do(Do(Do(s, x), y), z);
    assert IsRun(Do(s, x), [y, z]) && Run(Do(s, x), [y, z]) == Run(Do(Do(s, x), y), [z]);
  }
}
