/** Where each answer goes, over whole runs: under the request's own post, or into the thread the
    message that became the request was asked in (internal/bridge/apply.go). */
module ChatThreads {
  import opened Options
  import opened Text
  import opened Quote
  import opened Relay
  import opened ChatPlan
  import opened PendingWork
  import opened Chat
  import opened ChatRuns
  import opened ChatPairing
  import opened ChatDue

  // What is known of a message and of a request.

  /** A message was handed over in a landed call, asked in this thread or in none. */
  ghost predicate HandedOver(log: seq<Entry>, e: string, thread: string) {
    exists x | x in log ::
      x.action.kind == CreateForgeRequest && x.action.source == e && x.action.thread == thread && DidLand(x)
  }

  /** Or it waited at the start, known to be asked so. */
  ghost predicate Asked(log: seq<Entry>, first: State, e: string, thread: string) {
    || HandedOver(log, e, thread)
    || (Get(first.pendingThreads, e) == thread && (thread != "" || e in first.pending))
  }

  /** A request was posted in a landed call that made this event. */
  ghost predicate PostedAs(log: seq<Entry>, id: string, eventID: string) {
    exists x | x in log ::
      x.action.kind == PostRequestMessage && x.action.requestID == id && DidLand(x)
      && x.tried.outcome.eventID == eventID
  }

  /** A thread a request's answer may go into: the request's own post; the thread a message that became
      the request was asked in, or that message when it was asked in none; or the one at the start. */
  ghost predicate ThreadOf(log: seq<Entry>, first: State, pairs: set<(string, string)>, id: string, thread: string) {
    || PostedAs(log, id, thread)
    || (exists e, asked ::
        (e, id) in pairs && Asked(log, first, e, asked) && thread == if asked != "" then asked else e)
    || Get(first.threads, id) == thread
  }

  /** Or a message that had become the request at the start. */
  ghost predicate AnswerPlace(log: seq<Entry>, first: State, pairs: set<(string, string)>, id: string, thread: string) {
    ThreadOf(log, first, pairs, id, thread) || (thread in first.relayed && first.relayed[thread] == id)
  }

  // The invariant.

  ghost predicate PendingKnown(book: State, log: seq<Entry>, first: State) {
    forall e | e in book.pending || Get(book.pendingThreads, e) != "" ::
      Asked(log, first, e, Get(book.pendingThreads, e))
  }

  ghost predicate ThreadsKnown(book: State, log: seq<Entry>, first: State, pairs: set<(string, string)>) {
    forall id | Get(book.threads, id) != "" :: ThreadOf(log, first, pairs, id, Get(book.threads, id))
  }

  /** A message that became a request in the run left a thread for it. */
  ghost predicate RelayedKnown(book: State, first: State) {
    forall e | e in book.relayed ::
      Get(book.threads, book.relayed[e]) != "" || (e in first.relayed && first.relayed[e] == book.relayed[e])
  }

  ghost predicate Places(book: State, log: seq<Entry>, first: State, pairs: set<(string, string)>) {
    PendingKnown(book, log, first) && ThreadsKnown(book, log, first, pairs) && RelayedKnown(book, first)
  }

  predicate IsAnswer(a: Action) {
    a.kind == PostRequestReply
  }

  /** The answers that wait go, where it is known yet, to a place of their request's. */
  ghost predicate AnchorsKnown(kept: map<string, Action>, log: seq<Entry>, first: State, pairs: set<(string, string)>) {
    forall k | k in kept && IsAnswer(kept[k]) && kept[k].anchor != "" ::
      AnswerPlace(log, first, pairs, kept[k].requestID, kept[k].anchor)
  }

  ghost predicate AnswersKnown(log: seq<Entry>, past: seq<Entry>, first: State, pairs: set<(string, string)>) {
    forall x | x in log && IsAnswer(x.action) && x.tried.Answered? ::
      && x.thread != "" && AnswerPlace(past, first, pairs, x.action.requestID, x.thread)
      && (x.action.anchor != "" ==> x.thread == x.action.anchor)
  }

  ghost predicate Known(v: Serving, first: State, pairs: set<(string, string)>) {
    && Places(v.book, v.log, first, pairs) && Places(v.file, v.log, first, pairs)
    && AnchorsKnown(v.kept, v.log, first, pairs) && AnswersKnown(v.log, v.log, first, pairs)
  }

  // Longer records know as much.

  lemma AskedLonger(log: seq<Entry>, more: seq<Entry>, first: State, e: string, thread: string)
    requires Asked(log, first, e, thread) && forall x | x in log :: x in more
    ensures Asked(more, first, e, thread)
  {
  }

  lemma ThreadOfLonger(log: seq<Entry>, more: seq<Entry>, first: State, pairs: set<(string, string)>,
                       pairs': set<(string, string)>, id: string, thread: string)
    requires ThreadOf(log, first, pairs, id, thread) && pairs <= pairs' && forall x | x in log :: x in more
    ensures ThreadOf(more, first, pairs', id, thread)
  {
    hide Asked;
    forall e, asked | Asked(log, first, e, asked) ensures Asked(more, first, e, asked) {
      AskedLonger(log, more, first, e, asked);
    }
  }

  lemma PlacesLonger(book: State, log: seq<Entry>, more: seq<Entry>, first: State, pairs: set<(string, string)>,
                     pairs': set<(string, string)>)
    requires Places(book, log, first, pairs) && pairs <= pairs' && forall x | x in log :: x in more
    ensures Places(book, more, first, pairs')
  {
    hide Asked, ThreadOf;
    forall e, asked | Asked(log, first, e, asked) ensures Asked(more, first, e, asked) {
      AskedLonger(log, more, first, e, asked);
    }
    forall id, thread | ThreadOf(log, first, pairs, id, thread) ensures ThreadOf(more, first, pairs', id, thread) {
      ThreadOfLonger(log, more, first, pairs, pairs', id, thread);
    }
  }

  lemma AnchorsLonger(kept: map<string, Action>, log: seq<Entry>, more: seq<Entry>, first: State,
                      pairs: set<(string, string)>, pairs': set<(string, string)>)
    requires AnchorsKnown(kept, log, first, pairs) && pairs <= pairs' && forall x | x in log :: x in more
    ensures AnchorsKnown(kept, more, first, pairs')
  {
    hide ThreadOf;
    forall id, thread | ThreadOf(log, first, pairs, id, thread) ensures ThreadOf(more, first, pairs', id, thread) {
      ThreadOfLonger(log, more, first, pairs, pairs', id, thread);
    }
  }

  lemma AnswersLonger(log: seq<Entry>, past: seq<Entry>, more: seq<Entry>, first: State, pairs: set<(string, string)>,
                      pairs': set<(string, string)>)
    requires AnswersKnown(log, past, first, pairs) && pairs <= pairs' && forall x | x in past :: x in more
    ensures AnswersKnown(log, more, first, pairs')
  {
    hide ThreadOf;
    forall id, thread | ThreadOf(past, first, pairs, id, thread) ensures ThreadOf(more, first, pairs', id, thread) {
      ThreadOfLonger(past, more, first, pairs, pairs', id, thread);
    }
  }

  // Trying.

  lemma AppliedShape(book: State, root: string, a: Action, eventID: string)
    ensures var b := Applied(book, root, a, eventID);
            && b.relayed == book.relayed
            && b.threads == (if a.kind == PostRequestMessage then book.threads[a.requestID := eventID]
                             else book.threads)
            && b.pending == (if a.kind == CreateForgeRequest then book.pending[a.source := a.body] else book.pending)
            && b.pendingThreads == (if a.kind == CreateForgeRequest && a.thread != ""
                                    then book.pendingThreads[a.source := a.thread] else book.pendingThreads)
  {
    hide KeyIn;
    match a.kind
    case PostRequestMessage =>
    case PostRequestReply =>
    case CreateForgeRequest => HandingOverShape(book, root, a);
  }

  lemma HandingOverShape(book: State, root: string, a: Action)
    requires a.kind == CreateForgeRequest
    ensures var b := Applied(book, root, a, "");
            && b.relayed == book.relayed && b.threads == book.threads && b.pending == book.pending[a.source := a.body]
            && b.pendingThreads == (if a.thread != "" then book.pendingThreads[a.source := a.thread]
                                    else book.pendingThreads)
  {
    hide KeyIn;
  }

  lemma AppliedPending(book: State, root: string, a: Action, eventID: string, log: seq<Entry>, first: State)
    requires PendingKnown(book, log, first) && (a.kind == CreateForgeRequest ==> HandedOver(log, a.source, a.thread))
    ensures PendingKnown(Applied(book, root, a, eventID), log, first)
  {
    hide Applied, HandedOver;
    AppliedShape(book, root, a, eventID);
    var after := Applied(book, root, a, eventID);
    forall e | e in after.pending || Get(after.pendingThreads, e) != ""
      ensures Asked(log, first, e, Get(after.pendingThreads, e))
    {
      if !(e in book.pending || Get(book.pendingThreads, e) != "") {
        assert Get(after.pendingThreads, e) == a.thread;
      }
    }
  }

  lemma AppliedThreads(book: State, root: string, a: Action, eventID: string, log: seq<Entry>, first: State,
                       pairs: set<(string, string)>)
    requires ThreadsKnown(book, log, first, pairs) && RelayedKnown(book, first) && eventID != ""
    requires a.kind == PostRequestMessage ==> PostedAs(log, a.requestID, eventID)
    ensures ThreadsKnown(Applied(book, root, a, eventID), log, first, pairs)
    ensures RelayedKnown(Applied(book, root, a, eventID), first)
  {
    hide Applied, PostedAs, Asked;
    AppliedShape(book, root, a, eventID);
    assert a.kind == PostRequestMessage ==> ThreadOf(log, first, pairs, a.requestID, eventID);
    hide ThreadOf;
    var after := Applied(book, root, a, eventID);
    forall id | Get(after.threads, id) != "" ensures ThreadOf(log, first, pairs, id, Get(after.threads, id)) {
      if Get(after.threads, id) == Get(book.threads, id) {
        assert ThreadOf(log, first, pairs, id, Get(book.threads, id));
      }
    }
  }

  lemma AppliedPlaces(book: State, root: string, a: Action, x: Entry, log: seq<Entry>, first: State,
                      pairs: set<(string, string)>)
    requires Places(book, log, first, pairs) && x in log && x.action == a && DidLand(x)
    requires x.tried.outcome.eventID != ""
    ensures Places(Applied(book, root, a, x.tried.outcome.eventID), log, first, pairs)
  {
    hide Applied, PendingKnown, ThreadsKnown, RelayedKnown;
    AppliedPending(book, root, a, x.tried.outcome.eventID, log, first);
    AppliedThreads(book, root, a, x.tried.outcome.eventID, log, first, pairs);
  }

  lemma TryIsKnown(v: Serving, root: string, a: Action, answer: Outcome, first: State, pairs: set<(string, string)>)
    requires Known(v, first, pairs) && GoodAnswer(answer)
    requires IsAnswer(a) && a.anchor != "" ==> AnswerPlace(v.log, first, pairs, a.requestID, a.anchor)
    ensures Known(Try(v, root, a, answer), first, pairs)
  {
    hide Try, ActionKey, Applied, Places, AnswerPlace;
    var after := Try(v, root, a, answer);
    TryShape(v, root, a, answer);
    var x := after.log[|v.log|];
    PlacesLonger(v.book, v.log, after.log, first, pairs, pairs);
    PlacesLonger(v.file, v.log, after.log, first, pairs, pairs);
    AnchorsLonger(v.kept, v.log, after.log, first, pairs, pairs);
    AnswersLonger(v.log, v.log, after.log, first, pairs, pairs);
    if Called(v.book, a) && answer.Landed? {
      AppliedPlaces(v.book, root, a, x, after.log, first, pairs);
    }
    if Called(v.book, a) && IsAnswer(a) {
      SentWhereItBelongs(v.book, a, v.log, after.log, first, pairs);
    }
  }

  lemma SentWhereItBelongs(book: State, a: Action, log: seq<Entry>, more: seq<Entry>, first: State,
                           pairs: set<(string, string)>)
    requires Places(book, log, first, pairs) && IsAnswer(a) && ReplyAnchor(book, a) != ""
    requires a.anchor != "" ==> AnswerPlace(log, first, pairs, a.requestID, a.anchor)
    requires forall x | x in log :: x in more
    ensures AnswerPlace(more, first, pairs, a.requestID, ReplyAnchor(book, a))
  {
    hide ThreadOf, PendingKnown, RelayedKnown;
    var thread := ReplyAnchor(book, a);
    if ThreadOf(log, first, pairs, a.requestID, thread) {
      ThreadOfLonger(log, more, first, pairs, pairs, a.requestID, thread);
    }
  }

  lemma {:induction false} TryAllIsKnown(v: Serving, root: string, actions: seq<Action>, answers: map<string, Outcome>,
                                         first: State, pairs: set<(string, string)>)
    requires Known(v, first, pairs) && GoodAnswers(answers)
    requires forall a | a in actions && IsAnswer(a) && a.anchor != "" ::
               AnswerPlace(v.log, first, pairs, a.requestID, a.anchor)
    ensures Known(TryAll(v, root, actions, answers), first, pairs)
    decreases |actions|
  {
    hide Try, ActionKey, Known, ThreadOf;
    if actions != [] {
      var answer := AnswerTo(answers, ActionKey(actions[0]));
      var next := Try(v, root, actions[0], answer);
      TryIsKnown(v, root, actions[0], answer, first, pairs);
      TryShape(v, root, actions[0], answer);
      forall id, thread | ThreadOf(v.log, first, pairs, id, thread)
          ensures ThreadOf(next.log, first, pairs, id, thread) {
        ThreadOfLonger(v.log, next.log, first, pairs, pairs, id, thread);
      }
      TryAllIsKnown(next, root, actions[1..], answers, first, pairs);
    }
  }

  // Pairing.

  /** What is paired later leaves a message that is not up any more alone. */
  lemma {:induction false} PairAllElsewhere(p: Pairing, root: string, events: seq<string>, requests: seq<Request>,
                                            e: string)
    requires Distinct(events) && (forall x | x in events :: x in p.book.pending) && e !in events
    ensures var after := PairAll(p, root, events, requests).book;
            (e in after.relayed <==> e in p.book.relayed)
                && (e in p.book.relayed ==> after.relayed[e] == p.book.relayed[e])
            && (e in after.pending <==> e in p.book.pending)
    decreases |events|
  {
    hide KeyIn, BelongsTo, OwnThread;
    if events != [] {
      assert forall i | 0 < i < |events| :: events[i] == events[1..][i - 1];
      assert events[0] in events;
      PairAllElsewhere(PairOne(p, root, events[0], requests), root, events[1..], requests, e);
    }
  }

  lemma PairOnePlaces(p: Pairing, root: string, e: string, requests: seq<Request>, log: seq<Entry>, first: State,
                      pairs: set<(string, string)>)
    requires Places(p.book, log, first, pairs) && e in p.book.pending && e != ""
    requires var next := PairOne(p, root, e, requests).book;
             e !in next.pending ==> e in next.relayed && (e, next.relayed[e]) in pairs
    ensures Places(PairOne(p, root, e, requests).book, log, first, pairs)
  {
    hide BelongsTo, Places, Paired;
    var next := PairOne(p, root, e, requests).book;
    if next != p.book {
      var id := TakeRequest(requests, p.book.pending[e], p.taken).value;
      assert next == Paired(p.book, root, e, id);
      PairedShape(p.book, root, e, id);
      PairedPlaces(p.book, root, e, id, log, first, pairs);
    }
  }

  lemma PairedPlaces(book: State, root: string, e: string, id: string, log: seq<Entry>, first: State,
                     pairs: set<(string, string)>)
    requires Places(book, log, first, pairs) && e in book.pending && e != "" && (e, id) in pairs
    ensures Places(Paired(book, root, e, id), log, first, pairs)
  {
    hide Paired, PendingKnown, ThreadsKnown;
    PairedShape(book, root, e, id);
    PairedPending(book, root, e, id, log, first);
    PairedThreads(book, root, e, id, log, first, pairs);
  }

  lemma PairedPending(book: State, root: string, e: string, id: string, log: seq<Entry>, first: State)
    requires PendingKnown(book, log, first)
    ensures PendingKnown(Paired(book, root, e, id), log, first)
  {
    hide Paired, Asked;
    PairedShape(book, root, e, id);
    var after := Paired(book, root, e, id);
    forall x | x in after.pending || Get(after.pendingThreads, x) != ""
      ensures Asked(log, first, x, Get(after.pendingThreads, x))
    {
      assert Get(after.pendingThreads, x) == Get(book.pendingThreads, x);
    }
  }

  lemma PairedThreads(book: State, root: string, e: string, id: string, log: seq<Entry>, first: State,
                      pairs: set<(string, string)>)
    requires PendingKnown(book, log, first) && ThreadsKnown(book, log, first, pairs)
    requires e in book.pending && (e, id) in pairs
    ensures ThreadsKnown(Paired(book, root, e, id), log, first, pairs)
  {
    hide Paired, Asked;
    PairedShape(book, root, e, id);
    var after, asked := Paired(book, root, e, id), Get(book.pendingThreads, e);
    assert Asked(log, first, e, asked);
    assert ThreadOf(log, first, pairs, id, if asked != "" then asked else e);
    hide ThreadOf, PendingKnown;
    forall x | Get(after.threads, x) != "" ensures ThreadOf(log, first, pairs, x, Get(after.threads, x)) {
      if x != id {
        assert ThreadOf(log, first, pairs, x, Get(book.threads, x));
      }
    }
  }

  lemma PairedShape(book: State, root: string, e: string, id: string)
    ensures var after := Paired(book, root, e, id);
            && after.relayed == book.relayed[e := id] && after.pending == book.pending - {e}
            && after.pendingThreads == book.pendingThreads - {e}
            && after.threads == book.threads[id := if Get(book.pendingThreads, e) != ""
                                                   then Get(book.pendingThreads, e) else e]
  {
    hide KeyIn;
  }

  lemma {:induction false} PairAllPlaces(p: Pairing, root: string, events: seq<string>, requests: seq<Request>,
                                         log: seq<Entry>, first: State, pairs: set<(string, string)>)
    requires Places(p.book, log, first, pairs) && "" !in events
    requires Distinct(events) && forall e | e in events :: e in p.book.pending
    requires var after := PairAll(p, root, events, requests).book;
             forall e | e in events && e !in after.pending :: e in after.relayed && (e, after.relayed[e]) in pairs
    ensures Places(PairAll(p, root, events, requests).book, log, first, pairs)
    decreases |events|
  {
    hide Places, PairOne;
    if events != [] {
      assert forall i | 0 < i < |events| :: events[i] == events[1..][i - 1];
      assert events[0] in events;
      PairOneMoves(p, root, events[0], requests);
      PairAllElsewhere(PairOne(p, root, events[0], requests), root, events[1..], requests, events[0]);
      PairOnePlaces(p, root, events[0], requests, log, first, pairs);
      PairAllPlaces(PairOne(p, root, events[0], requests), root, events[1..], requests, log, first, pairs);
    }
  }

  lemma PairOneMoves(p: Pairing, root: string, e: string, requests: seq<Request>)
    requires e in p.book.pending
    ensures var next := PairOne(p, root, e, requests).book;
            e !in next.pending ==> e in next.relayed
    ensures var next := PairOne(p, root, e, requests).book;
            forall x | x != e :: x in next.pending <==> x in p.book.pending
  {
    hide KeyIn, BelongsTo, OwnThread;
  }

  lemma {:induction false} PairAllMoves(p: Pairing, root: string, events: seq<string>, requests: seq<Request>,
                                        e: string)
    requires Distinct(events) && forall x | x in events :: x in p.book.pending
    ensures var after := PairAll(p, root, events, requests).book;
            e in p.book.pending && e !in after.pending ==> e in after.relayed
    decreases |events|
  {
    hide PairOne;
    if events != [] {
      assert forall i | 0 < i < |events| :: events[i] == events[1..][i - 1];
      assert events[0] in events;
      PairOneMoves(p, root, events[0], requests);
      var next := PairOne(p, root, events[0], requests);
      if e == events[0] {
        PairAllElsewhere(next, root, events[1..], requests, e);
      } else {
        PairAllMoves(next, root, events[1..], requests, e);
      }
    }
  }

  /** The messages one tick paired, each with the request it became. */
  function NewPairs(before: State, after: State): set<(string, string)> {
    set e | e in before.pending && e !in after.pending :: (e, Get(after.relayed, e))
  }

  lemma PairPassIsKnown(v: Serving, root: string, readBack: Option<seq<Request>>, saves: bool, first: State,
                        pairs: set<(string, string)>)
    requires Known(v, first, pairs) && Sound(v.book)
    ensures var after := PairPass(v, root, readBack, saves);
            Known(after, first, pairs + NewPairs(v.book, after.book))
  {
    hide Places, AnchorsKnown, AnswersKnown, PairAll, Taken, Sorted;
    var after := PairPass(v, root, readBack, saves);
    var more := pairs + NewPairs(v.book, after.book);
    PlacesLonger(v.book, v.log, v.log, first, pairs, more);
    PlacesLonger(v.file, v.log, v.log, first, pairs, more);
    AnchorsLonger(v.kept, v.log, v.log, first, pairs, more);
    AnswersLonger(v.log, v.log, v.log, first, pairs, more);
    if readBack.Some? && v.book.pending != map[] && PairedUp(v.book, root, readBack.value).paired != [] {
      var p0, events := Pairing(v.book, Taken(v.book, root), []), Sorted(v.book.pending.Keys);
      SortedIsAscending(v.book.pending.Keys);
      assert after.book == PairAll(p0, root, events, readBack.value).book;
      forall e | e in events && e !in after.book.pending ensures e in after.book.relayed {
        PairAllMoves(p0, root, events, readBack.value, e);
      }
      PairAllPlaces(p0, root, events, readBack.value, v.log, first, more);
    }
  }

  // Planning.

  lemma DueAnswerIsPlaced(book: State, requests: seq<Request>, a: Action, log: seq<Entry>, first: State,
                          pairs: set<(string, string)>)
    requires Places(book, log, first, pairs) && AnswerIsDue(book, requests, a) && a.anchor != ""
    ensures AnswerPlace(log, first, pairs, a.requestID, a.anchor)
  {
    hide ThreadOf, PendingKnown, Blank;
    assert GoesTo(book, a.requestID, a.anchor);
    if Get(book.threads, a.requestID) == "" {
      assert a.anchor in book.relayed && book.relayed[a.anchor] == a.requestID;
    }
  }

  lemma KeepingIsKnown(s: Sys, step: Step, first: State, pairs: set<(string, string)>)
    requires step.Tick? && InvertsRelayed(s.book, step.origins) && Known(ServingOf(s, step.root), first, pairs)
    ensures Known(ServingOf(s, step.root).(kept := TickKept(s, step)), first, pairs)
  {
    hide Places, AnswersKnown, AnswerPlace, Plan, Kept, ActionKey, InvertsRelayed, AnswerIsDue, HandOverIsDue,
        PostIsDue;
    var kept := TickKept(s, step);
    forall k | k in kept && IsAnswer(kept[k]) && kept[k].anchor != ""
      ensures AnswerPlace(s.log, first, pairs, kept[k].requestID, kept[k].anchor)
    {
      TickKeepsDue(s, step, kept[k]);
      if Due(s.book, step.operator, step.requests, step.events, kept[k]) {
        DueAnswerIsPlaced(s.book, step.requests, kept[k], s.log, first, pairs);
      }
    }
  }

  lemma ListedIsPlaced(kept: map<string, Action>, log: seq<Entry>, first: State, pairs: set<(string, string)>,
                       a: Action)
    requires AnchorsKnown(kept, log, first, pairs) && a in Listed(kept) && IsAnswer(a) && a.anchor != ""
    ensures AnswerPlace(log, first, pairs, a.requestID, a.anchor)
  {
    hide AnswerPlace, Listed;
    ListedIsKept(kept, a);
  }

  lemma TickTriedIsKnown(s: Sys, step: Step, first: State, pairs: set<(string, string)>)
    requires step.Tick? && Possible(s, step) && Known(ServingOf(s, step.root), first, pairs)
    ensures Known(TickTried(s, step), first, pairs)
  {
    hide Places, AnswersKnown, AnswerPlace, AnchorsKnown, TickKept, InvertsRelayed, TryAll, Listed;
    var v := ServingOf(s, step.root).(kept := TickKept(s, step));
    KeepingIsKnown(s, step, first, pairs);
    forall a | a in Listed(v.kept) && IsAnswer(a) && a.anchor != ""
      ensures AnswerPlace(v.log, first, pairs, a.requestID, a.anchor)
    {
      ListedIsPlaced(v.kept, v.log, first, pairs, a);
    }
    TryAllIsKnown(v, step.root, Listed(v.kept), step.answers, first, pairs);
  }

  // Steps and runs.

  /** The messages a step paired. */
  function PairedIn(s: Sys, step: Step): set<(string, string)> {
    if step.Tick? then NewPairs(TickTried(s, step).book, TickServing(s, step).book) else {}
  }

  /** The messages a run paired, each with the request it became. */
  function PairedOver(s: Sys, steps: seq<Step>): set<(string, string)>
    decreases |steps|
  {
    if steps == [] then {} else PairedIn(s, steps[0]) + PairedOver(Do(s, steps[0]), steps[1..])
  }

  ghost predicate AllKnown(s: Sys, first: State, pairs: set<(string, string)>) {
    && Places(s.book, s.log, first, pairs) && Places(s.file, s.log, first, pairs)
    && (forall root | root in s.kept :: AnchorsKnown(s.kept[root], s.log, first, pairs))
    && AnswersKnown(s.log, s.log, first, pairs)
  }

  lemma StepIsKnown(s: Sys, step: Step, first: State, pairs: set<(string, string)>)
    requires AllGood(s) && Possible(s, step) && AllKnown(s, first, pairs)
    ensures AllGood(Do(s, step)) && AllKnown(Do(s, step), first, pairs + PairedIn(s, step))
  {
    hide Places, AnswersKnown, AnchorsKnown, TickTried, TickServing, Possible, Good, GoodKept;
    assert pairs + {} == pairs;
    if step.Tick? {
      var more := pairs + PairedIn(s, step);
      GoodOfAll(s, step.root);
      TickIsGood(s, step);
      AllGoodAfter(s, step);
      NothingIsAnchored(s.log, first, pairs);
      TickTriedIsKnown(s, step, first, pairs);
      TickIsKnown(s, step, first, pairs);
      TickLogGrows(s, step);
      forall root | root in s.kept ensures AnchorsKnown(s.kept[root], TickServing(s, step).log, first, more) {
        AnchorsLonger(s.kept[root], s.log, TickServing(s, step).log, first, pairs, more);
      }
    } else {
      NothingIsAnchored(s.log, first, pairs);
      QuietStepIsKnown(s, step, first, pairs);
    }
  }

  lemma QuietStepIsKnown(s: Sys, step: Step, first: State, pairs: set<(string, string)>)
    requires !step.Tick? && AllGood(s) && AllKnown(s, first, pairs)
    ensures AllGood(Do(s, step)) && AllKnown(Do(s, step), first, pairs)
  {
    hide Places, AnswersKnown, AnchorsKnown;
  }

  lemma NothingIsAnchored(log: seq<Entry>, first: State, pairs: set<(string, string)>)
    ensures AnchorsKnown(map[], log, first, pairs)
  {
  }

  lemma TickIsKnown(s: Sys, step: Step, first: State, pairs: set<(string, string)>)
    requires step.Tick? && Good(TickTried(s, step)) && Known(TickTried(s, step), first, pairs)
    ensures Known(TickServing(s, step), first, pairs + PairedIn(s, step))
  {
    hide TickTried, Known, PairPass, NewPairs, TryAll, Listed, Plan, Kept, ActionKey;
    PairPassIsKnown(TickTried(s, step), step.root, step.readBack, step.saves, first, pairs);
    TickPasses(s, step);
  }

  lemma TickPasses(s: Sys, step: Step)
    requires step.Tick?
    ensures TickServing(s, step) == PairPass(TickTried(s, step), step.root, step.readBack, step.saves)
  {
    hide PairPass, TryAll, Listed, Plan, Kept, ActionKey;
  }

  lemma {:induction false} TryAllLogGrows(v: Serving, root: string, actions: seq<Action>, answers: map<string, Outcome>)
    ensures forall x | x in v.log :: x in TryAll(v, root, actions, answers).log
    decreases |actions|
  {
    hide Try, ActionKey;
    if actions != [] {
      var answer := AnswerTo(answers, ActionKey(actions[0]));
      TryShape(v, root, actions[0], answer);
      TryAllLogGrows(Try(v, root, actions[0], answer), root, actions[1..], answers);
    }
  }

  lemma TickLogGrows(s: Sys, step: Step)
    requires step.Tick?
    ensures forall x | x in s.log :: x in TickServing(s, step).log
  {
    hide TryAll, Listed, Plan, Kept, ActionKey, TickServing;
    TryAllLogGrows(ServingOf(s, step.root).(kept := TickKept(s, step)), step.root, Listed(TickKept(s, step)),
                   step.answers);
    TickServes(s, step);
  }

  lemma {:induction false} RunIsKnown(s: Sys, steps: seq<Step>, first: State, pairs: set<(string, string)>)
    requires AllGood(s) && IsRun(s, steps) && AllKnown(s, first, pairs)
    ensures AllKnown(Run(s, steps), first, pairs + PairedOver(s, steps)) && AllGood(Run(s, steps))
    decreases |steps|
  {
    hide AllKnown, AllGood, Possible, Do, PairedIn;
    if steps == [] {
      assert pairs + {} == pairs;
    } else {
      StepIsKnown(s, steps[0], first, pairs);
      RunIsKnown(Do(s, steps[0]), steps[1..], first, pairs + PairedIn(s, steps[0]));
      assert pairs + PairedIn(s, steps[0]) + PairedOver(Do(s, steps[0]), steps[1..])
          == pairs + (PairedIn(s, steps[0]) + PairedOver(Do(s, steps[0]), steps[1..]));
    }
  }

  lemma StartIsKnown(s: Sys)
    requires Started(s)
    ensures AllKnown(s, s.book, {})
  {
  }

  lemma ReachedIsKnown(s: Sys, steps: seq<Step>)
    requires Started(s) && IsRun(s, steps)
    ensures AllKnown(Run(s, steps), s.book, PairedOver(s, steps)) && AllGood(Run(s, steps))
  {
    hide AllKnown;
    StartIsKnown(s);
    RunIsKnown(s, steps, s.book, {});
    assert {} + PairedOver(s, steps) == PairedOver(s, steps);
  }

  /** Over any run every answer that was sent went to a message: its request's own post, or the thread
      of a message that became the request in the run, or what the bookkeeping said at the start; and
      where its plan knew one, to that. */
  lemma AnswersGoWhereTheyBelong(s: Sys, steps: seq<Step>, x: Entry)
    requires Started(s) && IsRun(s, steps) && x in Run(s, steps).log
    requires x.action.kind == PostRequestReply && x.tried.Answered?
    ensures x.thread != "" && (x.action.anchor != "" ==> x.thread == x.action.anchor)
    ensures AnswerPlace(Run(s, steps).log, s.book, PairedOver(s, steps), x.action.requestID, x.thread)
  {
    hide Started, IsRun, Run, Places, AnswerPlace;
    ReachedIsKnown(s, steps);
  }

  /** And every thread on record, in memory and in the file, is such a one. */
  lemma ThreadsAreWhereTheyWereAsked(s: Sys, steps: seq<Step>, id: string)
    requires Started(s) && IsRun(s, steps)
    ensures var end, pairs := Run(s, steps), PairedOver(s, steps);
            && (Get(end.book.threads, id) != "" ==> ThreadOf(end.log, s.book, pairs, id, Get(end.book.threads, id)))
            && (Get(end.file.threads, id) != "" ==> ThreadOf(end.log, s.book, pairs, id, Get(end.file.threads, id)))
  {
    hide Started, IsRun, Run, PendingKnown, ThreadOf;
    ReachedIsKnown(s, steps);
  }

  /** A message handed over in a run was called for, so the thread it was handed over with is the one it
      was asked in, as the tick that planned it saw the room. */
  lemma HandedOverIsCalledFor(s: Sys, steps: seq<Step>, e: string, thread: string)
    returns (root: string, a: Action)
    requires Started(s) && IsRun(s, steps) && HandedOver(Run(s, steps).log, e, thread)
    ensures CalledFor(s, steps, root, a) && a.kind == CreateForgeRequest && a.source == e && a.thread == thread
  {
    hide IsRun, Run, CalledFor;
    var x :| x in Run(s, steps).log && x.action.kind == CreateForgeRequest && x.action.source == e
             && x.action.thread == thread && DidLand(x);
    EveryCallIsDue(s, steps, x);
    root, a := x.root, x.action;
  }

  /** A message that a tick of any run pairs with a request leaves for it the thread the message was
      handed over with, or the message itself when it was asked in none. */
  lemma PairedMessageLeavesItsThread(s: Sys, steps: seq<Step>, step: Step, e: string) returns (asked: string)
    requires Started(s) && IsRun(s, steps) && step.Tick? && Possible(Run(s, steps), step)
    requires var now := Run(s, steps);
             e in TickTried(now, step).book.pending && e !in TickServing(now, step).book.pending
    ensures var after := TickServing(Run(s, steps), step);
            && Asked(after.log, s.book, e, asked) && e in after.book.relayed
            && Get(after.book.threads, after.book.relayed[e]) == if asked != "" then asked else e
  {
    var now, pairs := Run(s, steps), PairedOver(s, steps);
    hide Started, IsRun, Run, Possible, TickTried, Places, ThreadsKnown, Asked, PairedUp, Good, PairPass, AllGood;
    ReachedIsKnown(s, steps);
    GoodOfAll(now, step.root);
    NothingIsAnchored(now.log, s.book, pairs);
    TickTriedIsKnown(now, step, s.book, pairs);
    TickPasses(now, step);
    asked := PassLeavesItsThread(TickTried(now, step), step.root, step.readBack, step.saves, s.book, pairs, e);
  }

  lemma PassLeavesItsThread(v: Serving, root: string, readBack: Option<seq<Request>>, saves: bool, first: State,
                            pairs: set<(string, string)>, e: string)
    returns (asked: string)
    requires Known(v, first, pairs)
    requires e in v.book.pending && e !in PairPass(v, root, readBack, saves).book.pending
    ensures var after := PairPass(v, root, readBack, saves);
            && Asked(after.log, first, e, asked) && e in after.book.relayed
            && Get(after.book.threads, after.book.relayed[e]) == if asked != "" then asked else e
  {
    hide PairedUp, Asked, ThreadsKnown, RelayedKnown, AnchorsKnown, AnswersKnown, Taken, Owner;
    PairingConserves(v.book, root, readBack.value);
    asked := Get(v.book.pendingThreads, e);
    var p := PairedUp(v.book, root, readBack.value);
    assert e in p.paired;
    assert PairedWell(v.book, root, readBack.value, p, e);
  }
}
