/** One forge's chat room and queue kept in step, whatever is refused, whatever save fails and
    whenever the bridge restarts (internal/bridge/bridge.go, internal/bridge/apply.go). */
module Chat {
  import opened Options
  import opened Text
  import opened Quote
  import opened Relay
  import opened ChatPlan
  import opened PendingWork

  function KindName(kind: Kind): string {
    match kind
    case PostRequestMessage => "post_request_message"
    case PostRequestReply => "post_request_reply"
    case CreateForgeRequest => "create_forge_request"
  }

  function ActionKey(a: Action): string {
    KindName(a.kind) + "/" + (a.requestID + "/" + a.source)
  }

  /** What the room or the forge made of one call: it refused it, or it took it, and then the
      bookkeeping was saved or the save failed. */
  datatype Outcome = Refused | Landed(eventID: string, saved: bool)

  datatype Tried = NoAnchor | Answered(outcome: Outcome)

  /** One action one forge's room tried, the thread an answer went into, and what came of it. */
  datatype Entry = Entry(root: string, action: Action, thread: string, tried: Tried)

  /** What serving one forge's chat reads and writes: the bookkeeping, the state file, the
      forge's pending work, and the record of every call so far. */
  datatype Serving = Serving(book: State, file: State, kept: map<string, Action>, log: seq<Entry>)

  function AnswerTo(answers: map<string, Outcome>, key: string): Outcome {
    if key in answers then answers[key] else Refused
  }

  /** The thread a reply goes into: the planned one, or the one known by now. */
  function ReplyAnchor(book: State, a: Action): string {
    if a.anchor != "" then a.anchor else Anchor(book, a.requestID)
  }

  /** The thread an action's message is sent to: only an answer is sent to one. */
  function SentTo(book: State, a: Action): string {
    if a.kind == PostRequestReply then ReplyAnchor(book, a) else ""
  }

  /** What carrying an action out writes down. */
  function Applied(book: State, root: string, a: Action, eventID: string): State {
    match a.kind
    case PostRequestMessage =>
      Scoped(book.(threads := book.threads[a.requestID := eventID]), Threads, a.requestID, root)
    case PostRequestReply =>
      Scoped(book.(replied := book.replied[a.requestID := eventID]), Replied, a.requestID, root)
    case CreateForgeRequest =>
      var taken := Scoped(book.(pending := book.pending[a.source := a.body]), Pending, a.source, root);
      if a.thread == "" then taken
      else Scoped(taken.(pendingThreads := taken.pendingThreads[a.source := a.thread]), PendingThreads, a.source, root)
  }

  function Try(v: Serving, root: string, a: Action, answer: Outcome): Serving {
    if a.kind == PostRequestReply && ReplyAnchor(v.book, a) == "" then
      v.(log := v.log + [Entry(root, a, "", NoAnchor)])
    else
      var tried := v.(log := v.log + [Entry(root, a, SentTo(v.book, a), Answered(answer))]);
      match answer
      case Refused => tried
      case Landed(eventID, saved) =>
        var book := Applied(v.book, root, a, eventID);
        if saved then tried.(book := book, file := book, kept := v.kept - {ActionKey(a)})
        else tried.(book := book)
  }

  function TryAll(v: Serving, root: string, actions: seq<Action>, answers: map<string, Outcome>): Serving
    decreases |actions|
  {
    if actions == [] then v
    else TryAll(Try(v, root, actions[0], AnswerTo(answers, ActionKey(actions[0]))), root, actions[1..], answers)
  }

  // Pairing what the forge has taken with the requests it became.

  /** A pending message this root may pair: its own, or one from before owners were recorded. */
  predicate BelongsTo(book: State, root: string, eventID: string) {
    Owner(book, Pending, eventID) == "" || Owner(book, Pending, eventID) == root
  }

  /** A relayed message whose request this root counts as taken. */
  predicate Counts(book: State, root: string, eventID: string) {
    eventID in book.relayed && (Owner(book, Relayed, eventID) == root || Owner(book, Relayed, eventID) == "")
  }

  function Taken(book: State, root: string): set<string> {
    set e | e in book.relayed && Counts(book, root, e) :: book.relayed[e]
  }

  /** The first request of the queue that reads `body` and that no message has taken. */
  function TakeRequest(requests: seq<Request>, body: string, taken: set<string>): Option<string> {
    if requests == [] then None
    else if requests[0].body == body && requests[0].id !in taken then Some(requests[0].id)
    else TakeRequest(requests[1..], body, taken)
  }

  /** The thread an operator message's answer belongs in. */
  function OwnThread(book: State, eventID: string): string {
    if Get(book.pendingThreads, eventID) != "" then book.pendingThreads[eventID] else eventID
  }

  function Paired(book: State, root: string, eventID: string, requestID: string): State {
    book.(relayed := book.relayed[eventID := requestID],
          threads := book.threads[requestID := OwnThread(book, eventID)],
          pendingThreads := book.pendingThreads - {eventID},
          pending := book.pending - {eventID},
          scopes := book.scopes[KeyIn(Relayed, eventID) := root][KeyIn(Threads, requestID) := root]
                    - {KeyIn(PendingThreads, eventID)} - {KeyIn(Pending, eventID)})
  }

  /** A pair's two halves: the message becomes the request, and it waits no longer. */
  function RelayedAs(book: State, root: string, eventID: string, requestID: string, thread: string): State {
    book.(relayed := book.relayed[eventID := requestID],
          threads := book.threads[requestID := if thread != "" then thread else eventID],
          scopes := book.scopes[KeyIn(Relayed, eventID) := root][KeyIn(Threads, requestID) := root])
  }

  function NoLongerPending(book: State, eventID: string): State {
    book.(pendingThreads := book.pendingThreads - {eventID},
          pending := book.pending - {eventID},
          scopes := book.scopes - {KeyIn(PendingThreads, eventID)} - {KeyIn(Pending, eventID)})
  }

  datatype Pairing = Pairing(book: State, taken: set<string>, paired: seq<string>)

  function PairOne(p: Pairing, root: string, eventID: string, requests: seq<Request>): Pairing
    requires eventID in p.book.pending
  {
    if !BelongsTo(p.book, root, eventID) then p
    else match TakeRequest(requests, p.book.pending[eventID], p.taken)
         case None => p
         case Some(id) => Pairing(Paired(p.book, root, eventID, id), p.taken + {id}, p.paired + [eventID])
  }

  function PairAll(p: Pairing, root: string, events: seq<string>, requests: seq<Request>): Pairing
    requires Distinct(events) && forall e | e in events :: e in p.book.pending
    decreases |events|
  {
    if events == [] then p
    else
      assert forall i | 0 < i < |events| :: events[i] == events[1..][i - 1];
      PairAll(PairOne(p, root, events[0], requests), root, events[1..], requests)
  }

  /** Everything the queue can pair, paired. */
  function PairedUp(book: State, root: string, requests: seq<Request>): Pairing {
    SortedIsAscending(book.pending.Keys);
    PairAll(Pairing(book, Taken(book, root), []), root, Sorted(book.pending.Keys), requests)
  }

  function PairPass(v: Serving, root: string, readBack: Option<seq<Request>>, saves: bool): Serving {
    if v.book.pending == map[] || readBack == None then v
    else
      var p := PairedUp(v.book, root, readBack.value);
      if p.paired == [] then v
      else if saves then v.(book := p.book, file := p.book)
      else v.(book := p.book)
  }

  /** How many messages a pass pairs, and whether it reads the queue and saves as it must. */
  function PairsMade(v: Serving, root: string, readBack: Option<seq<Request>>): nat {
    if v.book.pending == map[] || readBack == None then 0 else |PairedUp(v.book, root, readBack.value).paired|
  }

  predicate PairsFine(v: Serving, root: string, readBack: Option<seq<Request>>, saves: bool) {
    v.book.pending == map[] || (readBack.Some? && (PairsMade(v, root, readBack) == 0 || saves))
  }

  /** How many of the calls landed and were saved. */
  function CarriedOut(log: seq<Entry>): nat {
    if log == [] then 0
    else var tried := log[|log| - 1].tried;
         CarriedOut(log[..|log| - 1]) + if tried.Answered? && tried.outcome.Landed? && tried.outcome.saved then 1 else 0
  }

  /** One tick of one forge's chat: plan, keep, try everything kept, pair. */
  function ChatTick(v: Serving, root: string, operator: string, origins: map<string, string>,
                    requests: seq<Request>, events: seq<RoomEvent>, answers: map<string, Outcome>,
                    readBack: Option<seq<Request>>, saves: bool): Serving
  {
    var kept := Kept(v.kept, ActionKey, Plan(v.book, operator, origins, requests, events));
    var tried := TryAll(v.(kept := kept), root, Listed(kept), answers);
    PairPass(tried, root, readBack, saves)
  }

  /** The bridge's side of one forge's chat. */
  class ForgeChat {
    const root: string
    const operator: string
    const book: Bookkeeping
    const pending: Work<Action>
    ghost var log: seq<Entry>

    constructor (root: string, operator: string, book: Bookkeeping)
      ensures this.root == root && this.operator == operator && this.book == book
      ensures fresh(pending) && pending.keyOf == ActionKey && pending.items == map[] && log == []
    {
      this.root, this.operator, this.book := root, operator, book;
      pending := new Work(ActionKey);
      log := [];
    }

    ghost function View(): Serving
      reads this, book, pending
    {
      Serving(book.Value(), book.file, pending.items, log)
    }

    method PostRequestMessage(action: Action, eventID: string)
      requires action.kind == ChatPlan.PostRequestMessage
      modifies book
      ensures book.Value() == Applied(old(book.Value()), root, action, eventID) && book.file == old(book.file)
    {
      book.threads := book.threads[action.requestID := eventID];
      book.Scope(Threads, action.requestID, root);
    }

    method PostRequestReply(action: Action, eventID: string)
      requires action.kind == ChatPlan.PostRequestReply
      modifies book
      ensures book.Value() == Applied(old(book.Value()), root, action, eventID) && book.file == old(book.file)
    {
      book.replied := book.replied[action.requestID := eventID];
      book.Scope(Replied, action.requestID, root);
    }

    method CreateForgeRequest(action: Action)
      requires action.kind == ChatPlan.CreateForgeRequest
      modifies book
      ensures book.Value() == Applied(old(book.Value()), root, action, "") && book.file == old(book.file)
    {
      book.pending := book.pending[action.source := action.body];
      book.Scope(Pending, action.source, root);
      if action.thread != "" {
        book.pendingThreads := book.pendingThreads[action.source := action.thread];
        book.Scope(PendingThreads, action.source, root);
      }
    }

    /** Carries one action out and saves; `ok` is false when the call or the save failed. */
    method Apply(action: Action, answer: Outcome) returns (ok: bool)
      modifies this, book
      ensures View() == Try(old(View()), root, action, answer).(kept := pending.items)
      ensures ok <==> answer.Landed? && answer.saved
                      && (action.kind == ChatPlan.PostRequestReply ==> ReplyAnchor(old(book.Value()), action) != "")
    {
      var anchor := "";
      if action.kind == ChatPlan.PostRequestReply {
        anchor := action.anchor;
        if anchor == "" {
          anchor := Anchor(book.Value(), action.requestID);
        }
        if anchor == "" {
          log := log + [Entry(root, action, "", NoAnchor)];
          return false;
        }
      }
      log := log + [Entry(root, action, anchor, Answered(answer))];
      if answer == Refused {
        return false;
      }
      match action.kind {
        case PostRequestMessage => PostRequestMessage(action, answer.eventID);
        case PostRequestReply => PostRequestReply(action, answer.eventID);
        case CreateForgeRequest => CreateForgeRequest(action);
      }
      ok := book.Save(answer.saved);
    }

    method TakenRequests() returns (taken: set<string>)
      ensures taken == Taken(book.Value(), root)
    {
      taken := {};
      var left := book.relayed.Keys;
      while left != {}
        invariant left <= book.relayed.Keys
        invariant taken == set e | e in book.relayed && e !in left && Counts(book.Value(), root, e) :: book.relayed[e]
        decreases left
      {
        var eventID :| eventID in left;
        left := left - {eventID};
        var owner := Owner(book.Value(), Relayed, eventID);
        if owner == root || owner == "" {
          taken := taken + {book.relayed[eventID]};
        }
      }
    }

    /** The message is relayed, and its request has a thread to be answered in. */
    method RecordRelayed(eventID: string, requestID: string, thread: string)
      modifies book
      ensures book.Value() == RelayedAs(old(book.Value()), root, eventID, requestID, thread)
      ensures book.file == old(book.file)
    {
      hide KeyIn;
      book.relayed := book.relayed[eventID := requestID];
      book.Scope(Relayed, eventID, root);
      book.threads := book.threads[requestID := if thread != "" then thread else eventID];
      book.Scope(Threads, requestID, root);
    }

    /** The message no longer waits for its request. */
    method ForgetPending(eventID: string)
      modifies book
      ensures book.Value() == NoLongerPending(old(book.Value()), eventID) && book.file == old(book.file)
    {
      hide KeyIn;
      book.pendingThreads := book.pendingThreads - {eventID};
      book.Unscope(PendingThreads, eventID);
      book.pending := book.pending - {eventID};
      book.Unscope(Pending, eventID);
    }

    method RecordPair(eventID: string, requestID: string)
      modifies book
      ensures book.Value() == Paired(old(book.Value()), root, eventID, requestID) && book.file == old(book.file)
    {
      hide KeyIn, Owner;
      RecordRelayed(eventID, requestID, Get(book.pendingThreads, eventID));
      ForgetPending(eventID);
    }

    /** Pairs one pending message, when it is this root's and the queue shows its request. */
    method PairEvent(ghost p: Pairing, eventID: string, requests: seq<Request>, taken: set<string>)
      returns (request: Option<string>)
      requires p.book == book.Value() && p.taken == taken && eventID in book.pending
      modifies book
      ensures book.file == old(book.file)
      ensures var p' := PairOne(p, root, eventID, requests);
              book.Value() == p'.book && p'.taken == (if request.Some? then taken + {request.value} else taken)
              && p'.paired == if request.Some? then p.paired + [eventID] else p.paired
    {
      request := None;
      var owner := Owner(book.Value(), Pending, eventID);
      if owner == "" || owner == root {
        request := TakeRequest(requests, book.pending[eventID], taken);
        if request.Some? {
          RecordPair(eventID, request.value);
        }
      }
    }

    method PairEvents(events: seq<string>, requests: seq<Request>, taken0: set<string>)
      returns (count: nat)
      requires Distinct(events) && forall e | e in events :: e in book.pending
      modifies book
      ensures book.file == old(book.file)
      ensures var p := PairAll(Pairing(old(book.Value()), taken0, []), root, events, requests);
              book.Value() == p.book && count == |p.paired|
    {
      var taken := taken0;
      count := 0;
      ghost var start := Pairing(book.Value(), taken, []);
      ghost var p := start;
      for i := 0 to |events|
        invariant p.book == book.Value() && p.taken == taken && |p.paired| == count
        invariant book.file == old(book.file)
        invariant forall k | i <= k < |events| :: events[k] in book.pending
        invariant PairAll(start, root, events, requests) == PairAll(p, root, events[i..], requests)
      {
        assert events[i..][1..] == events[i + 1..];
        ghost var next := PairOne(p, root, events[i], requests);
        assert PairAll(p, root, events[i..], requests) == PairAll(next, root, events[i + 1..], requests);
        var request := PairEvent(p, events[i], requests, taken);
        if request.Some? {
          taken := taken + {request.value};
          count := count + 1;
        }
        p := next;
      }
    }

    /** Pairs each message the forge has taken with the request it became. */
    method PairPendingRequests(readBack: Option<seq<Request>>, saves: bool) returns (count: nat, ok: bool)
      modifies book
      ensures View() == PairPass(old(View()), root, readBack, saves)
      ensures count == PairsMade(old(View()), root, readBack) && ok == PairsFine(old(View()), root, readBack, saves)
    {
      hide PairAll, Taken, Sorted;
      if book.pending == map[] {
        return 0, true;
      }
      if readBack == None {
        return 0, false;
      }
      var taken := TakenRequests();
      SortedIsAscending(book.pending.Keys);
      count := PairEvents(Sorted(book.pending.Keys), readBack.value, taken);
      if count == 0 {
        PairingNothing(Pairing(old(book.Value()), taken, []), root, Sorted(old(book.pending).Keys), readBack.value);
        return 0, true;
      }
      ok := book.Save(saves);
    }

    /** Carries out the chat work one forge owes its room: what is refused is kept and tried
        again, while the rest goes ahead. */
    method CarryOutChat(requests: seq<Request>, events: seq<RoomEvent>, answers: map<string, Outcome>,
                        readBack: Option<seq<Request>>, saves: bool)
      returns (carriedOut: nat, origins: map<string, string>)
      requires pending.keyOf == ActionKey
      modifies this, book, pending
      ensures InvertsRelayed(old(book.Value()), origins)
      ensures View() == ChatTick(old(View()), root, operator, origins, requests, events, answers, readBack, saves)
      ensures var kept := Kept(old(pending.items), ActionKey,
                               Plan(old(book.Value()), operator, origins, requests, events));
              var tried := TryAll(old(View()).(kept := kept), root, Listed(kept), answers);
              carriedOut == CarriedOut(tried.log) - CarriedOut(old(log))
                            + if PairsFine(tried, root, readBack, saves) then PairsMade(tried, root, readBack) else 0
    {
      hide PairPass, PairsMade, PairsFine, TryAll, Plan, Kept, Listed, ActionKey, CarriedOut;
      var actions;
      actions, origins := MakePlan(book.Value(), operator, requests, events);
      pending.KeepAll(actions);
      var list := pending.List();
      carriedOut := TryEach(list, answers);
      var paired, ok := PairPendingRequests(readBack, saves);
      if !ok {
        return;
      }
      carriedOut := carriedOut + paired;
    }

    method TryEach(list: seq<Action>, answers: map<string, Outcome>) returns (carriedOut: nat)
      requires pending.keyOf == ActionKey
      modifies this, book, pending
      ensures View() == TryAll(old(View()), root, list, answers)
      ensures CarriedOut(log) == CarriedOut(old(log)) + carriedOut
    {
      hide Try, CarriedOut;
      carriedOut := 0;
      for i := 0 to |list|
        invariant CarriedOut(log) == CarriedOut(old(log)) + carriedOut
        invariant TryAll(old(View()), root, list, answers) == TryAll(View(), root, list[i..], answers)
      {
        assert list[i..][1..] == list[i + 1..];
        var ok := TryOne(list[i], AnswerTo(answers, ActionKey(list[i])));
        if ok {
          carriedOut := carriedOut + 1;
        }
      }
    }

    method TryOne(action: Action, answer: Outcome) returns (ok: bool)
      requires pending.keyOf == ActionKey
      modifies this, book, pending
      ensures View() == Try(old(View()), root, action, answer)
      ensures CarriedOut(log) == CarriedOut(old(log)) + if ok then 1 else 0
    {
      ok := Apply(action, answer);
      if ok {
        pending.Done(action);
      }
    }
  }

  lemma {:induction false} PairingNothing(p: Pairing, root: string, events: seq<string>, requests: seq<Request>)
    requires Distinct(events) && forall e | e in events :: e in p.book.pending
    ensures p.paired <= PairAll(p, root, events, requests).paired
    ensures PairAll(p, root, events, requests).paired == p.paired ==> PairAll(p, root, events, requests) == p
    decreases |events|
  {
    if events != [] {
      assert forall i | 0 < i < |events| :: events[i] == events[1..][i - 1];
      PairingNothing(PairOne(p, root, events[0], requests), root, events[1..], requests);
    }
  }
}
