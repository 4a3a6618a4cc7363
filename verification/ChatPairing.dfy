/** What the pairing pass does to the messages the forge has taken (internal/bridge/apply.go). */
module ChatPairing {
  import opened Options
  import opened Text
  import opened Relay
  import opened ChatPlan
  import opened Chat

  /** Within a root, no two messages it counts became the same request. */
  ghost predicate Injective(book: State, root: string) {
    forall e1, e2 | Counts(book, root, e1) && Counts(book, root, e2) && e1 != e2 ::
      book.relayed[e1] != book.relayed[e2]
  }

  lemma OwnerAfterPair(book: State, root: string, eventID: string, requestID: string, e: string)
    ensures var b := Paired(book, root, eventID, requestID);
            Owner(b, Relayed, e) == (if e == eventID then root else Owner(book, Relayed, e))
            && (e != eventID ==> Owner(b, Pending, e) == Owner(book, Pending, e))
  {
    KeyInInjective(Relayed, e, Relayed, eventID);
    KeyInInjective(Relayed, e, Threads, requestID);
    KeyInInjective(Relayed, e, PendingThreads, eventID);
    KeyInInjective(Relayed, e, Pending, eventID);
    KeyInInjective(Pending, e, Relayed, eventID);
    KeyInInjective(Pending, e, Threads, requestID);
    KeyInInjective(Pending, e, PendingThreads, eventID);
    KeyInInjective(Pending, e, Pending, eventID);
  }

  lemma CountsAfterPair(book: State, root: string, eventID: string, requestID: string, any: string, e: string)
    requires root != ""
    ensures Counts(Paired(book, root, eventID, requestID), any, e)
            <==> if e == eventID then any == root else Counts(book, any, e)
  {
    OwnerAfterPair(book, root, eventID, requestID, e);
  }

  lemma {:induction false} TakeRequestIsFirst(requests: seq<Request>, body: string, taken: set<string>)
    ensures var r := TakeRequest(requests, body, taken);
            match r
            case None => forall q | q in requests :: q.body == body ==> q.id in taken
            case Some(id) => id !in taken && exists i | 0 <= i < |requests| ::
              requests[i].id == id && requests[i].body == body
              && forall j | 0 <= j < i :: requests[j].body == body ==> requests[j].id in taken
  {
    if requests != [] && !(requests[0].body == body && requests[0].id !in taken) {
      TakeRequestIsFirst(requests[1..], body, taken);
      var r := TakeRequest(requests[1..], body, taken);
      if r.Some? {
        var i :| 0 <= i < |requests[1..]| && requests[1..][i].id == r.value && requests[1..][i].body == body
                 && forall j | 0 <= j < i :: requests[1..][j].body == body ==> requests[1..][j].id in taken;
        assert requests[i + 1].id == r.value && requests[i + 1].body == body;
        forall j | 0 <= j < i + 1 ensures requests[j].body == body ==> requests[j].id in taken {
          assert j > 0 ==> requests[j] == requests[1..][j - 1];
        }
      }
    }
  }

  function Those(events: seq<string>): set<string> {
    set e | e in events
  }

  /** The messages moved from taken to paired: those and no others, each once. */
  ghost predicate Moved(start: State, p: Pairing) {
    && Distinct(p.paired)
    && p.book.pending == start.pending - Those(p.paired)
    && p.book.pendingThreads == start.pendingThreads - Those(p.paired)
    && p.book.relayed.Keys == start.relayed.Keys + Those(p.paired)
    && (forall e | e in start.relayed && e !in p.paired :: e in p.book.relayed && p.book.relayed[e] == start.relayed[e])
  }

  /** The messages still waiting keep their owner. */
  ghost predicate OwnersKept(start: State, p: Pairing) {
    forall e | e !in p.paired :: Owner(p.book, Pending, e) == Owner(start, Pending, e)
  }

  ghost predicate AllWell(start: State, root: string, requests: seq<Request>, p: Pairing) {
    && Taken(start, root) <= p.taken
    && forall e | e in p.paired :: PairedWell(start, root, requests, p, e)
  }

  /** What holds between the start of a pass over a root's messages and any point of it. */
  ghost predicate Passing(start: State, root: string, requests: seq<Request>, p: Pairing) {
    Moved(start, p) && OwnersKept(start, p) && AllWell(start, root, requests, p)
  }

  /** A paired message: its request was free, reads the same text, and is threaded where the
      operator wrote. */
  ghost predicate PairedWell(start: State, root: string, requests: seq<Request>, p: Pairing, e: string) {
    && e in p.book.relayed && e in start.pending && BelongsTo(start, root, e)
    && p.book.relayed[e] in p.taken && p.book.relayed[e] !in Taken(start, root)
    && Shows(requests, p.book.relayed[e], start.pending[e])
    && Get(p.book.threads, p.book.relayed[e]) == OwnThread(start, e)
    && Owner(p.book, Relayed, e) == root
  }

  /** The queue holds a request with this id and this text. */
  ghost predicate Shows(requests: seq<Request>, id: string, body: string) {
    exists i | 0 <= i < |requests| :: requests[i].id == id && requests[i].body == body
  }

  /** A later pair takes another request, so it touches no earlier one. */
  lemma PairedWellStays(start: State, root: string, requests: seq<Request>, p: Pairing, eventID: string, id: string,
                        e: string)
    requires PairedWell(start, root, requests, p, e) && e != eventID && id !in p.taken
    ensures PairedWell(start, root, requests, OneMore(p, root, eventID, id), e)
  {
    OwnerAfterPair(p.book, root, eventID, id, e);
  }

  /** The pairing once one more message took a request. */
  function OneMore(p: Pairing, root: string, eventID: string, id: string): Pairing {
    Pairing(Paired(p.book, root, eventID, id), p.taken + {id}, p.paired + [eventID])
  }

  lemma MovedOneMore(start: State, p: Pairing, root: string, eventID: string, id: string)
    requires Moved(start, p) && eventID in p.book.pending
    ensures Moved(start, OneMore(p, root, eventID, id))
  {
    hide KeyIn, OwnThread;
    assert Those(p.paired + [eventID]) == Those(p.paired) + {eventID};
  }

  lemma OwnersKeptOneMore(start: State, p: Pairing, root: string, eventID: string, id: string)
    requires OwnersKept(start, p)
    ensures OwnersKept(start, OneMore(p, root, eventID, id))
  {
    var next := OneMore(p, root, eventID, id);
    forall e | e !in next.paired ensures Owner(next.book, Pending, e) == Owner(start, Pending, e) {
      OwnerAfterPair(p.book, root, eventID, id, e);
    }
  }

  lemma AllWellOneMore(start: State, root: string, requests: seq<Request>, p: Pairing, eventID: string, id: string)
    requires AllWell(start, root, requests, p)
    requires eventID in start.pending && BelongsTo(start, root, eventID) && id !in p.taken
    requires Shows(requests, id, start.pending[eventID]) && OwnThread(p.book, eventID) == OwnThread(start, eventID)
    ensures AllWell(start, root, requests, OneMore(p, root, eventID, id))
  {
    var next := OneMore(p, root, eventID, id);
    forall e | e in next.paired ensures PairedWell(start, root, requests, next, e) {
      if e == eventID {
        OwnerAfterPair(p.book, root, eventID, id, e);
      } else {
        PairedWellStays(start, root, requests, p, eventID, id, e);
      }
    }
  }

  lemma PairOnePasses(start: State, root: string, requests: seq<Request>, p: Pairing, eventID: string)
    requires Passing(start, root, requests, p) && eventID in p.book.pending
    ensures Passing(start, root, requests, PairOne(p, root, eventID, requests))
  {
    hide AllWell;
    var next := PairOne(p, root, eventID, requests);
    if next != p {
      TakeRequestIsFirst(requests, p.book.pending[eventID], p.taken);
      var id := TakeRequest(requests, p.book.pending[eventID], p.taken).value;
      assert eventID !in p.paired && BelongsTo(start, root, eventID);
      MovedOneMore(start, p, root, eventID, id);
      OwnersKeptOneMore(start, p, root, eventID, id);
      assert Shows(requests, id, start.pending[eventID]);
      AllWellOneMore(start, root, requests, p, eventID, id);
    }
  }

  lemma {:induction false} PairAllPasses(start: State, root: string, requests: seq<Request>, p: Pairing,
                                         events: seq<string>)
    requires Passing(start, root, requests, p)
    requires Distinct(events) && forall e | e in events :: e in p.book.pending
    ensures Passing(start, root, requests, PairAll(p, root, events, requests))
    decreases |events|
  {
    hide Passing;
    if events != [] {
      assert forall i | 0 < i < |events| :: events[i] == events[1..][i - 1];
      assert events[0] in events;
      PairOnePasses(start, root, requests, p, events[0]);
      PairAllPasses(start, root, requests, PairOne(p, root, events[0], requests), events[1..]);
    }
  }

  lemma StartPasses(book: State, root: string, requests: seq<Request>)
    ensures Passing(book, root, requests, Pairing(book, Taken(book, root), []))
  {
    hide Taken, PairedWell, Owner;
    assert book.pending - Those([]) == book.pending && book.pendingThreads - Those([]) == book.pendingThreads;
  }

  /** The pass keeps what it pairs: each paired message moves from pending to relayed with a
      request of its own text that nobody had, threaded where the operator wrote, and nothing
      else moves. */
  lemma PairingConserves(book: State, root: string, requests: seq<Request>)
    ensures var p := PairedUp(book, root, requests);
            Moved(book, p) && OwnersKept(book, p) && AllWell(book, root, requests, p)
  {
    hide Taken, Sorted, PairAll, Moved, OwnersKept, AllWell;
    var p0 := Pairing(book, Taken(book, root), []);
    StartPasses(book, root, requests);
    SortedIsAscending(book.pending.Keys);
    PairAllPasses(book, root, requests, p0, Sorted(book.pending.Keys));
  }

  // Maximal.

  /** Nothing this root may pair waits while the queue shows a free request with its text. */
  ghost predicate NothingLeft(p: Pairing, root: string, requests: seq<Request>, e: string) {
    e in p.book.pending && BelongsTo(p.book, root, e) ==>
      forall q | q in requests && q.body == p.book.pending[e] :: q.id in p.taken
  }

  lemma PairOneLeavesNothing(p: Pairing, root: string, eventID: string, requests: seq<Request>, e: string)
    requires eventID in p.book.pending
    requires e == eventID || NothingLeft(p, root, requests, e)
    ensures NothingLeft(PairOne(p, root, eventID, requests), root, requests, e)
  {
    TakeRequestIsFirst(requests, p.book.pending[eventID], p.taken);
    var r := TakeRequest(requests, p.book.pending[eventID], p.taken);
    if r.Some? {
      OwnerAfterPair(p.book, root, eventID, r.value, e);
    }
  }

  lemma {:induction false} PairAllLeavesNothing(p: Pairing, root: string, events: seq<string>, requests: seq<Request>,
                                                e: string)
    requires Distinct(events) && forall x | x in events :: x in p.book.pending
    requires e in events || NothingLeft(p, root, requests, e)
    ensures NothingLeft(PairAll(p, root, events, requests), root, requests, e)
    decreases |events|
  {
    hide NothingLeft;
    if events != [] {
      assert forall i | 0 < i < |events| :: events[i] == events[1..][i - 1];
      assert events[0] in events;
      if e == events[0] || NothingLeft(p, root, requests, e) {
        PairOneLeavesNothing(p, root, events[0], requests, e);
      }
      PairAllLeavesNothing(PairOne(p, root, events[0], requests), root, events[1..], requests, e);
    }
  }

  /** The pass is maximal. */
  lemma PairingIsMaximal(book: State, root: string, requests: seq<Request>, e: string)
    ensures NothingLeft(PairedUp(book, root, requests), root, requests, e)
  {
    SortedIsAscending(book.pending.Keys);
    var events := Sorted(book.pending.Keys);
    PairAllLeavesNothing(Pairing(book, Taken(book, root), []), root, events, requests, e);
  }

  // Injective.

  lemma PairOneStaysInjective(p: Pairing, root: string, eventID: string, requests: seq<Request>, any: string)
    requires root != "" && eventID in p.book.pending
    requires Injective(p.book, any) && Taken(p.book, root) <= p.taken
    ensures Injective(PairOne(p, root, eventID, requests).book, any)
    ensures Taken(PairOne(p, root, eventID, requests).book, root) <= PairOne(p, root, eventID, requests).taken
  {
    TakeRequestIsFirst(requests, p.book.pending[eventID], p.taken);
    var r := TakeRequest(requests, p.book.pending[eventID], p.taken);
    if BelongsTo(p.book, root, eventID) && r.Some? {
      var after := Paired(p.book, root, eventID, r.value);
      forall e ensures Counts(after, any, e) <==> if e == eventID then any == root else Counts(p.book, any, e)
               ensures Counts(after, root, e) <==> e == eventID || Counts(p.book, root, e)
      {
        CountsAfterPair(p.book, root, eventID, r.value, any, e);
        CountsAfterPair(p.book, root, eventID, r.value, root, e);
      }
      forall e | Counts(p.book, root, e) ensures p.book.relayed[e] in p.taken {
        assert p.book.relayed[e] in Taken(p.book, root);
      }
    }
  }

  lemma {:induction false} PairAllStaysInjective(p: Pairing, root: string, events: seq<string>, requests: seq<Request>,
                                                 any: string)
    requires root != "" && Distinct(events) && forall e | e in events :: e in p.book.pending
    requires Injective(p.book, any) && Taken(p.book, root) <= p.taken
    ensures Injective(PairAll(p, root, events, requests).book, any)
    decreases |events|
  {
    hide Injective;
    if events != [] {
      assert forall i | 0 < i < |events| :: events[i] == events[1..][i - 1];
      assert events[0] in events;
      PairOneStaysInjective(p, root, events[0], requests, any);
      PairAllStaysInjective(PairOne(p, root, events[0], requests), root, events[1..], requests, any);
    }
  }

  /** A pass over one root's messages keeps every root's relayed messages injective. */
  lemma PairingStaysInjective(book: State, root: string, requests: seq<Request>, any: string)
    requires root != "" && Injective(book, any)
    ensures Injective(PairedUp(book, root, requests).book, any)
  {
    SortedIsAscending(book.pending.Keys);
    PairAllStaysInjective(Pairing(book, Taken(book, root), []), root, Sorted(book.pending.Keys), requests, any);
  }

  lemma AppliedOwner(book: State, root: string, a: Action, eventID: string, e: string)
    ensures Applied(book, root, a, eventID).relayed == book.relayed
    ensures Owner(Applied(book, root, a, eventID), Relayed, e) == Owner(book, Relayed, e)
  {
    hide Owner, KeyIn, Applied;
    match a.kind
    case PostRequestMessage => AppliedPostOwner(book, root, a, eventID, e);
    case PostRequestReply => AppliedReplyOwner(book, root, a, eventID, e);
    case CreateForgeRequest => AppliedCreateOwner(book, root, a, eventID, e);
  }

  lemma AppliedPostOwner(book: State, root: string, a: Action, eventID: string, e: string)
    requires a.kind == PostRequestMessage
    ensures Applied(book, root, a, eventID).relayed == book.relayed
    ensures Owner(Applied(book, root, a, eventID), Relayed, e) == Owner(book, Relayed, e)
  {
    hide Owner, Scoped;
    var posted := book.(threads := book.threads[a.requestID := eventID]);
    ScopedOwner(posted, Threads, a.requestID, root, Relayed, e);
    OwnerReadsScopes(posted, book, e);
  }

  lemma AppliedReplyOwner(book: State, root: string, a: Action, eventID: string, e: string)
    requires a.kind == PostRequestReply
    ensures Applied(book, root, a, eventID).relayed == book.relayed
    ensures Owner(Applied(book, root, a, eventID), Relayed, e) == Owner(book, Relayed, e)
  {
    hide Owner, Scoped;
    var replied := book.(replied := book.replied[a.requestID := eventID]);
    ScopedOwner(replied, Replied, a.requestID, root, Relayed, e);
    OwnerReadsScopes(replied, book, e);
  }

  lemma AppliedCreateOwner(book: State, root: string, a: Action, eventID: string, e: string)
    requires a.kind == CreateForgeRequest
    ensures Applied(book, root, a, eventID).relayed == book.relayed
    ensures Owner(Applied(book, root, a, eventID), Relayed, e) == Owner(book, Relayed, e)
  {
    hide Owner, Scoped;
    var asked := book.(pending := book.pending[a.source := a.body]);
    var taken := Scoped(asked, Pending, a.source, root);
    ScopedOwner(asked, Pending, a.source, root, Relayed, e);
    OwnerReadsScopes(asked, book, e);
    if a.thread != "" {
      var threaded := taken.(pendingThreads := taken.pendingThreads[a.source := a.thread]);
      ScopedOwner(threaded, PendingThreads, a.source, root, Relayed, e);
      OwnerReadsScopes(threaded, taken, e);
    }
  }

  lemma OwnerReadsScopes(a: State, b: State, e: string)
    requires a.scopes == b.scopes
    ensures Owner(a, Relayed, e) == Owner(b, Relayed, e)
  {
  }

  /** Carrying an action out relays no message and changes no relayed message's owner. */
  lemma ApplyingStaysInjective(book: State, root: string, a: Action, eventID: string, any: string)
    requires Injective(book, any)
    ensures Injective(Applied(book, root, a, eventID), any)
  {
    var after := Applied(book, root, a, eventID);
    hide Applied;
    forall e ensures after.relayed == book.relayed && (Counts(after, any, e) <==> Counts(book, any, e)) {
      AppliedOwner(book, root, a, eventID, e);
    }
  }

  // What the pass counts as taken is what the bookkeeping then says.

  lemma PairOneCounts(p: Pairing, root: string, eventID: string, requests: seq<Request>)
    requires root != "" && eventID in p.book.pending && p.book.pending.Keys !! p.book.relayed.Keys
    requires Taken(p.book, root) == p.taken
    ensures var next := PairOne(p, root, eventID, requests);
            next.book.pending.Keys !! next.book.relayed.Keys && Taken(next.book, root) == next.taken
  {
    var r := TakeRequest(requests, p.book.pending[eventID], p.taken);
    if BelongsTo(p.book, root, eventID) && r.Some? {
      var after := Paired(p.book, root, eventID, r.value);
      forall e ensures Counts(after, root, e) <==> e == eventID || Counts(p.book, root, e) {
        CountsAfterPair(p.book, root, eventID, r.value, root, e);
      }
      forall id | id in p.taken ensures id in Taken(after, root) {
        var e :| e in p.book.relayed && Counts(p.book, root, e) && p.book.relayed[e] == id;
        assert e != eventID;
        assert Counts(after, root, e) && after.relayed[e] == id;
      }
      assert Counts(after, root, eventID);
    }
  }

  lemma {:induction false} PairAllCounts(p: Pairing, root: string, events: seq<string>, requests: seq<Request>)
    requires root != "" && Distinct(events) && forall e | e in events :: e in p.book.pending
    requires p.book.pending.Keys !! p.book.relayed.Keys && Taken(p.book, root) == p.taken
    ensures var end := PairAll(p, root, events, requests);
            end.book.pending.Keys !! end.book.relayed.Keys && Taken(end.book, root) == end.taken
    decreases |events|
  {
    hide Taken;
    if events != [] {
      assert forall i | 0 < i < |events| :: events[i] == events[1..][i - 1];
      assert events[0] in events;
      PairOneCounts(p, root, events[0], requests);
      PairAllCounts(PairOne(p, root, events[0], requests), root, events[1..], requests);
    }
  }

  /** While no message is both pending and relayed: after the pass none is, and no pending
      message of the root has a request of its text left that the root's messages did not take. */
  lemma NoFreeRequestIsLeft(book: State, root: string, requests: seq<Request>, e: string, q: Request)
    requires root != "" && book.pending.Keys !! book.relayed.Keys
    ensures var after := PairedUp(book, root, requests).book;
            && after.pending.Keys !! after.relayed.Keys
            && (e in after.pending && BelongsTo(after, root, e) && q in requests && q.body == after.pending[e]
                ==> exists m :: Counts(after, root, m) && after.relayed[m] == q.id)
  {
    PairingIsMaximal(book, root, requests, e);
    SortedIsAscending(book.pending.Keys);
    PairAllCounts(Pairing(book, Taken(book, root), []), root, Sorted(book.pending.Keys), requests);
    var p := PairedUp(book, root, requests);
    assert q.id in p.taken ==> q.id in Taken(p.book, root);
  }

  /** What a pass makes of one waiting message, said of the bookkeeping before and after: it waits on,
      and if it is the root's or nobody's then every request of its text is some such message's; or it
      becomes a request of the queue with its very text that no such message had, is the root's from
      then on, and leaves for that request the thread it was asked in, or itself. */
  lemma PassMeans(book: State, root: string, requests: seq<Request>, e: string)
    requires root != "" && book.pending.Keys !! book.relayed.Keys && e in book.pending
    ensures var after := PairedUp(book, root, requests).book;
            if e in after.pending
            then && after.pending[e] == book.pending[e]
                 && (Owner(book, Pending, e) in {"", root} ==>
                       forall q | q in requests && q.body == book.pending[e] ::
                         exists m :: m in after.relayed && after.relayed[m] == q.id
                                     && Owner(after, Relayed, m) in {"", root})
            else && Owner(book, Pending, e) in {"", root} && e !in after.pendingThreads
                 && e in after.relayed && Owner(after, Relayed, e) == root
                 && Shows(requests, after.relayed[e], book.pending[e])
                 && (forall m | m in book.relayed && Owner(book, Relayed, m) in {"", root} ::
                       book.relayed[m] != after.relayed[e])
                 && Get(after.threads, after.relayed[e])
                    == if Get(book.pendingThreads, e) != "" then Get(book.pendingThreads, e) else e
  {
    hide PairedUp, Owner;
    var p := PairedUp(book, root, requests);
    PairingConserves(book, root, requests);
    if e in p.book.pending {
      assert e !in p.paired && BelongsTo(p.book, root, e) == BelongsTo(book, root, e);
      forall q | q in requests && q.body == book.pending[e] && BelongsTo(book, root, e)
        ensures exists m :: Counts(p.book, root, m) && p.book.relayed[m] == q.id
      {
        NoFreeRequestIsLeft(book, root, requests, e, q);
      }
    } else {
      assert PairedWell(book, root, requests, p, e);
      forall m | m in book.relayed && Owner(book, Relayed, m) in {"", root}
        ensures book.relayed[m] in Taken(book, root)
      {
        assert Counts(book, root, m);
      }
    }
  }

  lemma {:induction false} ThoseAreAsMany(events: seq<string>)
    requires Distinct(events)
    ensures |Those(events)| == |events|
  {
    if events != [] {
      var rest, last := events[..|events| - 1], events[|events| - 1];
      assert events == rest + [last];
      ThoseAreAsMany(rest);
      assert Those(events) == Those(rest) + {last};
    }
  }

  /** The number a pass reports is how many messages wait no more; and it is reported as gone through
      exactly when nothing waited, or the queue was read back and the save, if one was called for, went
      through. */
  lemma PassReports(v: Serving, root: string, readBack: Option<seq<Request>>, saves: bool)
    ensures var after := PairPass(v, root, readBack, saves);
            PairsMade(v, root, readBack) == |v.book.pending| - |after.book.pending|
    ensures var after := PairPass(v, root, readBack, saves);
            PairsFine(v, root, readBack, saves)
            <==> v.book.pending == map[] || (readBack.Some? && (after.book.pending == v.book.pending || saves))
  {
    hide PairedUp, OwnersKept, AllWell;
    if v.book.pending != map[] && readBack.Some? {
      var p := PairedUp(v.book, root, readBack.value);
      PairingConserves(v.book, root, readBack.value);
      PairedWaited(v.book, root, readBack.value);
      ThoseAreAsMany(p.paired);
      assert p.book.pending.Keys == v.book.pending.Keys - Those(p.paired);
      assert |v.book.pending.Keys - Those(p.paired)| == |v.book.pending.Keys| - |Those(p.paired)|;
      assert p.paired != [] ==> p.paired[0] in Those(p.paired);
    }
  }

  lemma PairedWaited(book: State, root: string, requests: seq<Request>)
    ensures Those(PairedUp(book, root, requests).paired) <= book.pending.Keys
  {
    hide PairedUp, OwnersKept, Moved;
    PairingConserves(book, root, requests);
    forall e | e in PairedUp(book, root, requests).paired ensures e in book.pending {
      assert PairedWell(book, root, requests, PairedUp(book, root, requests), e);
    }
  }
}
