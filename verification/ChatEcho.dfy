/** The operator's own message never comes back into the room as the bridge's post
    (internal/relay/relay.go, internal/bridge/apply.go). */
module ChatEcho {
  import opened Options
  import opened Text
  import opened Quote
  import opened Relay
  import opened ChatPlan
  import opened PendingWork
  import opened Chat
  import opened ChatRuns
  import opened ChatPairing
  import opened ChatInvariants
  import opened ChatReplies

  // The request a message became is the one paired with it.

  /** A request is taken only by a message the root counted before or by one just paired. */
  ghost predicate TakenByPairs(start: State, root: string, p: Pairing) {
    forall id | id in p.taken ::
      id in Taken(start, root) || exists x | x in p.paired :: x in p.book.relayed && p.book.relayed[x] == id
  }

  lemma PairOneTakes(start: State, root: string, requests: seq<Request>, p: Pairing, e: string)
    requires Passing(start, root, requests, p) && TakenByPairs(start, root, p) && e in p.book.pending
    ensures TakenByPairs(start, root, PairOne(p, root, e, requests))
  {
    hide Owner, KeyIn, OwnersKept, AllWell, Taken;
    var next := PairOne(p, root, e, requests);
    if next != p {
      assert e !in p.paired && e in next.paired && next.book.relayed == p.book.relayed[e := next.book.relayed[e]];
      forall id | id in next.taken && id !in Taken(start, root)
        ensures exists x | x in next.paired :: x in next.book.relayed && next.book.relayed[x] == id
      {
        if id in p.taken {
          var x :| x in p.paired && x in p.book.relayed && p.book.relayed[x] == id;
          assert x in next.paired && x != e;
        } else {
          assert next.book.relayed[e] == id;
        }
      }
    }
  }

  lemma {:induction false} PairAllTakes(start: State, root: string, requests: seq<Request>, p: Pairing,
                                        events: seq<string>)
    requires Passing(start, root, requests, p) && TakenByPairs(start, root, p)
    requires Distinct(events) && forall e | e in events :: e in p.book.pending
    ensures TakenByPairs(start, root, PairAll(p, root, events, requests))
    decreases |events|
  {
    hide Passing, TakenByPairs;
    if events != [] {
      assert forall i | 0 < i < |events| :: events[i] == events[1..][i - 1];
      assert events[0] in events;
      PairOnePasses(start, root, requests, p, events[0]);
      PairOneTakes(start, root, requests, p, events[0]);
      PairAllTakes(start, root, requests, PairOne(p, root, events[0], requests), events[1..]);
    }
  }

  lemma PairedUpTakes(book: State, root: string, requests: seq<Request>)
    ensures TakenByPairs(book, root, PairedUp(book, root, requests))
  {
    hide Taken, Sorted, PairAll, Passing;
    StartPasses(book, root, requests);
    SortedIsAscending(book.pending.Keys);
    PairAllTakes(book, root, requests, Pairing(book, Taken(book, root), []), Sorted(book.pending.Keys));
  }

  /** No two messages are paired with one request. */
  ghost predicate PairsApart(p: Pairing) {
    && (forall x | x in p.paired :: x in p.book.relayed && p.book.relayed[x] in p.taken)
    && forall x, y | x in p.paired && y in p.paired && x != y :: p.book.relayed[x] != p.book.relayed[y]
  }

  lemma {:induction false} PairAllApart(p: Pairing, root: string, events: seq<string>, requests: seq<Request>)
    requires PairsApart(p)
    requires Distinct(events) && forall e | e in events :: e in p.book.pending && e !in p.paired
    ensures PairsApart(PairAll(p, root, events, requests))
    decreases |events|
  {
    hide KeyIn, BelongsTo, OwnThread;
    if events != [] {
      assert forall i | 0 < i < |events| :: events[i] == events[1..][i - 1];
      assert events[0] in events;
      TakeRequestIsFirst(requests, p.book.pending[events[0]], p.taken);
      PairAllApart(PairOne(p, root, events[0], requests), root, events[1..], requests);
    }
  }

  /** The root's messages of a text that wait for their request. */
  function WaitingOf(book: State, root: string, text: string): set<string> {
    set e | e in book.pending && BelongsTo(book, root, e) && book.pending[e] == text
  }

  /** The requests of a text that none of the root's messages has taken. */
  function FreeOf(book: State, root: string, requests: seq<Request>, text: string): set<string> {
    set r | r in requests && r.body == text && r.id !in Taken(book, root) :: r.id
  }

  /** There are as many messages of a text waiting as the queue has free requests of it, each with
      an id of its own. */
  ghost predicate EnoughWaiting(book: State, root: string, requests: seq<Request>, text: string) {
    && |FreeOf(book, root, requests, text)| <= |WaitingOf(book, root, text)|
    && forall q, r | q in requests && r in requests && q.id == r.id && q.body == text :: r.body == text
  }

  function Image(m: map<string, string>, keys: set<string>): set<string>
    requires keys <= m.Keys
  {
    set k | k in keys :: m[k]
  }

  lemma {:induction false} ImageIsAsLarge(m: map<string, string>, keys: set<string>)
    requires keys <= m.Keys && forall x, y | x in keys && y in keys && x != y :: m[x] != m[y]
    ensures |Image(m, keys)| == |keys|
    decreases |keys|
  {
    if keys != {} {
      var k :| k in keys;
      ImageIsAsLarge(m, keys - {k});
      assert Image(m, keys) == Image(m, keys - {k}) + {m[k]};
    }
  }

  lemma NothingOutside(part: set<string>, whole: set<string>)
    requires part <= whole && |whole| <= |part|
    ensures part == whole
  {
    assert |whole - part| == |whole| - |part|;
  }

  /** Where a paired message's request comes from. */
  lemma PairedAmong(book: State, root: string, requests: seq<Request>, text: string, p: Pairing, e: string)
    requires PairedWell(book, root, requests, p, e) && EnoughWaiting(book, root, requests, text)
    ensures e in WaitingOf(book, root, text) <==> p.book.relayed[e] in FreeOf(book, root, requests, text)
  {
    hide Owner, Taken;
  }

  lemma AllPairedTakesAll(book: State, root: string, requests: seq<Request>, text: string, p: Pairing, id: string)
    requires EnoughWaiting(book, root, requests, text) && id in FreeOf(book, root, requests, text)
    requires PairsApart(p) && forall e | e in p.paired :: PairedWell(book, root, requests, p, e)
    requires forall e | e in WaitingOf(book, root, text) :: e in p.paired
    ensures exists e | e in WaitingOf(book, root, text) :: e in p.paired && p.book.relayed[e] == id
  {
    hide PairedWell, WaitingOf, FreeOf;
    var waiting, free := WaitingOf(book, root, text), FreeOf(book, root, requests, text);
    ImageIsAsLarge(p.book.relayed, waiting);
    forall e | e in waiting ensures p.book.relayed[e] in free {
      PairedAmong(book, root, requests, text, p, e);
    }
    NothingOutside(Image(p.book.relayed, waiting), free);
    assert id in Image(p.book.relayed, waiting);
  }

  lemma LeftOverTakesAll(book: State, root: string, requests: seq<Request>, text: string, p: Pairing, id: string,
                         left: string)
    requires EnoughWaiting(book, root, requests, text) && id in FreeOf(book, root, requests, text)
    requires OwnersKept(book, p) && Moved(book, p) && TakenByPairs(book, root, p)
    requires forall e | e in p.paired :: PairedWell(book, root, requests, p, e)
    requires left in WaitingOf(book, root, text) && left !in p.paired && NothingLeft(p, root, requests, left)
    ensures exists e | e in WaitingOf(book, root, text) :: e in p.paired && p.book.relayed[e] == id
  {
    hide Owner, Taken, PairedWell, KeyIn;
    assert left in p.book.pending && BelongsTo(p.book, root, left);
    assert id in p.taken && id !in Taken(book, root);
    var e :| e in p.paired && e in p.book.relayed && p.book.relayed[e] == id;
    PairedAmong(book, root, requests, text, p, e);
  }

  /** Then the pass pairs each of those requests with one of those messages: the one it became. */
  lemma FreeRequestsArePaired(book: State, root: string, requests: seq<Request>, text: string, id: string)
    returns (e: string)
    requires EnoughWaiting(book, root, requests, text) && id in FreeOf(book, root, requests, text)
    ensures var after := PairedUp(book, root, requests).book;
            && e in WaitingOf(book, root, text) && e !in after.pending && Became(after, e, id)
    ensures PairedUp(book, root, requests).paired != []
  {
    hide Taken, PairedUp, EnoughWaiting, WaitingOf, FreeOf, PairedWell, TakenByPairs, OwnersKept, PairsApart,
         NothingLeft;
    var p := PairedUp(book, root, requests);
    PairingConserves(book, root, requests);
    if left :| left in WaitingOf(book, root, text) && left !in p.paired {
      PairingIsMaximal(book, root, requests, left);
      PairedUpTakes(book, root, requests);
      LeftOverTakesAll(book, root, requests, text, p, id, left);
    } else {
      PairedUpApart(book, root, requests);
      AllPairedTakesAll(book, root, requests, text, p, id);
    }
    e :| e in WaitingOf(book, root, text) && e in p.paired && p.book.relayed[e] == id;
    assert e in Those(p.paired);
  }

  lemma PairedUpApart(book: State, root: string, requests: seq<Request>)
    ensures PairsApart(PairedUp(book, root, requests))
  {
    hide Taken, Sorted, PairAll;
    SortedIsAscending(book.pending.Keys);
    PairAllApart(Pairing(book, Taken(book, root), []), root, Sorted(book.pending.Keys), requests);
  }

  // A request a message became is not posted.

  lemma RelayedIsNotPosted(st: State, operator: string, origins: map<string, string>, requests: seq<Request>,
                           events: seq<RoomEvent>, e: string, id: string, a: Action)
    requires InvertsRelayed(st, origins) && e in st.relayed && st.relayed[e] == id
    requires a in Plan(st, operator, origins, requests, events)
    ensures !IsPost(a, id)
  {
    hide Plan, OwnWords, Trim;
    PlanMembers(st, operator, origins, requests, events, a);
    assert id in st.relayed.Values;
  }

  /** No post of the request is waiting. */
  predicate NoPost(kept: map<string, Action>, id: string) {
    forall k | k in kept :: !IsPost(kept[k], id)
  }

  /** No post of the request was tried from some point on. */
  predicate NotPostedFrom(log: seq<Entry>, from: nat, id: string) {
    forall i | from <= i < |log| :: !IsPost(log[i].action, id)
  }

  lemma {:induction false} TryAllPostsNone(v: Serving, root: string, actions: seq<Action>,
                                           answers: map<string, Outcome>,
                                           from: nat, id: string)
    requires from <= |v.log| && NotPostedFrom(v.log, from, id) && forall a | a in actions :: !IsPost(a, id)
    ensures from <= |TryAll(v, root, actions, answers).log|
            && NotPostedFrom(TryAll(v, root, actions, answers).log, from, id)
    decreases |actions|
  {
    hide ActionKey, Applied, ReplyAnchor;
    if actions != [] {
      TryAllPostsNone(Try(v, root, actions[0], AnswerTo(answers, ActionKey(actions[0]))), root, actions[1..], answers,
                      from, id);
    }
  }

  lemma TickKeepsNoPost(s: Sys, step: Step, e: string, id: string)
    requires step.Tick? && Possible(s, step) && Good(ServingOf(s, step.root)) && NoPost(KeptFor(s, step.root), id)
    requires e in s.book.relayed && s.book.relayed[e] == id
    ensures NoPost(TickKept(s, step), id)
  {
    hide GoodAction, Plan, Kept, ActionKey, Settled;
    var v, kept := ServingOf(s, step.root), TickKept(s, step);
    forall k | k in kept ensures !IsPost(kept[k], id) {
      var _ := KeptPlan(v, step.operator, step.origins, step.requests, step.events, k);
      if kept[k] in Plan(v.book, step.operator, step.origins, step.requests, step.events) {
        RelayedIsNotPosted(s.book, step.operator, step.origins, step.requests, step.events, e, id, kept[k]);
      }
    }
  }

  /** A tick tries no post of the request, and leaves none waiting. */
  lemma TickPostsNone(s: Sys, step: Step, e: string, id: string, from: nat)
    requires step.Tick? && Possible(s, step) && Good(ServingOf(s, step.root)) && NoPost(KeptFor(s, step.root), id)
    requires e in s.book.relayed && s.book.relayed[e] == id && from <= |s.log| && NotPostedFrom(s.log, from, id)
    ensures NoPost(TickServing(s, step).kept, id)
    ensures from <= |TickServing(s, step).log| && NotPostedFrom(TickServing(s, step).log, from, id)
  {
    hide Good, GoodAction, ActionKey, TryAll, PairedUp, Plan, Kept, Listed, Possible, NotPostedFrom;
    var v := ServingOf(s, step.root).(kept := TickKept(s, step));
    TickKeepsNoPost(s, step, e, id);
    TickIsGood(s, step);
    forall a | a in Listed(v.kept) ensures !IsPost(a, id) {
      assert v.kept[ActionKey(a)] == a;
    }
    TryAllPostsNone(v, step.root, Listed(v.kept), step.answers, from, id);
    TryAllKeepsLess(v, step.root, Listed(v.kept), step.answers);
  }

  // What was relayed stays relayed, in the state file too.

  predicate Became(book: State, e: string, id: string) {
    e in book.relayed && book.relayed[e] == id
  }

  lemma {:induction false} TryAllFilesRelayed(v: Serving, root: string, actions: seq<Action>,
                                              answers: map<string, Outcome>,
                                              e: string, id: string)
    requires Became(v.book, e, id) && Became(v.file, e, id)
    ensures Became(TryAll(v, root, actions, answers).file, e, id)
    decreases |actions|
  {
    hide ActionKey, Applied;
    if actions != [] {
      var answer := AnswerTo(answers, ActionKey(actions[0]));
      if answer.Landed? {
        AppliedOwner(v.book, root, actions[0], answer.eventID, "");
      }
      TryAllFilesRelayed(Try(v, root, actions[0], answer), root, actions[1..], answers, e, id);
    }
  }

  lemma TickFilesRelayed(s: Sys, step: Step, e: string, id: string)
    requires step.Tick? && Possible(s, step) && Good(ServingOf(s, step.root))
    requires Disjoint(s.book) && Unsent(s.book, KeptFor(s, step.root)) && Became(s.book, e, id) && Became(s.file, e, id)
    ensures Became(TickServing(s, step).book, e, id) && Became(TickServing(s, step).file, e, id)
  {
    hide Good, ActionKey, TryAll, PairedUp, Plan, Kept, Listed, Possible, Disjoint, Unsent;
    TickKeepsRelayed(s, step);
    TryAllFilesRelayed(ServingOf(s, step.root).(kept := TickKept(s, step)), step.root, Listed(TickKept(s, step)),
                       step.answers, e, id);
  }

  /** A message that became a request, and no post of that request waiting anywhere. */
  predicate Quiet(s: Sys, e: string, id: string) {
    Became(s.book, e, id) && Became(s.file, e, id) && forall root | root in s.kept :: NoPost(s.kept[root], id)
  }

  lemma StepStaysQuiet(s: Sys, step: Step, home: string -> string, e: string, id: string, from: nat)
    requires CleanSys(s, home) && IsCleanRun(s, [step], home) && Quiet(s, e, id)
    requires from <= |s.log| && NotPostedFrom(s.log, from, id)
    ensures Quiet(Do(s, step), e, id) && from <= |Do(s, step).log| && NotPostedFrom(Do(s, step).log, from, id)
  {
    hide Good, GoodKept, ActionKey, TickServing, Possible, NotPostedFrom, Became;
    if step.Tick? {
      CleanServing(s, step.root, home);
      BecameIs(s, e, id);
      TickPostsNone(s, step, e, id, from);
      TickFilesRelayed(s, step, e, id);
    }
  }

  lemma BecameIs(s: Sys, e: string, id: string)
    requires Became(s.book, e, id)
    ensures e in s.book.relayed && s.book.relayed[e] == id
  {
  }

  /** While the saves after hand-overs go through, once a message became a request the bridge never
      again tries to post that request, whatever is refused and however often it restarts. */
  lemma {:induction false} NeverEchoed(s: Sys, steps: seq<Step>, home: string -> string, e: string, id: string,
                                       from: nat)
    requires CleanSys(s, home) && IsCleanRun(s, steps, home) && Quiet(s, e, id)
    requires from <= |s.log| && NotPostedFrom(s.log, from, id)
    ensures Quiet(Run(s, steps), e, id)
    ensures from <= |Run(s, steps).log| && NotPostedFrom(Run(s, steps).log, from, id)
    decreases |steps|
  {
    hide CleanSys, Possible, Do, Quiet, NotPostedFrom;
    if steps != [] {
      assert IsCleanRun(s, [steps[0]], home) by {
        assert [steps[0]][1..] == [];
      }
      StepStaysClean(s, steps[0], home);
      StepStaysQuiet(s, steps[0], home, e, id, from);
      NeverEchoed(Do(s, steps[0]), steps[1..], home, e, id, from);
    }
  }

  lemma TickPairsTheRequest(s: Sys, step: Step, text: string, id: string) returns (e: string)
    requires step.Tick? && step.readBack.Some? && step.saves
    requires EnoughWaiting(TickTried(s, step).book, step.root, step.readBack.value, text)
    requires id in FreeOf(TickTried(s, step).book, step.root, step.readBack.value, text)
    ensures e in WaitingOf(TickTried(s, step).book, step.root, text)
    ensures Became(TickServing(s, step).book, e, id) && Became(TickServing(s, step).file, e, id)
  {
    hide TickTried, PairedUp, EnoughWaiting, WaitingOf, FreeOf, Became;
    var v := TickTried(s, step);
    e := FreeRequestsArePaired(v.book, step.root, step.readBack.value, text, id);
    WaitsAtAll(v.book, step.root, text, e);
    TickPairs(s, step);
  }

  lemma WaitsAtAll(book: State, root: string, text: string, e: string)
    requires e in WaitingOf(book, root, text)
    ensures book.pending != map[]
  {
    hide BelongsTo;
  }

  lemma TickPairs(s: Sys, step: Step)
    requires step.Tick?
    ensures TickServing(s, step) == PairPass(TickTried(s, step), step.root, step.readBack, step.saves)
  {
    hide PairPass, TryAll, Kept, Listed, Plan, ActionKey;
  }

  // Before the queue lists a request no post of it waits.

  predicate NoPosts(s: Sys, id: string) {
    forall root | root in s.kept :: NoPost(s.kept[root], id)
  }

  /** No tick reads a request of this id off the queue it plans from. */
  predicate Unlisted(steps: seq<Step>, id: string) {
    forall step | step in steps && step.Tick? :: forall r | r in step.requests :: r.id != id
  }

  lemma TickKeepsNoPosts(s: Sys, step: Step, id: string)
    requires step.Tick? && Possible(s, step) && Good(ServingOf(s, step.root)) && NoPosts(s, id) && Unlisted([step], id)
    ensures NoPosts(Do(s, step), id)
  {
    hide GoodAction, Plan, Kept, ActionKey, Settled, TryAll, PairPass, Listed;
    var v, kept := ServingOf(s, step.root), TickKept(s, step);
    forall k | k in kept ensures !IsPost(kept[k], id) {
      var _ := KeptPlan(v, step.operator, step.origins, step.requests, step.events, k);
      if kept[k] in Plan(v.book, step.operator, step.origins, step.requests, step.events) {
        UnlistedIsNotPlanned(s.book, step.operator, step.origins, step.requests, step.events, id, kept[k]);
      }
    }
    TryAllKeepsLess(v.(kept := kept), step.root, Listed(kept), step.answers);
    PairPassKeepsWork(TickTried(s, step), step.root, step.readBack, step.saves);
  }

  lemma UnlistedIsNotPlanned(st: State, operator: string, origins: map<string, string>, requests: seq<Request>,
                             events: seq<RoomEvent>, id: string, a: Action)
    requires a in Plan(st, operator, origins, requests, events) && forall r | r in requests :: r.id != id
    ensures !IsPost(a, id)
  {
    hide Plan, OwnWords, Trim;
    PlanMembers(st, operator, origins, requests, events, a);
  }

  lemma {:induction false} RunKeepsNoPosts(s: Sys, steps: seq<Step>, home: string -> string, id: string)
    requires CleanSys(s, home) && IsCleanRun(s, steps, home) && NoPosts(s, id) && Unlisted(steps, id)
    ensures NoPosts(Run(s, steps), id)
    decreases |steps|
  {
    hide CleanSys, Possible, Do, NoPost;
    if steps != [] {
      assert steps[0] in steps && forall step | step in steps[1..] :: step in steps;
      assert IsCleanRun(s, [steps[0]], home) by {
        assert [steps[0]][1..] == [];
      }
      StepStaysClean(s, steps[0], home);
      StepKeepsNoPosts(s, steps[0], home, id);
      RunKeepsNoPosts(Do(s, steps[0]), steps[1..], home, id);
    }
  }

  lemma StepKeepsNoPosts(s: Sys, step: Step, home: string -> string, id: string)
    requires CleanSys(s, home) && Possible(s, step) && NoPosts(s, id) && Unlisted([step], id)
    ensures NoPosts(Do(s, step), id)
  {
    if step.Tick? {
      hide Possible, Do, NoPosts, Unlisted;
      CleanServing(s, step.root, home);
      TickKeepsNoPosts(s, step, id);
    }
  }

  /** The operator's messages are never echoed. From any start, when requests of a text are first
      shown as a tick reads the queue back, no more of them free than messages of that text wait
      there, each is one of those messages from then on, and no post of it is tried in any later
      tick. */
  lemma HandedOverIsNeverEchoed(s: Sys, before: seq<Step>, step: Step, steps: seq<Step>, home: string -> string,
                                text: string, id: string)
    returns (e: string)
    requires CleanSys(s, home) && s.kept == map[] && IsCleanRun(s, before, home) && Unlisted(before + [step], id)
    requires var now := Run(s, before); IsCleanRun(now, [step], home) && IsCleanRun(Do(now, step), steps, home)
    requires step.Tick? && step.readBack.Some? && step.saves
    requires EnoughWaiting(TickTried(Run(s, before), step).book, step.root, step.readBack.value, text)
    requires id in FreeOf(TickTried(Run(s, before), step).book, step.root, step.readBack.value, text)
    ensures e in WaitingOf(TickTried(Run(s, before), step).book, step.root, text)
    ensures var after := Do(Run(s, before), step);
            && |after.log| <= |Run(after, steps).log|
            && NotPostedFrom(Run(after, steps).log, |after.log|, id)
            && Became(Run(after, steps).book, e, id)
  {
    var now := Run(s, before);
    assert NoPosts(s, id);
    assert forall x | x in before :: x in before + [step];
    assert step in before + [step] && Unlisted(before, id) && Unlisted([step], id);
    hide CleanSys, EnoughWaiting, WaitingOf, FreeOf, TickServing, NoPosts, Became, Unlisted;
    RunKeepsNoPosts(s, before, home, id);
    RunStaysClean(s, before, home);
    StepKeepsNoPosts(now, step, home, id);
    StepStaysClean(now, step, home);
    e := TickPairsTheRequest(now, step, text, id);
    HandedOverIsQuiet(now, step, e, id);
    NeverEchoed(Do(now, step), steps, home, e, id, |Do(now, step).log|);
  }

  lemma HandedOverIsQuiet(s: Sys, step: Step, e: string, id: string)
    requires step.Tick? && NoPosts(Do(s, step), id)
    requires Became(TickServing(s, step).book, e, id) && Became(TickServing(s, step).file, e, id)
    ensures Quiet(Do(s, step), e, id)
  {
    hide TickServing, Became, NoPost;
  }
}
