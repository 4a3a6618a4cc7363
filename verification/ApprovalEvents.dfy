/** The state events approvals are carried as: each remembered one carried its own approval, also
    where two projects' approvals share an id (internal/bridge/approvals.go, facts.go). */
module ApprovalEvents {
  import opened Options
  import opened Text
  import opened Relay
  import opened PendingWork
  import opened ApprovalPlan
  import opened Approvals
  import opened ApprovalTries
  import opened ApprovalIsolation
  import opened ApprovalRuns
  import Facts

  /** The approvals a forge holds, each as the state its room carries. */
  function ApprovalFacts(pending: seq<Approval>, content: Approval -> string): seq<Facts.Fact> {
    if pending == [] then []
    else
      var last := pending[|pending| - 1];
      ApprovalFacts(pending[..|pending| - 1], content) + [Facts.Fact(last.id, content(last))]
  }

  function Contents(pending: seq<Approval>, content: Approval -> string): map<string, string> {
    Facts.ByKey(ApprovalFacts(pending, content))
  }

  /** The index the facts are written by and the one their events are remembered by name the same
      approval: both keep the last one of an id. */
  lemma {:induction false} IndexesAgree(pending: seq<Approval>, content: Approval -> string, stateKey: string)
    ensures stateKey in KeysByFact(pending) <==> stateKey in Contents(pending, content)
    ensures stateKey in KeysByFact(pending) ==>
              exists a | a in pending :: a.id == stateKey && a.key == KeysByFact(pending)[stateKey]
                                         && content(a) == Contents(pending, content)[stateKey]
  {
    if pending != [] {
      var last, rest := pending[|pending| - 1], pending[..|pending| - 1];
      assert pending == rest + [last] && last in pending;
      var facts := ApprovalFacts(rest, content);
      assert (facts + [Facts.Fact(last.id, content(last))])[..|facts|] == facts;
      IndexesAgree(rest, content, stateKey);
      if stateKey in KeysByFact(rest) && stateKey != last.id {
        var a :| a in rest && a.id == stateKey && a.key == KeysByFact(rest)[stateKey]
                 && content(a) == Contents(rest, content)[stateKey];
        assert a in pending;
      }
    }
  }

  /** One event a room was sent: its id, the state key it was written under, what it carried, and
      what the forge held then. */
  datatype Sent = Sent(eventID: string, stateKey: string, content: string, pending: seq<Approval>)

  function Sending(sent: set<Sent>, pending: seq<Approval>, content: Approval -> string, events: seq<(string, string)>)
    : set<Sent>
    decreases |events|
  {
    if events == [] then sent
    else Sending(WithSent(sent, pending, content, events[0].0, events[0].1), pending, content, events[1..])
  }

  function WithSent(sent: set<Sent>, pending: seq<Approval>, content: Approval -> string, stateKey: string,
                    eventID: string)
    : set<Sent>
  {
    if stateKey !in Contents(pending, content) then sent
    else sent + {Sent(eventID, stateKey, Contents(pending, content)[stateKey], pending)}
  }

  /** What was sent is what the approval of this key, held then, is carried as. */
  ghost predicate CarriesOwn(e: Sent, content: Approval -> string, key: string) {
    exists a | a in e.pending :: a.key == key && a.id == e.stateKey && e.content == content(a)
  }

  ghost predicate CarriedOne(sent: set<Sent>, content: Approval -> string, key: string, eventID: string) {
    exists e | e in sent :: e.eventID == eventID && CarriesOwn(e, content, key)
  }

  /** Each remembered state event carried the approval it is remembered under. */
  ghost predicate Truthful(approvals: map<string, ApprovalState>, sent: set<Sent>, content: Approval -> string) {
    forall k | k in approvals && approvals[k].stateEventID != "" ::
      CarriedOne(sent, content, k, approvals[k].stateEventID)
  }

  lemma TruthfulLonger(approvals: map<string, ApprovalState>, sent: set<Sent>, more: set<Sent>,
                       content: Approval -> string)
    requires Truthful(approvals, sent, content) && sent <= more
    ensures Truthful(approvals, more, content)
  {
    hide CarriesOwn;
  }

  lemma {:induction false} SendingGrows(sent: set<Sent>, pending: seq<Approval>, content: Approval -> string,
                                        events: seq<(string, string)>)
    ensures sent <= Sending(sent, pending, content, events)
    decreases |events|
  {
    hide Contents;
    if events != [] {
      SendingGrows(WithSent(sent, pending, content, events[0].0, events[0].1), pending, content, events[1..]);
    }
  }

  lemma RememberingOne(approvals: map<string, ApprovalState>, root: string, pending: seq<Approval>,
                       content: Approval -> string, stateKey: string, eventID: string, sent: set<Sent>)
    requires Truthful(approvals, sent, content)
    ensures Truthful(WithEvent(approvals, root, KeysByFact(pending), stateKey, eventID),
                     WithSent(sent, pending, content, stateKey, eventID), content)
  {
    hide KeysByFact, Contents;
    IndexesAgree(pending, content, stateKey);
    var more := WithSent(sent, pending, content, stateKey, eventID);
    TruthfulLonger(approvals, sent, more, content);
    if stateKey in KeysByFact(pending) {
      var e := Sent(eventID, stateKey, Contents(pending, content)[stateKey], pending);
      assert e in more && CarriesOwn(e, content, KeysByFact(pending)[stateKey]);
      assert CarriedOne(more, content, KeysByFact(pending)[stateKey], eventID);
    }
  }

  lemma {:induction false} RememberingIsTruthful(approvals: map<string, ApprovalState>, root: string,
                                                 pending: seq<Approval>,
                                                 content: Approval -> string, events: seq<(string, string)>,
                                                 sent: set<Sent>)
    requires Truthful(approvals, sent, content)
    ensures Truthful(WithEvents(approvals, root, KeysByFact(pending), events), Sending(sent, pending, content, events),
                     content)
    decreases |events|
  {
    hide KeysByFact, Truthful, WithEvent, WithSent;
    if events != [] {
      RememberingOne(approvals, root, pending, content, events[0].0, events[0].1, sent);
      RememberingIsTruthful(WithEvent(approvals, root, KeysByFact(pending), events[0].0, events[0].1), root, pending,
                            content, events[1..], WithSent(sent, pending, content, events[0].0, events[0].1));
    }
  }

  lemma TryKeepsEvents(d: Desk, root: string, room: string, a: Action, given: Outcome, sent: set<Sent>,
                       content: Approval -> string)
    requires Truthful(d.approvals, sent, content) && Truthful(d.file, sent, content)
    ensures var after := Try(d, root, room, a, given);
            Truthful(after.approvals, sent, content) && Truthful(after.file, sent, content)
  {
    hide ActionKey, CarriedOne, Try;
    TryShape(d, root, room, a, given);
  }

  lemma {:induction false} TryingKeepsEvents(d: Desk, root: string, room: string, actions: seq<Action>,
                                             answers: map<string, Outcome>, sent: set<Sent>,
                                             content: Approval -> string)
    requires Truthful(d.approvals, sent, content) && Truthful(d.file, sent, content)
    ensures var after := TryAll(d, root, room, actions, answers);
            Truthful(after.approvals, sent, content) && Truthful(after.file, sent, content)
    decreases |actions|
  {
    hide ActionKey, Truthful, Try;
    if actions != [] {
      var given := AnswerTo(answers, ActionKey(actions[0]));
      TryKeepsEvents(d, root, room, actions[0], given, sent, content);
      TryingKeepsEvents(Try(d, root, room, actions[0], given), root, room, actions[1..], answers, sent, content);
    }
  }

  /** Every event a run sent a room for an approval. */
  ghost function SentBy(sent: set<Sent>, content: Approval -> string, steps: seq<Step>): set<Sent>
    decreases |steps|
  {
    if steps == [] then sent else SentBy(SentIn(sent, content, steps[0]), content, steps[1..])
  }

  ghost function SentIn(sent: set<Sent>, content: Approval -> string, step: Step): set<Sent> {
    if step.Tick? then Sending(sent, step.visit.pending, content, step.visit.events) else sent
  }

  lemma VisitIsTruthful(d: Desk, desk: map<string, string>, v: Visit, content: Approval -> string, sent: set<Sent>)
    requires Ready(d, v) && Truthful(d.approvals, sent, content) && Truthful(d.file, sent, content)
    ensures var more := Sending(sent, v.pending, content, v.events);
            Truthful(Visited(d, desk, v).approvals, more, content) && Truthful(Visited(d, desk, v).file, more, content)
  {
    hide Truthful, TryAll, WithEvents, KeptAt, Ready, Listed, Sending, KeysByFact, Visited;
    var start, list := d.(kept := KeptAt(d, desk, v)), Listed(KeptAt(d, desk, v));
    TryingKeepsEvents(start, v.root, v.room, list, v.answers, sent, content);
    VisitedIs(d, desk, v);
    var tried := TriedAt(d, desk, v);
    RememberingIsTruthful(tried.approvals, v.root, v.pending, content, v.events, sent);
    SendingGrows(sent, v.pending, content, v.events);
    TruthfulLonger(tried.file, sent, Sending(sent, v.pending, content, v.events), content);
  }

  lemma StepIsTruthful(s: Sys, h: Homes, step: Step, content: Approval -> string, sent: set<Sent>)
    requires Possible(s, h, step) && Truthful(s.approvals, sent, content) && Truthful(s.file, sent, content)
    ensures Truthful(Do(s, h, step).approvals, SentIn(sent, content, step), content)
    ensures Truthful(Do(s, h, step).file, SentIn(sent, content, step), content)
  {
    hide Truthful, Visited, Sending, Ready, WrittenIn, MayRewrite;
    if step.Tick? {
      VisitIsTruthful(DeskOf(s, h, step.visit.root), s.desk, step.visit, content, sent);
    }
  }

  /** Over any run, each state event remembered for an approval was sent with the content of that
      very approval, held by its forge then, here and in the state file. */
  lemma {:induction false} RememberedEventsAreTrue(s: Sys, h: Homes, steps: seq<Step>, content: Approval -> string,
                                                   sent: set<Sent>)
    requires IsRun(s, h, steps) && Truthful(s.approvals, sent, content) && Truthful(s.file, sent, content)
    ensures Truthful(Run(s, h, steps).approvals, SentBy(sent, content, steps), content)
    ensures Truthful(Run(s, h, steps).file, SentBy(sent, content, steps), content)
    decreases |steps|
  {
    hide Truthful, Possible, Do;
    if steps != [] {
      StepIsTruthful(s, h, steps[0], content, sent);
      RememberedEventsAreTrue(Do(s, h, steps[0]), h, steps[1..], content, SentIn(sent, content, steps[0]));
    }
  }

  /** So where what an approval is carried as tells it from every other one held, no event of
      another approval is remembered for it, not even of one that shares its id. */
  lemma EventIsOfNoOther(approvals: map<string, ApprovalState>, sent: set<Sent>, content: Approval -> string,
                         key: string,
                         b: Approval)
    requires Truthful(approvals, sent, content) && key in approvals && approvals[key].stateEventID != ""
    requires forall e, f | e in sent && f in sent :: e.eventID == f.eventID ==> e == f
    requires forall e, x, y | e in sent && x in e.pending && y in e.pending :: content(x) == content(y)
               ==> x.key == y.key
    ensures forall e | e in sent && e.eventID == approvals[key].stateEventID && b in e.pending ::
              e.content == content(b) ==> b.key == key
  {
    assert CarriedOne(sent, content, key, approvals[key].stateEventID);
  }

  // Every event is remembered.

  /** The index names the last approval of an id. */
  lemma {:induction false} KeysByFactIsLast(pending: seq<Approval>, i: nat)
    requires i < |pending| && forall j | i < j < |pending| :: pending[j].id != pending[i].id
    ensures pending[i].id in KeysByFact(pending) && KeysByFact(pending)[pending[i].id] == pending[i].key
  {
    var last, rest := pending[|pending| - 1], pending[..|pending| - 1];
    if i < |rest| {
      assert pending == rest + [last] && rest[i] == pending[i];
      KeysByFactIsLast(rest, i);
    }
  }

  lemma {:induction false} OthersRememberElsewhere(approvals: map<string, ApprovalState>, root: string,
                                                   keys: map<string, string>, events: seq<(string, string)>,
                                                   key: string)
    requires forall i | 0 <= i < |events| && events[i].0 in keys :: keys[events[i].0] != key
    ensures StateOf(WithEvents(approvals, root, keys, events), key) == StateOf(approvals, key)
    decreases |events|
  {
    if events != [] {
      assert forall i | 0 <= i < |events[1..]| :: events[1..][i] == events[i + 1];
      OthersRememberElsewhere(WithEvent(approvals, root, keys, events[0].0, events[0].1), root, keys, events[1..], key);
    }
  }

  lemma {:induction false} LastEventIsRemembered(approvals: map<string, ApprovalState>, root: string,
                                                 keys: map<string, string>, events: seq<(string, string)>, i: nat)
    requires i < |events| && events[i].0 in keys
    requires forall j | i < j < |events| && events[j].0 in keys :: keys[events[j].0] != keys[events[i].0]
    ensures StateOf(WithEvents(approvals, root, keys, events), keys[events[i].0]).stateEventID == events[i].1
    decreases |events|
  {
    var next := WithEvent(approvals, root, keys, events[0].0, events[0].1);
    assert forall j | 0 <= j < |events[1..]| :: events[1..][j] == events[j + 1];
    if i == 0 {
      OthersRememberElsewhere(next, root, keys, events[1..], keys[events[0].0]);
    } else {
      LastEventIsRemembered(next, root, keys, events[1..], i - 1);
    }
  }

  lemma {:induction false} IndexedIsPending(pending: seq<Approval>, stateKey: string) returns (i: nat)
    requires stateKey in KeysByFact(pending)
    ensures i < |pending| && pending[i].id == stateKey && pending[i].key == KeysByFact(pending)[stateKey]
  {
    var last, rest := pending[|pending| - 1], pending[..|pending| - 1];
    if stateKey == last.id {
      i := |pending| - 1;
    } else {
      i := IndexedIsPending(rest, stateKey);
    }
  }

  /** After a tick each approval held has on record the last state event that was written for it, of those
      that share its id the one held last; and in the file too when the save went through. */
  lemma VisitRemembersItsEvents(d: Desk, desk: map<string, string>, v: Visit, i: nat, j: nat)
    requires Ready(d, v) && i < |v.pending| && j < |v.events| && v.events[j].0 == v.pending[i].id
    requires forall k | i < k < |v.pending| :: v.pending[k].id != v.pending[i].id
    requires forall k | j < k < |v.events| :: v.events[k].0 != v.events[j].0
    requires forall k | 0 <= k < |v.pending| && v.pending[k].key == v.pending[i].key ::
               v.pending[k].id == v.pending[i].id
    ensures StateOf(Visited(d, desk, v).approvals, v.pending[i].key).stateEventID == v.events[j].1
    ensures v.saves ==> StateOf(Visited(d, desk, v).file, v.pending[i].key).stateEventID == v.events[j].1
  {
    hide Ready, TryAll, KeptAt, Listed, WithEvents, KeysByFact, Plan, Kept, ScopedToRoom, Walks;
    var keys := KeysByFact(v.pending);
    KeysByFactIsLast(v.pending, i);
    forall k | j < k < |v.events| && v.events[k].0 in keys ensures keys[v.events[k].0] != v.pending[i].key {
      var m := IndexedIsPending(v.pending, v.events[k].0);
    }
    LastEventIsRemembered(TriedAt(d, desk, v).approvals, v.root, keys, v.events, j);
    if v.saves {
      EventsAreSaved(d, desk, v);
    }
    VisitedIs(d, desk, v);
  }

  lemma EventsAreSaved(d: Desk, desk: map<string, string>, v: Visit)
    requires Ready(d, v) && v.events != [] && v.saves
    ensures Visited(d, desk, v).file == Visited(d, desk, v).approvals
  {
    hide TryAll, WithEvents, Plan, Kept, Listed, ScopedToRoom, Walks;
  }
}
