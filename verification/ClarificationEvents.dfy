/** The state events clarifications are carried as: each remembered one carried its own question,
    also where two projects' questions share an id (internal/bridge/clarifications.go, facts.go). */
module ClarificationEvents {
  import opened Options
  import opened Text
  import opened Relay
  import opened PendingWork
  import opened ClarificationPlan
  import opened Clarifications
  import opened ClarificationTries
  import opened ClarificationIsolation
  import opened ClarificationRuns
  import Facts

  /** The questions a forge holds, each as the state its room carries. */
  function ClarificationFacts(pending: seq<Clarification>, content: Clarification -> string): seq<Facts.Fact> {
    if pending == [] then []
    else
      var last := pending[|pending| - 1];
      ClarificationFacts(pending[..|pending| - 1], content) + [Facts.Fact(last.id, content(last))]
  }

  function Contents(pending: seq<Clarification>, content: Clarification -> string): map<string, string> {
    Facts.ByKey(ClarificationFacts(pending, content))
  }

  /** The index the facts are written by and the one their events are remembered by name the same
      question: both keep the last one of an id. */
  lemma {:induction false} IndexesAgree(pending: seq<Clarification>, content: Clarification -> string, stateKey: string)
    ensures stateKey in KeysByFact(pending) <==> stateKey in Contents(pending, content)
    ensures stateKey in KeysByFact(pending) ==>
              exists a | a in pending :: a.id == stateKey && a.key == KeysByFact(pending)[stateKey]
                                         && content(a) == Contents(pending, content)[stateKey]
  {
    if pending != [] {
      var last, rest := pending[|pending| - 1], pending[..|pending| - 1];
      assert pending == rest + [last] && last in pending;
      var facts := ClarificationFacts(rest, content);
      assert (facts + [Facts.Fact(last.id, content(last))])[..|facts|] == facts;
      IndexesAgree(rest, content, stateKey);
      if stateKey in KeysByFact(rest) && stateKey != last.id {
        var a :| a in rest && a.id == stateKey && a.key == KeysByFact(rest)[stateKey]
                 && content(a) == Contents(rest, content)[stateKey];
        assert a in pending;
      }
    }
  }

  /** One event a room was sent: its id, the state key it was written under, what it carried, and
      what the forge held then. */
  datatype Sent = Sent(eventID: string, stateKey: string, content: string, pending: seq<Clarification>)

  function Sending(sent: set<Sent>, pending: seq<Clarification>, content: Clarification -> string,
                   events: seq<(string, string)>)
    : set<Sent>
    decreases |events|
  {
    if events == [] then sent
    else Sending(WithSent(sent, pending, content, events[0].0, events[0].1), pending, content, events[1..])
  }

  function WithSent(sent: set<Sent>, pending: seq<Clarification>, content: Clarification -> string, stateKey: string,
                    eventID: string)
    : set<Sent>
  {
    if stateKey !in Contents(pending, content) then sent
    else sent + {Sent(eventID, stateKey, Contents(pending, content)[stateKey], pending)}
  }

  /** What was sent is what the question of this key, held then, is carried as. */
  ghost predicate CarriesOwn(e: Sent, content: Clarification -> string, key: string) {
    exists a | a in e.pending :: a.key == key && a.id == e.stateKey && e.content == content(a)
  }

  ghost predicate CarriedOne(sent: set<Sent>, content: Clarification -> string, key: string, eventID: string) {
    exists e | e in sent :: e.eventID == eventID && CarriesOwn(e, content, key)
  }

  /** Each remembered state event carried the question it is remembered under. */
  ghost predicate Truthful(book: map<string, ClarificationState>, sent: set<Sent>, content: Clarification -> string) {
    forall k | k in book && book[k].stateEventID != "" ::
      CarriedOne(sent, content, k, book[k].stateEventID)
  }

  lemma TruthfulLonger(book: map<string, ClarificationState>, sent: set<Sent>, more: set<Sent>,
                       content: Clarification -> string)
    requires Truthful(book, sent, content) && sent <= more
    ensures Truthful(book, more, content)
  {
    hide CarriesOwn;
  }

  lemma {:induction false} SendingGrows(sent: set<Sent>, pending: seq<Clarification>, content: Clarification -> string,
                                        events: seq<(string, string)>)
    ensures sent <= Sending(sent, pending, content, events)
    decreases |events|
  {
    hide Contents;
    if events != [] {
      SendingGrows(WithSent(sent, pending, content, events[0].0, events[0].1), pending, content, events[1..]);
    }
  }

  lemma RememberingOne(book: map<string, ClarificationState>, root: string, pending: seq<Clarification>,
                       content: Clarification -> string, stateKey: string, eventID: string, sent: set<Sent>)
    requires Truthful(book, sent, content)
    ensures Truthful(WithEvent(book, root, KeysByFact(pending), stateKey, eventID),
                     WithSent(sent, pending, content, stateKey, eventID), content)
  {
    hide KeysByFact, Contents;
    IndexesAgree(pending, content, stateKey);
    var more := WithSent(sent, pending, content, stateKey, eventID);
    TruthfulLonger(book, sent, more, content);
    if stateKey in KeysByFact(pending) {
      var e := Sent(eventID, stateKey, Contents(pending, content)[stateKey], pending);
      assert e in more && CarriesOwn(e, content, KeysByFact(pending)[stateKey]);
      assert CarriedOne(more, content, KeysByFact(pending)[stateKey], eventID);
    }
  }

  lemma {:induction false} RememberingIsTruthful(book: map<string, ClarificationState>, root: string,
                                                 pending: seq<Clarification>,
                                                 content: Clarification -> string, events: seq<(string, string)>,
                                                 sent: set<Sent>)
    requires Truthful(book, sent, content)
    ensures Truthful(WithEvents(book, root, KeysByFact(pending), events), Sending(sent, pending, content, events),
                     content)
    decreases |events|
  {
    hide KeysByFact, Truthful, WithEvent, WithSent;
    if events != [] {
      RememberingOne(book, root, pending, content, events[0].0, events[0].1, sent);
      RememberingIsTruthful(WithEvent(book, root, KeysByFact(pending), events[0].0, events[0].1), root, pending,
                            content, events[1..], WithSent(sent, pending, content, events[0].0, events[0].1));
    }
  }

  lemma TryKeepsEvents(d: Desk, root: string, room: string, a: Action, given: Outcome, sent: set<Sent>,
                       content: Clarification -> string)
    requires Truthful(d.book, sent, content) && Truthful(d.file, sent, content)
    ensures var after := Try(d, root, room, a, given);
            Truthful(after.book, sent, content) && Truthful(after.file, sent, content)
  {
    hide ActionKey, CarriedOne, Try;
    TryShape(d, root, room, a, given);
  }

  lemma {:induction false} TryingKeepsEvents(d: Desk, root: string, room: string, actions: seq<Action>,
                                             answers: map<string, Outcome>, sent: set<Sent>,
                                             content: Clarification -> string)
    requires Truthful(d.book, sent, content) && Truthful(d.file, sent, content)
    ensures var after := TryAll(d, root, room, actions, answers);
            Truthful(after.book, sent, content) && Truthful(after.file, sent, content)
    decreases |actions|
  {
    hide ActionKey, Truthful, Try;
    if actions != [] {
      var given := AnswerTo(answers, ActionKey(actions[0]));
      TryKeepsEvents(d, root, room, actions[0], given, sent, content);
      TryingKeepsEvents(Try(d, root, room, actions[0], given), root, room, actions[1..], answers, sent, content);
    }
  }

  /** Every event a run sent a room for a question. */
  ghost function SentBy(sent: set<Sent>, content: Clarification -> string, steps: seq<Step>): set<Sent>
    decreases |steps|
  {
    if steps == [] then sent else SentBy(SentIn(sent, content, steps[0]), content, steps[1..])
  }

  ghost function SentIn(sent: set<Sent>, content: Clarification -> string, step: Step): set<Sent> {
    if step.Tick? then Sending(sent, step.visit.pending, content, step.visit.events) else sent
  }

  lemma VisitIsTruthful(d: Desk, v: Visit, content: Clarification -> string, sent: set<Sent>)
    requires Ready(d, v) && Truthful(d.book, sent, content) && Truthful(d.file, sent, content)
    ensures var more := Sending(sent, v.pending, content, v.events);
            Truthful(Visited(d, v).book, more, content) && Truthful(Visited(d, v).file, more, content)
  {
    hide Truthful, TryAll, WithEvents, KeptAt, Ready, Listed, Sending, KeysByFact, Visited;
    var start, list := d.(kept := KeptAt(d, v)), Listed(KeptAt(d, v));
    TryingKeepsEvents(start, v.root, v.room, list, v.answers, sent, content);
    VisitedIs(d, v);
    var tried := TriedAt(d, v);
    RememberingIsTruthful(tried.book, v.root, v.pending, content, v.events, sent);
    SendingGrows(sent, v.pending, content, v.events);
    TruthfulLonger(tried.file, sent, Sending(sent, v.pending, content, v.events), content);
  }

  /** Over any run, each state event remembered for a question was sent with the content of that
      very question, held by its forge then, here and in the state file. */
  lemma {:induction false} RememberedEventsAreTrue(s: Sys, h: Homes, steps: seq<Step>, content: Clarification -> string,
                                                   sent: set<Sent>)
    requires IsRun(s, h, steps) && Truthful(s.book, sent, content) && Truthful(s.file, sent, content)
    ensures Truthful(Run(s, h, steps).book, SentBy(sent, content, steps), content)
    ensures Truthful(Run(s, h, steps).file, SentBy(sent, content, steps), content)
    decreases |steps|
  {
    hide Truthful, Visited, Sending, Ready;
    if steps != [] {
      if steps[0].Tick? {
        var v := steps[0].visit;
        VisitIsTruthful(DeskOf(s, h, v.root), v, content, sent);
      }
      RememberedEventsAreTrue(Do(s, h, steps[0]), h, steps[1..], content, SentIn(sent, content, steps[0]));
    }
  }

  /** So where what a question is carried as tells it from every other one held, no event of
      another question is remembered for it, not even of one that shares its id. */
  lemma EventIsOfNoOther(book: map<string, ClarificationState>, sent: set<Sent>, content: Clarification -> string,
                         key: string,
                         b: Clarification)
    requires Truthful(book, sent, content) && key in book && book[key].stateEventID != ""
    requires forall e, f | e in sent && f in sent :: e.eventID == f.eventID ==> e == f
    requires forall e, x, y | e in sent && x in e.pending && y in e.pending :: content(x) == content(y)
               ==> x.key == y.key
    ensures forall e | e in sent && e.eventID == book[key].stateEventID && b in e.pending ::
              e.content == content(b) ==> b.key == key
  {
    assert CarriedOne(sent, content, key, book[key].stateEventID);
  }

  // Every event is remembered.

  /** The index names the last question of an id. */
  lemma {:induction false} KeysByFactIsLast(pending: seq<Clarification>, i: nat)
    requires i < |pending| && forall j | i < j < |pending| :: pending[j].id != pending[i].id
    ensures pending[i].id in KeysByFact(pending) && KeysByFact(pending)[pending[i].id] == pending[i].key
  {
    var last, rest := pending[|pending| - 1], pending[..|pending| - 1];
    if i < |rest| {
      assert pending == rest + [last] && rest[i] == pending[i];
      KeysByFactIsLast(rest, i);
    }
  }

  lemma {:induction false} OthersRememberElsewhere(book: map<string, ClarificationState>, root: string,
                                                   keys: map<string, string>, events: seq<(string, string)>,
                                                   key: string)
    requires forall i | 0 <= i < |events| && events[i].0 in keys :: keys[events[i].0] != key
    ensures StateOf(WithEvents(book, root, keys, events), key) == StateOf(book, key)
    decreases |events|
  {
    if events != [] {
      assert forall i | 0 <= i < |events[1..]| :: events[1..][i] == events[i + 1];
      OthersRememberElsewhere(WithEvent(book, root, keys, events[0].0, events[0].1), root, keys, events[1..], key);
    }
  }

  lemma {:induction false} LastEventIsRemembered(book: map<string, ClarificationState>, root: string,
                                                 keys: map<string, string>, events: seq<(string, string)>, i: nat)
    requires i < |events| && events[i].0 in keys
    requires forall j | i < j < |events| && events[j].0 in keys :: keys[events[j].0] != keys[events[i].0]
    ensures StateOf(WithEvents(book, root, keys, events), keys[events[i].0]).stateEventID == events[i].1
    decreases |events|
  {
    var next := WithEvent(book, root, keys, events[0].0, events[0].1);
    assert forall j | 0 <= j < |events[1..]| :: events[1..][j] == events[j + 1];
    if i == 0 {
      OthersRememberElsewhere(next, root, keys, events[1..], keys[events[0].0]);
    } else {
      LastEventIsRemembered(next, root, keys, events[1..], i - 1);
    }
  }

  lemma {:induction false} IndexedIsPending(pending: seq<Clarification>, stateKey: string) returns (i: nat)
    requires stateKey in KeysByFact(pending)
    ensures i < |pending| && pending[i].id == stateKey && pending[i].key == KeysByFact(pending)[stateKey]
  {
    var last, rest := pending[|pending| - 1], pending[..|pending| - 1];
    if stateKey == last.id {
      i := |pending| - 1;
    } else {
      i := IndexedIsPending(rest, stateKey);
    }
  }

  /** After a tick each question held has on record the last state event that was written for it, of those
      that share its id the one held last; and in the file too when the save went through. */
  lemma VisitRemembersItsEvents(d: Desk, v: Visit, i: nat, j: nat)
    requires Ready(d, v) && i < |v.pending| && j < |v.events| && v.events[j].0 == v.pending[i].id
    requires forall k | i < k < |v.pending| :: v.pending[k].id != v.pending[i].id
    requires forall k | j < k < |v.events| :: v.events[k].0 != v.events[j].0
    requires forall k | 0 <= k < |v.pending| && v.pending[k].key == v.pending[i].key ::
               v.pending[k].id == v.pending[i].id
    ensures StateOf(Visited(d, v).book, v.pending[i].key).stateEventID == v.events[j].1
    ensures v.saves ==> StateOf(Visited(d, v).file, v.pending[i].key).stateEventID == v.events[j].1
  {
    hide Ready, TryAll, KeptAt, Listed, WithEvents, KeysByFact, Plan, Kept, ScopedToRoom, Walks;
    var keys := KeysByFact(v.pending);
    KeysByFactIsLast(v.pending, i);
    forall k | j < k < |v.events| && v.events[k].0 in keys ensures keys[v.events[k].0] != v.pending[i].key {
      var m := IndexedIsPending(v.pending, v.events[k].0);
    }
    LastEventIsRemembered(TriedAt(d, v).book, v.root, keys, v.events, j);
    if v.saves {
      EventsAreSaved(d, v);
    }
    VisitedIs(d, v);
  }

  lemma EventsAreSaved(d: Desk, v: Visit)
    requires Ready(d, v) && v.events != [] && v.saves
    ensures Visited(d, v).file == Visited(d, v).book
  {
    hide TryAll, WithEvents, Plan, Kept, Listed, ScopedToRoom, Walks;
  }
}
