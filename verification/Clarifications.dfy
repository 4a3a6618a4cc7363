/** One forge's clarifications room and its blocked roles kept in step
    (internal/bridge/clarifications.go). */
module Clarifications {
  import opened Options
  import opened Text
  import opened Quote
  import opened Relay
  import opened PendingWork
  import opened ClarificationPlan

  function KindName(kind: Kind): string {
    match kind
    case PostClarification => "post_clarification"
    case AnswerClarification => "answer_clarification"
    case ReplyClarification => "reply_clarification"
    case ReactClarification => "react_clarification"
  }

  function ActionKey(a: Action): string {
    KindName(a.kind) + "/" + (a.key + "/" + a.answer)
  }

  /** What the room or the forge made of one call, and whether the save after it went through. */
  datatype Outcome = Refused | Landed(eventID: string, saved: bool)

  datatype Entry = Entry(action: Action, outcome: Outcome)

  /** What serving one forge's clarifications reads and writes: the bookkeeping, the state file,
      the pending work, the questions the forge still waits on and the answers it took, and the
      record of every call. */
  datatype Desk = Desk(
    book: map<string, ClarificationState>, file: map<string, ClarificationState>, kept: map<string, Action>,
    open: set<string>, taken: map<string, string>, log: seq<Entry>)

  function AnswerTo(answers: map<string, Outcome>, key: string): Outcome {
    if key in answers then answers[key] else Refused
  }

  /** What carrying an action out writes into the clarification's record. */
  function Recorded(state: ClarificationState, root: string, room: string, a: Action,
                    eventID: string): ClarificationState {
    match a.kind
    case PostClarification => state.(forgeRoot := root, roomID := room, messageID := eventID)
    case AnswerClarification => state.(forgeRoot := root, answer := a.answer)
    case ReplyClarification => state.(forgeRoot := root, replyID := eventID)
    case ReactClarification => state.(forgeRoot := root, reactionID := eventID)
  }

  function Applied(book: map<string, ClarificationState>, root: string, room: string, a: Action, eventID: string)
    : map<string, ClarificationState>
  {
    book[a.key := Recorded(StateOf(book, a.key), root, room, a, eventID)]
  }

  /** The forge takes an answer only to a question it still waits on. */
  function AnswerOf(open: set<string>, a: Action, given: Outcome): Outcome {
    if a.kind == AnswerClarification && a.key !in open then Refused else given
  }

  function Try(d: Desk, root: string, room: string, a: Action, given: Outcome): Desk {
    var answer := AnswerOf(d.open, a, given);
    var tried := d.(log := d.log + [Entry(a, answer)]);
    match answer
    case Refused => tried
    case Landed(eventID, saved) =>
      var book := Applied(d.book, root, room, a, eventID);
      var took := if a.kind == AnswerClarification
                  then tried.(open := d.open - {a.key}, taken := d.taken[a.key := a.answer]) else tried;
      if saved then took.(book := book, file := book, kept := d.kept - {ActionKey(a)}) else took.(book := book)
  }

  function TryAll(d: Desk, root: string, room: string, actions: seq<Action>, answers: map<string, Outcome>): Desk
    decreases |actions|
  {
    if actions == [] then d
    else TryAll(Try(d, root, room, actions[0], AnswerTo(answers, ActionKey(actions[0]))), root, room, actions[1..],
                answers)
  }

  /** The share of the bookkeeping one room reports on. */
  function ScopedToRoom(all: map<string, ClarificationState>, room: string): map<string, ClarificationState> {
    map k | k in all && all[k].roomID == room :: all[k]
  }

  /** The key each fact's state key stands for: a later clarification with the same id wins. */
  function KeysByFact(pending: seq<Clarification>): map<string, string> {
    if pending == [] then map[]
    else KeysByFact(pending[..|pending| - 1])[pending[|pending| - 1].id := pending[|pending| - 1].key]
  }

  function WithEvent(book: map<string, ClarificationState>, root: string, keys: map<string, string>, stateKey: string,
                     eventID: string)
    : map<string, ClarificationState>
  {
    if stateKey !in keys then book
    else book[keys[stateKey] := StateOf(book, keys[stateKey]).(stateEventID := eventID, forgeRoot := root)]
  }

  /** The bookkeeping once the state events written are remembered, each under its clarification. */
  function WithEvents(book: map<string, ClarificationState>, root: string, keys: map<string, string>,
                      events: seq<(string, string)>): map<string, ClarificationState>
    decreases |events|
  {
    if events == [] then book
    else WithEvents(WithEvent(book, root, keys, events[0].0, events[0].1), root, keys, events[1..])
  }

  /** How many of the calls landed and were saved. */
  function CarriedOut(log: seq<Entry>): nat {
    if log == [] then 0
    else var outcome := log[|log| - 1].outcome;
         CarriedOut(log[..|log| - 1]) + if outcome.Landed? && outcome.saved then 1 else 0
  }

  /** One tick of one forge's clarifications: plan on the room's share, keep, try everything kept,
      and remember the state events the facts wrote. */
  function ClarificationTick(d: Desk, root: string, room: string, operator: string, order: seq<string>,
                             pending: seq<Clarification>, replies: seq<RoomEvent>, answers: map<string, Outcome>,
                             events: seq<(string, string)>, saves: bool): Desk
    requires Walks(order, ScopedToRoom(d.book, room))
  {
    var kept := Kept(d.kept, ActionKey, Plan(operator, ScopedToRoom(d.book, room), pending, replies, order));
    var tried := TryAll(d.(kept := kept), root, room, Listed(kept), answers);
    var book := WithEvents(tried.book, root, KeysByFact(pending), events);
    if events != [] && saves then tried.(book := book, file := book) else tried.(book := book)
  }

  /** The bookkeeping but for the clarifications. */
  function Rest(book: State): State {
    book.(clarifications := map[])
  }

  /** The forge's side: which questions it still waits on. */
  class ClarificationStore {
    ghost var taken: map<string, string>
    var open: set<string>

    constructor (open: set<string>)
      ensures this.open == open && taken == map[]
    {
      this.open, taken := open, map[];
    }

    /** Takes an answer, empty or not, unless the question is no longer waiting or the call fails. */
    method TakeAnswer(key: string, answer: string, given: Outcome) returns (ok: bool)
      modifies this
      ensures ok <==> key in old(open) && given.Landed?
      ensures open == (if ok then old(open) - {key} else old(open))
      ensures taken == if ok then old(taken)[key := answer] else old(taken)
    {
      ok := key in open && given.Landed?;
      if ok {
        open := open - {key};
        taken := taken[key := answer];
      }
    }
  }

  class ClarificationsRoom {
    const root: string
    const operator: string
    const book: Bookkeeping
    const store: ClarificationStore
    const pending: Work<Action>
    ghost var log: seq<Entry>

    constructor (root: string, operator: string, book: Bookkeeping, store: ClarificationStore)
      ensures this.root == root && this.operator == operator && this.book == book && this.store == store
      ensures fresh(pending) && pending.keyOf == ActionKey && pending.items == map[] && log == []
    {
      this.root, this.operator, this.book, this.store := root, operator, book, store;
      pending := new Work(ActionKey);
      log := [];
    }

    ghost function View(): Desk
      reads this, book, store, pending
    {
      Desk(book.clarifications, book.file.clarifications, pending.items, store.open, store.taken, log)
    }

    method RecordClarification(action: Action, room: string, eventID: string)
      modifies book`clarifications
      ensures Rest(book.Value()) == old(Rest(book.Value()))
      ensures book.clarifications == Applied(old(book.clarifications), root, room, action, eventID)
    {
      var state := StateOf(book.clarifications, action.key);
      match action.kind {
        case PostClarification => state := state.(roomID := room, messageID := eventID);
        case AnswerClarification => state := state.(answer := action.answer);
        case ReplyClarification => state := state.(replyID := eventID);
        case ReactClarification => state := state.(reactionID := eventID);
      }
      state := state.(forgeRoot := root);
      book.clarifications := book.clarifications[action.key := state];
    }

    /** One piece of clarifications work, kept in the state as soon as it lands. */
    method ApplyClarification(room: string, action: Action, given: Outcome) returns (ok: bool)
      requires pending.keyOf == ActionKey
      modifies this, book`clarifications, book`file, store
      ensures Rest(book.Value()) == old(Rest(book.Value()))
      ensures Rest(book.file) in {old(Rest(book.file)), old(Rest(book.Value()))}
      ensures View() == Try(old(View()), root, room, action, given).(kept := pending.items)
      ensures ok <==> var answer := AnswerOf(old(store.open), action, given); answer.Landed? && answer.saved
    {
      var landed := given.Landed?;
      if action.kind == AnswerClarification {
        landed := store.TakeAnswer(action.key, action.answer, given);
      }
      if !landed {
        log := log + [Entry(action, Refused)];
        return false;
      }
      log := log + [Entry(action, given)];
      RecordClarification(action, room, given.eventID);
      ok := book.Save(given.saved);
    }

    method TryOne(room: string, action: Action, given: Outcome) returns (ok: bool)
      requires pending.keyOf == ActionKey
      modifies this, book`clarifications, book`file, store, pending
      ensures Rest(book.Value()) == old(Rest(book.Value()))
      ensures Rest(book.file) in {old(Rest(book.file)), old(Rest(book.Value()))}
      ensures View() == Try(old(View()), root, room, action, given)
      ensures CarriedOut(log) == CarriedOut(old(log)) + if ok then 1 else 0
    {
      hide Rest, Applied;
      ok := ApplyClarification(room, action, given);
      if ok {
        pending.Done(action);
      }
    }

    method TryEach(room: string, list: seq<Action>, answers: map<string, Outcome>) returns (carriedOut: nat)
      requires pending.keyOf == ActionKey
      modifies this, book`clarifications, book`file, store, pending
      ensures Rest(book.Value()) == old(Rest(book.Value()))
      ensures Rest(book.file) in {old(Rest(book.file)), old(Rest(book.Value()))}
      ensures View() == TryAll(old(View()), root, room, list, answers)
      ensures CarriedOut(log) == CarriedOut(old(log)) + carriedOut
    {
      hide Try, CarriedOut, Rest;
      carriedOut := 0;
      for i := 0 to |list|
        invariant CarriedOut(log) == CarriedOut(old(log)) + carriedOut
        invariant Rest(book.Value()) == old(Rest(book.Value()))
        invariant Rest(book.file) in {old(Rest(book.file)), old(Rest(book.Value()))}
        invariant TryAll(old(View()), root, room, list, answers) == TryAll(View(), root, room, list[i..], answers)
      {
        assert list[i..][1..] == list[i + 1..];
        var ok := TryOne(room, list[i], AnswerTo(answers, ActionKey(list[i])));
        if ok {
          carriedOut := carriedOut + 1;
        }
      }
    }

    /** Remembers each state event the facts wrote under the clarification it carries. */
    method RememberStateEvents(waiting: seq<Clarification>, events: seq<(string, string)>)
      modifies book`clarifications
      ensures Rest(book.Value()) == old(Rest(book.Value()))
      ensures book.clarifications == WithEvents(old(book.clarifications), root, KeysByFact(waiting), events)
    {
      var keys: map<string, string> := map[];
      for i := 0 to |waiting|
        invariant keys == KeysByFact(waiting[..i])
      {
        assert waiting[..i + 1][..i] == waiting[..i];
        keys := keys[waiting[i].id := waiting[i].key];
      }
      assert waiting[..|waiting|] == waiting;
      for i := 0 to |events|
        invariant WithEvents(old(book.clarifications), root, keys, events)
                  == WithEvents(book.clarifications, root, keys, events[i..])
      {
        assert events[i..][1..] == events[i + 1..];
        if events[i].0 !in keys {
          continue;
        }
        var key := keys[events[i].0];
        book.clarifications := book.clarifications[
          key := StateOf(book.clarifications, key).(stateEventID := events[i].1, forgeRoot := root)];
      }
    }

    /** Brings the clarifications room and the blocked roles in step. The facts' own writes are
        `Facts`; here come in only the events they wrote, by state key. */
    method CarryOutClarifications(room: string, waiting: seq<Clarification>, replies: seq<RoomEvent>,
                                  answers: map<string, Outcome>, events: seq<(string, string)>, saves: bool)
      returns (carriedOut: nat, order: seq<string>)
      requires pending.keyOf == ActionKey
      modifies this, book`clarifications, book`file, store, pending
      ensures Rest(book.Value()) == old(Rest(book.Value()))
      ensures Rest(book.file) in {old(Rest(book.file)), old(Rest(book.Value()))}
      ensures Walks(order, ScopedToRoom(old(book.clarifications), room))
      ensures View() == ClarificationTick(old(View()), root, room, operator, order, waiting, replies, answers, events,
                                          saves)
      ensures CarriedOut(log) == CarriedOut(old(log)) + carriedOut
    {
      hide Try, CarriedOut, Plan, ScopedToRoom, Walks, WithEvents, Rest;
      var actions;
      actions, order := MakePlan(operator, ScopedToRoom(book.clarifications, room), waiting, replies);
      pending.KeepAll(actions);
      var list := pending.List();
      carriedOut := TryEach(room, list, answers);
      RememberStateEvents(waiting, events);
      if events != [] {
        var _ := book.Save(saves);
      }
    }
  }

  /** Work is tried kind by kind: the answers, the posts, the marks, the replies. */
  predicate KindComesFirst(a: Kind, b: Kind) {
    match a
    case AnswerClarification => b != AnswerClarification
    case PostClarification => b in {ReplyClarification, ReactClarification}
    case ReactClarification => b == ReplyClarification
    case ReplyClarification => false
  }

  lemma KindsSortInOrder(a: Action, b: Action)
    requires KindComesFirst(a.kind, b.kind)
    ensures AtMost(ActionKey(a), ActionKey(b)) && ActionKey(a) != ActionKey(b)
  {
    var k, l := ActionKey(a), ActionKey(b);
    assert |k| > 3 && |l| > 3;
    assert k == k[..2] + k[2..] && l == l[..2] + l[2..];
    if k[0] == l[0] {
      assert k[..2] == l[..2] == "re";
      AtMostAfterFront("re", k[2..], l[2..]);
      assert k[2..][0] == k[2] && l[2..][0] == l[2];
    }
  }

  /** Two pieces of work have one key exactly when they are of one kind and the answer reads the same behind
      the question's key. */
  lemma ActionKeysAgree(a: Action, b: Action)
    ensures ActionKey(a) == ActionKey(b)
            <==> a.kind == b.kind && a.key + "/" + a.answer == b.key + "/" + b.answer
  {
    var k, l := KindName(a.kind), KindName(b.kind);
    var x, y := a.key + "/" + a.answer, b.key + "/" + b.answer;
    assert ActionKey(a) == k + "/" + x && ActionKey(b) == l + "/" + y;
    if ActionKey(a) == ActionKey(b) {
      NoSlashInKinds(a.kind);
      NoSlashInKinds(b.kind);
      CutAtMark(k, x, l, y, '/');
      KindsHaveNames(a.kind, b.kind);
    }
  }

  lemma KindsHaveNames(a: Kind, b: Kind)
    ensures KindName(a) == KindName(b) ==> a == b
  {
    assert KindName(a)[2] != KindName(b)[2] || KindName(a)[0] != KindName(b)[0] || a == b;
  }

  lemma NoSlashInKinds(kind: Kind)
    ensures '/' !in KindName(kind)
  {
  }
}
