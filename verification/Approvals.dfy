/** One forge's approvals room and its projects kept in step (internal/bridge/approvals.go). */
module Approvals {
  import opened Options
  import opened Text
  import opened Quote
  import opened Relay
  import opened PendingWork
  import opened ApprovalPlan

  function KindName(kind: Kind): string {
    match kind
    case AnswerGestures => "answer_gestures"
    case PostApproval => "post_approval"
    case ReactApproval => "react_approval"
    case ReplyApproval => "reply_approval"
    case ResolveApproval => "resolve_approval"
  }

  function ActionKey(a: Action): string {
    KindName(a.kind) + "/" + (a.key + "/" + a.resolution)
  }

  /** What the room or the forge made of one call, and whether the save after it went through. */
  datatype Outcome = Refused | Landed(eventID: string, saved: bool)

  datatype Entry = Entry(action: Action, outcome: Outcome)

  /** What serving one forge's approvals reads and writes: the bookkeeping, the state file, the
      pending work, the approvals the forge still takes a resolution for and the resolutions it
      took, and the record of every call. */
  datatype Desk = Desk(
    approvals: map<string, ApprovalState>, file: map<string, ApprovalState>, kept: map<string, Action>,
    open: set<string>, taken: map<string, string>, log: seq<Entry>)

  function AnswerTo(answers: map<string, Outcome>, key: string): Outcome {
    if key in answers then answers[key] else Refused
  }

  predicate IsReport(a: Action) {
    a.kind == ReactApproval || a.kind == ReplyApproval
  }

  /** What carrying an action out writes into the approval's record. */
  function Recorded(state: ApprovalState, root: string, room: string, a: Action, eventID: string): ApprovalState {
    match a.kind
    case PostApproval => state.(forgeRoot := root, roomID := room, messageID := eventID)
    case ReactApproval => state.(forgeRoot := root, resolution := a.resolution, reactionID := eventID)
    case ReplyApproval => state.(forgeRoot := root, resolution := a.resolution, replyID := eventID)
    case ResolveApproval => state.(forgeRoot := root, resolution := a.resolution)
    case AnswerGestures => state
  }

  function Applied(approvals: map<string, ApprovalState>, root: string, room: string, a: Action, eventID: string)
    : map<string, ApprovalState>
  {
    if a.kind == AnswerGestures then approvals
    else approvals[a.key := Recorded(StateOf(approvals, a.key), root, room, a, eventID)]
  }

  /** The forge takes a resolution only of an approval still open, and only the two it knows. */
  function AnswerOf(open: set<string>, a: Action, answer: Outcome): Outcome {
    if a.kind == ResolveApproval && (a.key !in open || a.resolution !in {APPROVED, SENT_BACK}) then Refused else answer
  }

  function Try(d: Desk, root: string, room: string, a: Action, given: Outcome): Desk {
    var answer := AnswerOf(d.open, a, given);
    var tried := d.(log := d.log + [Entry(a, answer)]);
    match answer
    case Refused => tried
    case Landed(eventID, saved) =>
      var approvals := Applied(d.approvals, root, room, a, eventID);
      var took := if a.kind == ResolveApproval
                  then tried.(open := d.open - {a.key}, taken := d.taken[a.key := a.resolution]) else tried;
      if saved then took.(approvals := approvals, file := approvals, kept := d.kept - {ActionKey(a)})
      else took.(approvals := approvals)
  }

  function TryAll(d: Desk, root: string, room: string, actions: seq<Action>, answers: map<string, Outcome>): Desk
    decreases |actions|
  {
    if actions == [] then d
    else TryAll(Try(d, root, room, actions[0], AnswerTo(answers, ActionKey(actions[0]))), root, room, actions[1..],
                answers)
  }

  /** The share of the bookkeeping one room reports on. */
  function ScopedToRoom(all: map<string, ApprovalState>, room: string): map<string, ApprovalState> {
    map k | k in all && all[k].roomID == room :: all[k]
  }

  /** The key each fact's state key stands for: a later approval with the same id wins. */
  function KeysByFact(pending: seq<Approval>): map<string, string> {
    if pending == [] then map[]
    else KeysByFact(pending[..|pending| - 1])[pending[|pending| - 1].id := pending[|pending| - 1].key]
  }

  /** The bookkeeping once the state events written are remembered, each under its approval. */
  function WithEvent(approvals: map<string, ApprovalState>, root: string, keys: map<string, string>, stateKey: string,
                     eventID: string)
    : map<string, ApprovalState>
  {
    if stateKey !in keys then approvals
    else approvals[keys[stateKey] := StateOf(approvals, keys[stateKey]).(stateEventID := eventID, forgeRoot := root)]
  }

  function WithEvents(approvals: map<string, ApprovalState>, root: string, keys: map<string, string>,
                      events: seq<(string, string)>): map<string, ApprovalState>
    decreases |events|
  {
    if events == [] then approvals
    else WithEvents(WithEvent(approvals, root, keys, events[0].0, events[0].1), root, keys, events[1..])
  }

  /** How many of the calls landed and were saved. */
  function CarriedOut(log: seq<Entry>): nat {
    if log == [] then 0
    else var outcome := log[|log| - 1].outcome;
         CarriedOut(log[..|log| - 1]) + if outcome.Landed? && outcome.saved then 1 else 0
  }

  /** One tick of one forge's approvals: plan on the room's share, keep, try everything kept, and
      remember the state events the facts wrote. */
  function ApprovalTick(d: Desk, root: string, room: string, r: Reader, order: seq<string>, pending: seq<Approval>,
                        desk: map<string, string>, reactions: seq<Reaction>, replies: seq<RoomEvent>,
                        answers: map<string, Outcome>, events: seq<(string, string)>, saves: bool): Desk
    requires Walks(order, ScopedToRoom(d.approvals, room))
  {
    var kept := Kept(d.kept, ActionKey,
                     Plan(r, ScopedToRoom(d.approvals, room), pending, desk, reactions, replies, order));
    var tried := TryAll(d.(kept := kept), root, room, Listed(kept), answers);
    var approvals := WithEvents(tried.approvals, root, KeysByFact(pending), events);
    if events != [] && saves then tried.(approvals := approvals, file := approvals) else tried.(approvals := approvals)
  }

  /** The bookkeeping but for the approvals. */
  function Rest(book: State): State {
    book.(approvals := map[])
  }

  /** The forge's side: which approvals it still takes a resolution for. */
  class ApprovalStore {
    ghost var taken: map<string, string>
    var open: set<string>

    constructor (open: set<string>)
      ensures this.open == open && taken == map[]
    {
      this.open, taken := open, map[];
    }

    /** Approves or sends back: refused unless the approval is open and the call goes through. */
    method Resolve(key: string, resolution: string, answer: Outcome) returns (ok: bool)
      modifies this
      ensures ok <==> key in old(open) && answer.Landed?
      ensures open == (if ok then old(open) - {key} else old(open))
      ensures taken == if ok then old(taken)[key := resolution] else old(taken)
    {
      ok := key in open && answer.Landed?;
      if ok {
        open := open - {key};
        taken := taken[key := resolution];
      }
    }
  }

  class ApprovalsRoom {
    const root: string
    const reader: Reader
    const book: Bookkeeping
    const store: ApprovalStore
    const pending: Work<Action>
    ghost var log: seq<Entry>

    constructor (root: string, reader: Reader, book: Bookkeeping, store: ApprovalStore)
      ensures this.root == root && this.reader == reader && this.book == book && this.store == store
      ensures fresh(pending) && pending.keyOf == ActionKey && pending.items == map[] && log == []
    {
      this.root, this.reader, this.book, this.store := root, reader, book, store;
      pending := new Work(ActionKey);
      log := [];
    }

    ghost function View(): Desk
      reads this, book, store, pending
    {
      Desk(book.approvals, book.file.approvals, pending.items, store.open, store.taken, log)
    }

    method RecordApproval(action: Action, room: string, eventID: string)
      requires action.kind != AnswerGestures
      modifies book`approvals
      ensures Rest(book.Value()) == old(Rest(book.Value()))
      ensures book.approvals == Applied(old(book.approvals), root, room, action, eventID)
    {
      var state := StateOf(book.approvals, action.key);
      match action.kind {
        case PostApproval => state := state.(roomID := room, messageID := eventID);
        case ReactApproval => state := state.(resolution := action.resolution, reactionID := eventID);
        case ReplyApproval => state := state.(resolution := action.resolution, replyID := eventID);
        case ResolveApproval => state := state.(resolution := action.resolution);
        case AnswerGestures =>
      }
      state := state.(forgeRoot := root);
      book.approvals := book.approvals[action.key := state];
    }

    /** One piece of approvals work, kept in the state as soon as it lands. */
    method ApplyApproval(room: string, action: Action, given: Outcome) returns (ok: bool)
      requires pending.keyOf == ActionKey
      modifies this, book`approvals, book`file, store
      ensures Rest(book.Value()) == old(Rest(book.Value()))
      ensures Rest(book.file) in {old(Rest(book.file)), old(Rest(book.Value()))}
      ensures View() == Try(old(View()), root, room, action, given).(kept := pending.items)
      ensures ok <==> var answer := AnswerOf(old(store.open), action, given); answer.Landed? && answer.saved
    {
      var landed := given.Landed?;
      if action.kind == ResolveApproval {
        if action.resolution != APPROVED && action.resolution != SENT_BACK {
          landed := false;
        } else {
          landed := store.Resolve(action.key, action.resolution, given);
        }
      }
      if !landed {
        log := log + [Entry(action, Refused)];
        return false;
      }
      log := log + [Entry(action, given)];
      if action.kind != AnswerGestures {
        RecordApproval(action, room, given.eventID);
      }
      ok := book.Save(given.saved);
    }

    method TryOne(room: string, action: Action, given: Outcome) returns (ok: bool)
      requires pending.keyOf == ActionKey
      modifies this, book`approvals, book`file, store, pending
      ensures Rest(book.Value()) == old(Rest(book.Value()))
      ensures Rest(book.file) in {old(Rest(book.file)), old(Rest(book.Value()))}
      ensures View() == Try(old(View()), root, room, action, given)
      ensures CarriedOut(log) == CarriedOut(old(log)) + if ok then 1 else 0
    {
      hide Rest, Applied;
      ok := ApplyApproval(room, action, given);
      if ok {
        pending.Done(action);
      }
    }

    method TryEach(room: string, list: seq<Action>, answers: map<string, Outcome>) returns (carriedOut: nat)
      requires pending.keyOf == ActionKey
      modifies this, book`approvals, book`file, store, pending
      ensures Rest(book.Value()) == old(Rest(book.Value()))
      ensures Rest(book.file) in {old(Rest(book.file)), old(Rest(book.Value()))}
      ensures View() == TryAll(old(View()), root, room, list, answers)
      ensures CarriedOut(log) == CarriedOut(old(log)) + carriedOut
    {
      hide Try, CarriedOut, Rest;
      carriedOut := 0;
      for i := 0 to |list|
        invariant CarriedOut(log) == CarriedOut(old(log)) + carriedOut
        invariant Rest(book.Value()) == old(Rest(book.Value()))
        invariant Rest(book.file) in {old(Rest(book.file)), old(Rest(book.Value()))}
        invariant TryAll(old(View()), root, room, list, answers) == TryAll(View(), root, room, list[i..], answers)
      {
        assert list[i..][1..] == list[i + 1..];
        var ok := TryOne(room, list[i], AnswerTo(answers, ActionKey(list[i])));
        if ok {
          carriedOut := carriedOut + 1;
        }
      }
    }

    /** Remembers each state event the facts wrote under the approval it carries. */
    method RememberStateEvents(waiting: seq<Approval>, events: seq<(string, string)>)
      modifies book`approvals
      ensures Rest(book.Value()) == old(Rest(book.Value()))
      ensures book.approvals == WithEvents(old(book.approvals), root, KeysByFact(waiting), events)
    {
      var keys: map<string, string> := map[];
      for i := 0 to |waiting|
        invariant keys == KeysByFact(waiting[..i])
      {
        assert waiting[..i + 1][..i] == waiting[..i];
        keys := keys[waiting[i].id := waiting[i].key];
      }
      assert waiting[..|waiting|] == waiting;
      for i := 0 to |events|
        invariant WithEvents(old(book.approvals), root, keys, events)
                  == WithEvents(book.approvals, root, keys, events[i..])
      {
        assert events[i..][1..] == events[i + 1..];
        if events[i].0 !in keys {
          continue;
        }
        var key := keys[events[i].0];
        book.approvals := book.approvals[key := StateOf(book.approvals, key).(stateEventID := events[i].1,
            forgeRoot := root)];
      }
    }

    /** Brings the approvals room and the forge in step. The facts' own writes are `Facts`; here
        come in only the events they wrote, by state key. */
    method CarryOutApprovals(room: string, waiting: seq<Approval>, desk: map<string, string>, reactions: seq<Reaction>,
                             replies: seq<RoomEvent>, answers: map<string, Outcome>, events: seq<(string, string)>,
                             saves: bool)
      returns (carriedOut: nat, order: seq<string>)
      requires pending.keyOf == ActionKey
      modifies this, book`approvals, book`file, store, pending
      ensures Rest(book.Value()) == old(Rest(book.Value()))
      ensures Rest(book.file) in {old(Rest(book.file)), old(Rest(book.Value()))}
      ensures Walks(order, ScopedToRoom(old(book.approvals), room))
      ensures View() == ApprovalTick(old(View()), root, room, reader, order, waiting, desk, reactions, replies,
                                     answers, events, saves)
      ensures CarriedOut(log) == CarriedOut(old(log)) + carriedOut
    {
      hide Try, CarriedOut, Plan, ScopedToRoom, Walks, WithEvents, Rest;
      var actions;
      actions, order := MakePlan(reader, ScopedToRoom(book.approvals, room), waiting, desk, reactions, replies);
      pending.KeepAll(actions);
      var list := pending.List();
      carriedOut := TryEach(room, list, answers);
      RememberStateEvents(waiting, events);
      if events != [] {
        var _ := book.Save(saves);
      }
    }
  }
}
