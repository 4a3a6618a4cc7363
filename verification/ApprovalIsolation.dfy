/** Serving one forge's approvals leaves another forge's alone: the bookkeeping is one map, and the
    room an approval was posted in says whose it is (internal/bridge/bridge.go, approvals.go). */
module ApprovalIsolation {
  import opened Options
  import opened Text
  import opened Quote
  import opened Relay
  import opened PendingWork
  import opened ApprovalPlan
  import opened ApprovalDecisions
  import opened Approvals
  import opened ApprovalTries

  /** Whose each approval and each room is. */
  datatype Homes = Homes(ofKey: string -> string, ofRoom: string -> string)

  /** A posted approval's message is in a room of its own forge. */
  predicate RoomsMatch(approvals: map<string, ApprovalState>, h: Homes) {
    forall k | k in approvals && approvals[k].messageID != "" :: h.ofRoom(approvals[k].roomID) == h.ofKey(k)
  }

  predicate OwnWork(a: Action, h: Homes, root: string) {
    a.kind != AnswerGestures ==> h.ofKey(a.key) == root
  }

  /** The work kept for a forge is about its own approvals, each piece under its key. */
  predicate Homed(kept: map<string, Action>, h: Homes, root: string) {
    forall s | s in kept :: ActionKey(kept[s]) == s && OwnWork(kept[s], h, root)
  }

  /** A forge's room is its own, and so is every approval it lists. */
  predicate AtHome(v: Visit, h: Homes) {
    h.ofRoom(v.room) == v.root && forall a | a in v.pending :: h.ofKey(a.key) == v.root
  }

  /** Nothing of one approval is changed: not its record, not what the file holds of it but for a
      save of the whole bookkeeping, and nothing was taken or reported of it. */
  predicate LeavesAlone(d: Desk, after: Desk, key: string) {
    && StateOf(after.approvals, key) == StateOf(d.approvals, key)
    && StateOf(after.file, key) in {StateOf(d.file, key), StateOf(d.approvals, key)}
    && TookOf(after.taken, key) == TookOf(d.taken, key) && SameCounts(after.log, d.log, key)
  }

  lemma LeftAloneReadsTheSame(d: Desk, after: Desk, key: string)
    requires LeavesAlone(d, after, key)
    ensures ReadsTheSame(d, after, key)
  {
    hide StateOf, SameCounts, TookOf;
  }

  lemma TryLeavesAlone(d: Desk, root: string, room: string, a: Action, given: Outcome, key: string)
    requires a.key != key || a.kind == AnswerGestures
    ensures LeavesAlone(d, Try(d, root, room, a, given), key)
  {
    hide Try, ActionKey, Applied, StateOf, AnswerOf;
    TryShape(d, root, room, a, given);
    TriedState(d, root, room, a, given, key);
    CountOne(d.log, Entry(a, AnswerOf(d.open, a, given)), key);
  }

  lemma {:induction false} TryAllLeavesAlone(d: Desk, root: string, room: string, actions: seq<Action>,
                                             answers: map<string, Outcome>, key: string)
    requires forall a | a in actions :: a.key != key || a.kind == AnswerGestures
    ensures LeavesAlone(d, TryAll(d, root, room, actions, answers), key)
    decreases |actions|
  {
    hide Try, ActionKey, StateOf, TookOf;
    if actions != [] {
      var given := AnswerTo(answers, ActionKey(actions[0]));
      TryLeavesAlone(d, root, room, actions[0], given, key);
      TryAllLeavesAlone(Try(d, root, room, actions[0], given), root, room, actions[1..], answers, key);
    }
  }

  lemma {:induction false} WithEventsLeavesAlone(approvals: map<string, ApprovalState>, root: string,
                                                 keys: map<string, string>, events: seq<(string, string)>, key: string)
    requires forall s | s in keys :: keys[s] != key
    ensures StateOf(WithEvents(approvals, root, keys, events), key) == StateOf(approvals, key)
    decreases |events|
  {
    if events != [] {
      var one := WithEvent(approvals, root, keys, events[0].0, events[0].1);
      WithEventsLeavesAlone(one, root, keys, events[1..], key);
    }
  }

  /** What a tick keeps is its own forge's work. */
  lemma KeptAtIsHomed(d: Desk, desk: map<string, string>, v: Visit, h: Homes)
    requires Ready(d, v) && Homed(d.kept, h, v.root) && RoomsMatch(d.approvals, h) && AtHome(v, h)
    ensures Homed(KeptAt(d, desk, v), h, v.root)
    ensures forall a | a in Listed(KeptAt(d, desk, v)) :: OwnWork(a, h, v.root)
  {
    hide ActionKey, Planned, Kept, Ending, SaysEnding, Walks, ScopedToRoom, Listed, KeptAt;
    var kept := KeptAt(d, desk, v);
    KeptAtFits(d, desk, v);
    forall s | s in kept ensures OwnWork(kept[s], h, v.root) {
      assert kept[s].key in Keys(v.pending) ==> h.ofKey(kept[s].key) == v.root;
    }
    forall a | a in Listed(kept) ensures OwnWork(a, h, v.root) {
      assert ActionKey(a) in kept && kept[ActionKey(a)] == a;
    }
  }

  /** Serving one forge, whatever fails, leaves every approval of another forge alone. */
  lemma VisitLeavesOthersAlone(d: Desk, desk: map<string, string>, v: Visit, h: Homes, key: string)
    requires Ready(d, v) && Homed(d.kept, h, v.root) && RoomsMatch(d.approvals, h) && AtHome(v, h)
    requires h.ofKey(key) != v.root
    ensures LeavesAlone(d, Visited(d, desk, v), key)
  {
    hide ActionKey, TryAll, WithEvents, KeptAt, Ready, Listed, StateOf, Visited, TookOf, Homed, RoomsMatch;
    var kept := KeptAt(d, desk, v);
    KeptAtIsHomed(d, desk, v, h);
    TryAllLeavesAlone(d.(kept := kept), v.root, v.room, Listed(kept), v.answers, key);
    VisitedIs(d, desk, v);
    forall s | s in KeysByFact(v.pending) ensures KeysByFact(v.pending)[s] != key {
      KeysByFactNames(v.pending, s);
    }
    WithEventsLeavesAlone(TriedAt(d, desk, v).approvals, v.root, KeysByFact(v.pending), v.events, key);
  }

  // Whose each approval is stays told by its room.

  lemma AppliedMatches(approvals: map<string, ApprovalState>, root: string, room: string, a: Action, eventID: string,
                       h: Homes)
    requires RoomsMatch(approvals, h) && OwnWork(a, h, root) && h.ofRoom(room) == root
    ensures RoomsMatch(Applied(approvals, root, room, a, eventID), h)
  {
  }

  lemma {:induction false} TryAllMatches(d: Desk, root: string, room: string, actions: seq<Action>,
                                         answers: map<string, Outcome>, h: Homes)
    requires RoomsMatch(d.approvals, h) && RoomsMatch(d.file, h) && Homed(d.kept, h, root) && h.ofRoom(room) == root
    requires forall a | a in actions :: OwnWork(a, h, root)
    ensures var after := TryAll(d, root, room, actions, answers);
            RoomsMatch(after.approvals, h) && RoomsMatch(after.file, h) && Homed(after.kept, h, root)
    decreases |actions|
  {
    hide Try, ActionKey, Applied, RoomsMatch, OwnWork;
    if actions != [] {
      var given := AnswerTo(answers, ActionKey(actions[0]));
      TryShape(d, root, room, actions[0], given);
      TryKeepsLess(d, root, room, actions[0], given);
      assert actions[0] in actions;
      if given.Landed? {
        AppliedMatches(d.approvals, root, room, actions[0], given.eventID, h);
      }
      TryAllMatches(Try(d, root, room, actions[0], given), root, room, actions[1..], answers, h);
    }
  }

  lemma {:induction false} WithEventsMatches(approvals: map<string, ApprovalState>, root: string,
                                             keys: map<string, string>,
                                             events: seq<(string, string)>, h: Homes)
    requires RoomsMatch(approvals, h)
    ensures RoomsMatch(WithEvents(approvals, root, keys, events), h)
    decreases |events|
  {
    if events != [] {
      WithEventsMatches(WithEvent(approvals, root, keys, events[0].0, events[0].1), root, keys, events[1..], h);
    }
  }

  lemma VisitStaysAtHome(d: Desk, desk: map<string, string>, v: Visit, h: Homes)
    requires Ready(d, v) && Homed(d.kept, h, v.root) && AtHome(v, h)
    requires RoomsMatch(d.approvals, h) && RoomsMatch(d.file, h)
    ensures var after := Visited(d, desk, v);
            RoomsMatch(after.approvals, h) && RoomsMatch(after.file, h) && Homed(after.kept, h, v.root)
    ensures Visited(d, desk, v).open <= d.open
  {
    hide ActionKey, TryAll, WithEvents, KeptAt, Ready, Listed, Visited, Homed, RoomsMatch, OwnWork;
    var kept := KeptAt(d, desk, v);
    KeptAtIsHomed(d, desk, v, h);
    TryAllMatches(d.(kept := kept), v.root, v.room, Listed(kept), v.answers, h);
    OpenOnlyCloses(d.(kept := kept), v.root, v.room, Listed(kept), v.answers);
    VisitedIs(d, desk, v);
    WithEventsMatches(TriedAt(d, desk, v).approvals, v.root, KeysByFact(v.pending), v.events, h);
  }
}
