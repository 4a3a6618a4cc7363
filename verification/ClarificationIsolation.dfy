/** Serving one forge's clarifications leaves another forge's alone: the bookkeeping is one map, and
    the room a question was posted in says whose it is (internal/bridge/bridge.go, clarifications.go). */
module ClarificationIsolation {
  import opened Options
  import opened Text
  import opened Quote
  import opened Relay
  import opened PendingWork
  import opened ClarificationPlan
  import opened Clarifications
  import opened ClarificationTries

  /** Whose each question and each room is. */
  datatype Homes = Homes(ofKey: string -> string, ofRoom: string -> string)

  /** A posted question's message is in a room of its own forge. */
  predicate RoomsMatch(book: map<string, ClarificationState>, h: Homes) {
    forall k | k in book && book[k].messageID != "" :: h.ofRoom(book[k].roomID) == h.ofKey(k)
  }

  predicate OwnWork(a: Action, h: Homes, root: string) {
    h.ofKey(a.key) == root
  }

  /** The work kept for a forge is about its own questions, each piece under its key. */
  predicate Homed(kept: map<string, Action>, h: Homes, root: string) {
    forall s | s in kept :: ActionKey(kept[s]) == s && OwnWork(kept[s], h, root)
  }

  /** A forge's room is its own, and so is every question it lists. */
  predicate AtHome(v: Visit, h: Homes) {
    h.ofRoom(v.room) == v.root && forall a | a in v.pending :: h.ofKey(a.key) == v.root
  }

  /** Nothing of one question is changed: not its record, not what the file holds of it but for a
      save of the whole bookkeeping, and nothing was taken or reported of it. */
  predicate LeavesAlone(d: Desk, after: Desk, key: string) {
    && StateOf(after.book, key) == StateOf(d.book, key)
    && StateOf(after.file, key) in {StateOf(d.file, key), StateOf(d.book, key)}
    && TookOf(after.taken, key) == TookOf(d.taken, key) && SameCounts(after.log, d.log, key)
  }

  lemma LeftAloneReadsTheSame(d: Desk, after: Desk, key: string)
    requires LeavesAlone(d, after, key)
    ensures ReadsTheSame(d, after, key)
  {
    hide StateOf, SameCounts, TookOf;
  }

  lemma TryLeavesAlone(d: Desk, root: string, room: string, a: Action, given: Outcome, key: string)
    requires a.key != key
    ensures LeavesAlone(d, Try(d, root, room, a, given), key)
  {
    hide Try, ActionKey, Applied, StateOf, AnswerOf;
    TryShape(d, root, room, a, given);
    TriedState(d, root, room, a, given, key);
    CountOne(d.log, Entry(a, AnswerOf(d.open, a, given)), key);
  }

  lemma {:induction false} TryAllLeavesAlone(d: Desk, root: string, room: string, actions: seq<Action>,
                                             answers: map<string, Outcome>, key: string)
    requires forall a | a in actions :: a.key != key
    ensures LeavesAlone(d, TryAll(d, root, room, actions, answers), key)
    decreases |actions|
  {
    hide Try, ActionKey, StateOf, TookOf;
    if actions != [] {
      var given := AnswerTo(answers, ActionKey(actions[0]));
      TryLeavesAlone(d, root, room, actions[0], given, key);
      TryAllLeavesAlone(Try(d, root, room, actions[0], given), root, room, actions[1..], answers, key);
    }
  }

  lemma {:induction false} WithEventsLeavesAlone(book: map<string, ClarificationState>, root: string,
                                                 keys: map<string, string>, events: seq<(string, string)>, key: string)
    requires forall s | s in keys :: keys[s] != key
    ensures StateOf(WithEvents(book, root, keys, events), key) == StateOf(book, key)
    decreases |events|
  {
    if events != [] {
      var one := WithEvent(book, root, keys, events[0].0, events[0].1);
      WithEventsLeavesAlone(one, root, keys, events[1..], key);
    }
  }

  /** What a tick keeps is its own forge's work. */
  lemma KeptAtIsHomed(d: Desk, v: Visit, h: Homes)
    requires Ready(d, v) && Homed(d.kept, h, v.root) && RoomsMatch(d.book, h) && AtHome(v, h)
    ensures Homed(KeptAt(d, v), h, v.root)
    ensures forall a | a in Listed(KeptAt(d, v)) :: OwnWork(a, h, v.root)
  {
    hide ActionKey, Planned, Kept, ReportSays, Walks, ScopedToRoom, Listed, KeptAt;
    var kept := KeptAt(d, v);
    KeptAtFits(d, v);
    forall s | s in kept ensures OwnWork(kept[s], h, v.root) {
      assert kept[s].key in Keys(v.pending) ==> h.ofKey(kept[s].key) == v.root;
    }
    forall a | a in Listed(kept) ensures OwnWork(a, h, v.root) {
      assert ActionKey(a) in kept && kept[ActionKey(a)] == a;
    }
  }

  /** Serving one forge, whatever fails, leaves every question of another forge alone. */
  lemma VisitLeavesOthersAlone(d: Desk, v: Visit, h: Homes, key: string)
    requires Ready(d, v) && Homed(d.kept, h, v.root) && RoomsMatch(d.book, h) && AtHome(v, h)
    requires h.ofKey(key) != v.root
    ensures LeavesAlone(d, Visited(d, v), key)
  {
    hide ActionKey, TryAll, WithEvents, KeptAt, Ready, Listed, StateOf, Visited, TookOf, Homed, RoomsMatch;
    var kept := KeptAt(d, v);
    KeptAtIsHomed(d, v, h);
    TryAllLeavesAlone(d.(kept := kept), v.root, v.room, Listed(kept), v.answers, key);
    VisitedIs(d, v);
    forall s | s in KeysByFact(v.pending) ensures KeysByFact(v.pending)[s] != key {
      KeysByFactNames(v.pending, s);
    }
    WithEventsLeavesAlone(TriedAt(d, v).book, v.root, KeysByFact(v.pending), v.events, key);
  }

  // Whose each question is stays told by its room.

  lemma AppliedMatches(book: map<string, ClarificationState>, root: string, room: string, a: Action, eventID: string,
                       h: Homes)
    requires RoomsMatch(book, h) && OwnWork(a, h, root) && h.ofRoom(room) == root
    ensures RoomsMatch(Applied(book, root, room, a, eventID), h)
  {
  }

  lemma {:induction false} TryAllMatches(d: Desk, root: string, room: string, actions: seq<Action>,
                                         answers: map<string, Outcome>, h: Homes)
    requires RoomsMatch(d.book, h) && RoomsMatch(d.file, h) && Homed(d.kept, h, root) && h.ofRoom(room) == root
    requires forall a | a in actions :: OwnWork(a, h, root)
    ensures var after := TryAll(d, root, room, actions, answers);
            RoomsMatch(after.book, h) && RoomsMatch(after.file, h) && Homed(after.kept, h, root)
    decreases |actions|
  {
    hide Try, ActionKey, Applied, RoomsMatch, OwnWork;
    if actions != [] {
      var given := AnswerTo(answers, ActionKey(actions[0]));
      TryShape(d, root, room, actions[0], given);
      TryKeepsLess(d, root, room, actions[0], given);
      assert actions[0] in actions;
      if given.Landed? {
        AppliedMatches(d.book, root, room, actions[0], given.eventID, h);
      }
      TryAllMatches(Try(d, root, room, actions[0], given), root, room, actions[1..], answers, h);
    }
  }

  lemma {:induction false} WithEventsMatches(book: map<string, ClarificationState>, root: string,
                                             keys: map<string, string>,
                                             events: seq<(string, string)>, h: Homes)
    requires RoomsMatch(book, h)
    ensures RoomsMatch(WithEvents(book, root, keys, events), h)
    decreases |events|
  {
    if events != [] {
      WithEventsMatches(WithEvent(book, root, keys, events[0].0, events[0].1), root, keys, events[1..], h);
    }
  }

  lemma VisitStaysAtHome(d: Desk, v: Visit, h: Homes)
    requires Ready(d, v) && Homed(d.kept, h, v.root) && AtHome(v, h)
    requires RoomsMatch(d.book, h) && RoomsMatch(d.file, h)
    ensures var after := Visited(d, v);
            RoomsMatch(after.book, h) && RoomsMatch(after.file, h) && Homed(after.kept, h, v.root)
    ensures Visited(d, v).open <= d.open
  {
    hide ActionKey, TryAll, WithEvents, KeptAt, Ready, Listed, Visited, Homed, RoomsMatch, OwnWork;
    var kept := KeptAt(d, v);
    KeptAtIsHomed(d, v, h);
    TryAllMatches(d.(kept := kept), v.root, v.room, Listed(kept), v.answers, h);
    OpenOnlyCloses(d.(kept := kept), v.root, v.room, Listed(kept), v.answers);
    VisitedIs(d, v);
    WithEventsMatches(TriedAt(d, v).book, v.root, KeysByFact(v.pending), v.events, h);
  }
}
