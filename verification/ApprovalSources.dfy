/** Where every call, every resolution taken and every record comes from, over whole runs: a message some
    tick read, and the call that wrote it down (internal/bridge/approvals.go). */
module ApprovalSources {
  import opened Options
  import opened Text
  import opened Quote
  import opened Relay
  import opened PendingWork
  import opened ApprovalPlan
  import opened ApprovalDecisions
  import opened Approvals
  import opened ApprovalTries
  import opened ApprovalIsolation
  import opened ApprovalRuns

  // Calls.

  /** What one tick's reading calls for, on the records of its own room. */
  ghost predicate Due(approvals: map<string, ApprovalState>, desk: map<string, string>, v: Visit, a: Action) {
    var share := map k | k in approvals && approvals[k].roomID == v.room :: approvals[k];
    match a.kind
    case ResolveApproval =>
      Resolving(share, a)
      && (ByMark(v.reader, share, v.pending, v.reactions, a) || ByReply(v.reader, share, v.pending, v.replies, a)
          || ByText(v.reader, share, v.pending, v.replies, a))
    case AnswerGestures => GesturesAreDue(v.reader, share, v.pending, v.reactions, v.replies)
    case PostApproval => PostIsDue(share, v.pending, a)
    case ReactApproval => ReportIsDue(share, v.pending, desk, a)
    case ReplyApproval => ReportIsDue(share, v.pending, desk, a)
  }

  /** Some tick of a run called for this action. */
  ghost predicate CalledFor(s: Sys, h: Homes, steps: seq<Step>, a: Action)
    requires IsRun(s, h, steps)
    decreases |steps|
  {
    steps != []
    && ((steps[0].Tick? && Due(s.approvals, s.desk, steps[0].visit, a))
        || CalledFor(Do(s, h, steps[0]), h, steps[1..], a))
  }

  ghost predicate IsKept(kept: map<string, Action>, a: Action) {
    exists k | k in kept :: kept[k] == a
  }

  ghost predicate Waits(s: Sys, a: Action) {
    exists root | root in s.kept :: IsKept(s.kept[root], a)
  }

  ghost predicate InLog(log: seq<Entry>, a: Action) {
    exists e | e in log :: e.action == a
  }

  /** What the forge took of an approval is what one of some answers says. */
  ghost predicate TakenAmong(taken: map<string, string>, before: map<string, string>, key: string,
                             actions: iset<Action>) {
    key in taken ==>
      || (key in before && before[key] == taken[key])
      || exists a | a in actions :: a.kind == ResolveApproval && a.key == key && a.resolution == taken[key]
  }

  lemma TakenJoins(last: map<string, string>, mid: map<string, string>, first: map<string, string>, key: string,
                   later: iset<Action>, before: iset<Action>, all: iset<Action>)
    requires TakenAmong(last, mid, key, later) && TakenAmong(mid, first, key, before)
    requires forall a | a in later || a in before :: a in all
    ensures TakenAmong(last, first, key, all)
  {
  }

  lemma {:induction false} TryAllTries(d: Desk, root: string, room: string, actions: seq<Action>,
                                       answers: map<string, Outcome>, a: Action, key: string)
    ensures var after := TryAll(d, root, room, actions, answers);
            && (InLog(after.log, a) ==> InLog(d.log, a) || a in actions)
            && (IsKept(after.kept, a) ==> IsKept(d.kept, a))
            && TakenAmong(after.taken, d.taken, key, iset x | x in actions)
    decreases |actions|
  {
    hide Try, ActionKey;
    if actions != [] {
      var given := AnswerTo(answers, ActionKey(actions[0]));
      var next := Try(d, root, room, actions[0], given);
      TryShape(d, root, room, actions[0], given);
      TryKeepsLess(d, root, room, actions[0], given);
      assert InLog(next.log, a) ==> InLog(d.log, a) || a == actions[0];
      assert IsKept(next.kept, a) ==> IsKept(d.kept, a);
      assert actions[0] in actions && forall x | x in actions[1..] :: x in actions;
      TryAllTries(next, root, room, actions[1..], answers, a, key);
    }
  }

  lemma PlannedIsDue(d: Desk, desk: map<string, string>, v: Visit, a: Action)
    requires Ready(d, v) && a in Planned(d, desk, v)
    ensures Due(d.approvals, desk, v, a)
  {
    hide Plan, ByMark, ByReply, ByText, GesturesAreDue, Resolving, PostIsDue, ReportIsDue, Walks;
    PlanMembers(v.reader, ScopedToRoom(d.approvals, v.room), v.pending, desk, v.reactions, v.replies, v.order, a);
  }

  lemma KeptIsDue(d: Desk, desk: map<string, string>, v: Visit, a: Action)
    requires Ready(d, v) && IsKept(KeptAt(d, desk, v), a)
    ensures IsKept(d.kept, a) || Due(d.approvals, desk, v, a)
  {
    hide Ready, Planned, Kept, Due, ActionKey;
    var k :| k in KeptAt(d, desk, v) && KeptAt(d, desk, v)[k] == a;
    KeptMembers(d.kept, ActionKey, Planned(d, desk, v), k);
    if a in Planned(d, desk, v) {
      PlannedIsDue(d, desk, v, a);
    }
  }

  lemma ListedIsKept(kept: map<string, Action>, a: Action)
    requires a in Listed(kept)
    ensures IsKept(kept, a)
  {
    hide Sorted, InOrder;
    var keys := Sorted(kept.Keys);
    var i :| 0 <= i < |Listed(kept)| && Listed(kept)[i] == a;
    assert keys[i] in keys;
  }

  ghost function VisitSources(d: Desk, desk: map<string, string>, v: Visit): iset<Action> {
    iset a | IsKept(d.kept, a) || Due(d.approvals, desk, v, a)
  }

  ghost function StepSources(s: Sys, step: Step): iset<Action> {
    iset a | Waits(s, a) || (step.Tick? && Due(s.approvals, s.desk, step.visit, a))
  }

  ghost function Sources(s: Sys, h: Homes, steps: seq<Step>): iset<Action>
    requires IsRun(s, h, steps)
  {
    iset a | Waits(s, a) || CalledFor(s, h, steps, a)
  }

  /** A tick tries, keeps and is answered only what waited or what it read calls for. */
  lemma VisitTries(d: Desk, desk: map<string, string>, v: Visit, a: Action, key: string)
    requires Ready(d, v)
    ensures var after := Visited(d, desk, v);
            && (InLog(after.log, a) ==> InLog(d.log, a) || IsKept(d.kept, a) || Due(d.approvals, desk, v, a))
            && (IsKept(after.kept, a) ==> IsKept(d.kept, a) || Due(d.approvals, desk, v, a))
            && TakenAmong(after.taken, d.taken, key, VisitSources(d, desk, v))
  {
    hide Ready, TryAll, KeptAt, Listed, Visited, Due, IsKept, InLog;
    var kept := KeptAt(d, desk, v);
    var list := Listed(kept);
    TryAllTries(d.(kept := kept), v.root, v.room, list, v.answers, a, key);
    VisitedIs(d, desk, v);
    forall x | x in list || IsKept(kept, x) ensures IsKept(d.kept, x) || Due(d.approvals, desk, v, x) {
      if x in list {
        ListedIsKept(kept, x);
      }
      KeptIsDue(d, desk, v, x);
    }
  }

  lemma StepTries(s: Sys, h: Homes, step: Step, a: Action, key: string)
    requires Possible(s, h, step)
    ensures var next := Do(s, h, step);
            var here := StepSources(s, step);
            && (InLog(next.log, a) ==> InLog(s.log, a) || a in here)
            && (Waits(next, a) ==> a in here)
            && TakenAmong(next.taken, s.taken, key, here)
  {
    hide Ready, Visited, Due, IsKept, InLog;
    if step.Tick? {
      var d := DeskOf(s, h, step.visit.root);
      VisitTries(d, s.desk, step.visit, a, key);
      forall x | IsKept(d.kept, x) ensures Waits(s, x) {
        NothingIsKept(x);
      }
    }
  }

  lemma NothingIsKept(a: Action)
    ensures !IsKept(map[], a)
  {
  }

  lemma {:induction false} RunTries(s: Sys, h: Homes, steps: seq<Step>, a: Action, key: string)
    requires IsRun(s, h, steps)
    ensures var end := Run(s, h, steps);
            && (InLog(end.log, a) ==> InLog(s.log, a) || Waits(s, a) || CalledFor(s, h, steps, a))
            && TakenAmong(end.taken, s.taken, key, Sources(s, h, steps))
    decreases |steps|
  {
    hide Possible, Do, Due, Waits, InLog;
    if steps != [] {
      var next := Do(s, h, steps[0]);
      var later := Sources(next, h, steps[1..]);
      var here := StepSources(s, steps[0]);
      RunTries(next, h, steps[1..], a, key);
      StepTries(s, h, steps[0], a, key);
      forall x | Waits(next, x) ensures Waits(s, x) || CalledFor(s, h, steps, x) {
        StepTries(s, h, steps[0], x, key);
      }
      TakenJoins(Run(next, h, steps[1..]).taken, next.taken, s.taken, key, later, here,
                 Sources(s, h, steps));
    }
  }

  /** Over any run every call made was called for by what some tick read: a resolution is what a
      gesture of the operator's says of that approval, the gestures are named for one that says
      nothing, a post is of an approval not seen before, and a report says, on the approval's own
      message, how it ended. */
  lemma EveryCallIsDue(s: Sys, h: Homes, steps: seq<Step>, e: Entry)
    requires IsRun(s, h, steps) && s.kept == map[] && s.log == [] && e in Run(s, h, steps).log
    ensures CalledFor(s, h, steps, e.action)
  {
    hide IsRun, Run, CalledFor;
    RunTries(s, h, steps, e.action, "");
    assert InLog(Run(s, h, steps).log, e.action);
  }

  /** And what the forge took of an approval is what a gesture of the operator's said, in a tick of the
      run, or was taken before the start: nobody else's word and no failure approves anything. */
  lemma TakenIsWhatWasGestured(s: Sys, h: Homes, steps: seq<Step>, key: string)
    requires IsRun(s, h, steps) && s.kept == map[] && key in Run(s, h, steps).taken
    ensures var said := Run(s, h, steps).taken[key];
            || (key in s.taken && s.taken[key] == said)
            || exists a ::
                 CalledFor(s, h, steps, a) && a.kind == ResolveApproval && a.key == key && a.resolution == said
  {
    hide IsRun, Run, CalledFor;
    var all := Sources(s, h, steps);
    RunTries(s, h, steps, GESTURES, key);
    assert forall x :: !Waits(s, x);
    assert TakenAmong(Run(s, h, steps).taken, s.taken, key, all);
  }

  // Records.

  /** A landed call of one kind about an approval, with the id of the event it made. */
  ghost predicate Made(log: seq<Entry>, kind: Kind, key: string, eventID: string) {
    exists e | e in log ::
      e.action.kind == kind && e.action.key == key && e.outcome.Landed? && e.outcome.eventID == eventID
  }

  /** A landed call that says how an approval ended: a resolution, or a report of it. */
  ghost predicate MadeEnding(log: seq<Entry>, key: string, resolution: string) {
    exists e | e in log ::
      e.action.kind in {ResolveApproval, ReactApproval, ReplyApproval} && e.action.key == key && e.outcome.Landed?
      && e.action.resolution == resolution
  }

  /** Each part of a record is what it was at the start or was written by a call: the message by a
      post into a room of its own forge, the ending by a resolution taken or a report of it, the
      report by that report; and a record that was written in any way names its forge. */
  ghost predicate Written(first: ApprovalState, log: seq<Entry>, h: Homes, key: string, state: ApprovalState)
  {
    && (state == first || state.forgeRoot == h.ofKey(key))
    && (state.roomID == first.roomID || h.ofRoom(state.roomID) == h.ofKey(key))
    && (state.messageID == first.messageID || Made(log, PostApproval, key, state.messageID))
    && (state.resolution == first.resolution || MadeEnding(log, key, state.resolution))
    && (state.replyID == first.replyID || Made(log, ReplyApproval, key, state.replyID))
    && (state.reactionID == first.reactionID || Made(log, ReactApproval, key, state.reactionID))
  }

  ghost predicate BothWritten(first: ApprovalState, d: Desk, h: Homes, key: string) {
    Written(first, d.log, h, key, StateOf(d.approvals, key)) && Written(first, d.log, h, key, StateOf(d.file, key))
  }

  lemma WrittenLonger(first: ApprovalState, log: seq<Entry>, more: seq<Entry>, h: Homes, key: string,
                      state: ApprovalState)
    requires Written(first, log, h, key, state) && forall e | e in log :: e in more
    ensures Written(first, more, h, key, state)
  {
  }

  lemma WrittenByCall(first: ApprovalState, log: seq<Entry>, h: Homes, key: string, state: ApprovalState,
                      room: string, e: Entry)
    requires Written(first, log, h, key, state) && e in log && e.outcome.Landed? && e.action.key == key
    requires e.action.kind != AnswerGestures
    requires h.ofRoom(room) == h.ofKey(key)
    ensures Written(first, log, h, key, Recorded(state, h.ofKey(key), room, e.action, e.outcome.eventID))
  {
  }

  lemma TryIsWritten(d: Desk, root: string, room: string, a: Action, given: Outcome, first: ApprovalState,
                     h: Homes, key: string)
    requires BothWritten(first, d, h, key) && OwnWork(a, h, root) && h.ofRoom(room) == root
    ensures BothWritten(first, Try(d, root, room, a, given), h, key)
  {
    hide Try, ActionKey, Written, Recorded, StateOf, AnswerOf;
    var after := Try(d, root, room, a, given);
    TryShape(d, root, room, a, given);
    TriedState(d, root, room, a, given, key);
    WrittenLonger(first, d.log, after.log, h, key, StateOf(d.approvals, key));
    WrittenLonger(first, d.log, after.log, h, key, StateOf(d.file, key));
    var e := Entry(a, AnswerOf(d.open, a, given));
    assert e in after.log;
    if e.outcome.Landed? && a.key == key && a.kind != AnswerGestures {
      WrittenByCall(first, after.log, h, key, StateOf(d.approvals, key), room, e);
    }
  }

  lemma {:induction false} TryAllIsWritten(d: Desk, root: string, room: string, actions: seq<Action>,
                                           answers: map<string, Outcome>, first: ApprovalState, h: Homes,
                                           key: string)
    requires BothWritten(first, d, h, key) && h.ofRoom(room) == root && forall a | a in actions :: OwnWork(a, h, root)
    ensures BothWritten(first, TryAll(d, root, room, actions, answers), h, key)
    decreases |actions|
  {
    hide Try, ActionKey, BothWritten, OwnWork;
    if actions != [] {
      var given := AnswerTo(answers, ActionKey(actions[0]));
      TryIsWritten(d, root, room, actions[0], given, first, h, key);
      TryAllIsWritten(Try(d, root, room, actions[0], given), root, room, actions[1..], answers, first, h, key);
    }
  }

  lemma {:induction false} EventsAreWritten(approvals: map<string, ApprovalState>, root: string,
                                            keys: map<string, string>, events: seq<(string, string)>,
                                            first: ApprovalState, log: seq<Entry>, h: Homes, key: string)
    requires Written(first, log, h, key, StateOf(approvals, key)) && forall s | s in keys :: h.ofKey(keys[s]) == root
    ensures Written(first, log, h, key, StateOf(WithEvents(approvals, root, keys, events), key))
    decreases |events|
  {
    hide Made, MadeEnding;
    if events != [] {
      EventsAreWritten(WithEvent(approvals, root, keys, events[0].0, events[0].1), root, keys, events[1..], first, log,
                       h,
                       key);
    }
  }

  lemma VisitIsWritten(d: Desk, desk: map<string, string>, v: Visit, first: ApprovalState, h: Homes, key: string)
    requires Ready(d, v) && Homed(d.kept, h, v.root) && RoomsMatch(d.approvals, h) && AtHome(v, h)
    requires BothWritten(first, d, h, key)
    ensures BothWritten(first, Visited(d, desk, v), h, key)
  {
    hide ActionKey, TryAll, WithEvents, KeptAt, Ready, Listed, StateOf, Visited, Homed, RoomsMatch, Written, OwnWork;
    var kept, tried := KeptAt(d, desk, v), TriedAt(d, desk, v);
    KeptAtIsHomed(d, desk, v, h);
    TryAllIsWritten(d.(kept := kept), v.root, v.room, Listed(kept), v.answers, first, h, key);
    VisitedIs(d, desk, v);
    forall s | s in KeysByFact(v.pending) ensures h.ofKey(KeysByFact(v.pending)[s]) == v.root {
      KeysByFactNames(v.pending, s);
    }
    EventsAreWritten(tried.approvals, v.root, KeysByFact(v.pending), v.events, first, tried.log, h, key);
  }

  lemma {:induction false} RunIsWritten(s: Sys, h: Homes, steps: seq<Step>, first: ApprovalState, key: string)
    requires IsRun(s, h, steps) && Settled(s, h) && BothWritten(first, DeskOf(s, h, ""), h, key)
    ensures BothWritten(first, DeskOf(Run(s, h, steps), h, ""), h, key)
    decreases |steps|
  {
    hide Settled, BothWritten, Possible, Do;
    if steps != [] {
      StepIsWritten(s, h, steps[0], first, key);
      RunIsWritten(Do(s, h, steps[0]), h, steps[1..], first, key);
    }
  }

  lemma StepIsWritten(s: Sys, h: Homes, step: Step, first: ApprovalState, key: string)
    requires Possible(s, h, step) && Settled(s, h) && BothWritten(first, DeskOf(s, h, ""), h, key)
    ensures Settled(Do(s, h, step), h) && BothWritten(first, DeskOf(Do(s, h, step), h, ""), h, key)
  {
    hide Homed, RoomsMatch, Ready, Visited, Written;
    if step.Tick? {
      var v := step.visit;
      VisitIsAtHome(s, h, v);
      TickStaysSettled(s, h, v, step.recorded);
      VisitIsWritten(DeskOf(s, h, v.root), s.desk, v, first, h, key);
    }
  }

  /** Over any run from a start, each part of each record, in memory and in the file, was there at the
      start or was written by the call it stands for. */
  lemma RecordsComeFromCalls(s: Sys, h: Homes, steps: seq<Step>, key: string)
    requires Started(s, h) && IsRun(s, h, steps)
    ensures var end, first := Run(s, h, steps), StateOf(s.approvals, key);
            Written(first, end.log, h, key, StateOf(end.approvals, key))
            && Written(first, end.log, h, key, StateOf(end.file, key))
  {
    hide IsRun, Run, RoomsMatch;
    RunIsWritten(s, h, steps, StateOf(s.approvals, key), key);
  }
}
