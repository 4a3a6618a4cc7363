/** What the operator is told of an approval the forge took from the bridge, over whole runs, and
    what becomes of a report when the desk's record changes while it waits (internal/relay/approvals.go,
    swarmforge/scripts/pack_web.bb). */
module ApprovalReports {
  import opened Options
  import opened Text
  import opened Quote
  import opened Relay
  import opened PendingWork
  import opened ApprovalPlan
  import opened ApprovalDecisions
  import opened Approvals
  import opened ApprovalTries
  import opened ApprovalIsolation
  import opened ApprovalRuns
  import ApprovalOrder

  /** What was taken, as a set of one. */
  function TookAs(d: Desk, key: string): set<string> {
    if key in d.taken then {d.taken[key]} else {}
  }

  /** Some words a report may say, by the mark or the reply they are due. */
  predicate TellsAmong(a: Action, words: set<string>) {
    a.resolution in words && SaysEnding(a)
  }

  predicate KeptAmong(d: Desk, key: string, words: set<string>) {
    forall s | s in d.kept && d.kept[s].key == key && IsReport(d.kept[s]) :: d.kept[s].resolution in words
  }

  predicate ToldAmong(log: seq<Entry>, key: string, words: set<string>) {
    forall a | a in Tellings(log, key) :: TellsAmong(a, words)
  }

  /** Records, waiting reports and landed reports say what was taken, or one of some other words. */
  predicate SaysAmong(d: Desk, key: string, words: set<string>) {
    && StateOf(d.approvals, key).resolution in words + {""} && StateOf(d.file, key).resolution in words + {""}
    && KeptAmong(d, key, words) && ToldAmong(d.log, key, words)
  }

  /** Nothing is told of an approval before it is over; and once the forge took a resolution of it
      from the bridge, nothing else is said but some other words. */
  predicate Straight(d: Desk, key: string, unborn: bool, other: set<string>) {
    && (Undone(d, key, unborn) ==> Tellings(d.log, key) == {})
    && (Resolutions(d.log, key) > 0 ==>
          key in d.taken && d.taken[key] in {APPROVED, SENT_BACK} && SaysAmong(d, key, TookAs(d, key) + other))
  }

  /** Work that is no report and no resolution of this approval says nothing. */
  lemma TryBesideIsStraight(d: Desk, root: string, room: string, a: Action, given: Outcome, key: string, unborn: bool,
                            other: set<string>)
    requires Straight(d, key, unborn, other) && GoodAnswer(given)
    requires a.key != key || a.kind in {AnswerGestures, PostApproval}
    ensures Straight(Try(d, root, room, a, given), key, unborn, other)
  {
    hide ActionKey, Try, Applied, StateOf, AnswerOf, SaysEnding;
    TryShape(d, root, room, a, given);
    CountOne(d.log, Entry(a, AnswerOf(d.open, a, given)), key);
    TriedState(d, root, room, a, given, key);
    TryKeepsLess(d, root, room, a, given);
  }

  /** A resolution the forge takes finds nothing told or waiting to be told. */
  lemma TryResolvesStraight(d: Desk, root: string, room: string, a: Action, given: Outcome, key: string, p: Past,
                            other: set<string>)
    requires Straight(d, key, p.unborn, other) && Healthy(d, key, p) && GoodAnswer(given)
    requires a.key == key && a.kind == ResolveApproval
    ensures Straight(Try(d, root, room, a, given), key, p.unborn, other)
  {
    hide ActionKey, Try, Applied, StateOf, AnswerOf, SaysEnding, Ending, MarkMatches, AllVouched, Unheard, KeptKeyed;
    TryShape(d, root, room, a, given);
    CountOne(d.log, Entry(a, AnswerOf(d.open, a, given)), key);
    TriedState(d, root, room, a, given, key);
    TryKeepsLess(d, root, room, a, given);
  }

  /** A report that lands says what waited to be said. */
  lemma TryReportsStraight(d: Desk, root: string, room: string, a: Action, given: Outcome, p: Past,
                           other: set<string>)
    requires Straight(d, a.key, p.unborn, other) && Healthy(d, a.key, p) && GoodAnswer(given) && IsReport(a)
    requires ActionKey(a) in d.kept && d.kept[ActionKey(a)] == a
    ensures Straight(Try(d, root, room, a, given), a.key, p.unborn, other)
  {
    hide ActionKey, Try, Applied, StateOf, AnswerOf, SaysEnding, Ending, FacetGood, AllVouched, Unheard, KeptKeyed;
    TryShape(d, root, room, a, given);
    CountOne(d.log, Entry(a, AnswerOf(d.open, a, given)), a.key);
    TriedState(d, root, room, a, given, a.key);
    TryKeepsLess(d, root, room, a, given);
  }

  lemma TryStaysStraight(d: Desk, root: string, room: string, a: Action, given: Outcome, key: string, p: Past,
                         other: set<string>)
    requires Straight(d, key, p.unborn, other) && Healthy(d, key, p) && GoodAnswer(given)
    requires ActionKey(a) in d.kept && d.kept[ActionKey(a)] == a
    ensures Straight(Try(d, root, room, a, given), key, p.unborn, other)
  {
    hide Straight, Healthy, Try, ActionKey;
    if a.key != key || a.kind in {AnswerGestures, PostApproval} {
      TryBesideIsStraight(d, root, room, a, given, key, p.unborn, other);
    } else if a.kind == ResolveApproval {
      TryResolvesStraight(d, root, room, a, given, key, p, other);
    } else {
      TryReportsStraight(d, root, room, a, given, p, other);
    }
  }

  lemma {:induction false} TryAllStaysStraight(d: Desk, root: string, room: string, actions: seq<Action>,
                                               answers: map<string, Outcome>, key: string, p: Past,
                                               other: set<string>)
    requires Straight(d, key, p.unborn, other) && Healthy(d, key, p) && GoodAnswers(answers) && Waiting(d.kept, actions)
    ensures Straight(TryAll(d, root, room, actions, answers), key, p.unborn, other)
    decreases |actions|
  {
    hide Straight, Healthy, Try, ActionKey;
    if actions != [] {
      var given := AnswerTo(answers, ActionKey(actions[0]));
      TryStaysStraight(d, root, room, actions[0], given, key, p, other);
      TryStaysHealthy(d, root, room, actions[0], given, key, p);
      WaitingAfter(d, root, room, actions, given);
      TryAllStaysStraight(Try(d, root, room, actions[0], given), root, room, actions[1..], answers, key, p, other);
    }
  }

  /** What a plan adds says what the record says or, where it is empty, what the desk does. */
  lemma KeepingStaysStraight(d: Desk, v: Visit, key: string, p: Past, other: set<string>)
    requires Ready(d, v) && Healthy(d, key, p) && Straight(d, key, p.unborn, other)
    requires Resolutions(d.log, key) > 0 ==> Ending("", Get(p.desk, key)) in TookAs(d, key) + other
    ensures Straight(d.(kept := KeptAt(d, p.desk, v)), key, p.unborn, other)
  {
    hide ActionKey, KeptAt, Ready, Facet, AllVouched, KeptWell, Unheard, Waiting, Listed, StateOf, SaysEnding,
         ToldAmong, Get;
    KeptAtFits(d, p.desk, v);
  }

  /** A tick of its own forge. */
  lemma VisitStaysStraight(d: Desk, v: Visit, key: string, p: Past, other: set<string>)
    requires Ready(d, v) && Healthy(d, key, p) && Straight(d, key, p.unborn, other)
    requires Resolutions(d.log, key) > 0 ==> Ending("", Get(p.desk, key)) in TookAs(d, key) + other
    ensures Straight(Visited(d, p.desk, v), key, p.unborn, other)
  {
    hide ActionKey, Healthy, Straight, TryAll, WithEvents, KeptAt, Ready, Waiting, Listed, StateOf, Visited, Ending;
    var kept, tried := KeptAt(d, p.desk, v), TriedAt(d, p.desk, v);
    KeepingStaysStraight(d, v, key, p, other);
    KeepingStaysHealthy(d, v, key, p);
    assert GoodAnswers(v.answers) by { AnswersOf(d, v); }
    TryAllStaysStraight(d.(kept := kept), v.root, v.room, Listed(kept), v.answers, key, p, other);
    VisitedIs(d, p.desk, v);
    WithEventsDecidesNothing(tried.approvals, v.root, KeysByFact(v.pending), v.events, key);
    ReadingTheSameStaysStraight(tried, Visited(d, p.desk, v), key, p.unborn, other);
  }

  lemma ReadingTheSameStaysStraight(d: Desk, after: Desk, key: string, unborn: bool, other: set<string>)
    requires Straight(d, key, unborn, other) && ReadsTheSame(d, after, key)
    requires after.kept == d.kept && (key in after.open <==> key in d.open)
    ensures Straight(after, key, unborn, other)
  {
    hide ActionKey, SaysEnding, StateOf;
  }

  lemma {:induction false} ClosedTakesNothing(d: Desk, root: string, room: string, actions: seq<Action>,
                                              answers: map<string, Outcome>, key: string)
    requires key !in d.open
    ensures Resolutions(TryAll(d, root, room, actions, answers).log, key) == Resolutions(d.log, key)
    decreases |actions|
  {
    hide Try, ActionKey;
    if actions != [] {
      var given := AnswerTo(answers, ActionKey(actions[0]));
      TryShape(d, root, room, actions[0], given);
      CountOne(d.log, Entry(actions[0], AnswerOf(d.open, actions[0], given)), key);
      ClosedTakesNothing(Try(d, root, room, actions[0], given), root, room, actions[1..], answers, key);
    }
  }

  // A record that changes while a report waits.

  /** How often some reports of one approval would land. */
  function Landing(actions: seq<Action>, answers: map<string, Outcome>, key: string): nat {
    if actions == [] then 0
    else (if IsReport(actions[0]) && actions[0].key == key && AnswerTo(answers, ActionKey(actions[0])).Landed?
          then 1 else 0)
         + Landing(actions[1..], answers, key)
  }

  lemma {:induction false} AllThatLandAreCounted(d: Desk, root: string, room: string, actions: seq<Action>,
                                                 answers: map<string, Outcome>, key: string)
    ensures Reports(TryAll(d, root, room, actions, answers).log, key)
            == Reports(d.log, key) + Landing(actions, answers, key)
    decreases |actions|
  {
    hide Try, ActionKey;
    if actions != [] {
      var given := AnswerTo(answers, ActionKey(actions[0]));
      TryShape(d, root, room, actions[0], given);
      CountOne(d.log, Entry(actions[0], AnswerOf(d.open, actions[0], given)), key);
      AllThatLandAreCounted(Try(d, root, room, actions[0], given), root, room, actions[1..], answers, key);
    }
  }

  predicate AllSaved(answers: map<string, Outcome>) {
    forall k | k in answers && answers[k].Landed? :: answers[k].saved
  }

  lemma {:induction false} NothingIsLost(d: Desk, root: string, room: string, actions: seq<Action>,
                                         answers: map<string, Outcome>, key: string)
    requires AllSaved(answers)
    ensures LostReports(TryAll(d, root, room, actions, answers).log, key) == LostReports(d.log, key)
    decreases |actions|
  {
    hide Try, ActionKey;
    if actions != [] {
      var given := AnswerTo(answers, ActionKey(actions[0]));
      TryShape(d, root, room, actions[0], given);
      CountOne(d.log, Entry(actions[0], AnswerOf(d.open, actions[0], given)), key);
      NothingIsLost(Try(d, root, room, actions[0], given), root, room, actions[1..], answers, key);
    }
  }

  lemma {:induction false} LandingAtLeastOne(actions: seq<Action>, answers: map<string, Outcome>, key: string,
                                             a: Action)
    requires a in actions && IsReport(a) && a.key == key && AnswerTo(answers, ActionKey(a)).Landed?
    ensures Landing(actions, answers, key) >= 1
  {
    hide ActionKey;
    if a != actions[0] {
      LandingAtLeastOne(actions[1..], answers, key, a);
    }
  }

  lemma {:induction false} LandingAtLeastTwo(actions: seq<Action>, answers: map<string, Outcome>, key: string,
                                             a: Action,
                                             b: Action)
    requires a in actions && IsReport(a) && a.key == key && AnswerTo(answers, ActionKey(a)).Landed?
    requires b in actions && IsReport(b) && b.key == key && AnswerTo(answers, ActionKey(b)).Landed? && a != b
    ensures Landing(actions, answers, key) >= 2
  {
    hide ActionKey;
    if a == actions[0] {
      LandingAtLeastOne(actions[1..], answers, key, b);
    } else if b == actions[0] {
      LandingAtLeastOne(actions[1..], answers, key, a);
    } else {
      LandingAtLeastTwo(actions[1..], answers, key, a, b);
    }
  }

  /** Two reports of one approval that say different things are two pieces of work. */
  lemma DifferentWordsDifferentKeys(a: Action, b: Action)
    requires IsReport(a) && IsReport(b) && a.key == b.key && a.resolution != b.resolution
    ensures ActionKey(a) != ActionKey(b)
  {
    if a.kind == b.kind {
      var front := KindName(a.kind) + "/";
      assert ActionKey(a)[|front|..] == a.key + "/" + a.resolution;
      assert ActionKey(b)[|front|..] == b.key + "/" + b.resolution;
      assert (a.key + "/" + a.resolution)[|a.key| + 1..] == a.resolution;
      assert (b.key + "/" + b.resolution)[|a.key| + 1..] == b.resolution;
    } else {
      assert ActionKey(a)[2] != ActionKey(b)[2];
    }
  }

  lemma {:induction false} AllWaitingAreListed(kept: map<string, Action>, s: string)
    requires s in kept
    ensures kept[s] in Listed(kept)
  {
    hide Sorted, InOrder;
    SortedIsAscending(kept.Keys);
    var i :| 0 <= i < |Sorted(kept.Keys)| && Sorted(kept.Keys)[i] == s;
    assert Listed(kept)[i] == kept[s];
  }

  /** A quiet tick of a room that carries one approval, over and not reported: what it keeps. */
  predicate QuietFor(d: Desk, v: Visit, key: string) {
    && v.pending == [] && v.reactions == [] && v.replies == [] && ScopedToRoom(d.approvals, v.room).Keys == {key}
    && StateOf(d.approvals, key).messageID != "" && !Reported(StateOf(d.approvals, key))
  }

  lemma QuietKeeps(d: Desk, desk: map<string, string>, v: Visit, key: string, waiting: Action)
    requires Ready(d, v) && QuietFor(d, v, key) && IsReport(waiting) && waiting.key == key
             && d.kept == map[ActionKey(waiting) := waiting]
    requires waiting.resolution != Ending(StateOf(d.approvals, key).resolution, Get(desk, key))
    ensures var due := ResolutionReport(key, StateOf(d.approvals, key), Get(desk, key));
            && IsReport(due) && due.key == key && due != waiting && ActionKey(due) != ActionKey(waiting)
            && waiting in Listed(KeptAt(d, desk, v)) && due in Listed(KeptAt(d, desk, v))
  {
    hide ActionKey, Plan, Kept, ScopedToRoom, Listed, Ending, SaysEnding, StateOf, Walks;
    var st, due := ScopedToRoom(d.approvals, v.room), ResolutionReport(key, StateOf(d.approvals, key), Get(desk, key));
    ScopedState(d.approvals, v.room, key);
    DueIsAReport(key, StateOf(d.approvals, key), Get(desk, key));
    DifferentWordsDifferentKeys(waiting, due);
    forall a | a in Planned(d, desk, v) ensures a == due {
      PlannedQuietly(d, desk, v, key, a);
    }
    ReportsAreDue(st, v.pending, desk, due);
    PlanMembers(v.reader, st, v.pending, desk, v.reactions, v.replies, v.order, due);
    var kept := KeptAt(d, desk, v);
    KeptKeys(d.kept, ActionKey, Planned(d, desk, v));
    KeptMembers(d.kept, ActionKey, Planned(d, desk, v), ActionKey(waiting));
    KeptMembers(d.kept, ActionKey, Planned(d, desk, v), ActionKey(due));
    AllWaitingAreListed(kept, ActionKey(waiting));
    AllWaitingAreListed(kept, ActionKey(due));
  }

  lemma DueIsAReport(key: string, state: ApprovalState, desk: string)
    ensures var due := ResolutionReport(key, state, desk);
            IsReport(due) && due.key == key && due.resolution == Ending(state.resolution, desk)
  {
  }

  lemma PlannedQuietly(d: Desk, desk: map<string, string>, v: Visit, key: string, a: Action)
    requires Ready(d, v) && QuietFor(d, v, key) && a in Planned(d, desk, v)
    ensures a == ResolutionReport(key, StateOf(d.approvals, key), Get(desk, key))
  {
    hide ActionKey, ScopedToRoom, Ending, StateOf, ResolutionReport, UnreportedResolution;
    var st := ScopedToRoom(d.approvals, v.room);
    assert forall k | k in v.order :: k in st;
    assert Keys(v.pending) == {};
    var byEvent := ByEvent(st, []);
    assert ApprovedByReaction(v.reader, st, byEvent, []) == [] == UnansweredReactions(v.reader, []);
    assert TextGestures(v.reader, st, [], byEvent, []) == [] == UnpostedApprovals(st, []);
    assert Plan(v.reader, st, [], desk, [], [], v.order) == ResolutionsToReport(st, {}, desk, v.order);
    ReportMembers(st, {}, desk, v.order, a);
    ScopedState(d.approvals, v.room, key);
  }

  /** The condition on such changes is needed: when the desk's record came or went while a report
      waits that says otherwise, a tick whose calls and saves all go through reports twice. */
  lemma ChangedRecordIsToldTwice(d: Desk, desk: map<string, string>, v: Visit, key: string, waiting: Action)
    requires Ready(d, v) && QuietFor(d, v, key) && IsReport(waiting) && waiting.key == key
             && d.kept == map[ActionKey(waiting) := waiting]
    requires !ReportsAgree(d, key, Get(desk, key))
    requires forall a | a in {waiting, ResolutionReport(key, StateOf(d.approvals, key), Get(desk, key))} ::
               AnswerTo(v.answers, ActionKey(a)).Landed?
    requires AllSaved(v.answers)
    ensures Reports(Visited(d, desk, v).log, key) >= Reports(d.log, key) + 2
    ensures LostReports(Visited(d, desk, v).log, key) == LostReports(d.log, key)
  {
    hide ActionKey, Ready, KeptAt, Listed, TryAll, ResolutionReport, StateOf, Ending, Visited, QuietFor;
    var kept, due := KeptAt(d, desk, v), ResolutionReport(key, StateOf(d.approvals, key), Get(desk, key));
    QuietKeeps(d, desk, v, key, waiting);
    LandingAtLeastTwo(Listed(kept), v.answers, key, waiting, due);
    AllThatLandAreCounted(d.(kept := kept), v.root, v.room, Listed(kept), v.answers, key);
    NothingIsLost(d.(kept := kept), v.root, v.room, Listed(kept), v.answers, key);
    VisitedIs(d, desk, v);
  }

  // Runs.

  /** What the desk has written down of an approval the bridge resolved is what was taken, and it
      may have nothing only where the desktop's own words are allowed. */
  predicate DeskSays(s: Sys, key: string, other: set<string>) {
    Resolutions(s.log, key) > 0 ==>
      if key in s.desk then key in s.taken && s.desk[key] == s.taken[key] else DESKTOP in other
  }

  predicate StraightIn(s: Sys, h: Homes, key: string, other: set<string>) {
    Straight(DeskOf(s, h, h.ofKey(key)), key, key !in s.ever, other) && DeskSays(s, key, other)
  }

  /** The desk writes this approval down when it takes it from the bridge, and keeps the record. */
  predicate Records(step: Step, key: string) {
    && (step.Tick? ==> key in step.recorded)
    && (step.Rewrite? && step.key == key ==> step.record.Some?)
  }

  /** Before a tick the desk calls for nothing that may not be said. */
  lemma DeskCallsFor(s: Sys, h: Homes, key: string, other: set<string>)
    requires StraightIn(s, h, key, other) && Resolutions(s.log, key) > 0
    ensures Ending("", Get(s.desk, key)) in TookAs(DeskOf(s, h, h.ofKey(key)), key) + other
  {
    hide SaysAmong;
  }

  lemma OpenIsUnresolved(d: Desk, key: string, p: Past)
    requires Healthy(d, key, p) && Undone(d, key, p.unborn)
    ensures Resolutions(d.log, key) == 0
  {
    hide KeptWell, AllVouched, Unheard, KeptKeyed;
  }

  /** What a tick took of an approval that was over before it: nothing more. */
  lemma OverStaysTaken(d: Desk, desk: map<string, string>, v: Visit, key: string)
    requires Ready(d, v) && key !in d.open
    ensures Resolutions(Visited(d, desk, v).log, key) == Resolutions(d.log, key)
    ensures TookOf(Visited(d, desk, v).taken, key) == TookOf(d.taken, key)
  {
    hide Ready, Visited, TryAll, KeptAt, Listed;
    var start, list := d.(kept := KeptAt(d, desk, v)), Listed(KeptAt(d, desk, v));
    ClosedTakesNothing(start, v.root, v.room, list, v.answers, key);
    ApprovalOrder.TakenStays(start, v.root, v.room, list, v.answers, key);
    VisitedIs(d, desk, v);
  }

  lemma OwnTickDeskSays(s: Sys, h: Homes, v: Visit, recorded: set<string>, key: string, first: string,
                        other: set<string>)
    requires CanTick(s, h, v) && Fine(s, h, key, first) && StraightIn(s, h, key, other) && h.ofKey(key) == v.root
    requires key in recorded || DESKTOP in other
    requires var after := TickDesk(s, h, v);
             Healthy(after, key, PastOf(s, key, first)) && Straight(after, key, key !in s.ever, other)
    ensures DeskSays(Do(s, h, Tick(v, recorded)), key, other)
  {
    hide Settled, Healthy, Ready, Visited, SaysAmong, Get;
    var d, p := DeskOf(s, h, v.root), PastOf(s, key, first);
    var after := TickDesk(s, h, v);
    WrittenAt(s, h, v, recorded, key);
    if key !in s.open {
      OverStaysTaken(d, s.desk, v, key);
    } else if Resolutions(after.log, key) > 0 {
      OpenIsUnwritten(d, key, p);
      if Undone(after, key, p.unborn) {
        OpenIsUnresolved(after, key, p);
      }
    }
  }

  lemma OwnTickStaysStraight(s: Sys, h: Homes, v: Visit, recorded: set<string>, key: string, first: string,
                             other: set<string>)
    requires CanTick(s, h, v) && Fine(s, h, key, first) && StraightIn(s, h, key, other) && h.ofKey(key) == v.root
    requires key in recorded || DESKTOP in other
    ensures StraightIn(Do(s, h, Tick(v, recorded)), h, key, other)
  {
    hide Settled, Healthy, Ready, Visited, SaysAmong, Get, DeskSays, WrittenIn;
    var d, p := DeskOf(s, h, v.root), PastOf(s, key, first);
    if Resolutions(s.log, key) > 0 {
      DeskCallsFor(s, h, key, other);
    }
    TickStaysSettled(s, h, v, recorded);
    VisitStaysStraight(d, v, key, p, other);
    VisitStaysHealthy(d, v, key, p);
    OwnTickDeskSays(s, h, v, recorded, key, first, other);
    assert DeskOf(Do(s, h, Tick(v, recorded)), h, h.ofKey(key)) == TickDesk(s, h, v);
  }

  lemma ReadsAsMany(d: Desk, after: Desk, key: string)
    requires ReadsTheSame(d, after, key)
    ensures Resolutions(after.log, key) == Resolutions(d.log, key) && TookOf(after.taken, key) == TookOf(d.taken, key)
  {
  }

  lemma TickElsewhereStaysStraight(s: Sys, h: Homes, v: Visit, recorded: set<string>, key: string,
                                   other: set<string>)
    requires CanTick(s, h, v) && Settled(s, h) && StraightIn(s, h, key, other) && h.ofKey(key) != v.root
    ensures StraightIn(Do(s, h, Tick(v, recorded)), h, key, other)
  {
    hide Settled, Ready, Visited, WrittenIn, Straight, ReadsTheSame;
    var mine, next := DeskOf(s, h, h.ofKey(key)), DeskOf(Do(s, h, Tick(v, recorded)), h, h.ofKey(key));
    TickElsewhereReadsTheSame(s, h, v, recorded, key);
    WrittenAt(s, h, v, recorded, key);
    ReadingTheSameStaysStraight(mine, next, key, key !in s.ever, other);
    assert Resolutions(next.log, key) == Resolutions(mine.log, key)
           && TookOf(next.taken, key) == TookOf(mine.taken, key)
    by { ReadsAsMany(mine, next, key); }
  }

  lemma QuietStepStaysStraight(s: Sys, h: Homes, step: Step, key: string, first: string, other: set<string>)
    requires !step.Tick? && Possible(s, h, step) && Fine(s, h, key, first) && StraightIn(s, h, key, other)
    requires Records(step, key) || DESKTOP in other
    ensures StraightIn(Do(s, h, step), h, key, other)
  {
    hide Settled, Healthy, SaysAmong, ReportsAgree, DeskSays;
    QuietStepDeskSays(s, h, step, key, first, other);
    var d, p := DeskOf(s, h, h.ofKey(key)), PastOf(s, key, first);
    var after := DeskOf(Do(s, h, step), h, h.ofKey(key));
    if Undone(d, key, p.unborn) {
      OpenIsUnresolved(d, key, p);
    } else if Resolutions(s.log, key) > 0 {
      assert SaysAmong(after, key,
                       TookAs(d, key) + other) by { QuietStepSays(s, h, step, key, TookAs(d, key) + other); }
    }
  }

  lemma QuietStepDeskSays(s: Sys, h: Homes, step: Step, key: string, first: string, other: set<string>)
    requires !step.Tick? && Possible(s, h, step) && Fine(s, h, key, first) && StraightIn(s, h, key, other)
    requires Records(step, key) || DESKTOP in other
    ensures DeskSays(Do(s, h, step), key, other)
  {
    hide Settled, Healthy, SaysAmong, ReportsAgree;
    var d, p := DeskOf(s, h, h.ofKey(key)), PastOf(s, key, first);
    if Undone(d, key, p.unborn) {
      OpenIsUnresolved(d, key, p);
    }
  }

  lemma QuietStepSays(s: Sys, h: Homes, step: Step, key: string, words: set<string>)
    requires !step.Tick? && Possible(s, h, step) && SaysAmong(DeskOf(s, h, h.ofKey(key)), key, words)
    ensures SaysAmong(DeskOf(Do(s, h, step), h, h.ofKey(key)), key, words)
  {
    hide MayRewrite, TellsAmong;
  }

  lemma {:induction false} RunStaysStraight(s: Sys, h: Homes, steps: seq<Step>, key: string, first: string,
                                            other: set<string>)
    requires IsRun(s, h, steps) && Fine(s, h, key, first) && StraightIn(s, h, key, other)
    requires forall i | 0 <= i < |steps| :: Records(steps[i], key) || DESKTOP in other
    ensures StraightIn(Run(s, h, steps), h, key, other)
    decreases |steps|
  {
    hide Fine, StraightIn, CanTick, Do, Records;
    if steps != [] {
      assert Records(steps[0], key) || DESKTOP in other;
      StepStaysFine(s, h, steps[0], key, first);
      StepStaysStraight(s, h, steps[0], key, first, other);
      RunStaysStraight(Do(s, h, steps[0]), h, steps[1..], key, first, other);
    }
  }

  lemma StepStaysStraight(s: Sys, h: Homes, step: Step, key: string, first: string, other: set<string>)
    requires Possible(s, h, step) && Fine(s, h, key, first) && StraightIn(s, h, key, other)
    requires Records(step, key) || DESKTOP in other
    ensures StraightIn(Do(s, h, step), h, key, other)
  {
    hide Settled, Healthy, StraightIn, CanTick, Do;
    if step.Tick? && h.ofKey(key) == step.visit.root {
      OwnTickStaysStraight(s, h, step.visit, step.recorded, key, first, other);
    } else if step.Tick? {
      TickElsewhereStaysStraight(s, h, step.visit, step.recorded, key, other);
    } else {
      QuietStepStaysStraight(s, h, step, key, first, other);
    }
  }

  lemma StartIsStraight(s: Sys, h: Homes, key: string, other: set<string>)
    requires Started(s, h)
    ensures StraightIn(s, h, key, other)
  {
    hide RoomsMatch;
  }

  lemma {:induction false} LandedIsTold(log: seq<Entry>, e: Entry, key: string)
    requires e in log && Told(e, key)
    ensures e.action in Tellings(log, key)
  {
    var last, rest := log[|log| - 1], log[..|log| - 1];
    assert log == rest + [last];
    if e != last {
      LandedIsTold(rest, e, key);
    }
  }

  /** Every report of an approval that landed says one of some words, by the mark or the reply it is
      due; and its record, in memory and in the file, says one of them or nothing yet. */
  predicate OnlySays(s: Sys, key: string, words: set<string>) {
    && (forall e | e in s.log && Told(e, key) :: TellsAmong(e.action, words))
    && StateOf(s.approvals, key).resolution in words + {""} && StateOf(s.file, key).resolution in words + {""}
  }

  lemma ReachedIsStraight(s: Sys, h: Homes, steps: seq<Step>, key: string, other: set<string>)
    requires Started(s, h) && IsRun(s, h, steps)
    requires forall i | 0 <= i < |steps| :: Records(steps[i], key) || DESKTOP in other
    ensures var end := Run(s, h, steps);
            Resolutions(end.log, key) > 0 ==>
              key in end.taken && OnlySays(end, key, {end.taken[key]} + other)
  {
    hide Started, Fine, Records, TellsAmong, StateOf;
    StartIsFine(s, h, key);
    StartIsStraight(s, h, key, other);
    RunStaysStraight(s, h, steps, key, StateOf(s.approvals, key).resolution, other);
    var end := Run(s, h, steps);
    forall e | e in end.log && Told(e, key) ensures e.action in Tellings(end.log, key) {
      LandedIsTold(end.log, e, key);
    }
  }

  /** Over any run in which the desk writes down what it takes of an approval and keeps the record,
      every report of a resolution the forge took from the bridge says what was taken, also after
      a lost save and a restart. */
  lemma TakenIsWhatIsReported(s: Sys, h: Homes, steps: seq<Step>, key: string)
    requires Started(s, h) && IsRun(s, h, steps)
    requires forall i | 0 <= i < |steps| :: Records(steps[i], key)
    ensures var end := Run(s, h, steps);
            Resolutions(end.log, key) > 0 ==> key in end.taken && OnlySays(end, key, {end.taken[key]})
  {
    hide Started, IsRun, Run, Records, OnlySays;
    ReachedIsStraight(s, h, steps, key, {});
    assert forall x: string :: {x} + {} == {x};
  }

  /** Over any run at all, the one other thing such a report may say is that the desktop did it. */
  lemma TakenOrTheDesktopIsReported(s: Sys, h: Homes, steps: seq<Step>, key: string)
    requires Started(s, h) && IsRun(s, h, steps)
    ensures var end := Run(s, h, steps);
            Resolutions(end.log, key) > 0 ==> key in end.taken && OnlySays(end, key, {end.taken[key], DESKTOP})
  {
    hide Started, IsRun, Run, Records, OnlySays;
    ReachedIsStraight(s, h, steps, key, {DESKTOP});
    assert forall x: string :: {x} + {DESKTOP} == {x, DESKTOP};
  }
}
