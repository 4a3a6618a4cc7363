/** How often an approval is posted, over whole runs (internal/bridge/approvals.go). */
module ApprovalPosts {
  import opened Options
  import opened Text
  import opened Quote
  import opened Relay
  import opened PendingWork
  import opened ApprovalPlan
  import opened ApprovalDecisions
  import opened Approvals
  import opened ApprovalTries
  import opened ApprovalIsolation
  import opened ApprovalRuns

  /** The record has a message in this room. */
  predicate IsIn(state: ApprovalState, room: string) {
    state.messageID != "" && state.roomID == room
  }

  predicate NoKeptPost(d: Desk, key: string) {
    forall s | s in d.kept && d.kept[s].key == key :: d.kept[s].kind != PostApproval
  }

  /** Either every post was lost again, or one more landed and is on record, here and in the state file,
      and none waits to be tried. */
  predicate OnePost(d: Desk, key: string, room: string) {
    || Posts(d.log, key) <= LostPosts(d.log, key)
    || (Posts(d.log, key) <= LostPosts(d.log, key) + 1
        && IsIn(StateOf(d.approvals, key), room) && IsIn(StateOf(d.file, key), room) && NoKeptPost(d, key))
  }

  /** What waits to be posted is nothing but that, each piece under its key. */
  predicate PlainPosts(kept: map<string, Action>) {
    forall s | s in kept :: ActionKey(kept[s]) == s && (kept[s].kind == PostApproval ==> kept[s].resolution == "")
  }

  lemma PostsShareAKey(kept: map<string, Action>, a: Action, s: string)
    requires PlainPosts(kept) && s in kept && ActionKey(a) in kept && kept[ActionKey(a)] == a
    requires a.kind == PostApproval == kept[s].kind && a.key == kept[s].key
    ensures s == ActionKey(a)
  {
  }

  lemma TryStaysOnePost(d: Desk, root: string, room: string, a: Action, given: Outcome, key: string)
    requires OnePost(d, key, room) && PlainPosts(d.kept) && GoodAnswer(given)
    requires ActionKey(a) in d.kept && d.kept[ActionKey(a)] == a
    ensures OnePost(Try(d, root, room, a, given), key, room) && PlainPosts(Try(d, root, room, a, given).kept)
  {
    hide Try, ActionKey, StateOf, AnswerOf;
    var after := Try(d, root, room, a, given);
    TryShape(d, root, room, a, given);
    TriedState(d, root, room, a, given, key);
    CountOne(d.log, Entry(a, AnswerOf(d.open, a, given)), key);
    if a.kind == PostApproval && a.key == key {
      forall s | s in d.kept && d.kept[s].key == key && d.kept[s].kind == PostApproval ensures s == ActionKey(a) {
        PostsShareAKey(d.kept, a, s);
      }
    }
  }

  lemma {:induction false} TryAllStaysOnePost(d: Desk, root: string, room: string, actions: seq<Action>,
                                              answers: map<string, Outcome>, key: string)
    requires OnePost(d, key, room) && PlainPosts(d.kept) && GoodAnswers(answers) && Waiting(d.kept, actions)
    ensures var after := TryAll(d, root, room, actions, answers);
            OnePost(after, key, room) && PlainPosts(after.kept)
    decreases |actions|
  {
    hide OnePost, PlainPosts, Try, ActionKey;
    if actions != [] {
      var given := AnswerTo(answers, ActionKey(actions[0]));
      TryStaysOnePost(d, root, room, actions[0], given, key);
      WaitingAfter(d, root, room, actions, given);
      TryAllStaysOnePost(Try(d, root, room, actions[0], given), root, room, actions[1..], answers, key);
    }
  }

  lemma PlannedPostIsNew(d: Desk, desk: map<string, string>, v: Visit, a: Action)
    requires Ready(d, v) && a in Planned(d, desk, v) && a.kind == PostApproval
    ensures a.resolution == "" && !IsIn(StateOf(d.approvals, a.key), v.room)
  {
    hide Plan, ByMark, ByReply, ByText, GesturesAreDue, ReportIsDue, Resolving, Walks;
    PlanMembers(v.reader, ScopedToRoom(d.approvals, v.room), v.pending, desk, v.reactions, v.replies, v.order, a);
  }

  lemma KeepingStaysOnePost(d: Desk, desk: map<string, string>, v: Visit, key: string)
    requires Ready(d, v) && OnePost(d, key, v.room) && PlainPosts(d.kept)
    ensures OnePost(d.(kept := KeptAt(d, desk, v)), key, v.room) && PlainPosts(KeptAt(d, desk, v))
  {
    hide Ready, Planned, ActionKey, Kept, StateOf, IsIn;
    var kept := KeptAt(d, desk, v);
    forall s | s in kept
      ensures ActionKey(kept[s]) == s && (kept[s].kind == PostApproval ==> kept[s].resolution == "")
      ensures (s in d.kept && kept[s] == d.kept[s]) || kept[s].kind != PostApproval
              || !IsIn(StateOf(d.approvals, kept[s].key), v.room)
    {
      KeptMembers(d.kept, ActionKey, Planned(d, desk, v), s);
      if kept[s] in Planned(d, desk, v) && kept[s].kind == PostApproval {
        PlannedPostIsNew(d, desk, v, kept[s]);
      }
    }
  }

  lemma VisitStaysOnePost(d: Desk, desk: map<string, string>, v: Visit, key: string)
    requires Ready(d, v) && OnePost(d, key, v.room) && PlainPosts(d.kept)
    ensures OnePost(Visited(d, desk, v), key, v.room) && PlainPosts(Visited(d, desk, v).kept)
  {
    hide ActionKey, TryAll, WithEvents, KeptAt, Ready, Waiting, Listed, StateOf, Visited, PlainPosts, OnePost;
    var kept, tried := KeptAt(d, desk, v), TriedAt(d, desk, v);
    KeepingStaysOnePost(d, desk, v, key);
    assert GoodAnswers(v.answers) by { AnswersOf(d, v); }
    assert Waiting(kept, Listed(kept)) by { PlainIsWaiting(kept); }
    TryAllStaysOnePost(d.(kept := kept), v.root, v.room, Listed(kept), v.answers, key);
    VisitedIs(d, desk, v);
    WithEventsDecidesNothing(tried.approvals, v.root, KeysByFact(v.pending), v.events, key);
    SameMessageSamePosts(tried, Visited(d, desk, v), key, v.room);
  }

  lemma PlainIsWaiting(kept: map<string, Action>)
    requires PlainPosts(kept)
    ensures Waiting(kept, Listed(kept))
  {
    hide ActionKey, Waiting, Listed;
    ListedIsWaiting(kept);
  }

  /** Records whose messages read the same. */
  predicate SameMessage(a: ApprovalState, b: ApprovalState) {
    a.messageID == b.messageID && a.roomID == b.roomID
  }

  lemma SameMessageSamePosts(d: Desk, after: Desk, key: string, room: string)
    requires OnePost(d, key, room) && after.kept == d.kept
    requires SameMessage(StateOf(after.approvals, key), StateOf(d.approvals, key))
    requires SameMessage(StateOf(after.file, key), StateOf(d.file, key))
             || SameMessage(StateOf(after.file, key), StateOf(d.approvals, key))
    requires Posts(after.log, key) == Posts(d.log, key) && LostPosts(after.log, key) == LostPosts(d.log, key)
    ensures OnePost(after, key, room)
  {
    hide StateOf;
  }

  // Runs.

  predicate AllPlain(s: Sys) {
    forall root | root in s.kept :: PlainPosts(s.kept[root])
  }

  predicate OnePostIn(s: Sys, h: Homes, key: string, room: string) {
    Settled(s, h) && AllPlain(s) && OnePost(DeskOf(s, h, h.ofKey(key)), key, room)
  }

  /** The forge of an approval keeps its room. */
  ghost predicate RoomStays(steps: seq<Step>, h: Homes, key: string, room: string) {
    forall step | step in steps && step.Tick? && step.visit.root == h.ofKey(key) :: step.visit.room == room
  }

  lemma NothingIsPlain()
    ensures PlainPosts(map[])
  {
  }

  lemma OwnTickStaysOnePost(s: Sys, h: Homes, v: Visit, recorded: set<string>, key: string)
    requires CanTick(s, h, v) && OnePostIn(s, h, key, v.room) && v.root == h.ofKey(key)
    ensures OnePostIn(Do(s, h, Tick(v, recorded)), h, key, v.room)
  {
    hide Settled, Ready, Visited, PlainPosts, OnePost, WrittenIn;
    NothingIsPlain();
    TickStaysSettled(s, h, v, recorded);
    VisitStaysOnePost(DeskOf(s, h, v.root), s.desk, v, key);
  }

  lemma TickElsewhereStaysOnePost(s: Sys, h: Homes, v: Visit, recorded: set<string>, key: string, room: string)
    requires CanTick(s, h, v) && OnePostIn(s, h, key, room) && v.root != h.ofKey(key)
    ensures OnePostIn(Do(s, h, Tick(v, recorded)), h, key, room)
  {
    hide Ready, Visited, PlainPosts, OnePost, Homed, RoomsMatch, WrittenIn, LeavesAlone;
    NothingIsPlain();
    var theirs, mine := DeskOf(s, h, v.root), DeskOf(s, h, h.ofKey(key));
    var next := DeskOf(Do(s, h, Tick(v, recorded)), h, h.ofKey(key));
    TickStaysSettled(s, h, v, recorded);
    VisitIsAtHome(s, h, v);
    VisitLeavesOthersAlone(theirs, s.desk, v, h, key);
    LeftAlonePosts(theirs, TickDesk(s, h, v), key);
    VisitIsPlain(theirs, s.desk, v);
    SameMessageSamePosts(mine, next, key, room);
  }

  lemma LeftAlonePosts(d: Desk, after: Desk, key: string)
    requires LeavesAlone(d, after, key)
    ensures SameMessage(StateOf(after.approvals, key), StateOf(d.approvals, key))
    ensures SameMessage(StateOf(after.file, key), StateOf(d.file, key))
            || SameMessage(StateOf(after.file, key), StateOf(d.approvals, key))
    ensures Posts(after.log, key) == Posts(d.log, key) && LostPosts(after.log, key) == LostPosts(d.log, key)
  {
  }

  lemma VisitIsPlain(d: Desk, desk: map<string, string>, v: Visit)
    requires Ready(d, v) && PlainPosts(d.kept)
    ensures PlainPosts(Visited(d, desk, v).kept)
  {
    hide ActionKey, TryAll, KeptAt, Ready, Listed, Visited;
    var kept := KeptAt(d, desk, v);
    KeptAtIsPlain(d, desk, v);
    TryAllKeepsFewer(d.(kept := kept), v.root, v.room, Listed(kept), v.answers);
    VisitedIs(d, desk, v);
  }

  lemma KeptAtIsPlain(d: Desk, desk: map<string, string>, v: Visit)
    requires Ready(d, v) && PlainPosts(d.kept)
    ensures PlainPosts(KeptAt(d, desk, v))
  {
    hide Ready, Planned, ActionKey, Kept, IsIn;
    var kept := KeptAt(d, desk, v);
    forall s | s in kept
        ensures ActionKey(kept[s]) == s && (kept[s].kind == PostApproval ==> kept[s].resolution == "") {
      KeptMembers(d.kept, ActionKey, Planned(d, desk, v), s);
      if kept[s] in Planned(d, desk, v) && kept[s].kind == PostApproval {
        PlannedPostIsNew(d, desk, v, kept[s]);
      }
    }
  }

  lemma {:induction false} TryAllKeepsFewer(d: Desk, root: string, room: string, actions: seq<Action>,
                                            answers: map<string, Outcome>)
    ensures var after := TryAll(d, root, room, actions, answers);
            forall s | s in after.kept :: s in d.kept && after.kept[s] == d.kept[s]
    decreases |actions|
  {
    hide Try, ActionKey;
    if actions != [] {
      var given := AnswerTo(answers, ActionKey(actions[0]));
      TryKeepsLess(d, root, room, actions[0], given);
      TryAllKeepsFewer(Try(d, root, room, actions[0], given), root, room, actions[1..], answers);
    }
  }

  lemma QuietStepStaysOnePost(s: Sys, h: Homes, step: Step, key: string, room: string)
    requires !step.Tick? && Possible(s, h, step) && OnePostIn(s, h, key, room)
    ensures OnePostIn(Do(s, h, step), h, key, room)
  {
    hide Settled, MayRewrite, PlainPosts, IsIn;
    QuietStepStaysSettled(s, h, step);
  }

  lemma {:induction false} RunStaysOnePost(s: Sys, h: Homes, steps: seq<Step>, key: string, room: string)
    requires IsRun(s, h, steps) && OnePostIn(s, h, key, room) && RoomStays(steps, h, key, room)
    ensures OnePostIn(Run(s, h, steps), h, key, room)
    decreases |steps|
  {
    hide OnePostIn, CanTick, Do;
    if steps != [] {
      assert steps[0] in steps && forall step | step in steps[1..] :: step in steps;
      if steps[0].Tick? && steps[0].visit.root == h.ofKey(key) {
        OwnTickStaysOnePost(s, h, steps[0].visit, steps[0].recorded, key);
      } else if steps[0].Tick? {
        TickElsewhereStaysOnePost(s, h, steps[0].visit, steps[0].recorded, key, room);
      } else {
        QuietStepStaysOnePost(s, h, steps[0], key, room);
      }
      RunStaysOnePost(Do(s, h, steps[0]), h, steps[1..], key, room);
    }
  }

  /** Over any run of all forges, while its forge keeps its room, an approval is posted at most once
      more than its posts whose save failed. */
  lemma PostedOnce(s: Sys, h: Homes, steps: seq<Step>, key: string, room: string)
    requires Started(s, h) && IsRun(s, h, steps) && RoomStays(steps, h, key, room)
    ensures var log := Run(s, h, steps).log; Posts(log, key) <= LostPosts(log, key) + 1
  {
    hide IsRun, Run, RoomsMatch;
    RunStaysOnePost(s, h, steps, key, room);
  }
}
