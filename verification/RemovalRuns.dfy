/** What holds of a removal over any number of attempts, with any call, load or save failing and
    the process stopping anywhere. */
module RemovalRuns {
  import opened Options
  import opened Text
  import opened Relay
  import opened Forges
  import opened Purge
  import opened WaitingKeys
  import opened Removal

  function StageRank(stage: Stage): nat {
    match stage
    case ClearFacts => 0
    case RemoveOperator => 1
    case LeaveAndForget => 2
  }

  function IndexOf(rooms: seq<string>, room: string): (i: nat)
    ensures i <= |rooms|
    ensures room in rooms ==> i < |rooms| && rooms[i] == room
  {
    if rooms == [] then 0 else if rooms[0] == room then 0 else 1 + IndexOf(rooms[1..], room)
  }

  /** Where a call stands in the whole work: by room, then by stage. */
  function Rank(rooms: seq<string>, call: Call): nat {
    3 * IndexOf(rooms, call.room) + StageRank(call.stage)
  }

  lemma {:induction false} IndexOfIs(rooms: seq<string>, k: nat)
    requires Distinct(rooms) && k < |rooms|
    ensures IndexOf(rooms, rooms[k]) == k
  {
    if k > 0 {
      forall i, j | 0 <= i < j < |rooms[1..]| ensures rooms[1..][i] != rooms[1..][j] {
        assert rooms[i + 1] != rooms[j + 1];
      }
      assert rooms[1..][k - 1] == rooms[k];
      IndexOfIs(rooms[1..], k - 1);
    }
  }

  /** Whether the record says the `i`-th stage of the whole work succeeded. */
  predicate Flag(forge: Forge, rooms: seq<string>, i: nat)
    requires i < 3 * |rooms|
  {
    StageDone(Progress(forge, rooms[i / 3]), StageNo(i % 3))
  }

  /** The stages the record says succeeded are the first `p`. */
  predicate Prefix(forge: Forge, rooms: seq<string>, p: nat) {
    p <= 3 * |rooms| && forall i | 0 <= i < 3 * |rooms| :: Flag(forge, rooms, i) <==> i < p
  }

  lemma MarkAdvances(forge: Forge, rooms: seq<string>, p: nat)
    requires Distinct(rooms) && p < 3 * |rooms| && Prefix(forge, rooms, p)
    ensures Prefix(Marked(forge, rooms[p / 3], StageNo(p % 3)), rooms, p + 1)
  {
    var after := Marked(forge, rooms[p / 3], StageNo(p % 3));
    forall i | 0 <= i < 3 * |rooms| ensures Flag(after, rooms, i) <==> i < p + 1 {
      assert Flag(forge, rooms, i) <==> i < p;
      if i / 3 != p / 3 {
        assert rooms[i / 3] != rooms[p / 3];
      }
    }
  }

  lemma RankIs(rooms: seq<string>, i: nat, fate: Fate)
    requires Distinct(rooms) && i < 3 * |rooms|
    ensures Rank(rooms, Call(rooms[i / 3], StageNo(i % 3), fate)) == i
  {
    IndexOfIs(rooms, i / 3);
  }

  /** The calls so far touch only the recorded rooms, in the order of the work, and none beyond
      the first stage not recorded as done. */
  predicate Ordered(calls: seq<Call>, rooms: seq<string>, p: nat) {
    && (forall a | 0 <= a < |calls| :: calls[a].room in rooms && Rank(rooms, calls[a]) <= p)
    && (forall a, b | 0 <= a <= b < |calls| :: Rank(rooms, calls[a]) <= Rank(rooms, calls[b]))
  }

  /** Each of the first `p` stages succeeded in some call. */
  predicate Succeeded(calls: seq<Call>, rooms: seq<string>, p: nat)
    requires p <= 3 * |rooms|
  {
    forall i | 0 <= i < p :: Call(rooms[i / 3], StageNo(i % 3), Fine) in calls
  }

  /** A removal under way: the record names the rooms, what it says is done is a prefix of the
      work, and the calls made are in order and account for it. */
  predicate UnderWay(file: Saved, calls: seq<Call>, root: string, rooms: seq<string>, p: nat) {
    && root in file.forges && Distinct(rooms)
    && OrderedRooms(file.forges[root]) == rooms && CompleteForge(file.forges[root])
    && Prefix(file.forges[root], rooms, p)
    && Ordered(calls, rooms, p) && Succeeded(calls, rooms, p)
  }

  /** Nothing of the state file has changed but how far one forge's cleanup is. */
  predicate OnlyCleanup(before: Saved, after: Saved, root: string) {
    && root in before.forges && root in after.forges
    && after.relay == before.relay
    && after.forges == before.forges[root := before.forges[root].(cleanup := after.forges[root].cleanup)]
  }

  lemma OnlyCleanupJoins(a: Saved, b: Saved, c: Saved, root: string)
    requires OnlyCleanup(a, b, root) && OnlyCleanup(b, c, root)
    ensures OnlyCleanup(a, c, root)
  {
    assert c.forges[root] == b.forges[root].(cleanup := c.forges[root].cleanup);
    assert b.forges[root] == a.forges[root].(cleanup := b.forges[root].cleanup);
    assert c.forges == a.forges[root := a.forges[root].(cleanup := c.forges[root].cleanup)];
  }

  lemma CallKeepsOrder(calls: seq<Call>, rooms: seq<string>, p: nat, fate: Fate)
    requires Distinct(rooms) && p < 3 * |rooms| && Ordered(calls, rooms, p) && Succeeded(calls, rooms, p)
    ensures var more := calls + [Call(rooms[p / 3], StageNo(p % 3), fate)];
            && Ordered(more, rooms, p) && Succeeded(more, rooms, p)
            && (fate == Fine ==> Ordered(more, rooms, p + 1) && Succeeded(more, rooms, p + 1))
  {
    RankIs(rooms, p, fate);
    hide Rank;
    var call := Call(rooms[p / 3], StageNo(p % 3), fate);
    var more := calls + [call];
    forall i | 0 <= i < p ensures Call(rooms[i / 3], StageNo(i % 3), Fine) in more {
      assert Call(rooms[i / 3], StageNo(i % 3), Fine) in calls;
    }
    assert more[|calls|] == call;
  }

  /** The shape of the file and the calls after one stage that was not done. */
  lemma StageEffect(w: World, root: string, room: string, forge: Forge, stage: Stage)
    requires !StageDone(Progress(forge, room), stage)
    ensures var out := CleanedStage(w, root, room, forge, stage);
            && out.world.calls == w.calls + [Call(room, stage, NextFate(w))]
            && (out.end.Went? ==>
                  && NextFate(w) == Fine && out.end.forge == Marked(forge, room, stage)
                  && out.world.file == w.file.(forges := w.file.forges[root := Marked(forge, room, stage)]))
            && (!out.end.Went? ==> out.world.file == w.file)
            && (out.end.Stopped? ==> out.end.result.status == Retryable)
  {
    hide Marked;
  }

  lemma MarkedIsOnlyCleanup(file: Saved, root: string, room: string, stage: Stage)
    requires root in file.forges
    ensures var forge := Marked(file.forges[root], room, stage);
            && OnlyCleanup(file, file.(forges := file.forges[root := forge]), root)
            && OrderedRooms(forge) == OrderedRooms(file.forges[root])
            && (CompleteForge(file.forges[root]) ==> CompleteForge(forge))
  {
    hide Mark;
  }

  /** The first stage not done: one call, and that stage recorded as done when it goes on. */
  lemma StageAdvances(w: World, root: string, rooms: seq<string>, p: nat, forge: Forge) returns (p': nat)
    requires UnderWay(w.file, w.calls, root, rooms, p) && forge == w.file.forges[root] && p < 3 * |rooms|
    requires !StageDone(Progress(forge, rooms[p / 3]), StageNo(p % 3))
    ensures var out := CleanedStage(w, root, rooms[p / 3], forge, StageNo(p % 3));
            && p' == (if out.end.Went? then p + 1 else p)
            && UnderWay(out.world.file, out.world.calls, root, rooms, p')
            && OnlyCleanup(w.file, out.world.file, root)
            && (out.end.Went? ==> out.end.forge == out.world.file.forges[root])
            && (out.end.Stopped? ==> out.end.result.status == Retryable)
            && |out.world.calls| == |w.calls| + 1
  {
    var room, stage := rooms[p / 3], StageNo(p % 3);
    var out := CleanedStage(w, root, room, forge, stage);
    hide Prefix, Ordered, Succeeded, OrderedRooms, CompleteForge, Marked, CleanedStage, OnlyCleanup, StageNo, StageDone,
        Progress;
    StageEffect(w, root, room, forge, stage);
    CallKeepsOrder(w.calls, rooms, p, NextFate(w));
    MarkedIsOnlyCleanup(w.file, root, room, stage);
    p' := p;
    if out.end.Went? {
      MarkAdvances(forge, rooms, p);
      p' := p + 1;
    } else {
      OnlyCleanupOfItself(w, root, rooms, p);
    }
  }

  lemma StageKeepsOrder(w: World, root: string, rooms: seq<string>, i: nat, p: nat, forge: Forge) returns (p': nat)
    requires UnderWay(w.file, w.calls, root, rooms, p) && forge == w.file.forges[root]
    requires i <= p && i < 3 * |rooms|
    ensures var out := CleanedStage(w, root, rooms[i / 3], forge, StageNo(i % 3));
            && p <= p' <= p + 1 && (p' == p + 1 ==> i == p)
            && UnderWay(out.world.file, out.world.calls, root, rooms, p')
            && OnlyCleanup(w.file, out.world.file, root)
            && (out.end.Went? ==> i < p' && out.end.forge == out.world.file.forges[root])
            && (out.end.Stopped? ==> out.end.result.status == Retryable)
            && (i < p ==> out.end.Went?)
            && |out.world.calls| == |w.calls| + (if i == p then 1 else 0)
            && (out.end.Went? && i == p ==> p' == p + 1)
  {
    StageIsSkipped(w, root, rooms, i, p, forge);
    hide UnderWay, OnlyCleanup, Progress, StageDone, StageNo;
    p' := p;
    if i == p {
      p' := StageAdvances(w, root, rooms, p, forge);
    } else {
      OnlyCleanupOfItself(w, root, rooms, p);
    }
  }

  /** The stages in turn. */
  lemma {:induction false} CleaningKeepsOrder(w: World, root: string, rooms: seq<string>, i: nat, p: nat, forge: Forge)
    returns (p': nat)
    requires UnderWay(w.file, w.calls, root, rooms, p) && forge == w.file.forges[root] && i <= p
    ensures var out := CleanedUpTo(w, root, rooms, i, 3 * |rooms|, forge);
            && p <= p' && UnderWay(out.world.file, out.world.calls, root, rooms, p')
            && OnlyCleanup(w.file, out.world.file, root)
            && (out.end.Went? ==> p' == 3 * |rooms| && out.end.forge == out.world.file.forges[root])
            && (out.end.Stopped? ==> out.end.result.status == Retryable)
            && |out.world.calls| - |w.calls| <= p' - p + 1
            && (out.end.Went? ==> |out.world.calls| - |w.calls| <= p' - p)
    decreases 3 * |rooms| - i
  {
    hide CleanedStage, UnderWay, OnlyCleanup;
    p' := p;
    if i < 3 * |rooms| {
      var out := CleanedStage(w, root, rooms[i / 3], forge, StageNo(i % 3));
      var p1 := StageKeepsOrder(w, root, rooms, i, p, forge);
      p' := p1;
      if out.end.Went? {
        p' := CleaningKeepsOrder(out.world, root, rooms, i + 1, p1, out.end.forge);
        OnlyCleanupJoins(w.file, out.world.file,
                         CleanedUpTo(out.world, root, rooms, i + 1, 3 * |rooms|, out.end.forge).world.file, root);
      }
    } else {
      assert p == 3 * |rooms| by { PrefixIsShort(w, root, rooms, p); }
      OnlyCleanupOfItself(w, root, rooms, p);
    }
  }

  lemma PrefixIsShort(w: World, root: string, rooms: seq<string>, p: nat)
    requires UnderWay(w.file, w.calls, root, rooms, p)
    ensures p <= 3 * |rooms|
  {
  }

  lemma OnlyCleanupOfItself(w: World, root: string, rooms: seq<string>, p: nat)
    requires UnderWay(w.file, w.calls, root, rooms, p)
    ensures OnlyCleanup(w.file, w.file, root)
  {
  }

  // Attempts.

  /** The forge is gone from the record, after every stage succeeded in order. */
  predicate Over(file: Saved, calls: seq<Call>, root: string, rooms: seq<string>) {
    root !in file.forges && Ordered(calls, rooms, 3 * |rooms|) && Succeeded(calls, rooms, 3 * |rooms|)
  }

  /** A request for one root that an inspection made: a refused one names no root, and none says
      the forge is removed. */
  predicate For(request: Request, root: string) {
    && (request.inspection.result.status == Ready ==> request.inspection.root == root)
    && request.inspection.result.status != Removed
  }

  /** Every inspection of that root makes such a request, before the removal and after it. */
  lemma InspectedFor(config: seq<ForgeConfig>, loaded: Option<Saved>, root: string, connected: bool)
    ensures For(Request(Inspect(config, loaded, root), connected), Inspect(config, loaded, root).root)
    ensures Inspect(config, loaded, root).result.status != Ready
            ==> forall other :: For(Request(Inspect(config, loaded, root), connected), other)
  {
    InspectStartsNothing(config, loaded, root);
  }

  /** One attempt, from a removal under way. */
  lemma AttemptKeepsOrder(w: World, config: seq<ForgeConfig>, request: Request, root: string, rooms: seq<string>,
                          p: nat)
    returns (p': nat)
    requires UnderWay(w.file, w.calls, root, rooms, p) && For(request, root)
    ensures var out := Attempted(w, config, request);
            && p <= p' <= 3 * |rooms| && |out.world.calls| - |w.calls| <= p' - p + 1
            && if out.end == Stopped(Result(Removed, ""))
               then && Over(out.world.file, out.world.calls, root, rooms)
                    && out.world.file.forges == w.file.forges - {root}
                    && out.world.file.relay == Purged(w.file.relay, root, set room | room in rooms)
               else && UnderWay(out.world.file, out.world.calls, root, rooms, p')
                    && OnlyCleanup(w.file, out.world.file, root)
  {
    hide CleanedUpTo, UnderWay, OnlyCleanup, Prefix, Ordered, Succeeded, Inspect, Purged, Finalized, Over, OrderedRooms,
         CompleteForge;
    p' := p;
    UnderWayFacts(w.file, w.calls, root, rooms, p);
    OnlyCleanupOfItself(w, root, rooms, p);
    var renewed := Inspect(config, Some(w.file), root);
    InspectStartsNothing(config, Some(w.file), root);
    if request.inspection.result.status == Ready && request.connected && NextFate(w) == Fine
       && renewed.result.status == Ready
    {
      ReadyInspection(config, w.file, root);
      var w1 := Later(w);
      var forge := w.file.forges[root];
      p' := CleaningKeepsOrder(w1, root, rooms, 0, p, forge);
      var out := CleanedUpTo(w1, root, rooms, 0, 3 * |rooms|, forge);
      UnderWayFacts(out.world.file, out.world.calls, root, rooms, p');
      if out.end.Went? {
        FinalizeIsOver(w.file, out.world, root, rooms);
      }
    }
  }

  lemma UnderWayFacts(file: Saved, calls: seq<Call>, root: string, rooms: seq<string>, p: nat)
    requires UnderWay(file, calls, root, rooms, p)
    ensures root in file.forges && p <= 3 * |rooms| && OrderedRooms(file.forges[root]) == rooms
    ensures Ordered(calls, rooms, p) && Succeeded(calls, rooms, p)
  {
  }

  lemma ReadyInspection(config: seq<ForgeConfig>, file: Saved, root: string)
    requires Inspect(config, Some(file), root).result.status == Ready
    ensures var i := Inspect(config, Some(file), root);
            i.root == root && root in file.forges && i.forge == Some(file.forges[root])
            && i.rooms == OrderedRooms(file.forges[root])
  {
  }

  lemma FinalizeIsOver(before: Saved, w: World, root: string, rooms: seq<string>)
    requires UnderWay(w.file, w.calls, root, rooms, 3 * |rooms|) && OnlyCleanup(before, w.file, root)
    ensures Finalized(w, root).world.calls == w.calls
    ensures var out := Finalized(w, root);
            if out.end == Stopped(Result(Removed, ""))
            then && Over(out.world.file, out.world.calls, root, rooms)
                 && out.world.file.forges == before.forges - {root}
                 && out.world.file.relay == Purged(before.relay, root, set room | room in rooms)
            else && out.world.file == w.file && out.world.calls == w.calls
                 && (out.end.Stopped? ==> out.end.result.status == Retryable)
  {
    hide Ordered, Succeeded, Prefix, Purged, OrderedRooms;
    assert w.file.forges - {root} == before.forges - {root};
    assert RemovalRooms(w.file.forges[root]) == set room | room in rooms;
  }

  /** After a removal is over nothing is called and nothing changes. */
  lemma AttemptAfterRemoval(w: World, config: seq<ForgeConfig>, request: Request, root: string)
    requires root !in w.file.forges && For(request, root)
    ensures var out := Attempted(w, config, request);
            out.world.calls == w.calls && out.world.file == w.file
            && (out.end.Stopped? ==> out.end.result.status != Removed)
  {
    hide CleanedUpTo, HasParentTraversal;
  }

  /** Some attempts one after the other, each with its own fates. */
  datatype Try = Try(request: Request, fates: seq<Fate>)

  function Attempts(file: Saved, calls: seq<Call>, config: seq<ForgeConfig>, tries: seq<Try>): (Saved, seq<Call>)
    decreases |tries|
  {
    if tries == [] then (file, calls)
    else
      var out := Attempted(World(file, tries[0].fates, calls), config, tries[0].request);
      Attempts(out.world.file, out.world.calls, config, tries[1..])
  }

  predicate AllFor(tries: seq<Try>, root: string) {
    forall t | t in tries :: For(t.request, root)
  }

  /** Over any number of attempts the Matrix calls are in the order of the work - no room is
      touched before an earlier one is done, and no stage after a later one - and either the
      record still names every room, with a prefix of the work recorded as done, or every stage
      of every room succeeded and the forge is gone from the record. */
  lemma {:induction false} AttemptsKeepOrder(file: Saved, calls: seq<Call>, config: seq<ForgeConfig>, tries: seq<Try>,
                                             root: string, rooms: seq<string>, p: nat)
    returns (p': nat)
    requires AllFor(tries, root)
    requires UnderWay(file, calls, root, rooms, p) || Over(file, calls, root, rooms)
    ensures var (file', calls') := Attempts(file, calls, config, tries);
            UnderWay(file', calls', root, rooms, p') || Over(file', calls', root, rooms)
    decreases |tries|
  {
    hide UnderWay, Ordered, Succeeded, Attempted;
    p' := p;
    if tries != [] {
      var w := World(file, tries[0].fates, calls);
      var out := Attempted(w, config, tries[0].request);
      assert tries[0] in tries;
      if UnderWay(file, calls, root, rooms, p) {
        p' := AttemptKeepsOrder(w, config, tries[0].request, root, rooms, p);
      } else {
        AttemptAfterRemoval(w, config, tries[0].request, root);
      }
      p' := AttemptsKeepOrder(out.world.file, out.world.calls, config, tries[1..], root, rooms, p');
    }
  }

  /** A forge whose removal has not begun. */
  lemma FirstAttempt(file: Saved, root: string)
    requires root in file.forges && CompleteForge(file.forges[root])
    requires forall room | room in OrderedRooms(file.forges[root]) :: Progress(file.forges[root], room) == NOT_CLEANED
    ensures UnderWay(file, [], root, OrderedRooms(file.forges[root]), 0)
  {
    OrderedRoomsAreTheRecordedOnes(file.forges[root]);
    var rooms := OrderedRooms(file.forges[root]);
    forall i | 0 <= i < 3 * |rooms| ensures !Flag(file.forges[root], rooms, i) {
      assert rooms[i / 3] in rooms;
    }
  }

  /** From such a forge: no room is cleared of facts after its operator may have been removed, nor of
      either after the bridge may have left it, in whichever attempt. */
  lemma NothingAfterLeaving(file: Saved, config: seq<ForgeConfig>, tries: seq<Try>, root: string, a: nat, b: nat)
    requires root in file.forges && CompleteForge(file.forges[root]) && AllFor(tries, root)
    requires forall room | room in OrderedRooms(file.forges[root]) :: Progress(file.forges[root], room) == NOT_CLEANED
    ensures var calls := Attempts(file, [], config, tries).1;
            a < b < |calls| && calls[a].room == calls[b].room && calls[a].stage == LeaveAndForget
            ==> calls[b].stage == LeaveAndForget
    ensures var calls := Attempts(file, [], config, tries).1;
            a < b < |calls| && calls[a].room == calls[b].room && calls[a].stage == RemoveOperator
            ==> calls[b].stage != ClearFacts
  {
    var rooms := OrderedRooms(file.forges[root]);
    FirstAttempt(file, root);
    var p := AttemptsKeepOrder(file, [], config, tries, root, rooms, 0);
    var (file', calls) := Attempts(file, [], config, tries);
    assert Ordered(calls, rooms, p) || Ordered(calls, rooms, 3 * |rooms|);
    if a < b < |calls| {
      assert Rank(rooms, calls[a]) <= Rank(rooms, calls[b]);
    }
  }

  /** The removal of a forge says Removed only when each stage of each of its recorded rooms
      succeeded, and exactly then the forge is gone from the record; every other answer keeps
      the record of every room, and the rest of the state file as it was. */
  lemma RemovedMeansAllSucceeded(w: World, config: seq<ForgeConfig>, request: Request, root: string, p: nat)
    requires root in w.file.forges && For(request, root)
    requires UnderWay(w.file, w.calls, root, OrderedRooms(w.file.forges[root]), p)
    ensures var out := Attempted(w, config, request);
            && (out.end == Stopped(Result(Removed, "")) <==> root !in out.world.file.forges)
            && (out.end == Stopped(Result(Removed, "")) ==>
                  forall room, stage: Stage | Recorded(w.file.forges[root], room) ::
                      Call(room, stage, Fine) in out.world.calls)
            && (out.end != Stopped(Result(Removed, "")) ==> OnlyCleanup(w.file, out.world.file, root))
  {
    var rooms := OrderedRooms(w.file.forges[root]);
    var out := Attempted(w, config, request);
    hide Attempted, Prefix, Ordered;
    var p' := AttemptKeepsOrder(w, config, request, root, rooms, p);
    if out.end == Stopped(Result(Removed, "")) {
      forall room, stage: Stage | Recorded(w.file.forges[root], room)
          ensures Call(room, stage, Fine) in out.world.calls {
        OrderedRoomsAreTheRecordedOnes(w.file.forges[root]);
        EveryStageIsListed(out.world.calls, rooms, room, stage);
      }
    }
  }

  /** What a removal leaves of one approval, question and card: what is there names neither the
      removed root nor one of its rooms, and is as it was; everything else of that kind is gone. */
  ghost predicate RecordsLeft(before: State, after: State, forge: Forge, root: string, key: string) {
    && (key in after.approvals <==>
          key in before.approvals && before.approvals[key].forgeRoot != root
          && !Recorded(forge, before.approvals[key].roomID))
    && (key in after.clarifications <==>
          key in before.clarifications && before.clarifications[key].forgeRoot != root
          && !Recorded(forge, before.clarifications[key].roomID))
    && (key in after.activity <==> key in before.activity && before.activity[key].forgeRoot != root)
    && (key in after.approvals ==> after.approvals[key] == before.approvals[key])
    && (key in after.clarifications ==> after.clarifications[key] == before.clarifications[key])
    && (key in after.activity ==> after.activity[key] == before.activity[key])
  }

  /** What it leaves of one chat entry and its owner, and of one state event of a room. */
  ghost predicate EntriesLeft(before: State, after: State, root: string, section: Section, key: string) {
    var m, m' := InSection(before, section), InSection(after, section);
    && (key in m' <==> key in m && (Owner(before, section, key) != root || key == ""))
    && (key in m' ==> m'[key] == m[key])
    && Owner(after, section, key)
       == if Owner(before, section, key) == root && key != "" then "" else Owner(before, section, key)
  }

  ghost predicate EventLeft(before: State, after: State, forge: Forge, room: string, eventType: string, key: string) {
    var k := room + "\n" + eventType + "\n" + key;
    && (k in after.waiting <==> k in before.waiting && !Recorded(forge, room))
    && (k in after.waiting ==> after.waiting[k] == before.waiting[k])
  }

  /** After a removal that says Removed no approval, question, card, chat entry or state event of the
      forge is left, and every other forge's is as it was; every other end leaves all of them. */
  lemma RemovedForgetsTheForge(w: World, config: seq<ForgeConfig>, request: Request, root: string, p: nat)
    requires root in w.file.forges && root != "" && For(request, root)
    requires UnderWay(w.file, w.calls, root, OrderedRooms(w.file.forges[root]), p)
    ensures var out, forge := Attempted(w, config, request), w.file.forges[root];
            var before, after := w.file.relay, out.world.file.relay;
            if out.end == Stopped(Result(Removed, ""))
            then && out.world.file.forges == w.file.forges - {root}
                 && (forall key :: RecordsLeft(before, after, forge, root, key))
                 && (forall section: Section, key :: EntriesLeft(before, after, root, section, key))
                 && (forall room, eventType, key | OneLine(room) && OneLine(eventType) ::
                       EventLeft(before, after, forge, room, eventType, key))
            else after == before
  {
    var rooms, forge := OrderedRooms(w.file.forges[root]), w.file.forges[root];
    var before, out := w.file.relay, Attempted(w, config, request);
    hide Attempted, OrderedRooms, UnderWay, Purged, Recorded;
    var p' := AttemptKeepsOrder(w, config, request, root, rooms, p);
    if out.end == Stopped(Result(Removed, "")) {
      var purged := set room | room in rooms;
      OrderedRoomsAreTheRecordedOnes(forge);
      forall key ensures RecordsLeft(before, out.world.file.relay, forge, root, key) {
        PurgeIsExactForRecords(before, root, purged, key);
      }
      forall section: Section, key ensures EntriesLeft(before, out.world.file.relay, root, section, key) {
        PurgeIsExactForOwned(before, root, purged, section, key);
      }
      forall room, eventType, key | OneLine(room) && OneLine(eventType)
        ensures EventLeft(before, out.world.file.relay, forge, room, eventType, key)
      {
        PurgeIsExactForWaiting(before, root, purged, room, eventType, key);
        WaitingKeyIs(room, eventType, key);
      }
    }
  }

  lemma EveryStageIsListed(calls: seq<Call>, rooms: seq<string>, room: string, stage: Stage)
    requires Succeeded(calls, rooms, 3 * |rooms|) && room in rooms
    ensures Call(room, stage, Fine) in calls
  {
    var k :| 0 <= k < |rooms| && rooms[k] == room;
    var i := 3 * k + StageRank(stage);
    assert i / 3 == k && i % 3 == StageRank(stage);
    assert Call(rooms[i / 3], StageNo(i % 3), Fine) in calls;
  }

  // Progress.

  predicate FineFor(w: World, n: nat) {
    n <= |w.fates| && forall i | 0 <= i < n :: w.fates[i] == Fine
  }

  lemma FineStage(w: World, root: string, rooms: seq<string>, i: nat, p: nat, forge: Forge)
    requires UnderWay(w.file, w.calls, root, rooms, p) && forge == w.file.forges[root]
    requires i <= p && i < 3 * |rooms| && (i == p ==> FineFor(w, 3))
    ensures var out := CleanedStage(w, root, rooms[i / 3], forge, StageNo(i % 3));
            out.end.Went? && out.world.fates == if i == p then w.fates[3..] else w.fates
  {
    hide UnderWay;
    StageIsSkipped(w, root, rooms, i, p, forge);
  }

  lemma StageIsSkipped(w: World, root: string, rooms: seq<string>, i: nat, p: nat, forge: Forge)
    requires UnderWay(w.file, w.calls, root, rooms, p) && forge == w.file.forges[root]
    requires i <= p && i < 3 * |rooms|
    ensures StageDone(Progress(forge, rooms[i / 3]), StageNo(i % 3)) <==> i < p
  {
    assert Flag(forge, rooms, i) <==> i < p;
  }

  lemma {:induction false} FineCleaning(w: World, root: string, rooms: seq<string>, i: nat, p: nat, forge: Forge)
    requires UnderWay(w.file, w.calls, root, rooms, p) && forge == w.file.forges[root]
    requires i <= p <= 3 * |rooms| && FineFor(w, 3 * (3 * |rooms| - p))
    ensures var out := CleanedUpTo(w, root, rooms, i, 3 * |rooms|, forge);
            out.end.Went? && out.world.fates == w.fates[3 * (3 * |rooms| - p)..]
    decreases 3 * |rooms| - i
  {
    hide CleanedStage, UnderWay;
    if i < 3 * |rooms| {
      var out := CleanedStage(w, root, rooms[i / 3], forge, StageNo(i % 3));
      FineStage(w, root, rooms, i, p, forge);
      var p' := StageKeepsOrder(w, root, rooms, i, p, forge);
      FineCleaning(out.world, root, rooms, i + 1, p', out.end.forge);
    }
  }

  /** An attempt whose calls, loads and saves all succeed removes the forge: three of each for
      every stage still to do, a load before them, and a load and a save after. */
  lemma FineAttemptRemoves(w: World, config: seq<ForgeConfig>, request: Request, root: string, rooms: seq<string>,
                           p: nat)
    requires UnderWay(w.file, w.calls, root, rooms, p) && p <= 3 * |rooms|
    requires request.connected && For(request, root) && request.inspection.result.status == Ready
    requires Inspect(config, Some(w.file), root).result.status == Ready
    requires FineFor(w, 3 + 3 * (3 * |rooms| - p))
    ensures Attempted(w, config, request).end == Stopped(Result(Removed, ""))
  {
    hide CleanedUpTo, UnderWay, Inspect, Purged;
    var w1 := Later(w);
    ReadyInspection(config, w.file, root);
    UnderWayFacts(w.file, w.calls, root, rooms, p);
    var forge := w.file.forges[root];
    assert FineFor(w1, 3 * (3 * |rooms| - p) + 2);
    FineCleaning(w1, root, rooms, 0, p, forge);
    var p' := CleaningKeepsOrder(w1, root, rooms, 0, p, forge);
    var out := CleanedUpTo(w1, root, rooms, 0, 3 * |rooms|, forge);
    UnderWayFacts(out.world.file, out.world.calls, root, rooms, p');
    assert out.world.fates[0] == Fine && out.world.fates[1] == Fine;
  }

  // What the record and the answers say.

  /** The record never claims what no call did: facts cleared, the operator removed and the bridge gone
      only where that very call succeeded. */
  lemma RecordClaimsOnlyWhatSucceeded(file: Saved, calls: seq<Call>, root: string, rooms: seq<string>, p: nat,
                                      room: string)
    requires UnderWay(file, calls, root, rooms, p) && room in rooms && room in file.forges[root].cleanup
    ensures var done := file.forges[root].cleanup[room];
            && (done.factsCleared ==> Call(room, ClearFacts, Fine) in calls)
            && (done.operatorRemoved ==> Call(room, RemoveOperator, Fine) in calls)
            && (done.bridgeLeft ==> Call(room, LeaveAndForget, Fine) in calls)
  {
    var forge := file.forges[root];
    var k :| 0 <= k < |rooms| && rooms[k] == room;
    assert (3 * k) / 3 == k && (3 * k + 1) / 3 == k && (3 * k + 2) / 3 == k;
    assert (3 * k) % 3 == 0 && (3 * k + 1) % 3 == 1 && (3 * k + 2) % 3 == 2;
    assert Flag(forge, rooms, 3 * k) == forge.cleanup[room].factsCleared;
    assert Flag(forge, rooms, 3 * k + 1) == forge.cleanup[room].operatorRemoved;
    assert Flag(forge, rooms, 3 * k + 2) == forge.cleanup[room].bridgeLeft;
  }

  /** Why an attempt stopped that may be made again: the last call failed, and which it was; or the state
      file could not be read or written. */
  predicate SaysWhy(before: seq<Call>, after: seq<Call>, reason: string) {
    if |after| > |before| && after[|after| - 1].fate == Fails then
      match after[|after| - 1].stage
      case ClearFacts => reason == "relay_cleanup_failed"
      case RemoveOperator => reason == "operator_removal_failed"
      case LeaveAndForget => reason == "bridge_membership_failed"
    else reason == "state_unavailable"
  }

  /** The calls grew by some that succeeded, but for the last when the work stopped there. */
  predicate Grew(before: seq<Call>, after: seq<Call>, stopped: bool) {
    && before <= after
    && forall i | |before| <= i < (if stopped then |after| - 1 else |after|) :: after[i].fate == Fine
  }

  lemma StageSaysWhy(w: World, root: string, room: string, forge: Forge, stage: Stage)
    ensures var out := CleanedStage(w, root, room, forge, stage);
            && Grew(w.calls, out.world.calls, !out.end.Went?)
            && (out.end.Stopped? ==> out.end.result.status == Retryable
                                     && SaysWhy(w.calls, out.world.calls, out.end.result.reason))
  {
    hide Marked, StageDone;
  }

  lemma {:induction false} CleaningSaysWhy(w: World, root: string, rooms: seq<string>, i: nat, forge: Forge)
    requires i <= 3 * |rooms|
    ensures var out := CleanedUpTo(w, root, rooms, i, 3 * |rooms|, forge);
            && Grew(w.calls, out.world.calls, !out.end.Went?)
            && (out.end.Stopped? ==> out.end.result.status == Retryable
                                     && SaysWhy(w.calls, out.world.calls, out.end.result.reason))
    decreases 3 * |rooms| - i
  {
    hide CleanedStage, StageNo;
    if i < 3 * |rooms| {
      var out := CleanedStage(w, root, rooms[i / 3], forge, StageNo(i % 3));
      StageSaysWhy(w, root, rooms[i / 3], forge, StageNo(i % 3));
      if out.end.Went? {
        CleaningSaysWhy(out.world, root, rooms, i + 1, out.end.forge);
      }
    }
  }

  /** What a removal that was started answers. */
  predicate Answers(before: seq<Call>, after: seq<Call>, answer: Result) {
    || answer == Result(Removed, "") || answer == Result(NothingToRemove, "")
    || (answer.status == Retryable && SaysWhy(before, after, answer.reason))
  }

  lemma FinalizingAnswers(before: seq<Call>, w: World, root: string)
    requires Grew(before, w.calls, false)
    ensures var out := Finalized(w, root);
            && Grew(before, out.world.calls, true)
            && (out.end.Stopped? ==> Answers(before, out.world.calls, out.end.result))
  {
    hide Purged, RemovalRooms;
  }

  lemma WorkAnswers(w: World, root: string, rooms: seq<string>, forge: Forge)
    ensures var done := CleanedUpTo(w, root, rooms, 0, 3 * |rooms|, forge);
            var out := if done.end.Went? then Finalized(done.world, root) else done;
            && Grew(w.calls, out.world.calls, true)
            && (out.end.Stopped? ==> Answers(w.calls, out.world.calls, out.end.result))
  {
    hide CleanedUpTo, Finalized, Grew, SaysWhy;
    CleaningSaysWhy(w, root, rooms, 0, forge);
    var done := CleanedUpTo(w, root, rooms, 0, 3 * |rooms|, forge);
    if done.end.Went? {
      FinalizingAnswers(w.calls, done.world, root);
    }
  }

  lemma NothingGrew(calls: seq<Call>)
    ensures Grew(calls, calls, true) && SaysWhy(calls, calls, "state_unavailable")
  {
  }

  /** What an attempt answers: an inspection that is not ready, unchanged; that Matrix cannot be reached;
      the answer of the fresh inspection, which is not ready; or how the work ended, and which call or
      that the state file stopped it. All calls it made succeeded but the last. */
  lemma AttemptAnswers(w: World, config: seq<ForgeConfig>, request: Request)
    ensures var out := Attempted(w, config, request);
            var renewed := Inspect(config, Some(w.file), request.inspection.root);
            && Grew(w.calls, out.world.calls, true)
            && (out.end.Stopped? ==>
                  var answer := out.end.result;
                  if request.inspection.result.status != Ready then
                    answer == request.inspection.result && out.world == w
                  else if !request.connected then answer == Result(Retryable, "matrix_unavailable") && out.world == w
                  else
                    || (renewed.result.status != Ready && answer == renewed.result && out.world.calls == w.calls)
                    || Answers(w.calls, out.world.calls, answer))
  {
    hide CleanedUpTo, Inspect, Finalized, Grew, SaysWhy;
    NothingGrew(w.calls);
    if request.inspection.result.status == Ready && request.connected && NextFate(w) == Fine {
      var renewed := Inspect(config, Some(w.file), request.inspection.root);
      if renewed.result.status == Ready {
        ReadyInspection(config, w.file, request.inspection.root);
        WorkAnswers(Later(w), renewed.root, renewed.rooms, renewed.forge.value);
      }
    }
  }
}
