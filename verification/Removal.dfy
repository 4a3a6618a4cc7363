/** The staged removal of one forge's rooms, resumable whatever call or save fails and wherever
    the process stops (internal/removal/removal.go). */
module Removal {
  import opened Options
  import opened Text
  import opened Relay
  import opened Forges
  import opened Purge

  datatype Stage = ClearFacts | RemoveOperator | LeaveAndForget

  /** What becomes of one call, load or save: it succeeds, it fails, or the process stops there. */
  datatype Fate = Fine | Fails | Crash

  /** One Matrix call a removal made, or may have made when the process stopped there. */
  datatype Call = Call(room: string, stage: Stage, fate: Fate)

  /** The state file, what is to become of the calls, loads and saves still to come (the process
      stops when none are left), and the Matrix calls made so far. */
  datatype World = World(file: Saved, fates: seq<Fate>, calls: seq<Call>)

  datatype End = Crashed | Stopped(result: Result) | Went(forge: Forge)

  datatype Out = Out(world: World, end: End)

  function NextFate(w: World): Fate {
    if w.fates == [] then Crash else w.fates[0]
  }

  function Later(w: World): World {
    w.(fates := if w.fates == [] then [] else w.fates[1..])
  }

  function CanRetry(reason: string): End {
    Stopped(Result(Retryable, reason))
  }

  function Progress(forge: Forge, room: string): RoomCleanup {
    if room in forge.cleanup then forge.cleanup[room] else NOT_CLEANED
  }

  predicate StageDone(progress: RoomCleanup, stage: Stage) {
    match stage
    case ClearFacts => progress.factsCleared
    case RemoveOperator => progress.operatorRemoved
    case LeaveAndForget => progress.bridgeLeft
  }

  function Mark(progress: RoomCleanup, stage: Stage): RoomCleanup {
    match stage
    case ClearFacts => progress.(factsCleared := true)
    case RemoveOperator => progress.(operatorRemoved := true)
    case LeaveAndForget => progress.(bridgeLeft := true)
  }

  function FailureReason(stage: Stage): string {
    match stage
    case ClearFacts => "relay_cleanup_failed"
    case RemoveOperator => "operator_removal_failed"
    case LeaveAndForget => "bridge_membership_failed"
  }

  function Marked(forge: Forge, room: string, stage: Stage): Forge {
    forge.(cleanup := forge.cleanup[room := Mark(Progress(forge, room), stage)])
  }

  /** The state file with one forge's record replaced: loaded afresh and saved. */
  function SavedForge(w: World, root: string, forge: Forge): Out {
    var w1 := Later(w);
    match NextFate(w)
    case Crash => Out(w1, Crashed)
    case Fails => Out(w1, CanRetry("state_unavailable"))
    case Fine =>
      var w2 := Later(w1);
      match NextFate(w1)
      case Crash => Out(w2, Crashed)
      case Fails => Out(w2, CanRetry("state_unavailable"))
      case Fine => Out(w2.(file := w2.file.(forges := w2.file.forges[root := forge])), Went(forge))
  }

  function CleanedStage(w: World, root: string, room: string, forge: Forge, stage: Stage): Out {
    if StageDone(Progress(forge, room), stage) then Out(w, Went(forge))
    else
      var w1 := Later(w).(calls := w.calls + [Call(room, stage, NextFate(w))]);
      match NextFate(w)
      case Crash => Out(w1, Crashed)
      case Fails => Out(w1, CanRetry(FailureReason(stage)))
      case Fine => SavedForge(w1, root, Marked(forge, room, stage))
  }

  function CleanedRoom(w: World, root: string, room: string, forge: Forge): Out {
    var facts := CleanedStage(w, root, room, forge, ClearFacts);
    if !facts.end.Went? then facts
    else
      var operator := CleanedStage(facts.world, root, room, facts.end.forge, RemoveOperator);
      if !operator.end.Went? then operator
      else CleanedStage(operator.world, root, room, operator.end.forge, LeaveAndForget)
  }

  function StageNo(i: nat): Stage
    requires i < 3
  {
    if i == 0 then ClearFacts else if i == 1 then RemoveOperator else LeaveAndForget
  }

  /** The stages of all rooms in the order they are worked through, from the `i`-th up to the
      `n`-th: stage `i % 3` of room `i / 3`. */
  function CleanedUpTo(w: World, root: string, rooms: seq<string>, i: nat, n: nat, forge: Forge): Out
    requires n <= 3 * |rooms|
    decreases n - i
  {
    if i >= n then Out(w, Went(forge))
    else
      var out := CleanedStage(w, root, rooms[i / 3], forge, StageNo(i % 3));
      if out.end.Went? then CleanedUpTo(out.world, root, rooms, i + 1, n, out.end.forge) else out
  }

  function Finalized(w: World, root: string): Out {
    var w1 := Later(w);
    match NextFate(w)
    case Crash => Out(w1, Crashed)
    case Fails => Out(w1, CanRetry("state_unavailable"))
    case Fine =>
      if root !in w1.file.forges then Out(w1, Stopped(Result(NothingToRemove, "")))
      else
        var w2 := Later(w1);
        match NextFate(w1)
        case Crash => Out(w2, Crashed)
        case Fails => Out(w2, CanRetry("state_unavailable"))
        case Fine =>
          var file := Saved(w2.file.forges - {root}, Purged(w2.file.relay, root, RemovalRooms(w2.file.forges[root])));
          Out(w2.(file := file), Stopped(Result(Removed, "")))
  }

  /** One removal request: what was inspected before, and whether Matrix can be reached. */
  datatype Request = Request(inspection: Inspection, connected: bool)

  function Attempted(w: World, config: seq<ForgeConfig>, request: Request): Out {
    if request.inspection.result.status != Ready then Out(w, Stopped(request.inspection.result))
    else if !request.connected then Out(w, CanRetry("matrix_unavailable"))
    else
      var w1 := Later(w);
      match NextFate(w)
      case Crash => Out(w1, Crashed)
      case Fails => Out(w1, CanRetry("state_unavailable"))
      case Fine =>
        var renewed := Inspect(config, Some(w1.file), request.inspection.root);
        if renewed.result.status != Ready then Out(w1, Stopped(renewed.result))
        else
          var out := CleanedUpTo(w1, renewed.root, renewed.rooms, 0, 3 * |renewed.rooms|, renewed.forge.value);
          if out.end.Went? then Finalized(out.world, renewed.root) else out
  }

  lemma {:induction false} CleaningJoins(w: World, root: string, rooms: seq<string>, i: nat, m: nat, n: nat,
                                         forge: Forge)
    requires i <= m <= n <= 3 * |rooms|
    ensures var first := CleanedUpTo(w, root, rooms, i, m, forge);
            CleanedUpTo(w, root, rooms, i, n, forge)
            == if first.end.Went? then CleanedUpTo(first.world, root, rooms, m, n, first.end.forge) else first
    decreases m - i
  {
    hide CleanedStage, StageNo;
    if i < m {
      var out := CleanedStage(w, root, rooms[i / 3], forge, StageNo(i % 3));
      if out.end.Went? {
        CleaningJoins(out.world, root, rooms, i + 1, m, n, out.end.forge);
      }
    }
  }

  /** Carries one removal out against the state file and Matrix. */
  class Service {
    const config: seq<ForgeConfig>
    var file: Saved
    ghost var calls: seq<Call>
    var fates: seq<Fate>

    constructor (config: seq<ForgeConfig>, file: Saved, fates: seq<Fate>)
      ensures this.config == config && Now() == World(file, fates, [])
    {
      this.config, this.file, this.fates, calls := config, file, fates, [];
    }

    ghost function Now(): World
      reads this
    {
      World(file, fates, calls)
    }

    method Draw() returns (fate: Fate)
      modifies this
      ensures fate == NextFate(old(Now())) && Now() == Later(old(Now()))
    {
      if fates == [] {
        return Crash;
      }
      fate := fates[0];
      fates := fates[1..];
    }

    method SaveForge(root: string, forge: Forge) returns (end: End)
      modifies this
      ensures Out(Now(), end) == SavedForge(old(Now()), root, forge)
    {
      var load := Draw();
      if load != Fine {
        return if load == Crash then Crashed else CanRetry("state_unavailable");
      }
      var loaded := file;
      loaded := loaded.(forges := loaded.forges[root := forge]);
      var save := Draw();
      if save != Fine {
        return if save == Crash then Crashed else CanRetry("state_unavailable");
      }
      file := loaded;
      end := Went(forge);
    }

    /** One stage of one room: skipped when done, else called, marked and saved. */
    method CleanStage(root: string, room: string, forge: Forge, stage: Stage) returns (end: End)
      modifies this
      ensures Out(Now(), end) == CleanedStage(old(Now()), root, room, forge, stage)
    {
      var progress := Progress(forge, room);
      if StageDone(progress, stage) {
        return Went(forge);
      }
      ghost var before := Now();
      var run := Draw();
      calls := calls + [Call(room, stage, run)];
      if run == Crash {
        return Crashed;
      }
      if run == Fails {
        return CanRetry(FailureReason(stage));
      }
      progress := Mark(progress, stage);
      end := SaveForge(root, forge.(cleanup := forge.cleanup[room := progress]));
    }

    method CleanRoom(root: string, room: string, forge: Forge) returns (end: End)
      modifies this
      ensures Out(Now(), end) == CleanedRoom(old(Now()), root, room, forge)
    {
      end := CleanStage(root, room, forge, ClearFacts);
      if !end.Went? {
        return;
      }
      end := CleanStage(root, room, end.forge, RemoveOperator);
      if !end.Went? {
        return;
      }
      end := CleanStage(root, room, end.forge, LeaveAndForget);
    }

    method Finalize(root: string) returns (end: End)
      modifies this
      ensures Out(Now(), end) == Finalized(old(Now()), root)
    {
      var load := Draw();
      if load != Fine {
        return if load == Crash then Crashed else CanRetry("state_unavailable");
      }
      if root !in file.forges {
        return Stopped(Result(NothingToRemove, ""));
      }
      var loaded := new Bookkeeping(file.relay);
      PurgeRelay(loaded, root, file.forges[root]);
      var save := Draw();
      if save != Fine {
        return if save == Crash then Crashed else CanRetry("state_unavailable");
      }
      file := Saved(file.forges - {root}, loaded.Value());
      end := Stopped(Result(Removed, ""));
    }

    /** Carries out an inspection. A refused or completed request never reaches Matrix, and a
        retry skips the stages already saved as done. */
    method Remove(request: Request) returns (end: End)
      modifies this
      ensures Out(Now(), end) == Attempted(old(Now()), config, request)
    {
      hide CleanedStage, StageNo, Finalized;
      if request.inspection.result.status != Ready {
        return Stopped(request.inspection.result);
      }
      if !request.connected {
        return CanRetry("matrix_unavailable");
      }
      var load := Draw();
      if load != Fine {
        return if load == Crash then Crashed else CanRetry("state_unavailable");
      }
      var renewed := Inspect(config, Some(file), request.inspection.root);
      if renewed.result.status != Ready {
        return Stopped(renewed.result);
      }
      ghost var start := Now();
      var forge := renewed.forge.value;
      for k := 0 to |renewed.rooms|
        invariant CleanedUpTo(start, renewed.root, renewed.rooms, 0, 3 * k, renewed.forge.value)
                  == Out(Now(), Went(forge))
      {
        CleaningJoins(start, renewed.root, renewed.rooms, 0, 3 * k, 3 * k + 3, renewed.forge.value);
        CleaningJoins(start, renewed.root, renewed.rooms, 0, 3 * k + 3, 3 * |renewed.rooms|, renewed.forge.value);
        CleaningARoom(Now(), renewed.root, renewed.rooms, k, forge);
        end := CleanRoom(renewed.root, renewed.rooms[k], forge);
        if !end.Went? {
          return;
        }
        forge := end.forge;
      }
      end := Finalize(renewed.root);
    }
  }

  /** The three stages of one room are the next three of the whole work. */
  lemma CleaningARoom(w: World, root: string, rooms: seq<string>, k: nat, forge: Forge)
    requires k < |rooms|
    ensures CleanedUpTo(w, root, rooms, 3 * k, 3 * k + 3, forge) == CleanedRoom(w, root, rooms[k], forge)
  {
    hide CleanedStage;
    assert (3 * k) / 3 == k && (3 * k + 1) / 3 == k && (3 * k + 2) / 3 == k;
    assert (3 * k) % 3 == 0 && (3 * k + 1) % 3 == 1 && (3 * k + 2) % 3 == 2;
    var one := CleanedStage(w, root, rooms[k], forge, ClearFacts);
    assert CleanedUpTo(w, root, rooms, 3 * k, 3 * k + 3, forge)
        == if one.end.Went? then CleanedUpTo(one.world, root, rooms, 3 * k + 1, 3 * k + 3, one.end.forge) else one;
    if one.end.Went? {
      var two := CleanedStage(one.world, root, rooms[k], one.end.forge, RemoveOperator);
      assert CleanedUpTo(one.world, root, rooms, 3 * k + 1, 3 * k + 3, one.end.forge)
          == if two.end.Went? then CleanedUpTo(two.world, root, rooms, 3 * k + 2, 3 * k + 3, two.end.forge) else two;
    }
  }
}
