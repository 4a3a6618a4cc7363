/** Invariants of the chat bookkeeping over whole runs. */
module ChatInvariants {
  import opened Options
  import opened Text
  import opened Relay
  import opened ChatPlan
  import opened PendingWork
  import opened Chat
  import opened ChatKeys
  import opened ChatRuns
  import opened ChatPairing

  // Relayed messages stay injective within every root, whatever fails.

  ghost predicate BothInjective(v: Serving, any: string) {
    Injective(v.book, any) && Injective(v.file, any)
  }

  lemma TryStaysInjective(v: Serving, root: string, a: Action, answer: Outcome, any: string)
    requires BothInjective(v, any)
    ensures BothInjective(Try(v, root, a, answer), any)
  {
    hide Applied, Injective, ActionKey;
    if answer.Landed? {
      ApplyingStaysInjective(v.book, root, a, answer.eventID, any);
    }
  }

  lemma {:induction false} TryAllStaysInjective(
      v: Serving, root: string, actions: seq<Action>, answers: map<string, Outcome>, any: string)
    requires BothInjective(v, any)
    ensures BothInjective(TryAll(v, root, actions, answers), any)
    decreases |actions|
  {
    hide BothInjective, Try, ActionKey;
    if actions != [] {
      var answer := AnswerTo(answers, ActionKey(actions[0]));
      TryStaysInjective(v, root, actions[0], answer, any);
      TryAllStaysInjective(Try(v, root, actions[0], answer), root, actions[1..], answers, any);
    }
  }

  lemma TickStaysInjective(s: Sys, step: Step, any: string)
    requires step.Tick? && step.root != "" && Injective(s.book, any) && Injective(s.file, any)
    ensures BothInjective(TickServing(s, step), any)
  {
    hide Injective, TryAll, PairedUp, Plan, ActionKey;
    var v := ServingOf(s, step.root).(kept := TickKept(s, step));
    TryAllStaysInjective(v, step.root, Listed(TickKept(s, step)), step.answers, any);
    if step.readBack.Some? {
      PairingStaysInjective(TickTried(s, step).book, step.root, step.readBack.value, any);
    }
  }

  /** In every state a run can reach, no two messages a root counts became the same request:
      the index of origins a plan uses is then the inverse of what was relayed. */
  lemma {:induction false} RunStaysInjective(s: Sys, steps: seq<Step>, any: string)
    requires IsRun(s, steps) && Injective(s.book, any) && Injective(s.file, any)
    ensures Injective(Run(s, steps).book, any) && Injective(Run(s, steps).file, any)
    decreases |steps|
  {
    hide Injective, TickServing;
    if steps != [] {
      if steps[0].Tick? {
        TickStaysInjective(s, steps[0], any);
      }
      RunStaysInjective(Do(s, steps[0]), steps[1..], any);
    }
  }

  // While the saves after hand-overs go through, pending and relayed are disjoint, and kept messages
  // are in neither.

  predicate Disjoint(book: State) {
    book.pending.Keys !! book.relayed.Keys
  }

  /** What one root still has to hand over is in neither map. */
  predicate Unsent(book: State, kept: map<string, Action>) {
    forall k | k in kept && kept[k].kind == CreateForgeRequest :: !Settled(book, kept[k])
  }

  predicate Clean(v: Serving) {
    Disjoint(v.book) && Disjoint(v.file) && Unsent(v.book, v.kept)
  }

  /** No save after a hand-over that landed fails; any other save may. */
  predicate Saves(a: Action, answer: Outcome) {
    a.kind == CreateForgeRequest && answer.Landed? ==> answer.saved
  }

  lemma CreateIsCalled(book: State, a: Action)
    requires a.kind == CreateForgeRequest
    ensures Called(book, a)
  {
  }

  lemma TryStaysClean(v: Serving, root: string, a: Action, answer: Outcome)
    requires Good(v) && Clean(v) && GoodAction(a) && ActionKey(a) in v.kept && v.kept[ActionKey(a)] == a
    requires Saves(a, answer)
    ensures Clean(Try(v, root, a, answer))
  {
    hide ActionKey, Try, Applied, Called;
    var next := Try(v, root, a, answer);
    TryShape(v, root, a, answer);
    if answer.Landed? && a.kind == CreateForgeRequest {
      assert Called(v.book, a) by { CreateIsCalled(v.book, a); }
      AppliedCreate(v.book, root, a, answer.eventID);
      forall k | k in next.kept && next.kept[k].kind == CreateForgeRequest ensures !Settled(next.book, next.kept[k]) {
        ActionKeyInjective(a, next.kept[k]);
      }
    } else if answer.Landed? {
      AppliedOther(v.book, root, a, answer.eventID);
    }
  }

  /** No save after one of some hand-overs fails. */
  predicate AllSave(kept: map<string, Action>, answers: map<string, Outcome>) {
    forall k | k in kept :: Saves(kept[k], AnswerTo(answers, ActionKey(kept[k])))
  }

  lemma {:induction false} TryAllStaysClean(v: Serving, root: string, actions: seq<Action>,
                                            answers: map<string, Outcome>)
    requires Good(v) && Clean(v) && Waiting(v.kept, actions)
    requires forall a | a in actions :: Saves(a, AnswerTo(answers, ActionKey(a)))
    ensures Clean(TryAll(v, root, actions, answers))
    decreases |actions|
  {
    hide Clean, Try, ActionKey, Good, GoodAction, Saves;
    if actions != [] {
      var answer := AnswerTo(answers, ActionKey(actions[0]));
      TryStaysClean(v, root, actions[0], answer);
      TryIsGood(v, root, actions[0], answer);
      WaitingAfter(v, root, actions, answer);
      TryAllStaysClean(Try(v, root, actions[0], answer), root, actions[1..], answers);
    }
  }

  lemma PairPassStaysClean(v: Serving, root: string, readBack: Option<seq<Request>>, saves: bool)
    requires Clean(v)
    ensures Clean(PairPass(v, root, readBack, saves))
  {
    hide PairedUp, OwnersKept, ActionKey;
    if readBack.Some? {
      PairingConserves(v.book, root, readBack.value);
    }
  }

  lemma KeepingStaysClean(s: Sys, step: Step)
    requires step.Tick? && Possible(s, step) && Good(ServingOf(s, step.root)) && Clean(ServingOf(s, step.root))
    ensures Clean(ServingOf(s, step.root).(kept := TickKept(s, step)))
  {
    var v, kept := ServingOf(s, step.root), TickKept(s, step);
    hide Settled, GoodAction, Plan, Kept, ActionKey;
    forall k | k in kept && kept[k].kind == CreateForgeRequest ensures !Settled(s.book, kept[k]) {
      var _ := KeptPlan(v, step.operator, step.origins, step.requests, step.events, k);
    }
  }

  lemma TickStaysClean(s: Sys, step: Step)
    requires step.Tick? && Possible(s, step) && Good(ServingOf(s, step.root)) && Clean(ServingOf(s, step.root))
    requires AllSave(TickKept(s, step), step.answers)
    ensures Clean(TickServing(s, step))
  {
    hide Clean, Good, TryAll, PairPass, Listed, Kept, Possible, ActionKey, Plan, Saves;
    KeepingStaysClean(s, step);
    TickIsGood(s, step);
    forall a | a in Listed(TickKept(s, step)) ensures Saves(a, AnswerTo(step.answers, ActionKey(a))) {
      assert ActionKey(a) in TickKept(s, step);
    }
    TryAllStaysClean(ServingOf(s, step.root).(kept := TickKept(s, step)), step.root, Listed(TickKept(s, step)),
                     step.answers);
    PairPassStaysClean(TickTried(s, step), step.root, step.readBack, step.saves);
  }

  /** The condition is exact: a hand-over whose save failed waits although it is carried out. */
  lemma LostHandOverIsUnclean(s: Sys, step: Step)
    requires step.Tick? && Possible(s, step) && Good(ServingOf(s, step.root)) && Clean(ServingOf(s, step.root))
    ensures Clean(TickServing(s, step)) <==> AllSave(TickKept(s, step), step.answers)
  {
    hide Clean, Good, TryAll, PairPass, Listed, Kept, Possible, ActionKey, Plan, Saves, TickServing, Settled,
        GoodAction;
    var kept := TickKept(s, step);
    TickIsGood(s, step);
    if AllSave(kept, step.answers) {
      TickStaysClean(s, step);
    } else {
      var k :| k in kept && !Saves(kept[k], AnswerTo(step.answers, ActionKey(kept[k])));
      assert Good(ServingOf(s, step.root).(kept := kept));
      TickLosesOne(s, step, k);
    }
  }

  lemma TickLosesOne(s: Sys, step: Step, k: string)
    requires step.Tick? && Possible(s, step) && Good(ServingOf(s, step.root).(kept := TickKept(s, step)))
    requires k in TickKept(s, step) && Waiting(TickKept(s, step), Listed(TickKept(s, step))) && Good(TickTried(s, step))
    requires !Saves(TickKept(s, step)[k], AnswerTo(step.answers, ActionKey(TickKept(s, step)[k])))
    ensures !Clean(TickServing(s, step))
  {
    hide ActionKey, Plan, TryAll, Kept, Listed, Disjoint, Settled, PairPass;
    var kept := TickKept(s, step);
    var a := kept[k];
    var b := KeptIsListed(kept, k);
    LostStaysKept(ServingOf(s, step.root).(kept := kept), step.root, Listed(kept), step.answers, a);
    PairPassKeepsSettled(TickTried(s, step), step.root, step.readBack, step.saves, a);
    PairPassKeepsWork(TickTried(s, step), step.root, step.readBack, step.saves);
  }

  lemma PairPassKeepsWork(v: Serving, root: string, readBack: Option<seq<Request>>, saves: bool)
    ensures PairPass(v, root, readBack, saves).kept == v.kept
  {
    hide PairedUp;
  }

  /** A hand-over that landed unsaved is carried out and still waits. */
  lemma {:induction false} LostStaysKept(v: Serving, root: string, actions: seq<Action>, answers: map<string, Outcome>,
                                         a: Action)
    requires Waiting(v.kept, actions) && a.kind == CreateForgeRequest && a.source != ""
    requires if a in actions then !Saves(a, AnswerTo(answers, ActionKey(a)))
             else Settled(v.book, a) && ActionKey(a) in v.kept && v.kept[ActionKey(a)] == a
    requires a in actions || forall b | b in actions :: ActionKey(b) != ActionKey(a)
    ensures var after := TryAll(v, root, actions, answers);
            Settled(after.book, a) && ActionKey(a) in after.kept && after.kept[ActionKey(a)] == a
    decreases |actions|
  {
    hide ActionKey, Settled;
    if actions != [] {
      var answer := AnswerTo(answers, ActionKey(actions[0]));
      WaitingAfter(v, root, actions, answer);
      TryKeepsOrLoses(v, root, actions[0], answer, a);
      assert actions == [actions[0]] + actions[1..];
      forall b | b in actions[1..] ensures ActionKey(b) != ActionKey(actions[0]) {
        var i :| 0 < i < |actions| && actions[i] == b;
      }
      LostStaysKept(Try(v, root, actions[0], answer), root, actions[1..], answers, a);
    }
  }

  lemma TryKeepsOrLoses(v: Serving, root: string, b: Action, answer: Outcome, a: Action)
    requires a.kind == CreateForgeRequest && a.source != ""
    requires ActionKey(b) in v.kept && v.kept[ActionKey(b)] == b
    ensures a == b && !Saves(a, answer) ==>
              Settled(Try(v, root, b, answer).book, a) && Try(v, root, b, answer).kept == v.kept
    ensures Settled(v.book, a) ==> Settled(Try(v, root, b, answer).book, a)
    ensures ActionKey(a) != ActionKey(b) && ActionKey(a) in v.kept
            ==> ActionKey(a) in Try(v, root, b, answer).kept
                && Try(v, root, b, answer).kept[ActionKey(a)] == v.kept[ActionKey(a)]
  {
    hide ActionKey, Try, Applied, Called;
    TryShape(v, root, b, answer);
    assert b.kind == CreateForgeRequest ==> Called(v.book, b) by {
      if b.kind == CreateForgeRequest {
        CreateIsCalled(v.book, b);
      }
    }
    if answer.Landed? {
      if b.kind == CreateForgeRequest {
        AppliedCreate(v.book, root, b, answer.eventID);
      } else {
        AppliedOther(v.book, root, b, answer.eventID);
      }
    }
  }

  // A message is said in one root's room.

  /** Every message a root keeps was said in that root's room. */
  predicate Homed(kept: map<string, Action>, home: string -> string, root: string) {
    forall k | k in kept && kept[k].kind == CreateForgeRequest :: home(kept[k].source) == root
  }

  predicate Known(book: State, e: string) {
    e in book.pending || e in book.relayed
  }

  /** Nothing is known that was not before, but for the messages of this root's room. */
  ghost predicate LearnsOnlyOwn(before: State, after: State, home: string -> string, root: string) {
    forall e | Known(after, e) :: Known(before, e) || home(e) == root
  }

  lemma {:induction false} TryAllLearnsOnlyOwn(
      v: Serving, root: string, actions: seq<Action>, answers: map<string, Outcome>, home: string -> string)
    requires forall a | a in actions && a.kind == CreateForgeRequest :: home(a.source) == root
    ensures LearnsOnlyOwn(v.book, TryAll(v, root, actions, answers).book, home, root)
    decreases |actions|
  {
    if actions != [] {
      var answer := AnswerTo(answers, ActionKey(actions[0]));
      TryLearnsOnlyOwn(v, root, actions[0], answer, home);
      TryAllLearnsOnlyOwn(Try(v, root, actions[0], answer), root, actions[1..], answers, home);
    }
  }

  lemma TryLearnsOnlyOwn(v: Serving, root: string, a: Action, answer: Outcome, home: string -> string)
    requires a.kind == CreateForgeRequest ==> home(a.source) == root
    ensures LearnsOnlyOwn(v.book, Try(v, root, a, answer).book, home, root)
  {
    hide ActionKey, Try, Applied, Called;
    TryShape(v, root, a, answer);
    if answer.Landed? && a.kind == CreateForgeRequest {
      AppliedCreate(v.book, root, a, answer.eventID);
    } else if answer.Landed? {
      AppliedOther(v.book, root, a, answer.eventID);
    }
  }

  lemma PlannedIsHomed(st: State, step: Step, a: Action, home: string -> string)
    requires step.Tick? && forall e | e in step.events :: home(e.eventID) == step.root
    requires a in Plan(st, step.operator, step.origins, step.requests, step.events) && a.kind == CreateForgeRequest
    ensures home(a.source) == step.root
  {
    hide Plan, OperatorAsked, AskedInThread, Posted, AnswerDue;
    PlanMembers(st, step.operator, step.origins, step.requests, step.events, a);
  }

  lemma KeptIsHomed(s: Sys, step: Step, home: string -> string)
    requires step.Tick? && Possible(s, step) && Good(ServingOf(s, step.root))
    requires Homed(KeptFor(s, step.root), home, step.root) && forall e | e in step.events ::
               home(e.eventID) == step.root
    ensures Homed(TickKept(s, step), home, step.root)
  {
    var v, kept := ServingOf(s, step.root), TickKept(s, step);
    hide Settled, GoodAction, Plan, Kept, ActionKey;
    forall k | k in kept && kept[k].kind == CreateForgeRequest ensures home(kept[k].source) == step.root {
      var _ := KeptPlan(v, step.operator, step.origins, step.requests, step.events, k);
      if kept[k] in Plan(v.book, step.operator, step.origins, step.requests, step.events) {
        PlannedIsHomed(v.book, step, kept[k], home);
      }
    }
  }

  lemma TickLearnsOnlyOwn(s: Sys, step: Step, home: string -> string)
    requires step.Tick? && Possible(s, step) && Good(ServingOf(s, step.root))
    requires Homed(KeptFor(s, step.root), home, step.root) && forall e | e in step.events ::
               home(e.eventID) == step.root
    ensures LearnsOnlyOwn(s.book, TickServing(s, step).book, home, step.root)
    ensures Homed(TickServing(s, step).kept, home, step.root)
  {
    hide TryAll, PairedUp, ActionKey, Kept, Plan, GoodAction, Listed;
    var v := ServingOf(s, step.root).(kept := TickKept(s, step));
    KeptIsHomed(s, step, home);
    TickIsGood(s, step);
    forall a | a in Listed(v.kept) && a.kind == CreateForgeRequest ensures home(a.source) == step.root {
      assert v.kept[ActionKey(a)] == a;
    }
    TryAllLearnsOnlyOwn(v, step.root, Listed(v.kept), step.answers, home);
    TryAllKeepsLess(v, step.root, Listed(v.kept), step.answers);
    if step.readBack.Some? {
      PairingConserves(TickTried(s, step).book, step.root, step.readBack.value);
    }
  }

  /** Trying work only takes work out. */
  lemma {:induction false} TryAllKeepsLess(v: Serving, root: string, actions: seq<Action>,
                                           answers: map<string, Outcome>)
    ensures forall k | k in TryAll(v, root, actions, answers).kept ::
              k in v.kept && TryAll(v, root, actions, answers).kept[k] == v.kept[k]
    decreases |actions|
  {
    hide ActionKey, Applied;
    if actions != [] {
      TryAllKeepsLess(Try(v, root, actions[0], AnswerTo(answers, ActionKey(actions[0]))), root, actions[1..], answers);
    }
  }

  /** A run in which every message is said in one root's room and the saves after hand-overs go
      through. */
  predicate IsCleanRun(s: Sys, steps: seq<Step>, home: string -> string)
    decreases |steps|
  {
    steps == []
    || (&& Possible(s, steps[0])
        && (steps[0].Tick? ==>
              && AllSave(TickKept(s, steps[0]), steps[0].answers)
              && forall e | e in steps[0].events :: home(e.eventID) == steps[0].root)
        && IsCleanRun(Do(s, steps[0]), steps[1..], home))
  }

  predicate CleanSys(s: Sys, home: string -> string) {
    && AllGood(s) && Disjoint(s.book) && Disjoint(s.file)
    && forall root | root in s.kept :: Unsent(s.book, s.kept[root]) && Homed(s.kept[root], home, root)
  }

  lemma CleanServing(s: Sys, root: string, home: string -> string)
    requires CleanSys(s, home)
    ensures Good(ServingOf(s, root)) && Clean(ServingOf(s, root)) && Homed(KeptFor(s, root), home, root)
  {
  }

  lemma OthersStayUnsent(before: State, after: State, kept: map<string, Action>, home: string -> string, root: string,
                         other: string)
    requires Unsent(before, kept) && Homed(kept, home, other) && other != root
    requires LearnsOnlyOwn(before, after, home, root)
    ensures Unsent(after, kept)
  {
    forall k | k in kept && kept[k].kind == CreateForgeRequest ensures !Settled(after, kept[k]) {
      assert !Known(before, kept[k].source) && home(kept[k].source) == other;
    }
  }

  lemma StepStaysClean(s: Sys, step: Step, home: string -> string)
    requires CleanSys(s, home) && IsCleanRun(s, [step], home)
    ensures CleanSys(Do(s, step), home)
  {
    hide Good, GoodKept, GoodAction, ActionKey, TickServing, Possible;
    if step.Tick? {
      var next := TickServing(s, step);
      CleanServing(s, step.root, home);
      TickIsGood(s, step);
      TickStaysClean(s, step);
      TickLearnsOnlyOwn(s, step, home);
      AllGoodAfter(s, step);
      forall root | root in Do(s, step).kept
        ensures Unsent(next.book, Do(s, step).kept[root]) && Homed(Do(s, step).kept[root], home, root)
      {
        if root != step.root {
          OthersStayUnsent(s.book, next.book, s.kept[root], home, step.root, root);
        }
      }
    }
  }

  /** While the saves after hand-overs go through, in every reachable state no message is both pending
      and relayed, and a message still to be handed over is neither. */
  lemma {:induction false} RunStaysClean(s: Sys, steps: seq<Step>, home: string -> string)
    requires CleanSys(s, home) && IsCleanRun(s, steps, home)
    ensures CleanSys(Run(s, steps), home)
    decreases |steps|
  {
    hide CleanSys, Possible, Do;
    if steps != [] {
      assert IsCleanRun(s, [steps[0]], home) by {
        assert [steps[0]][1..] == [];
      }
      StepStaysClean(s, steps[0], home);
      RunStaysClean(Do(s, steps[0]), steps[1..], home);
    }
  }
}
