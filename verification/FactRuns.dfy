/** What the rooms carry over whole runs of passes whose calls and saves may fail, and restarts
    (internal/bridge/facts.go). */
module FactRuns {
  import opened Facts

  /** What the rooms hold, what the bridge remembers of it and what its state file does; the places
      changed since the last save, and those whose change a restart forgot. */
  datatype Sys = Sys(
    held: map<Place, string>, memory: map<Place, string>, filed: map<Place, string>, unsaved: set<Place>,
    lost: set<Place>)

  /** A pass over one room and type, as far as it came, a restart, or a save by another part of the
      bridge. */
  datatype Step =
    | Pass(roomID: string, factType: string, desired: map<string, string>, written: set<string>, gone: set<string>,
           saved: bool)
    | Restart
    | SavedElsewhere

  /** A pass saves only once all of its calls went through, and only if it made any. */
  ghost predicate Possible(s: Sys, step: Step) {
    step.Pass? ==>
      && CanPass(s.memory, step.roomID, step.factType, step.desired, step.written, step.gone)
      && (step.saved ==>
            WholePass(s.memory, step.roomID, step.factType, step.desired, step.written, step.gone)
            && step.written + step.gone != {})
  }

  function Touched(step: Step): set<Place>
    requires step.Pass?
  {
    Places(step.roomID, step.factType, step.written + step.gone)
  }

  ghost function Do(s: Sys, step: Step): Sys
    requires Possible(s, step)
  {
    match step
    case Pass(roomID, factType, desired, written, gone, saved) =>
      var memory := Brought(s.memory, roomID, factType, desired, written, gone);
      var held := Brought(s.held, roomID, factType, desired, written, gone);
      Sys(held, memory, if saved then memory else s.filed, if saved then {} else s.unsaved + Touched(step),
          s.lost - Touched(step))
    case Restart => s.(memory := s.filed, unsaved := {}, lost := s.lost + s.unsaved)
    case SavedElsewhere => s.(filed := s.memory, unsaved := {})
  }

  ghost predicate IsRun(s: Sys, steps: seq<Step>)
    decreases |steps|
  {
    steps == [] || (Possible(s, steps[0]) && IsRun(Do(s, steps[0]), steps[1..]))
  }

  ghost function Run(s: Sys, steps: seq<Step>): Sys
    requires IsRun(s, steps)
    decreases |steps|
  {
    if steps == [] then s else Run(Do(s, steps[0]), steps[1..])
  }

  /** Two views have the same at a place. */
  predicate SameAt(a: map<Place, string>, b: map<Place, string>, t: Place) {
    (t in a <==> t in b) && (t in a ==> a[t] == b[t])
  }

  /** The memory is right but where a change was lost, and the file but there and where one is
      still to be saved. */
  predicate Right(s: Sys, t: Place) {
    && (t !in s.lost ==> SameAt(s.memory, s.held, t))
    && (t !in s.lost && t !in s.unsaved ==> SameAt(s.filed, s.held, t))
  }

  lemma StepStaysRight(s: Sys, step: Step, t: Place)
    requires Possible(s, step) && Right(s, t)
    ensures Right(Do(s, step), t)
  {
    hide Brought, ToWrite, ToClear;
    if step.Pass? {
      BroughtAt(s.held, step.roomID, step.factType, step.desired, step.written, step.gone, t);
      BroughtAt(s.memory, step.roomID, step.factType, step.desired, step.written, step.gone, t);
    }
  }

  /** Over any run from a start at which file, memory and rooms agree, memory and rooms agree at
      every place but those whose last change a restart forgot before it was saved. */
  lemma {:induction false} MemoryIsRightButForTheLost(s: Sys, steps: seq<Step>, t: Place)
    requires IsRun(s, steps) && Right(s, t)
    ensures Right(Run(s, steps), t)
    decreases |steps|
  {
    hide Possible, Do, Right;
    if steps != [] {
      StepStaysRight(s, steps[0], t);
      MemoryIsRightButForTheLost(Do(s, steps[0]), steps[1..], t);
    }
  }

  /** So a pass that goes through over a room of which nothing was lost leaves it carrying exactly
      the wanted facts. */
  lemma UnlostRoomCarriesTheWanted(s: Sys, steps: seq<Step>, step: Step)
    requires IsRun(s, steps) && Possible(Run(s, steps), step) && step.Pass?
    requires s.held == s.memory == s.filed && s.lost == {}
    requires var now := Run(s, steps);
             && WholePass(now.memory, step.roomID, step.factType, step.desired, step.written, step.gone)
             && forall t: Place | t in now.lost :: t.0 != step.roomID || t.1 != step.factType
    ensures Carries(Do(Run(s, steps), step).held, step.roomID, step.factType, step.desired)
  {
    hide Possible, IsRun, Run, Brought;
    var now := Run(s, steps);
    forall t: Place ensures Right(now, t) {
      MemoryIsRightButForTheLost(s, steps, t);
    }
    assert KnowsEnough(now.memory, now.held, step.roomID, step.factType, step.desired) by {
      forall k ensures SameAt(now.memory, now.held, (step.roomID, step.factType, k)) {
        assert Right(now, (step.roomID, step.factType, k));
      }
    }
    PassCarriesWhenKnown(now.held, now.memory, step.roomID, step.factType, step.desired, step.written, step.gone);
  }

  // A fact nobody remembers.

  /** The rooms hold it, and neither the bridge nor its file knows. */
  predicate Forgotten(s: Sys, t: Place, content: string) {
    t in s.held && s.held[t] == content && t !in s.memory && t !in s.filed
  }

  predicate NeverWanted(steps: seq<Step>, t: Place) {
    forall step | step in steps && step.Pass? ::
      t.0 == step.roomID && t.1 == step.factType ==> t.2 !in step.desired
  }

  /** Once forgotten, a fact that is not wanted again is never cleared, whatever passes succeed. */
  lemma {:induction false} ForgottenFactStays(s: Sys, steps: seq<Step>, t: Place, content: string)
    requires IsRun(s, steps) && Forgotten(s, t, content) && NeverWanted(steps, t)
    ensures Forgotten(Run(s, steps), t, content)
    decreases |steps|
  {
    hide Brought;
    if steps != [] {
      var step := steps[0];
      assert step in steps && forall x | x in steps[1..] :: x in steps;
      if step.Pass? {
        BroughtAt(s.held, step.roomID, step.factType, step.desired, step.written, step.gone, t);
        BroughtAt(s.memory, step.roomID, step.factType, step.desired, step.written, step.gone, t);
      }
      ForgottenFactStays(Do(s, step), steps[1..], t, content);
    }
  }

  /** It comes about so: whatever is wanted of a room, it is given a new fact, a later call or the
      save fails, and the bridge restarts. */
  lemma LostSaveForgetsAFact(s: Sys, t: Place, desired: map<string, string>) returns (steps: seq<Step>)
    requires t !in s.held && t !in s.memory && t !in s.filed && t.2 in desired
    ensures IsRun(s, steps) && Forgotten(Run(s, steps), t, desired[t.2])
  {
    hide Brought;
    var pass := Pass(t.0, t.1, desired, {t.2}, {}, false);
    assert Possible(s, pass);
    BroughtAt(s.held, t.0, t.1, desired, {t.2}, {}, t);
    steps := [pass, Restart];
    assert steps[1..] == [Restart] && [Restart][1..] == [];
    assert IsRun(Do(s, pass), [Restart]) && Run(Do(s, pass), [Restart]) == Do(Do(s, pass), Restart);
  }
}
