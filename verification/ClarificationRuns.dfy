/** What holds of clarifications over whole runs of the bridge: any ticks of any forges with any call
    refused and any save failing, questions asked and answered at the desk in between, and restarts. */
module ClarificationRuns {
  import opened Options
  import opened Text
  import opened Quote
  import opened Relay
  import opened PendingWork
  import opened ClarificationPlan
  import opened Clarifications
  import opened ClarificationTries
  import opened ClarificationIsolation

  /** The shared bookkeeping and state file, each forge's pending work, what the forges still hold
      and what they took, the record of every call, and every question that ever was. */
  datatype Sys = Sys(
    book: map<string, ClarificationState>, file: map<string, ClarificationState>,
    kept: map<string, map<string, Action>>, open: set<string>, taken: map<string, string>, log: seq<Entry>,
    ever: set<string>)

  datatype Step = Tick(visit: Visit) | Ask(key: string) | AnswerAtDesk(key: string) | Restart | SavedElsewhere

  function KeptFor(s: Sys, root: string): map<string, Action> {
    if root in s.kept then s.kept[root] else map[]
  }

  /** What one forge still holds. */
  function OpenAt(open: set<string>, h: Homes, root: string): set<string> {
    set k | k in open && h.ofKey(k) == root
  }

  function DeskOf(s: Sys, h: Homes, root: string): Desk {
    Desk(s.book, s.file, KeptFor(s, root), OpenAt(s.open, h, root), s.taken, s.log)
  }

  /** A forge lists exactly what it holds, from rooms of its own; a key is asked once; the desk
      answers only what is open. */
  ghost predicate Possible(s: Sys, h: Homes, step: Step) {
    match step
    case Tick(v) => Ready(DeskOf(s, h, v.root), v) && h.ofRoom(v.room) == v.root
    case Ask(key) => key !in s.ever
    case AnswerAtDesk(key) => key in s.open
    case Restart => true
    case SavedElsewhere => true
  }

  ghost function TickDesk(s: Sys, h: Homes, v: Visit): Desk
    requires Possible(s, h, Tick(v))
  {
    Visited(DeskOf(s, h, v.root), v)
  }

  ghost function Do(s: Sys, h: Homes, step: Step): Sys
    requires Possible(s, h, step)
  {
    match step
    case Tick(v) =>
      var after := TickDesk(s, h, v);
      s.(book := after.book, file := after.file, kept := s.kept[v.root := after.kept],
         open := (s.open - OpenAt(s.open, h, v.root)) + after.open, taken := after.taken, log := after.log)
    case Ask(key) => s.(open := s.open + {key}, ever := s.ever + {key})
    case AnswerAtDesk(key) => s.(open := s.open - {key})
    case Restart => s.(book := s.file, kept := map[])
    case SavedElsewhere => s.(file := s.book)
  }

  ghost predicate IsRun(s: Sys, h: Homes, steps: seq<Step>)
    decreases |steps|
  {
    steps == [] || (Possible(s, h, steps[0]) && IsRun(Do(s, h, steps[0]), h, steps[1..]))
  }

  ghost function Run(s: Sys, h: Homes, steps: seq<Step>): Sys
    requires IsRun(s, h, steps)
    decreases |steps|
  {
    if steps == [] then s else Run(Do(s, h, steps[0]), h, steps[1..])
  }

  // The invariant.

  /** Every forge's work and records are its own. */
  predicate Settled(s: Sys, h: Homes) {
    && s.open <= s.ever && RoomsMatch(s.book, h) && RoomsMatch(s.file, h)
    && forall root | root in s.kept :: Homed(s.kept[root], h, root)
  }

  function PastOf(s: Sys, key: string, first: string): Past {
    Past(key !in s.ever, first)
  }

  predicate Fine(s: Sys, h: Homes, key: string, first: string) {
    Settled(s, h) && Healthy(DeskOf(s, h, h.ofKey(key)), key, PastOf(s, key, first))
  }

  lemma VisitIsAtHome(s: Sys, h: Homes, v: Visit)
    requires Possible(s, h, Tick(v)) && Settled(s, h)
    ensures AtHome(v, h) && Homed(KeptFor(s, v.root), h, v.root)
  {
    hide Homed, RoomsMatch, Walks, GoodAnswers;
    assert Homed(map[], h, v.root) by { NothingIsHomed(h, v.root); }
    forall a | a in v.pending ensures h.ofKey(a.key) == v.root {
      assert a.key in Keys(v.pending);
    }
  }

  lemma NothingIsHomed(h: Homes, root: string)
    ensures Homed(map[], h, root)
  {
  }

  lemma TickStaysSettled(s: Sys, h: Homes, v: Visit)
    requires Possible(s, h, Tick(v)) && Settled(s, h)
    ensures Settled(Do(s, h, Tick(v)), h) && DeskOf(Do(s, h, Tick(v)), h, v.root) == TickDesk(s, h, v)
  {
    hide Homed, RoomsMatch, Ready, Visited;
    VisitIsAtHome(s, h, v);
    VisitStaysAtHome(DeskOf(s, h, v.root), v, h);
    var after, next := TickDesk(s, h, v), Do(s, h, Tick(v));
    assert OpenAt(next.open, h, v.root) == after.open;
  }

  /** A tick of a question's own forge. */
  lemma OwnTickStaysFine(s: Sys, h: Homes, v: Visit, key: string, first: string)
    requires Possible(s, h, Tick(v)) && Fine(s, h, key, first) && h.ofKey(key) == v.root
    ensures Fine(Do(s, h, Tick(v)), h, key, first)
  {
    hide Settled, Healthy, Ready, Visited;
    TickStaysSettled(s, h, v);
    VisitStaysHealthy(DeskOf(s, h, v.root), v, key, PastOf(s, key, first));
  }

  /** A tick of another forge. */
  lemma TickElsewhereStaysFine(s: Sys, h: Homes, v: Visit, key: string, first: string)
    requires Possible(s, h, Tick(v)) && Fine(s, h, key, first) && h.ofKey(key) != v.root
    ensures Fine(Do(s, h, Tick(v)), h, key, first)
  {
    hide Healthy, Ready, Visited, Homed, RoomsMatch, LeavesAlone, ReadsTheSame;
    TickStaysSettled(s, h, v);
    VisitIsAtHome(s, h, v);
    var theirs, mine := DeskOf(s, h, v.root), DeskOf(s, h, h.ofKey(key));
    var next := DeskOf(Do(s, h, Tick(v)), h, h.ofKey(key));
    VisitLeavesOthersAlone(theirs, v, h, key);
    LeftAloneReadsTheSame(theirs, TickDesk(s, h, v), key);
    assert ReadsTheSame(mine, next, key) by { ReadsByRecords(theirs, TickDesk(s, h, v), mine, next, key); }
    ReadingTheSameStaysHealthy(mine, next, key, PastOf(s, key, first));
  }

  lemma ReadsByRecords(d: Desk, after: Desk, mine: Desk, next: Desk, key: string)
    requires ReadsTheSame(d, after, key)
    requires mine.book == d.book && mine.file == d.file && mine.taken == d.taken && mine.log == d.log
    requires next.book == after.book && next.file == after.file
    requires next.taken == after.taken && next.log == after.log
    ensures ReadsTheSame(mine, next, key)
  {
  }

  lemma QuietStepStaysFine(s: Sys, h: Homes, step: Step, key: string, first: string)
    requires !step.Tick? && Possible(s, h, step) && Fine(s, h, key, first)
    ensures Fine(Do(s, h, step), h, key, first)
  {
    hide Homed, RoomsMatch, Healthy;
    var d, p := DeskOf(s, h, h.ofKey(key)), PastOf(s, key, first);
    var next := Do(s, h, step);
    var after := DeskOf(next, h, h.ofKey(key));
    match step
    case Ask(k) =>
      if k == key {
        AskedStaysHealthy(d, after, key, p);
      } else {
        ReadingTheSameStaysHealthy(d, after, key, p);
      }
    case AnswerAtDesk(k) =>
      if k == key {
        AnsweredAtDeskStaysHealthy(d, after, key, p);
      } else {
        ReadingTheSameStaysHealthy(d, after, key, p);
      }
    case Restart => RestartedStaysHealthy(d, key, p);
    case SavedElsewhere => ReadingTheSameStaysHealthy(d, after, key, p);
  }

  lemma {:induction false} RunStaysFine(s: Sys, h: Homes, steps: seq<Step>, key: string, first: string)
    requires IsRun(s, h, steps) && Fine(s, h, key, first)
    ensures Fine(Run(s, h, steps), h, key, first)
    decreases |steps|
  {
    hide Fine, Possible, Do;
    if steps != [] {
      if steps[0].Tick? && h.ofKey(key) == steps[0].visit.root {
        OwnTickStaysFine(s, h, steps[0].visit, key, first);
      } else if steps[0].Tick? {
        TickElsewhereStaysFine(s, h, steps[0].visit, key, first);
      } else {
        QuietStepStaysFine(s, h, steps[0], key, first);
      }
      RunStaysFine(Do(s, h, steps[0]), h, steps[1..], key, first);
    }
  }

  // Runs.

  /** A bridge just started from a state file that fits what the forges hold. */
  ghost predicate Started(s: Sys, h: Homes) {
    && s.file == s.book && s.kept == map[] && s.log == [] && s.open <= s.ever && RoomsMatch(s.book, h)
    && forall k | k in s.book ::
         && MarkMatches(s.book[k])
         && (k in s.open ==> Untouched(s.book[k]))
         && (k !in s.ever ==> Untouched(s.book[k]) && s.book[k].messageID == "")
  }

  lemma StartIsFine(s: Sys, h: Homes, key: string)
    requires Started(s, h)
    ensures Fine(s, h, key, StateOf(s.book, key).answer)
  {
    hide RoomsMatch;
  }

  lemma ReachedIsFine(s: Sys, h: Homes, steps: seq<Step>, key: string)
    requires Started(s, h) && IsRun(s, h, steps)
    ensures Fine(Run(s, h, steps), h, key, StateOf(s.book, key).answer)
  {
    hide Started, Fine;
    StartIsFine(s, h, key);
    RunStaysFine(s, h, steps, key, StateOf(s.book, key).answer);
  }

  /** Over any run, a question takes at most one answer, whatever replies are kept together; once
      it is saved, the record holds the answer taken, here and in the state file, for good. */
  lemma AnsweredOnceAndRecorded(s: Sys, h: Homes, steps: seq<Step>, key: string)
    requires Started(s, h) && IsRun(s, h, steps)
    ensures var end := Run(s, h, steps);
            var taken := TakenAndSaved(end.log, key);
            && AnswersTaken(end.log, key) <= 1
            && (taken.Some? ==>
                  && TookOf(end.taken, key) == taken
                  && StateOf(end.book, key).answer == taken.value == StateOf(end.file, key).answer)
  {
    hide Started, IsRun, Run;
    ReachedIsFine(s, h, steps, key);
  }

  /** And the other way round: over any run, an answer on record is the one the forge took or was on
      record at the start; so for a question that was open or not yet asked then, the forge took it. */
  lemma RecordedIsVouchedFor(s: Sys, h: Homes, steps: seq<Step>, key: string)
    requires Started(s, h) && IsRun(s, h, steps)
    ensures var end, first := Run(s, h, steps), StateOf(s.book, key).answer;
            && Vouched(StateOf(end.book, key), TookOf(end.taken, key), first)
            && Vouched(StateOf(end.file, key), TookOf(end.taken, key), first)
    ensures key in s.open || key !in s.ever ==> StateOf(s.book, key).answer == ""
  {
    hide IsRun, Run, Vouched;
    ReachedIsFine(s, h, steps, key);
  }

  /** Over any run, what came of a question is reported at most once more than the reports whose
      save failed, by mark or by reply and never both; and a saved report says what the record
      says. */
  lemma ReportedOnceAndTruly(s: Sys, h: Homes, steps: seq<Step>, key: string)
    requires Started(s, h) && IsRun(s, h, steps)
    ensures var end := Run(s, h, steps);
            var told := SavedReport(end.log, key);
            && Reports(end.log, key) <= LostReports(end.log, key) + 1
            && MarkMatches(StateOf(end.book, key)) && MarkMatches(StateOf(end.file, key))
            && (told.Some? ==>
                  && ReportSays(told.value, StateOf(end.book, key).answer)
                  && StateOf(end.book, key).answer == StateOf(end.file, key).answer)
  {
    hide Started, IsRun, Run;
    ReachedIsFine(s, h, steps, key);
  }

  /** An answer the operator gave here, taken and saved, is marked as theirs exactly when it has
      words: an empty one is reported as resolved on the desktop. */
  lemma OperatorsAnswerIsMarkedIffItHasWords(s: Sys, h: Homes, steps: seq<Step>, key: string)
    requires Started(s, h) && IsRun(s, h, steps)
    requires var log := Run(s, h, steps).log; TakenAndSaved(log, key).Some? && SavedReport(log, key).Some?
    ensures var log := Run(s, h, steps).log;
            var told, answer := SavedReport(log, key).value, TakenAndSaved(log, key).value;
            && (told.kind == ReactClarification <==> answer != "")
            && (answer == "" ==> told.text == "Resolved on the desktop")
  {
    hide Started, IsRun, Run;
    AnsweredOnceAndRecorded(s, h, steps, key);
    ReportedOnceAndTruly(s, h, steps, key);
  }
}
