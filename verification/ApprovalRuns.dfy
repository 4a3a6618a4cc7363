/** What holds of approvals over whole runs of the bridge: any ticks of any forges with any call
    refused and any save failing, approvals proposed and decided at the desk in between, and
    restarts. */
module ApprovalRuns {
  import opened Options
  import opened Text
  import opened Quote
  import opened Relay
  import opened PendingWork
  import opened ApprovalPlan
  import opened ApprovalDecisions
  import opened Approvals
  import opened ApprovalTries
  import opened ApprovalIsolation

  /** The shared bookkeeping and state file, each forge's pending work, what the forges still hold
      and what they took, the record of every call, every approval that ever was, what the desks
      still have written down, and all they ever wrote. */
  datatype Sys = Sys(
    approvals: map<string, ApprovalState>, file: map<string, ApprovalState>, kept: map<string, map<string, Action>>,
    open: set<string>, taken: map<string, string>, log: seq<Entry>, ever: set<string>,
    desk: map<string, string>, wrote: map<string, string>)

  /** A desk writes down those of the approvals taken in a tick that are in recorded. */
  datatype Step = Tick(visit: Visit, recorded: set<string>) | Propose(key: string)
                | DecideAtDesk(key: string, record: Option<string>) | Rewrite(key: string, record: Option<string>)
                | Restart | SavedElsewhere

  function KeptFor(s: Sys, root: string): map<string, Action> {
    if root in s.kept then s.kept[root] else map[]
  }

  /** What one forge still holds. */
  function OpenAt(open: set<string>, h: Homes, root: string): set<string> {
    set k | k in open && h.ofKey(k) == root
  }

  function DeskOf(s: Sys, h: Homes, root: string): Desk {
    Desk(s.approvals, s.file, KeptFor(s, root), OpenAt(s.open, h, root), s.taken, s.log)
  }

  /** A forge lists exactly what it holds, from rooms of its own. */
  ghost predicate CanTick(s: Sys, h: Homes, v: Visit) {
    Ready(DeskOf(s, h, v.root), v) && h.ofRoom(v.room) == v.root
  }

  /** A desk's record of an approval that is over may come late, as what was written or taken, or
      go, while no report that waits says otherwise. */
  predicate MayRewrite(s: Sys, h: Homes, key: string, record: Option<string>) {
    && key in s.ever && key !in s.open
        && ReportsAgree(DeskOf(s, h, h.ofKey(key)), key, Get(OneRecord(key, record), key))
    && (record.Some? && key in s.wrote ==> record.value == s.wrote[key])
    && (record.Some? && key in s.taken ==> record.value == s.taken[key])
  }

  /** A key is proposed once, and the desk decides only what is open. */
  ghost predicate Possible(s: Sys, h: Homes, step: Step) {
    match step
    case Tick(v, _) => CanTick(s, h, v)
    case Propose(key) => key !in s.ever
    case DecideAtDesk(key, _) => key in s.open
    case Rewrite(key, record) => MayRewrite(s, h, key, record)
    case Restart => true
    case SavedElsewhere => true
  }

  ghost function TickDesk(s: Sys, h: Homes, v: Visit): Desk
    requires CanTick(s, h, v)
  {
    Visited(DeskOf(s, h, v.root), s.desk, v)
  }

  /** What the desks write down of the approvals a tick closed: what was taken. */
  function Written(closed: set<string>, taken: map<string, string>, recorded: set<string>): map<string, string> {
    map k | k in closed && k in recorded && k in taken :: taken[k]
  }

  function OneRecord(key: string, record: Option<string>): map<string, string> {
    if record.Some? then map[key := record.value] else map[]
  }

  ghost function WrittenIn(s: Sys, h: Homes, v: Visit, recorded: set<string>): map<string, string>
    requires CanTick(s, h, v)
  {
    Written(OpenAt(s.open, h, v.root) - TickDesk(s, h, v).open, TickDesk(s, h, v).taken, recorded)
  }

  ghost function Do(s: Sys, h: Homes, step: Step): Sys
    requires Possible(s, h, step)
  {
    match step
    case Tick(v, recorded) =>
      var after, written := TickDesk(s, h, v), WrittenIn(s, h, v, recorded);
      s.(approvals := after.approvals, file := after.file, kept := s.kept[v.root := after.kept],
         open := (s.open - OpenAt(s.open, h, v.root)) + after.open, taken := after.taken, log := after.log,
         desk := s.desk + written, wrote := s.wrote + written)
    case Propose(key) => s.(open := s.open + {key}, ever := s.ever + {key})
    case DecideAtDesk(key, record) =>
      var written := OneRecord(key, record);
      s.(open := s.open - {key}, desk := s.desk + written, wrote := s.wrote + written)
    case Rewrite(key, record) =>
      s.(desk := (s.desk - {key}) + OneRecord(key, record), wrote := s.wrote + OneRecord(key, record))
    case Restart => s.(approvals := s.file, kept := map[])
    case SavedElsewhere => s.(file := s.approvals)
  }

  ghost predicate IsRun(s: Sys, h: Homes, steps: seq<Step>)
    decreases |steps|
  {
    steps == [] || (Possible(s, h, steps[0]) && IsRun(Do(s, h, steps[0]), h, steps[1..]))
  }

  ghost function Run(s: Sys, h: Homes, steps: seq<Step>): Sys
    requires IsRun(s, h, steps)
    decreases |steps|
  {
    if steps == [] then s else Run(Do(s, h, steps[0]), h, steps[1..])
  }

  // The invariant.

  /** Every forge's work and records are its own. */
  predicate Settled(s: Sys, h: Homes) {
    && s.open <= s.ever && RoomsMatch(s.approvals, h) && RoomsMatch(s.file, h)
    && forall root | root in s.kept :: Homed(s.kept[root], h, root)
  }

  function PastOf(s: Sys, key: string, first: string): Past {
    Past(key !in s.ever, s.desk, s.wrote, first)
  }

  predicate Fine(s: Sys, h: Homes, key: string, first: string) {
    Settled(s, h) && Healthy(DeskOf(s, h, h.ofKey(key)), key, PastOf(s, key, first))
  }

  lemma VisitIsAtHome(s: Sys, h: Homes, v: Visit)
    requires CanTick(s, h, v) && Settled(s, h)
    ensures AtHome(v, h) && Homed(KeptFor(s, v.root), h, v.root)
  {
    hide Homed, RoomsMatch, Walks, GoodAnswers;
    assert Homed(map[], h, v.root) by { NothingIsHomed(h, v.root); }
    forall a | a in v.pending ensures h.ofKey(a.key) == v.root {
      assert a.key in Keys(v.pending);
    }
  }

  lemma NothingIsHomed(h: Homes, root: string)
    ensures Homed(map[], h, root)
  {
  }

  lemma TickStaysSettled(s: Sys, h: Homes, v: Visit, recorded: set<string>)
    requires CanTick(s, h, v) && Settled(s, h)
    ensures var next := Do(s, h, Tick(v, recorded));
            Settled(next, h) && DeskOf(next, h, v.root) == TickDesk(s, h, v)
  {
    hide Homed, RoomsMatch, Ready, Visited, Written;
    VisitIsAtHome(s, h, v);
    VisitStaysAtHome(DeskOf(s, h, v.root), s.desk, v, h);
    var after, next := TickDesk(s, h, v), Do(s, h, Tick(v, recorded));
    assert OpenAt(next.open, h, v.root) == after.open;
  }

  /** What a tick adds to what the desks wrote, read at one approval. */
  lemma WrittenAt(s: Sys, h: Homes, v: Visit, recorded: set<string>, key: string)
    requires CanTick(s, h, v)
    ensures var next, written := Do(s, h, Tick(v, recorded)), WrittenIn(s, h, v, recorded);
            if key in written
            then key in s.open && h.ofKey(key) == v.root && key !in TickDesk(s, h, v).open
                 && key in recorded && key in next.taken && next.desk[key] == next.wrote[key] == next.taken[key]
                 && key in next.desk && key in next.wrote
            else (key in next.desk <==> key in s.desk) && Get(next.desk, key) == Get(s.desk, key)
                 && (key in next.wrote <==> key in s.wrote) && Get(next.wrote, key) == Get(s.wrote, key)
  {
    hide Ready, Visited;
  }

  lemma NothingDisagrees(d: Desk, key: string, word: string)
    requires NoKeptReport(d, key)
    ensures ReportsAgree(d, key, word)
  {
    hide Ending, StateOf;
  }

  /** A tick of an approval's own forge. */
  lemma OwnTickStaysFine(s: Sys, h: Homes, v: Visit, recorded: set<string>, key: string, first: string)
    requires CanTick(s, h, v) && Fine(s, h, key, first) && h.ofKey(key) == v.root
    ensures Fine(Do(s, h, Tick(v, recorded)), h, key, first)
  {
    hide Settled, Good, AllVouched, Unheard, Ready, Visited, WrittenIn, NoKeptReport, Get, ReportsAgree;
    var d, p := DeskOf(s, h, v.root), PastOf(s, key, first);
    var next, after := Do(s, h, Tick(v, recorded)), TickDesk(s, h, v);
    TickStaysSettled(s, h, v, recorded);
    VisitStaysHealthy(d, v, key, p);
    WrittenAt(s, h, v, recorded, key);
    if key in WrittenIn(s, h, v, recorded) {
      OpenIsNotReported(d, v, key, p);
      OpenIsUnwritten(d, key, p);
      NothingDisagrees(after, key, Get(next.desk, key));
      RewritingStaysHealthy(after, key, p, PastOf(next, key, first));
    } else {
      OtherNewsStaysHealthy(after, after, key, p, PastOf(next, key, first));
    }
  }

  /** A tick of another forge. */
  lemma TickElsewhereStaysFine(s: Sys, h: Homes, v: Visit, recorded: set<string>, key: string, first: string)
    requires CanTick(s, h, v) && Fine(s, h, key, first) && h.ofKey(key) != v.root
    ensures Fine(Do(s, h, Tick(v, recorded)), h, key, first)
  {
    hide Healthy, Ready, Visited, Homed, RoomsMatch, WrittenIn, ReadsTheSame, Get;
    var mine, next := DeskOf(s, h, h.ofKey(key)), DeskOf(Do(s, h, Tick(v, recorded)), h, h.ofKey(key));
    TickStaysSettled(s, h, v, recorded);
    TickElsewhereReadsTheSame(s, h, v, recorded, key);
    WrittenAt(s, h, v, recorded, key);
    ReadingTheSameStaysHealthy(mine, next, key, PastOf(s, key, first));
    OtherNewsStaysHealthy(next, next, key, PastOf(s, key, first), PastOf(Do(s, h, Tick(v, recorded)), key, first));
  }

  lemma TickElsewhereReadsTheSame(s: Sys, h: Homes, v: Visit, recorded: set<string>, key: string)
    requires CanTick(s, h, v) && Settled(s, h) && h.ofKey(key) != v.root
    ensures var mine, next := DeskOf(s, h, h.ofKey(key)), DeskOf(Do(s, h, Tick(v, recorded)), h, h.ofKey(key));
            ReadsTheSame(mine, next, key) && next.kept == mine.kept && (key in next.open <==> key in mine.open)
  {
    hide Ready, Visited, Homed, RoomsMatch, LeavesAlone, ReadsTheSame, WrittenIn;
    VisitIsAtHome(s, h, v);
    var theirs, mine := DeskOf(s, h, v.root), DeskOf(s, h, h.ofKey(key));
    var next := DeskOf(Do(s, h, Tick(v, recorded)), h, h.ofKey(key));
    VisitLeavesOthersAlone(theirs, s.desk, v, h, key);
    LeftAloneReadsTheSame(theirs, TickDesk(s, h, v), key);
    ReadsByRecords(theirs, TickDesk(s, h, v), mine, next, key);
    VisitStaysAtHome(theirs, s.desk, v, h);
  }

  lemma ReadsByRecords(d: Desk, after: Desk, mine: Desk, next: Desk, key: string)
    requires ReadsTheSame(d, after, key)
    requires mine.approvals == d.approvals && mine.file == d.file && mine.taken == d.taken && mine.log == d.log
    requires next.approvals == after.approvals && next.file == after.file
    requires next.taken == after.taken && next.log == after.log
    ensures ReadsTheSame(mine, next, key)
  {
  }

  lemma QuietStepStaysSettled(s: Sys, h: Homes, step: Step)
    requires !step.Tick? && Possible(s, h, step) && Settled(s, h)
    ensures Settled(Do(s, h, step), h)
  {
    hide Homed, RoomsMatch, MayRewrite;
  }

  lemma QuietStepStaysFine(s: Sys, h: Homes, step: Step, key: string, first: string)
    requires !step.Tick? && Possible(s, h, step) && Fine(s, h, key, first)
    ensures Fine(Do(s, h, step), h, key, first)
  {
    hide Settled, Healthy, ReportsAgree, Get;
    QuietStepStaysSettled(s, h, step);
    if step.Rewrite? {
      RewriteStaysHealthy(s, h, step.key, step.record, key, first);
    } else {
      QuietStepStaysHealthy(s, h, step, key, first);
    }
  }

  lemma RewriteStaysHealthy(s: Sys, h: Homes, k: string, record: Option<string>, key: string, first: string)
    requires MayRewrite(s, h, k, record) && Healthy(DeskOf(s, h, h.ofKey(key)), key, PastOf(s, key, first))
    ensures var next := Do(s, h, Rewrite(k, record));
            Healthy(DeskOf(next, h, h.ofKey(key)), key, PastOf(next, key, first))
  {
    hide Healthy, ReportsAgree;
    var d, p := DeskOf(s, h, h.ofKey(key)), PastOf(s, key, first);
    var p' := PastOf(Do(s, h, Rewrite(k, record)), key, first);
    if k == key {
      RewritingStaysHealthy(d, key, p, p');
    } else {
      OtherNewsStaysHealthy(d, d, key, p, p');
    }
  }

  lemma QuietStepStaysHealthy(s: Sys, h: Homes, step: Step, key: string, first: string)
    requires !step.Tick? && !step.Rewrite? && Possible(s, h, step)
    requires Healthy(DeskOf(s, h, h.ofKey(key)), key, PastOf(s, key, first))
    ensures var next := Do(s, h, step); Healthy(DeskOf(next, h, h.ofKey(key)), key, PastOf(next, key, first))
  {
    hide Healthy;
    var d, p := DeskOf(s, h, h.ofKey(key)), PastOf(s, key, first);
    var next := Do(s, h, step);
    var after, p' := DeskOf(next, h, h.ofKey(key)), PastOf(next, key, first);
    match step
    case Propose(k) =>
      if k == key {
        ProposedStaysHealthy(d, after, key, p);
      } else {
        OtherNewsStaysHealthy(d, after, key, p, p');
      }
    case DecideAtDesk(k, _) =>
      if k == key {
        OpenIsUnwritten(d, key, p);
        DecidedStaysHealthy(d, after, key, p, p');
      } else {
        OtherNewsStaysHealthy(d, after, key, p, p');
      }
    case Restart => RestartedStaysHealthy(d, key, p);
    case SavedElsewhere => ReadingTheSameStaysHealthy(d, after, key, p);
  }

  lemma StepStaysFine(s: Sys, h: Homes, step: Step, key: string, first: string)
    requires Possible(s, h, step) && Fine(s, h, key, first)
    ensures Fine(Do(s, h, step), h, key, first)
  {
    hide Fine, CanTick, Do;
    if step.Tick? && h.ofKey(key) == step.visit.root {
      OwnTickStaysFine(s, h, step.visit, step.recorded, key, first);
    } else if step.Tick? {
      TickElsewhereStaysFine(s, h, step.visit, step.recorded, key, first);
    } else {
      QuietStepStaysFine(s, h, step, key, first);
    }
  }

  lemma {:induction false} RunStaysFine(s: Sys, h: Homes, steps: seq<Step>, key: string, first: string)
    requires IsRun(s, h, steps) && Fine(s, h, key, first)
    ensures Fine(Run(s, h, steps), h, key, first)
    decreases |steps|
  {
    hide Fine, Possible, Do;
    if steps != [] {
      StepStaysFine(s, h, steps[0], key, first);
      RunStaysFine(Do(s, h, steps[0]), h, steps[1..], key, first);
    }
  }

  // Runs.

  /** A bridge just started from a state file that fits what the forges hold. */
  ghost predicate Started(s: Sys, h: Homes) {
    && s.file == s.approvals && s.kept == map[] && s.log == [] && s.open <= s.ever && RoomsMatch(s.approvals, h)
    && s.wrote == s.desk && (forall k | k in s.desk :: k in s.ever && k !in s.open)
    && forall k | k in s.approvals ::
         && MarkMatches(s.approvals[k])
         && (k in s.open ==> Untouched(s.approvals[k]))
         && (k !in s.ever ==> Untouched(s.approvals[k]) && s.approvals[k].messageID == "")
  }

  lemma StartIsFine(s: Sys, h: Homes, key: string)
    requires Started(s, h)
    ensures Fine(s, h, key, StateOf(s.approvals, key).resolution)
  {
    hide RoomsMatch;
  }

  lemma ReachedIsFine(s: Sys, h: Homes, steps: seq<Step>, key: string)
    requires Started(s, h) && IsRun(s, h, steps)
    ensures Fine(Run(s, h, steps), h, key, StateOf(s.approvals, key).resolution)
  {
    hide Started, Fine;
    StartIsFine(s, h, key);
    RunStaysFine(s, h, steps, key, StateOf(s.approvals, key).resolution);
  }

  /** Over any run, at most one resolution of an approval is ever taken, even when an approval
      and a send-back of it are kept together; and once it is saved, the record says what was
      taken, here and in the state file, for good. */
  lemma ResolvedOnceAndRecorded(s: Sys, h: Homes, steps: seq<Step>, key: string)
    requires Started(s, h) && IsRun(s, h, steps)
    ensures var end := Run(s, h, steps);
            var taken := TakenAndSaved(end.log, key);
            && Resolutions(end.log, key) <= 1
            && (taken.Some? ==>
                  && TookOf(end.taken, key) == taken
                  && StateOf(end.approvals, key).resolution == taken.value == StateOf(end.file, key).resolution)
  {
    hide Started, IsRun, Run;
    ReachedIsFine(s, h, steps, key);
  }

  /** And the other way round: over any run, a record that says approved or sent back says what the
      forge took, what the desk wrote, or what it said at the start; so for an approval that was
      open or not yet proposed at the start, what the forge took or the desk wrote. */
  lemma RecordedIsVouchedFor(s: Sys, h: Homes, steps: seq<Step>, key: string)
    requires Started(s, h) && IsRun(s, h, steps)
    ensures var end, first := Run(s, h, steps), StateOf(s.approvals, key).resolution;
            && Vouched(StateOf(end.approvals, key), TookOf(end.taken, key), Get(end.wrote, key), first)
            && Vouched(StateOf(end.file, key), TookOf(end.taken, key), Get(end.wrote, key), first)
    ensures key in s.open || key !in s.ever ==> StateOf(s.approvals, key).resolution == ""
  {
    hide IsRun, Run, Vouched;
    ReachedIsFine(s, h, steps, key);
  }

  /** Over any run, an approval's ending is reported at most once more than the reports whose
      save failed; and a report that was saved says what the record says, by mark or by words
      and never both. */
  lemma ReportedOnceAndTruly(s: Sys, h: Homes, steps: seq<Step>, key: string)
    requires Started(s, h) && IsRun(s, h, steps)
    ensures var end := Run(s, h, steps);
            var told := SavedReport(end.log, key);
            && Reports(end.log, key) <= LostReports(end.log, key) + 1
            && MarkMatches(StateOf(end.approvals, key)) && MarkMatches(StateOf(end.file, key))
            && (told.Some? ==>
                  && SaysEnding(told.value)
                  && StateOf(end.approvals, key).resolution == told.value.resolution
                  && StateOf(end.file, key).resolution == told.value.resolution)
  {
    hide Started, IsRun, Run;
    ReachedIsFine(s, h, steps, key);
  }

  /** An approval still open has had nothing decided or reported of it. */
  lemma OpenIsUntouched(s: Sys, h: Homes, steps: seq<Step>, key: string)
    requires Started(s, h) && IsRun(s, h, steps) && key in Run(s, h, steps).open
    ensures var end := Run(s, h, steps);
            && Resolutions(end.log, key) == 0
            && Untouched(StateOf(end.approvals, key)) && Untouched(StateOf(end.file, key))
  {
    hide Started, IsRun, Run;
    ReachedIsFine(s, h, steps, key);
  }
}
