/** Every chat entry a tick writes names the root it was written for, which is what a removal goes by
    (internal/bridge/apply.go, internal/relay/relay.go). */
module ChatOwners {
  import opened Options
  import opened Text
  import opened Relay
  import opened ChatPlan
  import opened PendingWork
  import opened Chat
  import opened ChatRuns
  import opened ChatDue
  import opened ChatThreads

  /** An entry was there at the start, or names one of some roots as its owner. */
  ghost predicate EntryOwned(book: State, first: State, roots: set<string>, section: Section, key: string) {
    key in InSection(book, section) ==> key in InSection(first, section) || Owner(book, section, key) in roots
  }

  ghost predicate AllOwned(book: State, first: State, roots: set<string>) {
    forall section: Section, key :: EntryOwned(book, first, roots, section, key)
  }

  lemma MoreRoots(book: State, first: State, roots: set<string>, more: set<string>)
    requires AllOwned(book, first, roots) && roots <= more
    ensures AllOwned(book, first, more)
  {
    hide Owner, InSection;
    forall section: Section, key ensures EntryOwned(book, first, more, section, key) {
      assert EntryOwned(book, first, roots, section, key);
    }
  }

  /** Writing one entry and its owner. */
  lemma PuttingOwned(book: State, put: State, first: State, roots: set<string>, section: Section, key: string,
                     root: string)
    requires AllOwned(book, first, roots) && root in roots && put.scopes == book.scopes
    requires forall s: Section, k | s != section || k != key :: k in InSection(put, s) ==> k in InSection(book, s)
    ensures AllOwned(Scoped(put, section, key, root), first, roots)
  {
    hide KeyIn;
    forall s: Section, k ensures EntryOwned(Scoped(put, section, key, root), first, roots, s, k) {
      ScopedOwner(put, section, key, root, s, k);
      assert EntryOwned(book, first, roots, s, k);
      assert InSection(Scoped(put, section, key, root), s) == InSection(put, s);
    }
  }

  lemma AppliedIsOwned(book: State, root: string, a: Action, eventID: string, first: State, roots: set<string>)
    requires AllOwned(book, first, roots) && root in roots
    ensures AllOwned(Applied(book, root, a, eventID), first, roots)
  {
    hide Applied;
    match a.kind
    case PostRequestMessage => PostIsOwned(book, root, a, eventID, first, roots);
    case PostRequestReply => AnswerIsOwned(book, root, a, eventID, first, roots);
    case CreateForgeRequest => HandingOverIsOwned(book, root, a, eventID, first, roots);
  }

  lemma PostIsOwned(book: State, root: string, a: Action, eventID: string, first: State, roots: set<string>)
    requires AllOwned(book, first, roots) && root in roots && a.kind == PostRequestMessage
    ensures AllOwned(Applied(book, root, a, eventID), first, roots)
  {
    hide AllOwned, Scoped;
    PuttingOwned(book, book.(threads := book.threads[a.requestID := eventID]), first, roots, Threads, a.requestID,
                 root);
  }

  lemma AnswerIsOwned(book: State, root: string, a: Action, eventID: string, first: State, roots: set<string>)
    requires AllOwned(book, first, roots) && root in roots && a.kind == PostRequestReply
    ensures AllOwned(Applied(book, root, a, eventID), first, roots)
  {
    hide AllOwned, Scoped;
    PuttingOwned(book, book.(replied := book.replied[a.requestID := eventID]), first, roots, Replied, a.requestID,
                 root);
  }

  lemma HandingOverIsOwned(book: State, root: string, a: Action, eventID: string, first: State, roots: set<string>)
    requires AllOwned(book, first, roots) && root in roots && a.kind == CreateForgeRequest
    ensures AllOwned(Applied(book, root, a, eventID), first, roots)
  {
    hide AllOwned, Scoped;
    var asked := book.(pending := book.pending[a.source := a.body]);
    PuttingOwned(book, asked, first, roots, Pending, a.source, root);
    if a.thread != "" {
      ThreadIsOwned(Scoped(asked, Pending, a.source, root), root, a, first, roots);
    }
  }

  lemma ThreadIsOwned(taken: State, root: string, a: Action, first: State, roots: set<string>)
    requires AllOwned(taken, first, roots) && root in roots
    ensures AllOwned(Scoped(taken.(pendingThreads := taken.pendingThreads[a.source := a.thread]), PendingThreads,
                            a.source, root), first, roots)
  {
    hide AllOwned, Scoped;
    PuttingOwned(taken, taken.(pendingThreads := taken.pendingThreads[a.source := a.thread]), first, roots,
                 PendingThreads, a.source, root);
  }

  lemma {:induction false} TryAllIsOwned(v: Serving, root: string, actions: seq<Action>, answers: map<string, Outcome>,
                                         first: State, roots: set<string>)
    requires AllOwned(v.book, first, roots) && AllOwned(v.file, first, roots) && root in roots
    ensures var after := TryAll(v, root, actions, answers);
            AllOwned(after.book, first, roots) && AllOwned(after.file, first, roots)
    decreases |actions|
  {
    hide Try, Applied, ActionKey, AllOwned;
    if actions != [] {
      var answer := AnswerTo(answers, ActionKey(actions[0]));
      TryShape(v, root, actions[0], answer);
      if answer.Landed? {
        AppliedIsOwned(v.book, root, actions[0], answer.eventID, first, roots);
      }
      TryAllIsOwned(Try(v, root, actions[0], answer), root, actions[1..], answers, first, roots);
    }
  }

  lemma PairedOwner(book: State, root: string, e: string, id: string, section: Section, key: string)
    ensures Owner(Paired(book, root, e, id), section, key)
            == if section == Relayed && key == e then root
               else if section == Threads && key == id then root
               else if section in {Pending, PendingThreads} && key == e then ""
               else Owner(book, section, key)
  {
    hide KeyIn;
    KeyInInjective(section, key, Relayed, e);
    KeyInInjective(section, key, Threads, id);
    KeyInInjective(section, key, PendingThreads, e);
    KeyInInjective(section, key, Pending, e);
  }

  lemma PairedIsOwned(book: State, root: string, e: string, id: string, first: State, roots: set<string>)
    requires AllOwned(book, first, roots) && root in roots
    ensures AllOwned(Paired(book, root, e, id), first, roots)
  {
    hide Owner;
    forall section: Section, key ensures EntryOwned(Paired(book, root, e, id), first, roots, section, key) {
      PairedOwner(book, root, e, id, section, key);
      PairedShape(book, root, e, id);
      assert EntryOwned(book, first, roots, section, key);
    }
  }

  lemma {:induction false} PairAllIsOwned(p: Pairing, root: string, events: seq<string>, requests: seq<Request>,
                                          first: State, roots: set<string>)
    requires AllOwned(p.book, first, roots) && root in roots
    requires Distinct(events) && forall e | e in events :: e in p.book.pending
    ensures AllOwned(PairAll(p, root, events, requests).book, first, roots)
    decreases |events|
  {
    hide AllOwned, Paired, BelongsTo;
    if events != [] {
      assert forall i | 0 < i < |events| :: events[i] == events[1..][i - 1];
      assert events[0] in events;
      var next := PairOne(p, root, events[0], requests);
      PairOneMoves(p, root, events[0], requests);
      if next != p {
        PairedIsOwned(p.book, root, events[0], TakeRequest(requests, p.book.pending[events[0]], p.taken).value, first,
                      roots);
      }
      PairAllIsOwned(next, root, events[1..], requests, first, roots);
    }
  }

  lemma TickIsOwned(s: Sys, step: Step, first: State, roots: set<string>)
    requires step.Tick? && step.root in roots && AllOwned(s.book, first, roots) && AllOwned(s.file, first, roots)
    ensures var after := TickServing(s, step); AllOwned(after.book, first, roots) && AllOwned(after.file, first, roots)
  {
    hide AllOwned, TryAll, Listed, Plan, Kept, ActionKey, PairAll, Taken, Sorted;
    var v := TickTried(s, step);
    TryAllIsOwned(ServingOf(s, step.root).(kept := TickKept(s, step)), step.root, Listed(TickKept(s, step)),
                  step.answers, first, roots);
    TickPasses(s, step);
    if step.readBack.Some? {
      SortedIsAscending(v.book.pending.Keys);
      PairAllIsOwned(Pairing(v.book, Taken(v.book, step.root), []), step.root, Sorted(v.book.pending.Keys),
                     step.readBack.value, first, roots);
    }
  }

  /** The roots a run served. */
  function Served(steps: seq<Step>): set<string> {
    set step | step in steps && step.Tick? :: step.root
  }

  lemma {:induction false} RunIsOwned(s: Sys, steps: seq<Step>, first: State, roots: set<string>)
    requires AllOwned(s.book, first, roots) && AllOwned(s.file, first, roots) && Served(steps) <= roots
    ensures AllOwned(Run(s, steps).book, first, roots) && AllOwned(Run(s, steps).file, first, roots)
    decreases |steps|
  {
    hide AllOwned, TickServing;
    if steps != [] {
      assert steps[0] in steps && forall step | step in steps[1..] :: step in steps;
      if steps[0].Tick? {
        TickIsOwned(s, steps[0], first, roots);
      }
      RunIsOwned(Do(s, steps[0]), steps[1..], first, roots);
    }
  }

  /** Over any run from a start every chat entry on record, in memory and in the file, was there at the
      start or names as its owner a root the run served. */
  lemma EveryEntryNamesItsRoot(s: Sys, steps: seq<Step>, section: Section, key: string)
    requires s.book == s.file
    ensures EntryOwned(Run(s, steps).book, s.book, Served(steps), section, key)
    ensures EntryOwned(Run(s, steps).file, s.book, Served(steps), section, key)
  {
    hide Run, EntryOwned;
    OwnsItself(s.book, Served(steps));
    RunIsOwned(s, steps, s.book, Served(steps));
  }

  lemma OwnsItself(book: State, roots: set<string>)
    ensures AllOwned(book, book, roots)
  {
    hide Owner, InSection;
  }
}
