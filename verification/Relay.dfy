/** The relay's durable bookkeeping and who owns each entry of it (internal/relay/relay.go). */
module Relay {
  import opened Text

  datatype ApprovalState = ApprovalState(
    forgeRoot: string, roomID: string, messageID: string, stateEventID: string,
    resolution: string, replyID: string, reactionID: string)

  const NO_APPROVAL := ApprovalState("", "", "", "", "", "", "")

  datatype ClarificationState = ClarificationState(
    forgeRoot: string, roomID: string, messageID: string, stateEventID: string,
    answer: string, replyID: string, reactionID: string)

  const NO_CLARIFICATION := ClarificationState("", "", "", "", "", "", "")

  datatype CardState = CardState(forgeRoot: string, lane: string, reported: string, project: string, name: string)

  /** The bookkeeping as a value: what a plan is given, and what the state file holds. */
  datatype State = State(
    threads: map<string, string>,
    replied: map<string, string>,
    relayed: map<string, string>,
    pending: map<string, string>,
    pendingThreads: map<string, string>,
    approvals: map<string, ApprovalState>,
    clarifications: map<string, ClarificationState>,
    activity: map<string, CardState>,
    waiting: map<string, string>,
    scopes: map<string, string>)

  /** The maps whose entries are keyed by an event or a request rather than by a room. */
  datatype Section = Threads | Replied | Relayed | Pending | PendingThreads

  function SectionName(section: Section): (name: string)
    ensures name != "" && OneLine(name)
  {
    match section
    case Threads => "threads"
    case Replied => "replied"
    case Relayed => "relayed"
    case Pending => "pending"
    case PendingThreads => "pendingthreads"
  }

  function SectionNamed(name: string): (r: seq<Section>)
  {
    if name == "threads" then [Threads]
    else if name == "replied" then [Replied]
    else if name == "relayed" then [Relayed]
    else if name == "pending" then [Pending]
    else if name == "pendingthreads" then [PendingThreads]
    else []
  }

  lemma SectionOfName(section: Section, name: string)
    ensures SectionNamed(name) == [section] <==> name == SectionName(section)
  {
  }

  function ScopeKey(section: string, key: string): string {
    section + "\n" + key
  }

  /** `strings.Cut(scoped, "\n")`: the first newline ends the section, and the key may hold more. */
  function LineEnd(s: string): (i: nat)
    ensures i <= |s|
    ensures i < |s| ==> s[i] == '\n'
    ensures OneLine(s[..i])
  {
    if s == "" || s[0] == '\n' then 0
    else
      var i := 1 + LineEnd(s[1..]);
      assert s[..i] == [s[0]] + s[1..][..i - 1];
      i
  }

  datatype Split = Split(section: string, key: string, ok: bool)

  function SplitScope(scoped: string): Split {
    var i := LineEnd(scoped);
    if i == |scoped| then Split(scoped, "", false)
    else Split(scoped[..i], scoped[i + 1..], scoped[..i] != "" && scoped[i + 1..] != "")
  }

  lemma {:induction false} LineEndIs(front: string, rest: string)
    requires OneLine(front)
    ensures LineEnd(front + "\n" + rest) == |front|
  {
    var s := front + "\n" + rest;
    if front != "" {
      assert front[0] in front && s[1..] == front[1..] + "\n" + rest;
      LineEndIs(front[1..], rest);
    }
  }

  /** Reading a scope key back undoes writing it; only an empty key is not read as one. */
  lemma ScopeKeyRoundTrip(section: string, key: string)
    requires OneLine(section) && section != ""
    ensures SplitScope(ScopeKey(section, key)) == Split(section, key, key != "")
  {
    var scoped := ScopeKey(section, key);
    LineEndIs(section, key);
    assert scoped[..|section|] == section && scoped[|section| + 1..] == key;
  }

  lemma SplitScopeWrites(scoped: string)
    requires SplitScope(scoped).ok
    ensures ScopeKey(SplitScope(scoped).section, SplitScope(scoped).key) == scoped
    ensures OneLine(SplitScope(scoped).section) && SplitScope(scoped).key != ""
  {
    var i := LineEnd(scoped);
    assert scoped == scoped[..i] + [scoped[i]] + scoped[i + 1..];
  }

  /** The scope key of one entry. */
  function KeyIn(section: Section, key: string): string {
    ScopeKey(SectionName(section), key)
  }

  /** The scope keys as the state file holds them. */
  lemma KeyInIs(key: string)
    ensures KeyIn(Threads, key) == "threads\n" + key && KeyIn(Replied, key) == "replied\n" + key
    ensures KeyIn(Relayed, key) == "relayed\n" + key && KeyIn(Pending, key) == "pending\n" + key
    ensures KeyIn(PendingThreads, key) == "pendingthreads\n" + key
  {
    assert "threads" + "\n" == "threads\n" && "replied" + "\n" == "replied\n";
    assert "relayed" + "\n" == "relayed\n" && "pending" + "\n" == "pending\n";
    assert "pendingthreads" + "\n" == "pendingthreads\n";
  }

  /** No two entries share a scope key. */
  lemma KeyInInjective(s1: Section, k1: string, s2: Section, k2: string)
    ensures KeyIn(s1, k1) == KeyIn(s2, k2) <==> s1 == s2 && k1 == k2
  {
    ScopeKeyRoundTrip(SectionName(s1), k1);
    ScopeKeyRoundTrip(SectionName(s2), k2);
    SectionOfName(s1, SectionName(s1));
    SectionOfName(s1, SectionName(s2));
    SectionOfName(s2, SectionName(s2));
  }

  /** The entries of one section. */
  function InSection(st: State, section: Section): map<string, string> {
    match section
    case Threads => st.threads
    case Replied => st.replied
    case Relayed => st.relayed
    case Pending => st.pending
    case PendingThreads => st.pendingThreads
  }

  function Owner(st: State, section: Section, key: string): string {
    Get(st.scopes, KeyIn(section, key))
  }

  function Scoped(st: State, section: Section, key: string, root: string): State {
    st.(scopes := st.scopes[KeyIn(section, key) := root])
  }

  function Unscoped(st: State, section: Section, key: string): State {
    st.(scopes := st.scopes - {KeyIn(section, key)})
  }

  /** Recording one entry's owner changes no other entry's. */
  lemma ScopedOwner(st: State, s1: Section, k1: string, root: string, s2: Section, k2: string)
    ensures Owner(Scoped(st, s1, k1, root), s2, k2) == if s1 == s2 && k1 == k2 then root else Owner(st, s2, k2)
    ensures Scoped(st, s1, k1, root) == st.(scopes := Scoped(st, s1, k1, root).scopes)
  {
    hide KeyIn;
    KeyInInjective(s1, k1, s2, k2);
  }

  /** The message a request's answer belongs under, empty when there is none. */
  function Anchor(st: State, requestID: string): string {
    Get(st.threads, requestID)
  }

  /** An entry one forge root owns and that can be named by its scope key. */
  predicate OwnedBy(st: State, section: Section, key: string, root: string) {
    key != "" && KeyIn(section, key) in st.scopes && st.scopes[KeyIn(section, key)] == root
  }

  predicate ScopeOf(st: State, scoped: string, root: string) {
    scoped in st.scopes && st.scopes[scoped] == root && SplitScope(scoped).ok
  }

  function Without(st: State, section: Section, m: map<string, string>, root: string): map<string, string> {
    map k | k in m && !OwnedBy(st, section, k, root) :: m[k]
  }

  /** The bookkeeping once one root's scoped entries are forgotten. */
  function Forgotten(st: State, root: string): State {
    st.(threads := Without(st, Threads, st.threads, root),
        replied := Without(st, Replied, st.replied, root),
        relayed := Without(st, Relayed, st.relayed, root),
        pending := Without(st, Pending, st.pending, root),
        pendingThreads := Without(st, PendingThreads, st.pendingThreads, root),
        scopes := map s | s in st.scopes && !ScopeOf(st, s, root) :: st.scopes[s])
  }

  /** A map of one section with the entries some scope keys name gone. */
  ghost function Gone(section: Section, m: map<string, string>, done: set<string>): map<string, string> {
    map k | k in m && !(k != "" && KeyIn(section, k) in done) :: m[k]
  }

  /** The bookkeeping with the entries some scope keys name gone, and those scopes with them. */
  ghost function Partly(st: State, done: set<string>): State {
    st.(threads := Gone(Threads, st.threads, done),
        replied := Gone(Replied, st.replied, done),
        relayed := Gone(Relayed, st.relayed, done),
        pending := Gone(Pending, st.pending, done),
        pendingThreads := Gone(PendingThreads, st.pendingThreads, done),
        scopes := st.scopes - done)
  }

  function Dropped(st: State, section: Section, key: string): State {
    match section
    case Threads => st.(threads := st.threads - {key})
    case Replied => st.(replied := st.replied - {key})
    case Relayed => st.(relayed := st.relayed - {key})
    case Pending => st.(pending := st.pending - {key})
    case PendingThreads => st.(pendingThreads := st.pendingThreads - {key})
  }

  /** One scope's entry and the scope itself removed; a section nobody knows has no entry. */
  function DroppedScope(st: State, scoped: string): State {
    var split := SplitScope(scoped);
    var section := SectionNamed(split.section);
    var st' := if section == [] then st else Dropped(st, section[0], split.key);
    st'.(scopes := st'.scopes - {scoped})
  }

  /** The live bookkeeping: the maps the bridge updates in place, and the state file's copy. */
  class Bookkeeping {
    var threads: map<string, string>
    var replied: map<string, string>
    var relayed: map<string, string>
    var pending: map<string, string>
    var pendingThreads: map<string, string>
    var approvals: map<string, ApprovalState>
    var clarifications: map<string, ClarificationState>
    var activity: map<string, CardState>
    var waiting: map<string, string>
    var scopes: map<string, string>
    var file: State

    /** The bookkeeping a bridge starts with: what the state file holds. */
    constructor (loaded: State)
      ensures Value() == loaded && file == loaded
    {
      threads, replied, relayed := loaded.threads, loaded.replied, loaded.relayed;
      pending, pendingThreads := loaded.pending, loaded.pendingThreads;
      approvals, clarifications := loaded.approvals, loaded.clarifications;
      activity, waiting, scopes := loaded.activity, loaded.waiting, loaded.scopes;
      file := loaded;
    }

    function Value(): State
      reads this
    {
      State(threads, replied, relayed, pending, pendingThreads, approvals, clarifications, activity, waiting, scopes)
    }

    /** Writes the state file; a save that fails leaves the file as it was. */
    method Save(succeeds: bool) returns (ok: bool)
      modifies this`file
      ensures ok == succeeds
      ensures file == if succeeds then Value() else old(file)
    {
      if succeeds {
        file := Value();
      }
      ok := succeeds;
    }

    method Scope(section: Section, key: string, root: string)
      modifies this`scopes
      ensures Value() == Scoped(old(Value()), section, key, root)
    {
      scopes := scopes[KeyIn(section, key) := root];
    }

    method Unscope(section: Section, key: string)
      modifies this`scopes
      ensures Value() == Unscoped(old(Value()), section, key)
    {
      scopes := scopes - {KeyIn(section, key)};
    }

    method DropScope(scoped: string)
      modifies this
      ensures Value() == DroppedScope(old(Value()), scoped)
      ensures file == old(file)
    {
      var split := SplitScope(scoped);
      var section := SectionNamed(split.section);
      if section != [] {
        match section[0] {
          case Threads => threads := threads - {split.key};
          case Replied => replied := replied - {split.key};
          case Relayed => relayed := relayed - {split.key};
          case Pending => pending := pending - {split.key};
          case PendingThreads => pendingThreads := pendingThreads - {split.key};
        }
      }
      scopes := scopes - {scoped};
    }

    /** Removes the entries scoped to one forge root, walking the scopes in any order. */
    method ForgetScoped(root: string)
      modifies this
      ensures Value() == Forgotten(old(Value()), root)
      ensures file == old(file)
    {
      ghost var st := Value();
      ghost var done: set<string> := {};
      var left := scopes.Keys;
      PartlyOfNothing(st);
      while left != {}
        invariant left <= st.scopes.Keys
        invariant done == set s | s in st.scopes && s !in left && ScopeOf(st, s, root)
        invariant Value() == Partly(st, done) && file == old(file)
        decreases left
      {
        var scoped :| scoped in left;
        left := left - {scoped};
        if scopes[scoped] == root && SplitScope(scoped).ok {
          DropScope(scoped);
          PartlyGrows(st, done, scoped);
          done := done + {scoped};
        }
      }
      PartlyIsForgotten(st, root, done);
    }
  }

  lemma PartlyOfNothing(st: State)
    ensures Partly(st, {}) == st
  {
  }

  lemma GoneGrows(section: Section, m: map<string, string>, done: set<string>, scoped: string)
    requires SplitScope(scoped).ok
    ensures Gone(section, m, done + {scoped})
            == if SectionNamed(SplitScope(scoped).section) == [section]
               then Gone(section, m, done) - {SplitScope(scoped).key}
               else Gone(section, m, done)
  {
    hide SplitScope, SectionNamed, SectionName;
    var split := SplitScope(scoped);
    SplitScopeWrites(scoped);
    SectionOfName(section, split.section);
    forall k | k in m && k != ""
      ensures KeyIn(section, k) == scoped <==> split.section == SectionName(section) && k == split.key
    {
      ScopeKeyRoundTrip(SectionName(section), k);
    }
    hide KeyIn, ScopeKey;
  }

  /** Dropping one more scope takes out exactly the entry it names. */
  lemma PartlyGrows(st: State, done: set<string>, scoped: string)
    requires SplitScope(scoped).ok
    ensures DroppedScope(Partly(st, done), scoped) == Partly(st, done + {scoped})
  {
    GoneGrows(Threads, st.threads, done, scoped);
    GoneGrows(Replied, st.replied, done, scoped);
    GoneGrows(Relayed, st.relayed, done, scoped);
    GoneGrows(Pending, st.pending, done, scoped);
    GoneGrows(PendingThreads, st.pendingThreads, done, scoped);
    assert st.scopes - done - {scoped} == st.scopes - (done + {scoped});
  }

  lemma GoneIsWithout(st: State, section: Section, m: map<string, string>, root: string, done: set<string>)
    requires done == set s | s in st.scopes && ScopeOf(st, s, root)
    ensures Gone(section, m, done) == Without(st, section, m, root)
  {
    forall k | k in m && k != "" ensures KeyIn(section, k) in done <==> OwnedBy(st, section, k, root) {
      ScopeKeyRoundTrip(SectionName(section), k);
    }
  }

  lemma PartlyIsForgotten(st: State, root: string, done: set<string>)
    requires done == set s | s in st.scopes && ScopeOf(st, s, root)
    ensures Partly(st, done) == Forgotten(st, root)
  {
    GoneIsWithout(st, Threads, st.threads, root, done);
    GoneIsWithout(st, Replied, st.replied, root, done);
    GoneIsWithout(st, Relayed, st.relayed, root, done);
    GoneIsWithout(st, Pending, st.pending, root, done);
    GoneIsWithout(st, PendingThreads, st.pendingThreads, root, done);
  }
}
