/** Clearing one removed forge out of the relay's bookkeeping (internal/removal/relay.go). */
module Purge {
  import opened Text
  import opened Relay
  import opened WaitingKeys
  import opened Forges

  predicate WaitingIn(key: string, rooms: set<string>) {
    SplitWaiting(key).ok && SplitWaiting(key).roomID in rooms
  }

  function RemovalRooms(forge: Forge): set<string> {
    set room | room in OrderedRooms(forge)
  }

  function PurgedWaiting(waiting: map<string, string>, rooms: set<string>): map<string, string> {
    map k | k in waiting && !WaitingIn(k, rooms) :: waiting[k]
  }

  function PurgedApprovals(approvals: map<string, ApprovalState>, root: string, rooms: set<string>): map<string,
      ApprovalState> {
    map k | k in approvals && !(approvals[k].forgeRoot == root || approvals[k].roomID in rooms) :: approvals[k]
  }

  function PurgedClarifications(clarifications: map<string, ClarificationState>, root: string, rooms: set<string>)
    : map<string, ClarificationState>
  {
    map k | k in clarifications && !(clarifications[k].forgeRoot == root || clarifications[k].roomID in rooms) ::
        clarifications[k]
  }

  function PurgedActivity(activity: map<string, CardState>, root: string): map<string, CardState> {
    map k | k in activity && activity[k].forgeRoot != root :: activity[k]
  }

  /** The bookkeeping once a forge root and its rooms are purged. */
  function Purged(st: State, root: string, rooms: set<string>): State {
    Forgotten(st, root).(waiting := PurgedWaiting(st.waiting, rooms),
                         approvals := PurgedApprovals(st.approvals, root, rooms),
                         clarifications := PurgedClarifications(st.clarifications, root, rooms),
                         activity := PurgedActivity(st.activity, root))
  }

  method ListRemovalRooms(forge: Forge) returns (rooms: set<string>)
    ensures rooms == RemovalRooms(forge)
  {
    hide OrderedRooms;
    var ordered := ListOrderedRooms(forge);
    rooms := {};
    for i := 0 to |ordered|
      invariant forall room :: room in rooms <==> room in ordered[..i]
    {
      assert ordered[..i + 1] == ordered[..i] + [ordered[i]];
      rooms := rooms + {ordered[i]};
    }
    assert ordered[..|ordered|] == ordered;
    assert rooms == set room | room in ordered;
  }

  /** Deletes the entries of a map that a purge is about, walking it in any order. */
  method DropEntries<T>(entries: map<string, T>, gone: (string, T) -> bool) returns (rest: map<string, T>)
    ensures rest == map k | k in entries && !gone(k, entries[k]) :: entries[k]
  {
    rest := entries;
    var left := entries.Keys;
    while left != {}
      invariant left <= entries.Keys
      invariant rest == map k | k in entries && (k in left || !gone(k, entries[k])) :: entries[k]
      decreases left
    {
      var key :| key in left;
      left := left - {key};
      if gone(key, entries[key]) {
        rest := rest - {key};
      }
    }
  }

  lemma ForgottenElsewhere(st: State, root: string)
    ensures var f := Forgotten(st, root);
            f.waiting == st.waiting && f.approvals == st.approvals
            && f.clarifications == st.clarifications && f.activity == st.activity
  {
  }

  method PurgeWaiting(book: Bookkeeping, rooms: set<string>)
    modifies book`waiting
    ensures book.waiting == PurgedWaiting(old(book.waiting), rooms)
  {
    var waiting := DropEntries(book.waiting, (k, v) => WaitingIn(k, rooms));
    book.waiting := waiting;
  }

  method PurgeRoomStates(book: Bookkeeping, root: string, rooms: set<string>)
    modifies book`approvals, book`clarifications
    ensures book.approvals == PurgedApprovals(old(book.approvals), root, rooms)
    ensures book.clarifications == PurgedClarifications(old(book.clarifications), root, rooms)
  {
    var approvals := DropEntries(book.approvals, (k, v: ApprovalState) => v.forgeRoot == root || v.roomID in rooms);
    book.approvals := approvals;
    var clarifications := DropEntries(
      book.clarifications, (k, v: ClarificationState) => v.forgeRoot == root || v.roomID in rooms);
    book.clarifications := clarifications;
  }

  method PurgeActivity(book: Bookkeeping, root: string)
    modifies book`activity
    ensures book.activity == PurgedActivity(old(book.activity), root)
  {
    var activity := DropEntries(book.activity, (k, v: CardState) => v.forgeRoot == root);
    book.activity := activity;
  }

  method PurgeRelay(book: Bookkeeping, root: string, forge: Forge)
    modifies book
    ensures book.Value() == Purged(old(book.Value()), root, RemovalRooms(forge))
    ensures book.file == old(book.file)
  {
    hide Forgotten, RemovalRooms, PurgedWaiting, PurgedApprovals, PurgedClarifications, PurgedActivity;
    ghost var st := book.Value();
    book.ForgetScoped(root);
    ForgottenElsewhere(st, root);
    var rooms := ListRemovalRooms(forge);
    PurgeWaiting(book, rooms);
    PurgeRoomStates(book, root, rooms);
    PurgeActivity(book, root);
  }

  /** An entry keyed by an event or a request goes exactly when the removed root owns it, if it
      has an id; every other one stays as it was, owner and all. */
  lemma PurgeIsExactForOwned(st: State, root: string, rooms: set<string>, section: Section, key: string)
    requires root != ""
    ensures var m, m' := InSection(st, section), InSection(Purged(st, root, rooms), section);
            && (key in m' <==> key in m && !(Owner(st, section, key) == root && key != ""))
            && (key in m' ==> m'[key] == m[key])
    ensures Owner(Purged(st, root, rooms), section, key)
            == if Owner(st, section, key) == root && key != "" then "" else Owner(st, section, key)
  {
    hide SplitScope, ScopeKey, SectionName, PurgedWaiting, PurgedApprovals, PurgedClarifications, PurgedActivity;
    ScopeKeyRoundTrip(SectionName(section), key);
  }

  /** The one entry a removal leaves behind although the removed root owns it: the one whose id
      is empty, because its scope key is not read back as one. */
  lemma EmptyIdSurvivesRemoval(st: State, root: string, rooms: set<string>, section: Section)
    requires root != "" && "" in InSection(st, section) && Owner(st, section, "") == root
    ensures "" in InSection(Purged(st, root, rooms), section) && Owner(Purged(st, root, rooms), section, "") == root
  {
    PurgeIsExactForOwned(st, root, rooms, section, "");
  }

  /** A state event's entry goes exactly when its room is one of the forge's. */
  lemma PurgeIsExactForWaiting(st: State, root: string, rooms: set<string>, roomID: string, factType: string,
                               stateKey: string)
    requires OneLine(roomID) && OneLine(factType)
    ensures var key, after := WaitingKey(roomID, factType, stateKey), Purged(st, root, rooms).waiting;
            && (key in after <==> key in st.waiting && roomID !in rooms)
            && (key in after ==> after[key] == st.waiting[key])
  {
    WaitingKeyRoundTrip(roomID, factType, stateKey);
  }

  /** An approval's or a question's record goes exactly when the removed forge's root or one of its
      rooms is named in it, and a card's exactly when the root is; every other one stays as it was. */
  lemma PurgeIsExactForRecords(st: State, root: string, rooms: set<string>, key: string)
    ensures var after := Purged(st, root, rooms).approvals;
            && (key in after <==> key in st.approvals && st.approvals[key].forgeRoot != root
                                  && st.approvals[key].roomID !in rooms)
            && (key in after ==> after[key] == st.approvals[key])
    ensures var after := Purged(st, root, rooms).clarifications;
            && (key in after <==> key in st.clarifications && st.clarifications[key].forgeRoot != root
                                  && st.clarifications[key].roomID !in rooms)
            && (key in after ==> after[key] == st.clarifications[key])
    ensures var after := Purged(st, root, rooms).activity;
            && (key in after <==> key in st.activity && st.activity[key].forgeRoot != root)
            && (key in after ==> after[key] == st.activity[key])
  {
  }

  /** What two forges own is purged in either order alike. */
  lemma PurgesCommute(st: State, r1: string, rooms1: set<string>, r2: string, rooms2: set<string>, section: Section,
                      key: string)
    requires r1 != "" && r2 != "" && r1 != r2
    ensures var one := InSection(Purged(Purged(st, r1, rooms1), r2, rooms2), section);
            var two := InSection(Purged(Purged(st, r2, rooms2), r1, rooms1), section);
            (key in one <==> key in two) && (key in one ==> one[key] == two[key])
  {
    PurgeIsExactForOwned(st, r1, rooms1, section, key);
    PurgeIsExactForOwned(st, r2, rooms2, section, key);
    PurgeIsExactForOwned(Purged(st, r1, rooms1), r2, rooms2, section, key);
    PurgeIsExactForOwned(Purged(st, r2, rooms2), r1, rooms1, section, key);
  }
}
