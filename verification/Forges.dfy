/** The Matrix side recorded for a forge root, and the rooms a removal clears
    (internal/state/state.go, internal/removal/inspect.go). */
module Forges {
  import opened Options
  import opened Text
  import opened Relay

  datatype RoomCleanup = RoomCleanup(factsCleared: bool, operatorRemoved: bool, bridgeLeft: bool) {
    predicate Done() {
      factsCleared && operatorRemoved && bridgeLeft
    }
  }

  const NOT_CLEANED := RoomCleanup(false, false, false)

  /** A missing cleanup record and an empty one read the same. */
  datatype Forge = Forge(
    spaceID: string, roomID: string, approvalsRoomID: string, activityRoomID: string, clarificationsRoomID: string,
    projects: map<string, string>, cleanup: map<string, RoomCleanup>)

  /** The state file. */
  datatype Saved = Saved(forges: map<string, Forge>, relay: State)

  /** One configured forge: its root, and the last element of its cleaned path. */
  datatype ForgeConfig = ForgeConfig(root: string, base: string)

  datatype Status = Ready | Removed | NothingToRemove | Retryable | Refused

  datatype Result = Result(status: Status, reason: string)

  datatype Inspection = Inspection(result: Result, root: string, forge: Option<Forge>, rooms: seq<string>)

  function RefusedInspection(reason: string): Inspection {
    Inspection(Result(Refused, reason), "", None, [])
  }

  predicate IsAbs(root: string) {
    "/" <= root
  }

  function MatchingRoots(forges: seq<ForgeConfig>, root: string, matched: seq<string>): seq<string> {
    if forges == [] then matched
    else if forges[0].root == root then [root]
    else MatchingRoots(forges[1..], root, if !IsAbs(root) && forges[0].base == root then matched + [forges[0].root]
                       else matched)
  }

  method FindMatchingRoots(forges: seq<ForgeConfig>, root: string) returns (matched: seq<string>)
    ensures matched == MatchingRoots(forges, root, [])
  {
    matched := [];
    for i := 0 to |forges|
      invariant MatchingRoots(forges, root, []) == MatchingRoots(forges[i..], root, matched)
    {
      assert forges[i..][1..] == forges[i + 1..];
      if forges[i].root == root {
        return [root];
      }
      if !IsAbs(root) && forges[i].base == root {
        matched := matched + [forges[i].root];
      }
    }
  }

  /** The parts of a path, split at either kind of slash. */
  function Parts(s: string): (r: seq<string>)
    ensures |r| >= 1
  {
    if s == "" then [""]
    else if s[0] == '/' || s[0] == '\\' then [""] + Parts(s[1..])
    else var rest := Parts(s[1..]); [[s[0]] + rest[0]] + rest[1..]
  }

  predicate HasParentTraversal(root: string) {
    ".." in Parts(root)
  }

  predicate CompleteForge(forge: Forge) {
    && forge.spaceID != "" && forge.roomID != "" && forge.approvalsRoomID != "" && forge.activityRoomID != ""
    && forge.clarificationsRoomID != ""
    && forall name | name in forge.projects :: forge.projects[name] != ""
  }

  function ProjectRooms(projects: map<string, string>, names: seq<string>): seq<string>
    requires forall n | n in names :: n in projects
  {
    if names == [] then [] else [projects[names[0]]] + ProjectRooms(projects, names[1..])
  }

  /** Every recorded room, with repeats: the space, the four rooms, the projects by name. */
  function Candidates(forge: Forge): seq<string> {
    [forge.spaceID, forge.roomID, forge.approvalsRoomID, forge.activityRoomID, forge.clarificationsRoomID]
    + ProjectRooms(forge.projects, Sorted(forge.projects.Keys))
  }

  /** The rooms of a list, each where it is first named. */
  function EachOnce(candidates: seq<string>, seen: set<string>): seq<string> {
    if candidates == [] then []
    else if candidates[0] == "" || candidates[0] in seen then EachOnce(candidates[1..], seen)
    else [candidates[0]] + EachOnce(candidates[1..], seen + {candidates[0]})
  }

  function OrderedRooms(forge: Forge): seq<string> {
    EachOnce(Candidates(forge), {})
  }

  method ListOrderedRooms(forge: Forge) returns (rooms: seq<string>)
    ensures rooms == OrderedRooms(forge)
  {
    hide Candidates;
    var candidates := Candidates(forge);
    var seen: set<string> := {};
    rooms := [];
    for i := 0 to |candidates|
      invariant EachOnce(candidates, {}) == rooms + EachOnce(candidates[i..], seen)
    {
      assert candidates[i..][1..] == candidates[i + 1..];
      if candidates[i] == "" || candidates[i] in seen {
        continue;
      }
      seen := seen + {candidates[i]};
      rooms := rooms + [candidates[i]];
    }
  }

  lemma {:induction false} EachOnceIsExact(candidates: seq<string>, seen: set<string>)
    ensures Distinct(EachOnce(candidates, seen))
    ensures forall r :: r in EachOnce(candidates, seen) <==> r in candidates && r != "" && r !in seen
  {
    if candidates != [] {
      var first := candidates[0];
      EachOnceIsExact(candidates[1..], seen);
      EachOnceIsExact(candidates[1..], seen + {first});
      if first != "" && first !in seen {
        var rest := EachOnce(candidates[1..], seen + {first});
        var all := [first] + rest;
        forall i, j | 0 <= i < j < |all| ensures all[i] != all[j] {
          assert all[j] == rest[j - 1] && rest[j - 1] in rest;
          if i > 0 {
            assert all[i] == rest[i - 1];
          }
        }
      }
    }
  }

  lemma {:induction false} ProjectRoomsAre(projects: map<string, string>, names: seq<string>, room: string)
    requires forall n | n in names :: n in projects
    ensures room in ProjectRooms(projects, names) <==> exists n | n in names :: projects[n] == room
  {
    if names != [] {
      ProjectRoomsAre(projects, names[1..], room);
      if exists n | n in names :: projects[n] == room {
        var n :| n in names && projects[n] == room;
        assert n == names[0] || n in names[1..];
      }
    }
  }

  /** A room a forge recorded: its space, one of its four rooms, or a project's. */
  predicate Recorded(forge: Forge, room: string) {
    room != "" && (room in {forge.spaceID, forge.roomID, forge.approvalsRoomID, forge.activityRoomID,
                            forge.clarificationsRoomID}
                   || room in forge.projects.Values)
  }

  /** A removal visits every distinct recorded room once and nothing else. */
  lemma OrderedRoomsAreTheRecordedOnes(forge: Forge)
    ensures Distinct(OrderedRooms(forge))
    ensures forall room :: room in OrderedRooms(forge) <==> Recorded(forge, room)
  {
    hide Sorted, EachOnce;
    var names := Sorted(forge.projects.Keys);
    EachOnceIsExact(Candidates(forge), {});
    forall room ensures room in Candidates(forge) && room != "" <==> Recorded(forge, room) {
      ProjectRoomsAre(forge.projects, names, room);
      if room in forge.projects.Values {
        var n :| n in forge.projects && forge.projects[n] == room;
        assert n in names;
      }
    }
  }

  function Inspect(forges: seq<ForgeConfig>, loaded: Option<Saved>, root: string): Inspection {
    if Trim(root) == "" || HasParentTraversal(root) then RefusedInspection("unsafe_root")
    else
      var matched := MatchingRoots(forges, root, []);
      if |matched| > 1 then RefusedInspection("ambiguous_root")
      else if !IsAbs(root) then RefusedInspection("unsafe_root")
      else if |matched| == 0 then RefusedInspection("unknown_root")
      else if loaded == None then RefusedInspection("incomplete_state")
      else if root !in loaded.value.forges then Inspection(Result(NothingToRemove, ""), "", None, [])
      else if !CompleteForge(loaded.value.forges[root]) then RefusedInspection("incomplete_state")
      else Inspection(Result(Ready, ""), root, Some(loaded.value.forges[root]), OrderedRooms(loaded.value.forges[root]))
  }

  lemma {:induction false} MatchingAbsolute(forges: seq<ForgeConfig>, root: string)
    requires IsAbs(root)
    ensures MatchingRoots(forges, root, []) == if exists i | 0 <= i < |forges| ::
              forges[i].root == root then [root] else []
  {
    if forges != [] && forges[0].root != root {
      MatchingAbsolute(forges[1..], root);
      if exists i | 0 <= i < |forges| :: forges[i].root == root {
        var i :| 0 <= i < |forges| && forges[i].root == root;
        assert forges[1..][i - 1] == forges[i];
      }
    }
  }

  /** A removal may start exactly for a configured absolute root without parent parts whose
      forge is recorded with every room id; anything else names no room to touch. */
  lemma InspectIsReadyWhen(forges: seq<ForgeConfig>, loaded: Option<Saved>, root: string)
    ensures Inspect(forges, loaded, root).result.status == Ready
            <==> && IsAbs(root) && !HasParentTraversal(root)
                 && (exists i | 0 <= i < |forges| :: forges[i].root == root)
                 && loaded.Some? && root in loaded.value.forges && CompleteForge(loaded.value.forges[root])
    ensures Inspect(forges, loaded, root).result.status != Ready ==> Inspect(forges, loaded, root).rooms == []
  {
    if IsAbs(root) {
      MatchingAbsolute(forges, root);
      TrimOfBlank(root);
      assert root[0] in root && !IsSpace('/');
    }
  }

  /** No inspection says a forge is removed or may be tried again. */
  lemma InspectStartsNothing(forges: seq<ForgeConfig>, loaded: Option<Saved>, root: string)
    ensures Inspect(forges, loaded, root).result.status in {Ready, NothingToRemove, Refused}
  {
    hide HasParentTraversal, MatchingRoots, OrderedRooms;
  }

  // What an inspection answers.

  predicate IsSlash(c: char) {
    c == '/' || c == '\\'
  }

  /** Two dots that are a whole part of a path, between slashes or its ends. */
  predicate UpAt(root: string, i: nat) {
    && i + 2 <= |root| && root[i] == '.' && root[i + 1] == '.'
    && (i == 0 || IsSlash(root[i - 1])) && (i + 2 == |root| || IsSlash(root[i + 2]))
  }

  ghost predicate GoesUp(root: string) {
    exists i: nat :: UpAt(root, i)
  }

  lemma InFront(c: char, t: string)
    ensures [c] + t != "" && ([c] + t == "." <==> c == '.' && t == "") && ([c] + t == ".." <==> c == '.' && t == ".")
  {
    var s := [c] + t;
    assert s[0] == c && s[1..] == t && s == [s[0]] + s[1..];
    assert ['.'] + "." == ".." && ['.'] + "" == "." && ".."[1..] == "." && "."[1..] == "";
  }

  lemma {:induction false} FirstPart(s: string)
    ensures Parts(s)[0] == "" <==> s == "" || IsSlash(s[0])
    ensures Parts(s)[0] == "." <==> s != "" && s[0] == '.' && (|s| == 1 || IsSlash(s[1]))
    ensures Parts(s)[0] == ".." <==> UpAt(s, 0)
  {
    if s != "" && !IsSlash(s[0]) {
      FirstPart(s[1..]);
      InFront(s[0], Parts(s[1..])[0]);
    }
  }

  lemma {:induction false} LaterParts(s: string)
    ensures ".." in Parts(s)[1..] <==> exists i: nat :: i > 0 && UpAt(s, i)
  {
    if s != "" {
      LaterParts(s[1..]);
      FirstPart(s[1..]);
      var rest := Parts(s[1..]);
      assert Parts(s)[1..] == if IsSlash(s[0]) then rest else rest[1..];
      assert rest == [rest[0]] + rest[1..];
      UpShifts(s);
    }
  }

  lemma UpShifts(s: string)
    requires s != ""
    ensures (exists i: nat :: i > 0 && UpAt(s, i))
            <==> (IsSlash(s[0]) && UpAt(s[1..], 0)) || exists i: nat :: i > 0 && UpAt(s[1..], i)
  {
    assert UpAt(s, 1) <==> IsSlash(s[0]) && UpAt(s[1..], 0);
    hide UpAt;
    if i: nat :| i > 0 && UpAt(s, i) {
      if i > 1 {
        UpShiftsOne(s, i - 1);
        assert UpAt(s[1..], i - 1);
      }
    }
    if i: nat :| i > 0 && UpAt(s[1..], i) {
      UpShiftsOne(s, i);
      assert UpAt(s, i + 1);
    }
  }

  lemma UpShiftsOne(s: string, i: nat)
    requires s != "" && i > 0
    ensures UpAt(s, i + 1) <==> UpAt(s[1..], i)
  {
  }

  lemma TraversalGoesUp(root: string)
    ensures HasParentTraversal(root) <==> GoesUp(root)
  {
    FirstPart(root);
    LaterParts(root);
    var parts := Parts(root);
    assert parts == [parts[0]] + parts[1..];
    hide UpAt;
    if i: nat :| UpAt(root, i) {
      assert i > 0 || UpAt(root, 0);
    }
  }

  /** Two configured forges share this base name. */
  predicate Shared(forges: seq<ForgeConfig>, base: string) {
    exists i, j | 0 <= i < j < |forges| :: forges[i].base == base && forges[j].base == base
  }

  predicate Configured(forges: seq<ForgeConfig>, root: string) {
    exists i | 0 <= i < |forges| :: forges[i].root == root
  }

  predicate Named(forges: seq<ForgeConfig>, base: string) {
    exists i | 0 <= i < |forges| :: forges[i].base == base
  }

  lemma {:induction false} MatchingRelative(forges: seq<ForgeConfig>, root: string, matched: seq<string>)
    requires !IsAbs(root)
    ensures var found := MatchingRoots(forges, root, matched);
            if Configured(forges, root) then found == [root]
            else |found| >= |matched| && (|found| > |matched| <==> Named(forges, root))
                 && (|found| > |matched| + 1 <==> Shared(forges, root))
    decreases |forges|
  {
    if forges != [] && forges[0].root != root {
      var rest := forges[1..];
      MatchingRelative(rest, root, if forges[0].base == root then matched + [forges[0].root] else matched);
      assert forall i | 0 <= i < |rest| :: rest[i] == forges[i + 1];
      assert Configured(forges, root) <==> Configured(rest, root);
      assert Named(forges, root) <==> forges[0].base == root || Named(rest, root);
      assert Shared(forges, root) <==> Shared(rest, root) || (forges[0].base == root && Named(rest, root));
    }
  }

  /** What every inspection answers and why, and what it hands on: only a removal that may start names
      a root, a forge and rooms. */
  lemma InspectAnswers(forges: seq<ForgeConfig>, loaded: Option<Saved>, root: string)
    ensures var i := Inspect(forges, loaded, root);
            i.result == if Blank(root) || GoesUp(root) then Result(Refused, "unsafe_root")
                        else if !("/" <= root) then
                          Result(Refused, if Shared(forges, root) && !Configured(forges, root) then "ambiguous_root"
                                          else "unsafe_root")
                        else if !Configured(forges, root) then Result(Refused, "unknown_root")
                        else if loaded == None then Result(Refused, "incomplete_state")
                        else if root !in loaded.value.forges then Result(NothingToRemove, "")
                        else if !EveryRoomRecorded(loaded.value.forges[root]) then Result(Refused, "incomplete_state")
                        else Result(Ready, "")
    ensures var i := Inspect(forges, loaded, root);
            if i.result.status == Ready
            then i.root == root && i.forge == Some(loaded.value.forges[root])
                 && i.rooms == OrderedRooms(loaded.value.forges[root])
            else i.root == "" && i.forge == None && i.rooms == []
  {
    hide HasParentTraversal, GoesUp, OrderedRooms;
    TrimOfBlank(root);
    TraversalGoesUp(root);
    if IsAbs(root) {
      MatchingAbsolute(forges, root);
    } else {
      MatchingRelative(forges, root, []);
    }
  }

  /** No room id of a forge is missing. */
  predicate EveryRoomRecorded(forge: Forge) {
    && "" !in {forge.spaceID, forge.roomID, forge.approvalsRoomID, forge.activityRoomID, forge.clarificationsRoomID}
    && "" !in forge.projects.Values
  }

  // In which order the rooms are visited.

  /** Where a room is first named in a list, from some place on. */
  predicate FirstAt(candidates: seq<string>, i: nat, room: string) {
    i < |candidates| && candidates[i] == room && forall k | 0 <= k < i :: candidates[k] != room
  }

  lemma {:induction false} EachOnceKeepsOrder(candidates: seq<string>, seen: set<string>, p: nat, q: nat)
    returns (i: nat, j: nat)
    requires p < q < |EachOnce(candidates, seen)|
    ensures i < j && FirstAt(candidates, i, EachOnce(candidates, seen)[p])
            && FirstAt(candidates, j, EachOnce(candidates, seen)[q])
  {
    var all := EachOnce(candidates, seen);
    EachOnceIsExact(candidates, seen);
    if candidates[0] == "" || candidates[0] in seen {
      i, j := EachOnceKeepsOrder(candidates[1..], seen, p, q);
      i, j := i + 1, j + 1;
    } else {
      var rest := EachOnce(candidates[1..], seen + {candidates[0]});
      EachOnceIsExact(candidates[1..], seen + {candidates[0]});
      assert all == [candidates[0]] + rest && all[q] == rest[q - 1] && rest[q - 1] in rest;
      if p > 0 {
        assert all[p] == rest[p - 1];
        i, j := EachOnceKeepsOrder(candidates[1..], seen + {candidates[0]}, p - 1, q - 1);
        i, j := i + 1, j + 1;
      } else {
        i := 0;
        j := FirstMention(candidates, all[q]);
      }
    }
  }

  lemma {:induction false} FirstMention(candidates: seq<string>, room: string) returns (j: nat)
    requires room in candidates
    ensures FirstAt(candidates, j, room)
  {
    if candidates[0] == room {
      j := 0;
    } else {
      j := FirstMention(candidates[1..], room);
      j := j + 1;
    }
  }

  lemma {:induction false} ProjectRoomsAt(projects: map<string, string>, names: seq<string>)
    requires forall n | n in names :: n in projects
    ensures |ProjectRooms(projects, names)| == |names|
    ensures forall k | 0 <= k < |names| :: ProjectRooms(projects, names)[k] == projects[names[k]]
  {
    if names != [] {
      ProjectRoomsAt(projects, names[1..]);
    }
  }

  /** The rooms of a forge in the order a removal visits them: the space, the forge's room, the
      approvals, the activity and the clarifications, then the projects' rooms by name. */
  ghost predicate VisitOrder(forge: Forge, rooms: seq<string>) {
    && |rooms| == 5 + |forge.projects|
    && rooms[..5] == [forge.spaceID, forge.roomID, forge.approvalsRoomID, forge.activityRoomID,
                      forge.clarificationsRoomID]
    && exists names: seq<string> ::
         && |names| == |forge.projects| && (forall n | n in names :: n in forge.projects)
         && (forall a, b | 0 <= a < b < |names| :: names[a] != names[b] && AtMost(names[a], names[b]))
         && forall k | 0 <= k < |names| :: rooms[5 + k] == forge.projects[names[k]]
  }

  /** Of two rooms a removal visits, the one first named in that order comes first. */
  lemma RoomsAreVisitedInOrder(forge: Forge, p: nat, q: nat) returns (all: seq<string>, i: nat, j: nat)
    requires p < q < |OrderedRooms(forge)|
    ensures VisitOrder(forge, all)
    ensures i < j && FirstAt(all, i, OrderedRooms(forge)[p]) && FirstAt(all, j, OrderedRooms(forge)[q])
  {
    hide EachOnce, Sorted;
    all := Candidates(forge);
    var names := Sorted(forge.projects.Keys);
    SortedIsAscending(forge.projects.Keys);
    ProjectRoomsAt(forge.projects, names);
    assert |names| == |forge.projects.Keys| == |forge.projects|;
    assert all[..5] == [forge.spaceID, forge.roomID, forge.approvalsRoomID, forge.activityRoomID,
                        forge.clarificationsRoomID];
    i, j := EachOnceKeepsOrder(Candidates(forge), {}, p, q);
  }
}
