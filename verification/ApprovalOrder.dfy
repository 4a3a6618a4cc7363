/** What the keyed, sorted work makes of an approval and a send-back of one approval that wait
    together: which of the two the forge is asked for first (internal/bridge/pending.go). */
module ApprovalOrder {
  import opened Options
  import opened Text
  import opened Quote
  import opened Relay
  import opened PendingWork
  import opened ApprovalPlan
  import opened ApprovalDecisions
  import opened Approvals
  import opened ApprovalTries

  /** Work that resolves this approval one way or the other. */
  predicate Resolves(a: Action, key: string) {
    a.kind == ResolveApproval && a.key == key
  }

  predicate KnownResolution(a: Action) {
    a.kind == ResolveApproval ==> a.resolution in {APPROVED, SENT_BACK}
  }

  /** A plan resolves an approval one of two ways only. */
  lemma PlannedResolutionIsKnown(r: Reader, st: map<string, ApprovalState>, pending: seq<Approval>,
                                 desk: map<string, string>,
                                 reactions: seq<Reaction>, replies: seq<RoomEvent>, order: seq<string>, a: Action)
    requires Walks(order, st) && a in Plan(r, st, pending, desk, reactions, replies, order)
    ensures KnownResolution(a)
  {
    hide Plan, OwnWords, EventOf, ApprovalForText, Affirmative;
    PlanMembers(r, st, pending, desk, reactions, replies, order, a);
  }

  /** An approval's key sorts before its send-back's, whatever the approval is called. */
  lemma ApprovalSortsFirst(approve: Action, sendBack: Action)
    requires approve.kind == sendBack.kind && approve.key == sendBack.key
    requires approve.resolution == APPROVED && sendBack.resolution == SENT_BACK
    ensures AtMost(ActionKey(approve), ActionKey(sendBack)) && ActionKey(approve) != ActionKey(sendBack)
  {
    hide KindName;
    var front := KindName(approve.kind) + "/" + approve.key + "/";
    assert ActionKey(approve) == front + APPROVED && ActionKey(sendBack) == front + SENT_BACK;
    AtMostAfterFront(front, APPROVED, SENT_BACK);
    assert ActionKey(approve)[|front|] == 'a' && ActionKey(sendBack)[|front|] == 's';
  }

  lemma TryTakes(d: Desk, root: string, room: string, a: Action, given: Outcome, key: string)
    ensures var after := Try(d, root, room, a, given);
            if Resolves(a, key) && AnswerOf(d.open, a, given).Landed?
            then key !in after.open && TookOf(after.taken, key) == Some(a.resolution)
            else (key in after.open <==> key in d.open) && TookOf(after.taken, key) == TookOf(d.taken, key)
  {
    hide Try, Applied, ActionKey, AnswerOf;
    TryShape(d, root, room, a, given);
  }

  /** What the forge took of an approval that is no longer open stays what it took. */
  lemma {:induction false} TakenStays(d: Desk, root: string, room: string, actions: seq<Action>,
                                      answers: map<string, Outcome>,
                                      key: string)
    requires key !in d.open
    ensures TookOf(TryAll(d, root, room, actions, answers).taken, key) == TookOf(d.taken, key)
    decreases |actions|
  {
    hide Try, ActionKey;
    if actions != [] {
      var given := AnswerTo(answers, ActionKey(actions[0]));
      TryTakes(d, root, room, actions[0], given, key);
      TakenStays(Try(d, root, room, actions[0], given), root, room, actions[1..], answers, key);
    }
  }

  /** The first of an approval's resolutions to be tried is taken when its call goes through. */
  lemma {:induction false} FirstIsTaken(d: Desk, root: string, room: string, actions: seq<Action>,
                                        answers: map<string, Outcome>,
                                        i: nat, key: string)
    requires i < |actions| && Resolves(actions[i], key) && forall j | 0 <= j < i :: !Resolves(actions[j], key)
    requires key in d.open && KnownResolution(actions[i]) && AnswerTo(answers, ActionKey(actions[i])).Landed?
    ensures TookOf(TryAll(d, root, room, actions, answers).taken, key) == Some(actions[i].resolution)
    decreases |actions|
  {
    hide Try, ActionKey;
    var given := AnswerTo(answers, ActionKey(actions[0]));
    var next := Try(d, root, room, actions[0], given);
    TryTakes(d, root, room, actions[0], given, key);
    if i == 0 {
      TakenStays(next, root, room, actions[1..], answers, key);
    } else {
      FirstIsTaken(next, root, room, actions[1..], answers, i - 1, key);
    }
  }

  /** Kept together, the approval is asked for first, whichever the operator gave first; so when
      both calls would go through it is the approval the forge takes. */
  lemma KeptTogetherApproves(d: Desk, root: string, room: string, answers: map<string, Outcome>, approve: Action)
    requires approve.kind == ResolveApproval && approve.resolution == APPROVED && approve.key in d.open
    requires forall s | s in d.kept :: ActionKey(d.kept[s]) == s && KnownResolution(d.kept[s])
    requires ActionKey(approve) in d.kept && d.kept[ActionKey(approve)] == approve
    requires AnswerTo(answers, ActionKey(approve)).Landed?
    ensures TookOf(TryAll(d, root, room, Listed(d.kept), answers).taken, approve.key) == Some(APPROVED)
  {
    hide ActionKey, TryAll, Sorted, InOrder;
    var keys, actions := Sorted(d.kept.Keys), Listed(d.kept);
    SortedIsAscending(d.kept.Keys);
    var i :| 0 <= i < |keys| && keys[i] == ActionKey(approve);
    forall j | 0 <= j < i ensures !Resolves(actions[j], approve.key) {
      assert keys[j] in keys;
      if Resolves(actions[j], approve.key) {
        SameResolutionSameKey(actions[j], approve);
        ApprovalSortsFirst(approve, actions[j]);
        AtMostAntisymmetric(keys[j], keys[i]);
      }
    }
    FirstIsTaken(d, root, room, actions, answers, i, approve.key);
  }

  lemma SameResolutionSameKey(a: Action, b: Action)
    requires a.kind == b.kind && a.key == b.key && KnownResolution(a) && a.kind == ResolveApproval
             && b.resolution == APPROVED
    requires ActionKey(a) != ActionKey(b)
    ensures a.resolution == SENT_BACK
  {
  }

  /** Work is tried kind by kind: the gestures, the posts, the marks, the replies, the resolutions. */
  predicate KindComesFirst(a: Kind, b: Kind) {
    match a
    case AnswerGestures => b != AnswerGestures
    case PostApproval => b !in {AnswerGestures, PostApproval}
    case ReactApproval => b in {ReplyApproval, ResolveApproval}
    case ReplyApproval => b == ResolveApproval
    case ResolveApproval => false
  }

  lemma KindsSortInOrder(a: Action, b: Action)
    requires KindComesFirst(a.kind, b.kind)
    ensures AtMost(ActionKey(a), ActionKey(b)) && ActionKey(a) != ActionKey(b)
  {
    var k, l := ActionKey(a), ActionKey(b);
    assert |k| > 3 && |l| > 3;
    assert k == k[..2] + k[2..] && l == l[..2] + l[2..];
    if k[0] == l[0] {
      assert k[..2] == l[..2] == "re";
      AtMostAfterFront("re", k[2..], l[2..]);
      assert k[2..][0] == k[2] && l[2..][0] == l[2];
    }
  }

  /** Two pieces of work have one key exactly when they are of one kind and the resolution reads the same behind
      the approval's key. */
  lemma ActionKeysAgree(a: Action, b: Action)
    ensures ActionKey(a) == ActionKey(b)
            <==> a.kind == b.kind && a.key + "/" + a.resolution == b.key + "/" + b.resolution
  {
    var k, l := KindName(a.kind), KindName(b.kind);
    var x, y := a.key + "/" + a.resolution, b.key + "/" + b.resolution;
    assert ActionKey(a) == k + "/" + x && ActionKey(b) == l + "/" + y;
    if ActionKey(a) == ActionKey(b) {
      NoSlashInKinds(a.kind);
      NoSlashInKinds(b.kind);
      CutAtMark(k, x, l, y, '/');
      KindsHaveNames(a.kind, b.kind);
    }
  }

  lemma KindsHaveNames(a: Kind, b: Kind)
    ensures KindName(a) == KindName(b) ==> a == b
  {
    assert KindName(a)[2] != KindName(b)[2] || KindName(a)[0] != KindName(b)[0] || a == b;
  }

  lemma NoSlashInKinds(kind: Kind)
    ensures '/' !in KindName(kind)
  {
  }

  /** So where resolutions are words without a slash, as all that are planned here are, no two pieces of
      work share a key. */
  lemma ActionKeyInjective(a: Action, b: Action)
    requires '/' !in a.resolution && '/' !in b.resolution
    ensures ActionKey(a) == ActionKey(b) <==> a.kind == b.kind && a.key == b.key && a.resolution == b.resolution
  {
    ActionKeysAgree(a, b);
    if a.key + "/" + a.resolution == b.key + "/" + b.resolution {
      LastSlash(a.key, a.resolution, b.key, b.resolution);
      LastSlash(b.key, b.resolution, a.key, a.resolution);
      var x, y := a.key + "/" + a.resolution, b.key + "/" + b.resolution;
      assert x[..|a.key|] == a.key && y[..|b.key|] == b.key;
      assert x[|a.key| + 1..] == a.resolution && y[|b.key| + 1..] == b.resolution;
    }
  }

  lemma LastSlash(key: string, word: string, other: string, rest: string)
    requires key + "/" + word == other + "/" + rest && '/' !in word
    ensures |other| <= |key|
  {
    var s := key + "/" + word;
    assert forall i | |key| < i < |s| :: s[i] == word[i - |key| - 1] && word[i - |key| - 1] in word;
    assert s[|other|] == '/' by {
      assert (other + "/" + rest)[|other|] == '/';
    }
  }
}
