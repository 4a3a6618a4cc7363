/** Every answer finds the message it is threaded under, and a tick that nothing fails leaves
    nothing to do (internal/bridge/apply.go, internal/bridge/pending.go). */
module ChatReplies {
  import opened Options
  import opened Text
  import opened Quote
  import opened Relay
  import opened ChatPlan
  import opened PendingWork
  import opened Chat
  import opened ChatKeys
  import opened ChatRuns
  import opened ChatPairing
  import opened ChatInvariants

  /** The post of a request, as far as its key goes. */
  function Post(id: string): Action {
    Action(PostRequestMessage, id, "", "", "", "")
  }

  function PostKey(id: string): string {
    ActionKey(Post(id))
  }

  predicate IsPost(a: Action, id: string) {
    a.kind == PostRequestMessage && a.requestID == id
  }

  lemma PostKeyIs(a: Action, id: string)
    requires GoodAction(a)
    ensures ActionKey(a) == PostKey(id) <==> IsPost(a, id)
  {
    ActionKeyInjective(a, Post(id));
  }

  /** A reply that was planned before its request had a message. */
  predicate Unanchored(a: Action) {
    a.kind == PostRequestReply && a.anchor == ""
  }

  /** Its request has a message by now, or the message is still to be posted. */
  predicate Anchorable(book: State, kept: map<string, Action>) {
    forall k | k in kept && Unanchored(kept[k]) ::
      Anchor(book, kept[k].requestID) != "" || PostKey(kept[k].requestID) in kept
  }

  lemma AnchorableGrows(book: State, after: State, kept: map<string, Action>)
    requires Anchorable(book, kept) && forall id: string :: Settled(book, Post(id)) ==> Settled(after, Post(id))
    ensures Anchorable(after, kept)
  {
    hide PostKey;
    forall k | k in kept && Unanchored(kept[k])
      ensures Anchor(after, kept[k].requestID) != "" || PostKey(kept[k].requestID) in kept
    {
      assert Settled(book, Post(kept[k].requestID)) ==> Settled(after, Post(kept[k].requestID));
    }
  }

  lemma TryGrows(v: Serving, root: string, a: Action, answer: Outcome, id: string)
    requires GoodAnswer(answer) && Settled(v.book, Post(id))
    ensures Settled(Try(v, root, a, answer).book, Post(id))
  {
    hide Applied, ActionKey;
    if answer.Landed? {
      AppliedKeepsSettled(v.book, root, a, answer.eventID, Post(id));
    }
  }

  lemma TryStaysAnchorable(v: Serving, root: string, a: Action, answer: Outcome)
    requires Good(v) && Anchorable(v.book, v.kept) && GoodAction(a) && GoodAnswer(answer)
    ensures Anchorable(Try(v, root, a, answer).book, Try(v, root, a, answer).kept)
  {
    hide PostKey, ActionKey, Applied, Try, ReplyAnchor;
    var next := Try(v, root, a, answer);
    TryShape(v, root, a, answer);
    forall id: string | Settled(v.book, Post(id)) ensures Settled(next.book, Post(id)) {
      TryGrows(v, root, a, answer, id);
    }
    AnchorableGrows(v.book, next.book, v.kept);
    forall k | k in next.kept && Unanchored(next.kept[k])
      ensures Anchor(next.book, next.kept[k].requestID) != "" || PostKey(next.kept[k].requestID) in next.kept
    {
      var id := next.kept[k].requestID;
      PostKeyIs(a, id);
      if answer.Landed? && IsPost(a, id) {
        AppliedSettles(v.book, root, a, answer.eventID);
      }
    }
  }

  lemma KeepingIsAnchorable(s: Sys, step: Step)
    requires step.Tick? && Possible(s, step) && Good(ServingOf(s, step.root))
             && Anchorable(s.book, KeptFor(s, step.root))
    ensures Anchorable(s.book, TickKept(s, step))
  {
    var v, kept := ServingOf(s, step.root), TickKept(s, step);
    var plan := Plan(s.book, step.operator, step.origins, step.requests, step.events);
    hide Plan, Kept, ActionKey, GoodAction;
    KeptKeys(v.kept, ActionKey, plan);
    forall k | k in kept && Unanchored(kept[k])
      ensures Anchor(s.book, kept[k].requestID) != "" || PostKey(kept[k].requestID) in kept
    {
      var _ := KeptPlan(v, step.operator, step.origins, step.requests, step.events, k);
      if kept[k] in plan {
        var post := UnanchoredReplyComesWithItsPost(
          s.book, step.operator, step.origins, step.requests, step.events, kept[k]);
        PlannedIsGood(s.book, step.operator, step.origins, step.requests, step.events, post);
        PostKeyIs(post, kept[k].requestID);
      }
    }
  }

  // Within a tick.

  /** An entry of the log that refused the post of a request. */
  predicate RefusedPost(e: Entry, root: string, id: string) {
    e.root == root && IsPost(e.action, id) && e.tried == Answered(Refused)
  }

  predicate PostWasRefused(log: seq<Entry>, from: nat, to: nat, root: string, id: string)
    requires from <= to <= |log|
  {
    exists i | from <= i < to :: RefusedPost(log[i], root, id)
  }

  /** Every answer without a message to thread it under follows, in the same stretch of the
      log, the refusal of that message's post. */
  predicate Explained(log: seq<Entry>, from: nat)
    requires from <= |log|
  {
    forall j | from <= j < |log| && log[j].tried == NoAnchor ::
      PostWasRefused(log, from, j, log[j].root, log[j].action.requestID)
  }

  /** The actions still to try come in the order of their keys. */
  predicate Ascending(actions: seq<Action>) {
    forall i, j | 0 <= i <= j < |actions| :: AtMost(ActionKey(actions[i]), ActionKey(actions[j]))
  }

  predicate StillToCome(actions: seq<Action>, key: string) {
    exists i | 0 <= i < |actions| :: ActionKey(actions[i]) == key
  }

  /** A post that is kept, has no message and is not to come was refused on this tick. */
  ghost predicate PostsAccounted(v: Serving, root: string, from: nat, actions: seq<Action>)
    requires from <= |v.log|
  {
    forall id: string | PostKey(id) in v.kept && Anchor(v.book, id) == "" && !StillToCome(actions, PostKey(id)) ::
      PostWasRefused(v.log, from, |v.log|, root, id)
  }

  lemma RefusedStays(log: seq<Entry>, e: Entry, from: nat, to: nat, root: string, id: string)
    requires from <= to <= |log| && PostWasRefused(log, from, to, root, id)
    ensures PostWasRefused(log + [e], from, to, root, id)
  {
    var i :| from <= i < to && RefusedPost(log[i], root, id);
    assert (log + [e])[i] == log[i];
  }

  lemma TryAccounts(v: Serving, root: string, from: nat, actions: seq<Action>, answer: Outcome)
    requires Good(v) && from <= |v.log| && actions != [] && Waiting(v.kept, actions) && GoodAnswer(answer)
    requires PostsAccounted(v, root, from, actions)
    ensures PostsAccounted(Try(v, root, actions[0], answer), root, from, actions[1..])
  {
    hide ActionKey, Applied, GoodAction;
    var a, next := actions[0], Try(v, root, actions[0], answer);
    assert actions[0] in actions;
    forall id: string | PostKey(id) in next.kept && Anchor(next.book, id) == ""
        && !StillToCome(actions[1..], PostKey(id))
      ensures PostWasRefused(next.log, from, |next.log|, root, id)
    {
      PostKeyIs(a, id);
      if IsPost(a, id) {
        if answer.Landed? {
          AppliedSettles(v.book, root, a, answer.eventID);
        }
        assert RefusedPost(next.log[|v.log|], root, id);
      } else {
        assert Anchor(v.book, id) == "" by {
          if Anchor(v.book, id) != "" {
            TryGrows(v, root, a, answer, id);
          }
        }
        StillToComeShrinks(actions, PostKey(id));
        RefusedStays(v.log, next.log[|v.log|], from, |v.log|, root, id);
        assert next.log == v.log + [next.log[|v.log|]];
      }
    }
  }

  lemma StillToComeShrinks(actions: seq<Action>, key: string)
    requires actions != [] && ActionKey(actions[0]) != key && !StillToCome(actions[1..], key)
    ensures !StillToCome(actions, key)
  {
    hide ActionKey;
    forall i | 0 <= i < |actions| ensures ActionKey(actions[i]) != key {
      if i > 0 {
        assert actions[i] == actions[1..][i - 1];
      }
    }
  }

  /** No post is tried after its reply. */
  lemma PostCameBefore(actions: seq<Action>, id: string)
    requires actions != [] && Ascending(actions) && actions[0].kind == PostRequestReply && actions[0].requestID == id
    ensures !StillToCome(actions, PostKey(id))
  {
    PostSortsBeforeReply(Post(id), actions[0]);
    hide ActionKey;
    if StillToCome(actions, PostKey(id)) {
      var i :| 0 <= i < |actions| && ActionKey(actions[i]) == PostKey(id);
      assert AtMost(ActionKey(actions[0]), PostKey(id));
      AtMostAntisymmetric(ActionKey(actions[0]), PostKey(id));
    }
  }

  lemma TryExplains(v: Serving, root: string, from: nat, actions: seq<Action>, answer: Outcome)
    requires from <= |v.log| && actions != [] && Waiting(v.kept, actions) && Ascending(actions)
    requires Anchorable(v.book, v.kept) && PostsAccounted(v, root, from, actions) && Explained(v.log, from)
    ensures Explained(Try(v, root, actions[0], answer).log, from)
  {
    hide ActionKey, Applied, PostKey, GoodAction;
    var a, next := actions[0], Try(v, root, actions[0], answer);
    assert actions[0] in actions && v.kept[ActionKey(a)] == a;
    forall j | from <= j < |next.log| && next.log[j].tried == NoAnchor
      ensures PostWasRefused(next.log, from, j, next.log[j].root, next.log[j].action.requestID)
    {
      var e := next.log[|v.log|];
      assert next.log == v.log + [e];
      if j < |v.log| {
        RefusedStays(v.log, e, from, j, v.log[j].root, v.log[j].action.requestID);
      } else {
        PostCameBefore(actions, a.requestID);
        RefusedStays(v.log, e, from, |v.log|, root, a.requestID);
      }
    }
  }

  lemma AscendingAfter(actions: seq<Action>)
    requires actions != [] && Ascending(actions)
    ensures Ascending(actions[1..])
  {
    hide ActionKey;
    forall i, j | 0 <= i <= j < |actions[1..]| ensures AtMost(ActionKey(actions[1..][i]), ActionKey(actions[1..][j])) {
      assert actions[1..][i] == actions[i + 1] && actions[1..][j] == actions[j + 1];
    }
  }

  lemma {:induction false} TryAllExplains(v: Serving, root: string, from: nat, actions: seq<Action>,
                                          answers: map<string, Outcome>)
    requires Good(v) && from <= |v.log| && Waiting(v.kept, actions) && Ascending(actions) && GoodAnswers(answers)
    requires Anchorable(v.book, v.kept) && PostsAccounted(v, root, from, actions) && Explained(v.log, from)
    ensures var end := TryAll(v, root, actions, answers);
            from <= |end.log| && Explained(end.log, from) && Anchorable(end.book, end.kept)
    decreases |actions|
  {
    hide Good, Try, GoodAction, ActionKey, PostsAccounted, Explained, Anchorable, Ascending, GoodAnswer;
    if actions != [] {
      var answer := AnswerTo(answers, ActionKey(actions[0]));
      assert GoodAnswer(answer) by { AnswerIsGood(answers, ActionKey(actions[0])); }
      assert actions[0] in actions;
      LogGrows(v, root, actions[0], answer);
      TryAccounts(v, root, from, actions, answer);
      TryExplains(v, root, from, actions, answer);
      TryStaysAnchorable(v, root, actions[0], answer);
      TryIsGood(v, root, actions[0], answer);
      WaitingAfter(v, root, actions, answer);
      AscendingAfter(actions);
      TryAllExplains(Try(v, root, actions[0], answer), root, from, actions[1..], answers);
    }
  }

  lemma AnswerIsGood(answers: map<string, Outcome>, key: string)
    requires GoodAnswers(answers)
    ensures GoodAnswer(AnswerTo(answers, key))
  {
  }

  lemma LogGrows(v: Serving, root: string, a: Action, answer: Outcome)
    ensures |Try(v, root, a, answer).log| == |v.log| + 1
  {
  }

  lemma ListedIsAscending(kept: map<string, Action>)
    requires GoodKept(kept)
    ensures Ascending(Listed(kept))
    ensures forall k | k in kept :: StillToCome(Listed(kept), k)
  {
    hide ActionKey, GoodAction, Sorted, InOrder;
    var keys, actions := Sorted(kept.Keys), Listed(kept);
    SortedIsAscending(kept.Keys);
    forall i | 0 <= i < |actions| ensures ActionKey(actions[i]) == keys[i] {
      assert keys[i] in keys;
    }
    forall k | k in kept ensures StillToCome(actions, k) {
      assert k in keys;
      var i :| 0 <= i < |keys| && keys[i] == k;
      assert ActionKey(actions[i]) == k;
    }
  }

  /** On every tick, an answer that finds no message to be threaded under was preceded, on that
      tick, by the refusal of its request's post: the key order puts the post first. */
  lemma TickExplainsMissingAnchors(s: Sys, step: Step)
    requires step.Tick? && Possible(s, step) && Good(ServingOf(s, step.root))
             && Anchorable(s.book, KeptFor(s, step.root))
    ensures |s.log| <= |TickServing(s, step).log| && Explained(TickServing(s, step).log, |s.log|)
    ensures Anchorable(TickServing(s, step).book, TickServing(s, step).kept)
  {
    hide Good, GoodAction, ActionKey, TryAll, PairedUp, Explained, Ascending, Listed, Settled, Kept, Plan, PostKey;
    var v := ServingOf(s, step.root).(kept := TickKept(s, step));
    TickIsGood(s, step);
    KeepingIsAnchorable(s, step);
    assert GoodKept(v.kept) by { GoodKeptOf(v); }
    ListedIsAscending(v.kept);
    NothingExplained(v, step.root, Listed(v.kept));
    TryAllExplains(v, step.root, |s.log|, Listed(v.kept), step.answers);
    var tried := TickTried(s, step);
    forall id: string ensures Settled(tried.book, Post(id)) ==> Settled(TickServing(s, step).book, Post(id)) {
      PairPassKeepsSettled(tried, step.root, step.readBack, step.saves, Post(id));
    }
    AnchorableGrows(tried.book, TickServing(s, step).book, tried.kept);
  }

  lemma GoodKeptOf(v: Serving)
    requires Good(v)
    ensures GoodKept(v.kept)
  {
  }

  lemma NothingExplained(v: Serving, root: string, actions: seq<Action>)
    requires forall k | k in v.kept :: StillToCome(actions, k)
    ensures Explained(v.log, |v.log|) && PostsAccounted(v, root, |v.log|, actions)
  {
  }

  // Over a run.

  lemma {:induction false} TryAllGrows(v: Serving, root: string, actions: seq<Action>, answers: map<string, Outcome>,
                                       b: Action)
    requires GoodAnswers(answers) && Settled(v.book, b)
    ensures Settled(TryAll(v, root, actions, answers).book, b)
    decreases |actions|
  {
    hide Applied, Settled, ActionKey;
    if actions != [] {
      var answer := AnswerTo(answers, ActionKey(actions[0]));
      AnswerIsGood(answers, ActionKey(actions[0]));
      if answer.Landed? {
        AppliedKeepsSettled(v.book, root, actions[0], answer.eventID, b);
      }
      TryAllGrows(Try(v, root, actions[0], answer), root, actions[1..], answers, b);
    }
  }

  /** A tick forgets nothing that was carried out. */
  lemma TickGrows(s: Sys, step: Step, b: Action)
    requires step.Tick? && Possible(s, step) && Good(ServingOf(s, step.root)) && Settled(s.book, b)
    ensures Settled(TickServing(s, step).book, b)
  {
    hide Good, GoodAction, ActionKey, TryAll, PairPass, Settled, Kept, Plan, Listed;
    TickIsGood(s, step);
    TryAllGrows(ServingOf(s, step.root).(kept := TickKept(s, step)), step.root, Listed(TickKept(s, step)), step.answers,
                b);
    PairPassKeepsSettled(TickTried(s, step), step.root, step.readBack, step.saves, b);
  }

  predicate AllAnchorable(s: Sys) {
    AllGood(s) && forall root | root in s.kept :: Anchorable(s.book, s.kept[root])
  }

  lemma StepExplains(s: Sys, step: Step)
    requires AllAnchorable(s) && Possible(s, step)
    ensures AllAnchorable(Do(s, step)) && |s.log| <= |Do(s, step).log| && Explained(Do(s, step).log, |s.log|)
  {
    hide Good, GoodKept, GoodAction, ActionKey, TickServing, Possible, Settled, Anchorable;
    if step.Tick? {
      var next := TickServing(s, step);
      GoodOfAll(s, step.root);
      assert Anchorable(s.book, KeptFor(s, step.root)) by { NothingIsAnchorable(s.book); }
      TickIsGood(s, step);
      AllGoodAfter(s, step);
      TickExplainsMissingAnchors(s, step);
      forall root | root in Do(s, step).kept ensures Anchorable(next.book, Do(s, step).kept[root]) {
        if root != step.root {
          forall id: string ensures Settled(s.book, Post(id)) ==> Settled(next.book, Post(id)) {
            if Settled(s.book, Post(id)) {
              TickGrows(s, step, Post(id));
            }
          }
          AnchorableGrows(s.book, next.book, s.kept[root]);
        }
      }
    }
  }

  lemma NothingIsAnchorable(book: State)
    ensures Anchorable(book, map[])
  {
  }

  /** The log only grows, and what it says of earlier calls stays. */
  lemma StepKeepsLog(s: Sys, step: Step)
    ensures s.log <= Do(s, step).log
  {
    if step.Tick? {
      var v := ServingOf(s, step.root).(kept := TickKept(s, step));
      TryAllKeepsLog(v, step.root, Listed(v.kept), step.answers);
    }
  }

  lemma {:induction false} TryAllKeepsLog(v: Serving, root: string, actions: seq<Action>, answers: map<string, Outcome>)
    ensures v.log <= TryAll(v, root, actions, answers).log
    decreases |actions|
  {
    hide Applied, ActionKey;
    if actions != [] {
      TryAllKeepsLog(Try(v, root, actions[0], AnswerTo(answers, ActionKey(actions[0]))), root, actions[1..], answers);
    }
  }

  lemma ExplainedJoins(log: seq<Entry>, more: seq<Entry>, from: nat)
    requires from <= |log| && log <= more && Explained(log, from) && Explained(more, |log|)
    ensures Explained(more, from)
  {
    forall j | from <= j < |more| && more[j].tried == NoAnchor
      ensures PostWasRefused(more, from, j, more[j].root, more[j].action.requestID)
    {
      if j < |log| {
        assert more[j] == log[j];
        var i :| from <= i < j && RefusedPost(log[i], log[j].root, log[j].action.requestID);
        assert RefusedPost(more[i], more[j].root, more[j].action.requestID);
      } else {
        var i :| |log| <= i < j && RefusedPost(more[i], more[j].root, more[j].action.requestID);
      }
    }
  }

  /** Over any run, an answer lacks a message to be threaded under only after its request's
      post was refused in the same root. */
  lemma {:induction false} RunExplainsMissingAnchors(s: Sys, steps: seq<Step>, from: nat)
    requires AllAnchorable(s) && IsRun(s, steps) && from <= |s.log| && Explained(s.log, from)
    ensures from <= |Run(s, steps).log| && Explained(Run(s, steps).log, from)
    decreases |steps|
  {
    hide AllAnchorable, Possible, Do, Explained;
    if steps != [] {
      StepExplains(s, steps[0]);
      StepKeepsLog(s, steps[0]);
      ExplainedJoins(s.log, Do(s, steps[0]).log, from);
      RunExplainsMissingAnchors(Do(s, steps[0]), steps[1..], from);
    }
  }

  // A tick nothing fails.

  /** Every kept action is answered, accepted and saved. */
  predicate AllLand(answers: map<string, Outcome>, kept: map<string, Action>) {
    forall k | k in kept :: k in answers && answers[k].Landed? && answers[k].saved && answers[k].eventID != ""
  }

  /** Each kept action is still to come: what was tried has landed. */
  predicate AllToCome(kept: map<string, Action>, actions: seq<Action>) {
    forall k | k in kept :: StillToCome(actions, k)
  }

  lemma ReplyFindsItsAnchor(v: Serving, actions: seq<Action>)
    requires actions != [] && Waiting(v.kept, actions) && Ascending(actions)
    requires Anchorable(v.book, v.kept) && AllToCome(v.kept, actions)
    requires actions[0].kind == PostRequestReply
    ensures ReplyAnchor(v.book, actions[0]) != ""
  {
    hide ActionKey, PostKey, GoodAction;
    var a := actions[0];
    assert a in actions && v.kept[ActionKey(a)] == a;
    if a.anchor == "" && Anchor(v.book, a.requestID) == "" {
      PostCameBefore(actions, a.requestID);
    }
  }

  lemma TryLands(v: Serving, root: string, actions: seq<Action>, answers: map<string, Outcome>)
    requires actions != [] && Waiting(v.kept, actions) && Ascending(actions) && AllLand(answers, v.kept)
    requires Anchorable(v.book, v.kept) && AllToCome(v.kept, actions)
    ensures var next := Try(v, root, actions[0], AnswerTo(answers, ActionKey(actions[0])));
            Settled(next.book, actions[0]) && AllLand(answers, next.kept) && AllToCome(next.kept, actions[1..])
  {
    hide ActionKey, Applied, GoodAction, Anchorable;
    var a := actions[0];
    var answer := AnswerTo(answers, ActionKey(a));
    assert a in actions && ActionKey(a) in v.kept;
    if a.kind == PostRequestReply {
      ReplyFindsItsAnchor(v, actions);
    }
    AppliedSettles(v.book, root, a, answer.eventID);
    var next := Try(v, root, a, answer);
    forall k | k in next.kept ensures StillToCome(actions[1..], k) {
      if !StillToCome(actions[1..], k) {
        StillToComeShrinks(actions, k);
      }
    }
  }

  lemma {:induction false} TryAllLands(v: Serving, root: string, actions: seq<Action>, answers: map<string, Outcome>)
    requires Good(v) && Waiting(v.kept, actions) && Ascending(actions) && AllLand(answers, v.kept)
             && GoodAnswers(answers)
    requires Anchorable(v.book, v.kept) && AllToCome(v.kept, actions)
    ensures TryAll(v, root, actions, answers).kept == map[]
    ensures forall a | a in actions :: Settled(TryAll(v, root, actions, answers).book, a)
    decreases |actions|
  {
    hide Good, Try, GoodAction, GoodAnswers, ActionKey, AllLand, Anchorable, Ascending, Settled, Waiting;
    if actions == [] {
      assert forall k | k in v.kept :: StillToCome(actions, k);
    } else {
      var answer := AnswerTo(answers, ActionKey(actions[0]));
      var next := Try(v, root, actions[0], answer);
      TryLands(v, root, actions, answers);
      AnswerIsGood(answers, ActionKey(actions[0]));
      assert GoodAction(actions[0]) by { GoodWaiting(v.kept, actions); }
      TryStaysAnchorable(v, root, actions[0], answer);
      TryIsGood(v, root, actions[0], answer);
      WaitingAfter(v, root, actions, answer);
      AscendingAfter(actions);
      TryAllLands(next, root, actions[1..], answers);
      TryAllGrows(next, root, actions[1..], answers, actions[0]);
      forall a | a in actions ensures Settled(TryAll(v, root, actions, answers).book, a) {
        assert a == actions[0] || a in actions[1..];
      }
    }
  }

  lemma GoodWaiting(kept: map<string, Action>, actions: seq<Action>)
    requires actions != [] && Waiting(kept, actions)
    ensures GoodAction(actions[0])
  {
    assert actions[0] in actions;
  }

  /** After a tick whose calls and saves all succeed, everything it planned is carried out. */
  lemma PlannedIsDone(s: Sys, step: Step, a: Action)
    requires step.Tick? && Possible(s, step) && Good(ServingOf(s, step.root))
             && Anchorable(s.book, KeptFor(s, step.root))
    requires AllLand(step.answers, TickKept(s, step))
    ensures TickServing(s, step).kept == map[]
    ensures a in Plan(s.book, step.operator, step.origins, step.requests, step.events)
            ==> Settled(TickServing(s, step).book, a)
  {
    hide Good, GoodAction, ActionKey, TryAll, PairPass, Ascending, Settled, Kept, Plan, Listed, AllLand, Waiting,
        Anchorable;
    var v := ServingOf(s, step.root).(kept := TickKept(s, step));
    TickIsGood(s, step);
    KeepingIsAnchorable(s, step);
    assert GoodKept(v.kept) by { GoodKeptOf(v); }
    ListedIsAscending(v.kept);
    TryAllLands(v, step.root, Listed(v.kept), step.answers);
    PairPassKeepsKept(TickTried(s, step), step.root, step.readBack, step.saves);
    var plan := Plan(s.book, step.operator, step.origins, step.requests, step.events);
    if a in plan {
      KeptKeys(KeptFor(s, step.root), ActionKey, plan);
      var b := KeptIsListed(v.kept, ActionKey(a));
      PlannedIsGood(s.book, step.operator, step.origins, step.requests, step.events, a);
      SameKeySettles(TickTried(s, step).book, a, b);
      PairPassKeepsSettled(TickTried(s, step), step.root, step.readBack, step.saves, a);
    }
  }

  lemma PairPassKeepsKept(v: Serving, root: string, readBack: Option<seq<Request>>, saves: bool)
    ensures PairPass(v, root, readBack, saves).kept == v.kept
  {
    hide PairedUp;
  }

  lemma SameKeySettles(book: State, a: Action, b: Action)
    requires GoodAction(a) && GoodAction(b) && ActionKey(a) == ActionKey(b) && Settled(book, b)
    ensures Settled(book, a)
  {
    ActionKeyInjective(a, b);
  }

  /** Carrying a plan out leaves nothing to plan: after a tick whose calls and saves all
      succeed, the same queue and the same messages ask for nothing, and nothing is owed. */
  lemma ServedTickPlansNothing(s: Sys, step: Step, origins: map<string, string>)
    requires step.Tick? && Possible(s, step) && Good(ServingOf(s, step.root))
             && Anchorable(s.book, KeptFor(s, step.root))
    requires Disjoint(s.book) && Unsent(s.book, KeptFor(s, step.root))
    requires AllLand(step.answers, TickKept(s, step))
    requires InvertsRelayed(TickServing(s, step).book, origins)
    ensures TickServing(s, step).kept == map[]
    ensures Plan(TickServing(s, step).book, step.operator, origins, step.requests, step.events) == []
  {
    hide Good, GoodAction, ActionKey, TickServing, Settled, Plan, AllLand, Anchorable, InvertsRelayed, Disjoint, Unsent;
    var after := TickServing(s, step).book;
    var plan := Plan(after, step.operator, origins, step.requests, step.events);
    PlannedIsDone(s, step, Post(""));
    if plan != [] {
      var a := plan[0];
      assert a in plan;
      PlannedIsGood(after, step.operator, origins, step.requests, step.events, a);
      TickKeepsRelayed(s, step);
      var b := PlannedBefore(s, step, origins, a);
      PlannedIsDone(s, step, b);
      SameWorkSettles(after, a, b);
    }
  }

  /** What a tick has relayed stays relayed to the same request. */
  ghost predicate KeepsRelayed(before: State, after: State) {
    forall e | e in before.relayed :: e in after.relayed && after.relayed[e] == before.relayed[e]
  }

  lemma {:induction false} TryAllRelaysNothing(v: Serving, root: string, actions: seq<Action>,
                                               answers: map<string, Outcome>)
    ensures TryAll(v, root, actions, answers).book.relayed == v.book.relayed
    decreases |actions|
  {
    hide ActionKey, Applied;
    if actions != [] {
      var answer := AnswerTo(answers, ActionKey(actions[0]));
      if answer.Landed? {
        AppliedOwner(v.book, root, actions[0], answer.eventID, "");
      }
      TryAllRelaysNothing(Try(v, root, actions[0], answer), root, actions[1..], answers);
    }
  }

  /** While every call lands nothing is lost, so what is pending was not relayed. */
  lemma {:induction false} TryAllPendsOnlyUnsent(v: Serving, root: string, actions: seq<Action>,
                                                 answers: map<string, Outcome>)
    requires Disjoint(v.book) && forall a | a in actions && a.kind == CreateForgeRequest :: a.source !in v.book.relayed
    ensures Disjoint(TryAll(v, root, actions, answers).book)
    decreases |actions|
  {
    hide ActionKey;
    if actions != [] {
      var answer := AnswerTo(answers, ActionKey(actions[0]));
      var next := Try(v, root, actions[0], answer);
      TryPendsOnlyUnsent(v, root, actions[0], answer);
      TryAllPendsOnlyUnsent(next, root, actions[1..], answers);
    }
  }

  lemma TryPendsOnlyUnsent(v: Serving, root: string, a: Action, answer: Outcome)
    requires Disjoint(v.book) && (a.kind == CreateForgeRequest ==> a.source !in v.book.relayed)
    ensures Disjoint(Try(v, root, a, answer).book) && Try(v, root, a, answer).book.relayed == v.book.relayed
  {
    hide ActionKey, Applied;
    if answer.Landed? && a.kind == CreateForgeRequest {
      AppliedCreate(v.book, root, a, answer.eventID);
    } else if answer.Landed? {
      AppliedOther(v.book, root, a, answer.eventID);
    }
  }

  lemma TickKeepsRelayed(s: Sys, step: Step)
    requires step.Tick? && Possible(s, step) && Good(ServingOf(s, step.root))
    requires Disjoint(s.book) && Unsent(s.book, KeptFor(s, step.root))
    ensures KeepsRelayed(s.book, TickServing(s, step).book)
  {
    hide Good, GoodAction, ActionKey, TryAll, PairedUp, Plan, Kept, Listed, Possible;
    var v := ServingOf(s, step.root).(kept := TickKept(s, step));
    TickIsGood(s, step);
    assert Unsent(s.book, TickKept(s, step)) by { KeptIsUnsent(s, step); }
    forall a | a in Listed(v.kept) && a.kind == CreateForgeRequest ensures a.source !in s.book.relayed {
      assert v.kept[ActionKey(a)] == a;
    }
    TryAllRelaysNothing(v, step.root, Listed(v.kept), step.answers);
    TryAllPendsOnlyUnsent(v, step.root, Listed(v.kept), step.answers);
    if step.readBack.Some? {
      var tried := TickTried(s, step).book;
      PairingConserves(tried, step.root, step.readBack.value);
      var p := PairedUp(tried, step.root, step.readBack.value);
      forall e | e in p.paired ensures e !in tried.relayed {
        assert PairedWell(tried, step.root, step.readBack.value, p, e);
      }
    }
  }

  lemma KeptIsUnsent(s: Sys, step: Step)
    requires step.Tick? && Possible(s, step) && Good(ServingOf(s, step.root)) && Unsent(s.book, KeptFor(s, step.root))
    ensures Unsent(s.book, TickKept(s, step))
  {
    var v, kept := ServingOf(s, step.root), TickKept(s, step);
    hide Settled, GoodAction, Plan, Kept, ActionKey;
    forall k | k in kept && kept[k].kind == CreateForgeRequest ensures !Settled(s.book, kept[k]) {
      var _ := KeptPlan(v, step.operator, step.origins, step.requests, step.events, k);
    }
  }

  /** What would be planned after the tick was planned by it. */
  lemma PlannedBefore(s: Sys, step: Step, origins: map<string, string>, a: Action) returns (b: Action)
    requires step.Tick? && Possible(s, step) && Good(ServingOf(s, step.root))
    requires KeepsRelayed(s.book, TickServing(s, step).book)
    requires InvertsRelayed(TickServing(s, step).book, origins)
    requires a in Plan(TickServing(s, step).book, step.operator, origins, step.requests, step.events)
    ensures b in Plan(s.book, step.operator, step.origins, step.requests, step.events)
    ensures a.kind == b.kind && a.requestID == b.requestID && a.source == b.source
  {
    hide TickServing, Good, Plan, ActionKey, OwnWords, Trim, QuotedThread, AnswerAnchor;
    var after := TickServing(s, step).book;
    PlanMembers(after, step.operator, origins, step.requests, step.events, a);
    if a.kind == CreateForgeRequest {
      var i :| 0 <= i < |step.events| && OperatorAsked(after, step.operator, step.events[i])
               && a == CreateAction(after, step.events[i], step.events);
      b := CreateAction(s.book, step.events[i], step.events);
      if Settled(s.book, b) {
        TickGrows(s, step, b);
      }
      assert OperatorAsked(s.book, step.operator, step.events[i]);
    } else {
      var i :| 0 <= i < |step.requests| && a in RequestActions(after, origins, step.requests[i]);
      b := if a.kind == PostRequestMessage then PostAction(step.requests[i])
           else ReplyAction(s.book, step.origins, step.requests[i]);
      if Settled(s.book, b) {
        TickGrows(s, step, b);
      }
      OriginsKept(s.book, after, step.origins, origins, step.requests[i].id);
      assert b in RequestActions(s.book, step.origins, step.requests[i]);
    }
    PlanMembers(s.book, step.operator, step.origins, step.requests, step.events, b);
  }

  lemma OriginsKept(before: State, after: State, origins: map<string, string>, later: map<string, string>, id: string)
    requires KeepsRelayed(before, after) && InvertsRelayed(before, origins) && InvertsRelayed(after, later)
    ensures id in origins ==> id in later
  {
    if id in origins {
      assert after.relayed[origins[id]] == id;
    }
  }
}
