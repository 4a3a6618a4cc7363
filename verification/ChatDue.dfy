/** What a chat plan holds, said of the messages and requests it is made from, and that over whole
    runs nothing else is ever tried (internal/relay/relay.go). */
module ChatDue {
  import opened Options
  import opened Text
  import opened Quote
  import opened Relay
  import opened ChatPlan
  import opened PendingWork
  import opened Chat
  import opened ChatRuns

  /** Where a message is first shown. */
  predicate FirstShown(events: seq<RoomEvent>, i: nat, id: string) {
    i < |events| && events[i].eventID == id && forall j | 0 <= j < i :: events[j].eventID != id
  }

  /** The thread a message was asked in: its own; or that of the message it quotes, if the room shows
      it, which sits in a thread or starts one; or else the quoted message when the bridge posted it;
      or none. */
  ghost predicate AskedIn(st: State, events: seq<RoomEvent>, m: RoomEvent, thread: string) {
    if m.threadRoot != "" then thread == m.threadRoot
    else if m.replyTo == "" then thread == ""
    else if exists q | q in events :: q.eventID == m.replyTo then
      exists i | 0 <= i < |events| ::
        FirstShown(events, i, m.replyTo)
        && thread == if events[i].threadRoot != "" then events[i].threadRoot else m.replyTo
    else if exists id | id in st.threads :: st.threads[id] == m.replyTo then thread == m.replyTo
    else thread == ""
  }

  /** A message of the operator's that says something and that neither waits nor became a request. */
  ghost predicate Asks(st: State, operator: string, events: seq<RoomEvent>, m: RoomEvent, a: Action) {
    && m.sender == operator && OwnWords(m.body) != "" && m.eventID !in st.pending && m.eventID !in st.relayed
    && a.source == m.eventID && a.body == OwnWords(m.body) && AskedIn(st, events, m, a.thread)
    && a.requestID == "" && a.anchor == ""
  }

  ghost predicate HandOverIsDue(st: State, operator: string, events: seq<RoomEvent>, a: Action) {
    exists m | m in events :: Asks(st, operator, events, m, a)
  }

  /** No message is recorded for a request and none became it. */
  predicate NotInTheRoom(st: State, id: string) {
    && (id in st.threads ==> st.threads[id] == "")
    && forall e | e in st.relayed :: st.relayed[e] != id
  }

  /** A request of the queue that is not in the room, posted with its own text. */
  ghost predicate PostIsDue(st: State, requests: seq<Request>, a: Action) {
    && (exists q | q in requests :: q.id == a.requestID && q.body == a.body && !Blank(q.body))
    && NotInTheRoom(st, a.requestID) && a.anchor == "" && a.source == "" && a.thread == ""
  }

  /** Where an answer goes: to the recorded thread, else to a message that became the request, else
      it is not known yet. */
  predicate GoesTo(st: State, id: string, anchor: string) {
    if id in st.threads && st.threads[id] != "" then anchor == st.threads[id]
    else if exists e | e in st.relayed :: st.relayed[e] == id then anchor in st.relayed && st.relayed[anchor] == id
    else anchor == ""
  }

  /** A request of the queue with a response that was not sent yet, which is what is sent. */
  ghost predicate AnswerIsDue(st: State, requests: seq<Request>, a: Action) {
    && (exists q | q in requests :: q.id == a.requestID && q.response == a.body && q.response != "" && !Blank(q.body))
    && (a.requestID in st.replied ==> st.replied[a.requestID] == "")
    && GoesTo(st, a.requestID, a.anchor) && a.source == "" && a.thread == ""
  }

  ghost predicate Due(st: State, operator: string, requests: seq<Request>, events: seq<RoomEvent>, a: Action) {
    match a.kind
    case CreateForgeRequest => HandOverIsDue(st, operator, events, a)
    case PostRequestMessage => PostIsDue(st, requests, a)
    case PostRequestReply => AnswerIsDue(st, requests, a)
  }

  lemma FirstShownShifts(events: seq<RoomEvent>, i: nat, id: string)
    requires events != [] && events[0].eventID != id && FirstShown(events[1..], i, id)
    ensures FirstShown(events, i + 1, id) && events[i + 1] == events[1..][i]
  {
    forall j | 0 <= j < i + 1 ensures events[j].eventID != id {
      assert j > 0 ==> events[j] == events[1..][j - 1];
    }
  }

  lemma {:induction false} QuotedThreadIs(st: State, replyTo: string, events: seq<RoomEvent>)
    ensures var thread := QuotedThread(st, replyTo, events);
            if exists q | q in events :: q.eventID == replyTo
            then exists i | 0 <= i < |events| ::
              FirstShown(events, i, replyTo)
              && thread == if events[i].threadRoot != "" then events[i].threadRoot else replyTo
            else thread == if replyTo in st.threads.Values then replyTo else ""
  {
    if events != [] {
      assert forall q :: q in events <==> q == events[0] || q in events[1..];
      if events[0].eventID == replyTo {
        assert FirstShown(events, 0, replyTo);
      } else {
        QuotedThreadIs(st, replyTo, events[1..]);
        if exists q | q in events[1..] :: q.eventID == replyTo {
          var i :| 0 <= i < |events[1..]| && FirstShown(events[1..], i, replyTo)
                   && QuotedThread(st, replyTo, events[1..])
                      == if events[1..][i].threadRoot != "" then events[1..][i].threadRoot else replyTo;
          FirstShownShifts(events, i, replyTo);
        }
      }
    }
  }

  /** The thread a plan says is the one and only thread a message was asked in. */
  lemma AskedInThreadIs(st: State, events: seq<RoomEvent>, m: RoomEvent, thread: string)
    ensures AskedIn(st, events, m, thread) <==> thread == AskedInThread(st, m, events)
  {
    hide QuotedThread;
    QuotedThreadIs(st, m.replyTo, events);
    assert m.replyTo in st.threads.Values <==> exists id | id in st.threads :: st.threads[id] == m.replyTo;
  }

  /** A plan hands over, posts and answers exactly what is due; only where a request is answered that
      several messages became is there a choice of the message it goes to. */
  lemma PlanIsDue(st: State, operator: string, origins: map<string, string>, requests: seq<Request>,
                  events: seq<RoomEvent>, a: Action)
    requires InvertsRelayed(st, origins)
    ensures a.kind == CreateForgeRequest ==>
              (a in Plan(st, operator, origins, requests, events) <==> HandOverIsDue(st, operator, events, a))
    ensures a.kind == PostRequestMessage ==>
              (a in Plan(st, operator, origins, requests, events) <==> PostIsDue(st, requests, a))
    ensures a.kind == PostRequestReply && a in Plan(st, operator, origins, requests, events) ==>
              AnswerIsDue(st, requests, a)
    ensures a.kind == PostRequestReply && AnswerIsDue(st, requests, a) ==>
              exists anchor :: a.(anchor := anchor) in Plan(st, operator, origins, requests, events)
  {
    hide Plan, AskedIn, AskedInThread, OwnWords, Trim;
    PlanMembers(st, operator, origins, requests, events, a);
    match a.kind
    case CreateForgeRequest => HandOversAreDue(st, operator, origins, requests, events, a);
    case PostRequestMessage => PostsAreDue(st, operator, origins, requests, events, a);
    case PostRequestReply =>
      if a in Plan(st, operator, origins, requests, events) {
        AnswersAreDue(st, operator, origins, requests, events, a);
      }
      if AnswerIsDue(st, requests, a) {
        var _ := EveryResponseIsAnswered(st, operator, origins, requests, events, a);
      }
  }

  lemma HandOversAreDue(st: State, operator: string, origins: map<string, string>, requests: seq<Request>,
                        events: seq<RoomEvent>, a: Action)
    requires a.kind == CreateForgeRequest
    ensures PlannedFor(st, operator, origins, requests, events, a) <==> HandOverIsDue(st, operator, events, a)
  {
    hide AskedIn, AskedInThread, OwnWords, Trim, AnswerAnchor, Posted, AnswerDue;
    forall m | m in events ensures AskedIn(st, events, m, a.thread) <==> a.thread == AskedInThread(st, m, events) {
      AskedInThreadIs(st, events, m, a.thread);
    }
    if HandOverIsDue(st, operator, events, a) {
      var m :| m in events && Asks(st, operator, events, m, a);
      var i :| 0 <= i < |events| && events[i] == m;
      assert a == CreateAction(st, events[i], events);
    }
    if PlannedFor(st, operator, origins, requests, events, a) {
      var i :| 0 <= i < |events| && OperatorAsked(st, operator, events[i]) && a == CreateAction(st, events[i], events);
      assert Asks(st, operator, events, events[i], a);
    }
  }

  lemma RelayedInverse(st: State, origins: map<string, string>, id: string)
    requires InvertsRelayed(st, origins)
    ensures id in origins <==> exists e | e in st.relayed :: st.relayed[e] == id
  {
    assert id in origins <==> id in st.relayed.Values;
  }

  lemma PostsAreDue(st: State, operator: string, origins: map<string, string>, requests: seq<Request>,
                    events: seq<RoomEvent>, a: Action)
    requires InvertsRelayed(st, origins) && a.kind == PostRequestMessage
    ensures PlannedFor(st, operator, origins, requests, events, a) <==> PostIsDue(st, requests, a)
  {
    hide AskedInThread, OwnWords, Trim, Blank, AnswerAnchor, AnswerDue, InvertsRelayed;
    RelayedInverse(st, origins, a.requestID);
    forall q | q in requests ensures Trim(q.body) == "" <==> Blank(q.body) {
      TrimOfBlank(q.body);
    }
    if PostIsDue(st, requests, a) {
      var q :| q in requests && q.id == a.requestID && q.body == a.body && !Blank(q.body);
      var i :| 0 <= i < |requests| && requests[i] == q;
      assert a == PostAction(q) && a in RequestActions(st, origins, requests[i]);
    }
  }

  lemma GoesToAnchor(st: State, origins: map<string, string>, id: string)
    requires InvertsRelayed(st, origins)
    ensures GoesTo(st, id, AnswerAnchor(st, origins, id))
  {
    RelayedInverse(st, origins, id);
  }

  lemma AnswersAreDue(st: State, operator: string, origins: map<string, string>, requests: seq<Request>,
                      events: seq<RoomEvent>, a: Action)
    requires InvertsRelayed(st, origins) && a.kind == PostRequestReply
    requires PlannedFor(st, operator, origins, requests, events, a)
    ensures AnswerIsDue(st, requests, a)
  {
    hide AskedInThread, OwnWords, Trim, Blank, AnswerAnchor, Posted, InvertsRelayed, GoesTo;
    var i :| 0 <= i < |requests| && a in RequestActions(st, origins, requests[i]);
    TrimOfBlank(requests[i].body);
    GoesToAnchor(st, origins, a.requestID);
    assert requests[i] in requests;
  }

  lemma EveryResponseIsAnswered(st: State, operator: string, origins: map<string, string>, requests: seq<Request>,
                                events: seq<RoomEvent>, a: Action)
    returns (planned: Action)
    requires InvertsRelayed(st, origins) && a.kind == PostRequestReply && AnswerIsDue(st, requests, a)
    ensures planned in Plan(st, operator, origins, requests, events) && planned == a.(anchor := planned.anchor)
  {
    hide Plan, AskedInThread, OwnWords, Trim, Blank, AnswerAnchor, Posted, InvertsRelayed, GoesTo;
    var q :| q in requests && q.id == a.requestID && q.response == a.body && q.response != "" && !Blank(q.body);
    var i :| 0 <= i < |requests| && requests[i] == q;
    TrimOfBlank(q.body);
    planned := ReplyAction(st, origins, q);
    assert planned in RequestActions(st, origins, requests[i]);
    PlanMembers(st, operator, origins, requests, events, planned);
  }

  // Over runs.

  /** Some tick of one root called for this action. */
  ghost predicate CalledFor(s: Sys, steps: seq<Step>, root: string, a: Action)
    decreases |steps|
  {
    steps != []
    && ((steps[0].Tick? && steps[0].root == root
         && Due(s.book, steps[0].operator, steps[0].requests, steps[0].events, a))
        || CalledFor(Do(s, steps[0]), steps[1..], root, a))
  }

  ghost predicate IsKept(kept: map<string, Action>, a: Action) {
    exists k | k in kept :: kept[k] == a
  }

  ghost predicate InLog(log: seq<Entry>, root: string, a: Action) {
    exists e | e in log :: e.root == root && e.action == a
  }

  lemma {:induction false} TryAllTries(v: Serving, root: string, actions: seq<Action>, answers: map<string, Outcome>,
                                       other: string, a: Action)
    ensures var after := TryAll(v, root, actions, answers);
            && (InLog(after.log, other, a) ==> InLog(v.log, other, a) || (other == root && a in actions))
            && (IsKept(after.kept, a) ==> IsKept(v.kept, a))
    decreases |actions|
  {
    hide Try, ActionKey;
    if actions != [] {
      var answer := AnswerTo(answers, ActionKey(actions[0]));
      var next := Try(v, root, actions[0], answer);
      TryShape(v, root, actions[0], answer);
      assert InLog(next.log, other, a) ==> InLog(v.log, other, a) || (other == root && a == actions[0]);
      assert IsKept(next.kept, a) ==> IsKept(v.kept, a);
      TryAllTries(next, root, actions[1..], answers, other, a);
    }
  }

  lemma TickKeepsDue(s: Sys, step: Step, a: Action)
    requires step.Tick? && InvertsRelayed(s.book, step.origins) && IsKept(TickKept(s, step), a)
    ensures IsKept(KeptFor(s, step.root), a) || Due(s.book, step.operator, step.requests, step.events, a)
  {
    hide Plan, Kept, ActionKey, HandOverIsDue, PostIsDue, AnswerIsDue, InvertsRelayed;
    var plan := Plan(s.book, step.operator, step.origins, step.requests, step.events);
    var k :| k in TickKept(s, step) && TickKept(s, step)[k] == a;
    KeptMembers(KeptFor(s, step.root), ActionKey, plan, k);
    if a in plan {
      PlanIsDue(s.book, step.operator, step.origins, step.requests, step.events, a);
    }
  }

  lemma ListedIsKept(kept: map<string, Action>, a: Action)
    requires a in Listed(kept)
    ensures IsKept(kept, a)
  {
    hide Sorted, InOrder;
    var keys := Sorted(kept.Keys);
    var i :| 0 <= i < |Listed(kept)| && Listed(kept)[i] == a;
    assert keys[i] in keys;
  }

  lemma StepTries(s: Sys, step: Step, root: string, a: Action)
    requires Possible(s, step)
    ensures var next := Do(s, step);
            var here := IsKept(KeptFor(s, root), a)
                        || (step.Tick? && step.root == root
                            && Due(s.book, step.operator, step.requests, step.events, a));
            && (InLog(next.log, root, a) ==> InLog(s.log, root, a) || here)
            && (IsKept(KeptFor(next, root), a) ==> here)
  {
    hide Due, TryAll, TickKept, Listed, PairedUp, Plan, Kept, ActionKey, InvertsRelayed;
    if step.Tick? {
      var kept := TickKept(s, step);
      TryAllTries(ServingOf(s, step.root).(kept := kept), step.root, Listed(kept), step.answers, root, a);
      TickServes(s, step);
      if a in Listed(kept) {
        ListedIsKept(kept, a);
      }
      if IsKept(kept, a) {
        TickKeepsDue(s, step, a);
      }
    }
  }

  lemma TickServes(s: Sys, step: Step)
    requires step.Tick?
    ensures var tried, after := TickTried(s, step), TickServing(s, step);
            after.log == tried.log && after.kept == tried.kept
  {
    hide TryAll, Listed, PairedUp, Plan, Kept, ActionKey;
  }

  lemma {:induction false} RunTries(s: Sys, steps: seq<Step>, root: string, a: Action)
    requires IsRun(s, steps)
    ensures InLog(Run(s, steps).log, root, a) ==>
              InLog(s.log, root, a) || IsKept(KeptFor(s, root), a) || CalledFor(s, steps, root, a)
    decreases |steps|
  {
    hide Possible, Do, Due, IsKept, InLog, KeptFor;
    if steps != [] {
      StepTries(s, steps[0], root, a);
      RunTries(Do(s, steps[0]), steps[1..], root, a);
    }
  }

  /** Over any run every call made was called for by what some tick of its root read: every message
      handed over says the operator's own words and the thread they were asked in, every post says
      the text of a listed request that was not in the room, and every answer its response. */
  lemma EveryCallIsDue(s: Sys, steps: seq<Step>, e: Entry)
    requires Started(s) && IsRun(s, steps) && e in Run(s, steps).log
    ensures CalledFor(s, steps, e.root, e.action)
  {
    hide IsRun, Run, CalledFor;
    RunTries(s, steps, e.root, e.action);
    assert InLog(Run(s, steps).log, e.root, e.action);
  }
}
