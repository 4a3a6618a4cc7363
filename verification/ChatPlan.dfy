/** What the chat room and the forge's queue need from each other (internal/relay/relay.go). */
module ChatPlan {
  import opened Text
  import opened Quote
  import opened Relay

  /** One chat request as the forge's dashboard holds it. */
  datatype Request = Request(id: string, body: string, response: string)

  datatype Kind = PostRequestMessage | PostRequestReply | CreateForgeRequest

  datatype Action = Action(
    kind: Kind, requestID: string, body: string, anchor: string, source: string, thread: string)

  /** An operator message the forge has not seen the request for yet. */
  predicate OperatorAsked(st: State, operator: string, event: RoomEvent) {
    && event.sender == operator && OwnWords(event.body) != ""
    && event.eventID !in st.relayed && event.eventID !in st.pending
  }

  /** The thread a message that quotes another one belongs in. */
  function QuotedThread(st: State, replyTo: string, events: seq<RoomEvent>): string {
    if events == [] then
      if replyTo in st.threads.Values then replyTo else ""
    else if events[0].eventID == replyTo then
      if events[0].threadRoot != "" then events[0].threadRoot else events[0].eventID
    else QuotedThread(st, replyTo, events[1..])
  }

  function AskedInThread(st: State, event: RoomEvent, events: seq<RoomEvent>): string {
    if event.threadRoot != "" then event.threadRoot
    else if event.replyTo == "" then ""
    else QuotedThread(st, event.replyTo, events)
  }

  function CreateAction(st: State, event: RoomEvent, events: seq<RoomEvent>): Action {
    Action(CreateForgeRequest, "", OwnWords(event.body), "", event.eventID, AskedInThread(st, event, events))
  }

  function EventActions(st: State, operator: string, event: RoomEvent, events: seq<RoomEvent>): seq<Action> {
    if OperatorAsked(st, operator, event) then [CreateAction(st, event, events)] else []
  }

  /** The requests the messages of `todo` ask for, in a room that saw `events`. */
  function OperatorRequests(st: State, operator: string, todo: seq<RoomEvent>, events: seq<RoomEvent>): seq<Action> {
    if todo == [] then []
    else EventActions(st, operator, todo[0], events) + OperatorRequests(st, operator, todo[1..], events)
  }

  /** An index of the relayed messages by request: one message for each request any became. */
  predicate InvertsRelayed(st: State, origins: map<string, string>) {
    && origins.Keys == st.relayed.Values
    && forall id | id in origins :: origins[id] in st.relayed && st.relayed[origins[id]] == id
  }

  predicate Posted(st: State, origins: map<string, string>, id: string) {
    Anchor(st, id) != "" || id in origins
  }

  function AnswerAnchor(st: State, origins: map<string, string>, id: string): string {
    if Anchor(st, id) != "" then Anchor(st, id) else Get(origins, id)
  }

  function PostAction(r: Request): Action {
    Action(PostRequestMessage, r.id, r.body, "", "", "")
  }

  function ReplyAction(st: State, origins: map<string, string>, r: Request): Action {
    Action(PostRequestReply, r.id, r.response, AnswerAnchor(st, origins, r.id), "", "")
  }

  predicate AnswerDue(st: State, r: Request) {
    r.response != "" && Get(st.replied, r.id) == ""
  }

  function RequestActions(st: State, origins: map<string, string>, r: Request): seq<Action> {
    if Trim(r.body) == "" then []
    else (if Posted(st, origins, r.id) then [] else [PostAction(r)])
         + (if AnswerDue(st, r) then [ReplyAction(st, origins, r)] else [])
  }

  function ForgeRequests(st: State, origins: map<string, string>, requests: seq<Request>): seq<Action> {
    if requests == [] then []
    else RequestActions(st, origins, requests[0]) + ForgeRequests(st, origins, requests[1..])
  }

  function Plan(st: State, operator: string, origins: map<string, string>,
                requests: seq<Request>, events: seq<RoomEvent>): seq<Action>
  {
    OperatorRequests(st, operator, events, events) + ForgeRequests(st, origins, requests)
  }

  // The loops the plan is computed with.

  method RelayedOrigins(st: State) returns (origins: map<string, string>)
    ensures InvertsRelayed(st, origins)
  {
    origins := map[];
    var left := st.relayed.Keys;
    while left != {}
      invariant left <= st.relayed.Keys
      invariant forall id | id in origins :: origins[id] in st.relayed && st.relayed[origins[id]] == id
      invariant forall e | e in st.relayed && e !in left :: st.relayed[e] in origins
      decreases left
    {
      var eventID :| eventID in left;
      left := left - {eventID};
      origins := origins[st.relayed[eventID] := eventID];
    }
  }

  method FindQuotedThread(st: State, replyTo: string, events: seq<RoomEvent>) returns (thread: string)
    ensures thread == QuotedThread(st, replyTo, events)
  {
    for i := 0 to |events|
      invariant QuotedThread(st, replyTo, events) == QuotedThread(st, replyTo, events[i..])
    {
      assert events[i..][1..] == events[i + 1..];
      if events[i].eventID != replyTo {
        continue;
      }
      return if events[i].threadRoot != "" then events[i].threadRoot else events[i].eventID;
    }
    thread := if replyTo in st.threads.Values then replyTo else "";
  }

  method AskForEvent(st: State, operator: string, event: RoomEvent, events: seq<RoomEvent>)
    returns (actions: seq<Action>)
    ensures actions == EventActions(st, operator, event, events)
  {
    if !OperatorAsked(st, operator, event) {
      return [];
    }
    var said := ReadOwnWords(event.body);
    var thread := event.threadRoot;
    if thread == "" && event.replyTo != "" {
      thread := FindQuotedThread(st, event.replyTo, events);
    }
    actions := [Action(CreateForgeRequest, "", said, "", event.eventID, thread)];
  }

  method PlanOperatorRequests(st: State, operator: string, events: seq<RoomEvent>) returns (actions: seq<Action>)
    ensures actions == OperatorRequests(st, operator, events, events)
  {
    actions := [];
    for i := 0 to |events|
      invariant OperatorRequests(st, operator, events, events)
                == actions + OperatorRequests(st, operator, events[i..], events)
    {
      assert events[i..][1..] == events[i + 1..];
      var more := AskForEvent(st, operator, events[i], events);
      actions := actions + more;
    }
  }

  method AskForRequest(st: State, origins: map<string, string>, request: Request) returns (actions: seq<Action>)
    ensures actions == RequestActions(st, origins, request)
  {
    actions := [];
    if Trim(request.body) == "" {
      return;
    }
    var anchor := Anchor(st, request.id);
    var posted := anchor != "";
    if !posted {
      anchor, posted := Get(origins, request.id), request.id in origins;
    }
    if !posted {
      actions := actions + [Action(PostRequestMessage, request.id, request.body, "", "", "")];
    }
    if request.response == "" || Get(st.replied, request.id) != "" {
      return;
    }
    actions := actions + [Action(PostRequestReply, request.id, request.response, anchor, "", "")];
  }

  method PlanForgeRequests(st: State, requests: seq<Request>)
    returns (actions: seq<Action>, origins: map<string, string>)
    ensures InvertsRelayed(st, origins) && actions == ForgeRequests(st, origins, requests)
  {
    hide RequestActions, InvertsRelayed;
    actions := [];
    var inverse := RelayedOrigins(st);
    for i := 0 to |requests|
      invariant ForgeRequests(st, inverse, requests) == actions + ForgeRequests(st, inverse, requests[i..])
    {
      assert requests[i..][1..] == requests[i + 1..];
      var more := AskForRequest(st, inverse, requests[i]);
      actions := actions + more;
    }
    origins := inverse;
  }

  method MakePlan(st: State, operator: string, requests: seq<Request>, events: seq<RoomEvent>)
    returns (actions: seq<Action>, origins: map<string, string>)
    ensures InvertsRelayed(st, origins) && actions == Plan(st, operator, origins, requests, events)
  {
    actions := PlanOperatorRequests(st, operator, events);
    var forge;
    forge, origins := PlanForgeRequests(st, requests);
    actions := actions + forge;
  }

  // Only the operator decides.

  /** What the plan hands to the forge, in order: each message's words and the message. */
  function HandedOver(actions: seq<Action>): seq<(string, string)> {
    if actions == [] then []
    else (if actions[0].kind == CreateForgeRequest then [(actions[0].body, actions[0].source)] else [])
         + HandedOver(actions[1..])
  }

  function FromOperator(operator: string, events: seq<RoomEvent>): seq<RoomEvent> {
    if events == [] then []
    else (if events[0].sender == operator then [events[0]] else []) + FromOperator(operator, events[1..])
  }

  lemma {:induction false} HandedOverConcat(a: seq<Action>, b: seq<Action>)
    ensures HandedOver(a + b) == HandedOver(a) + HandedOver(b)
  {
    if a == [] {
      assert a + b == b;
    } else {
      assert (a + b)[0] == a[0] && (a + b)[1..] == a[1..] + b;
      HandedOverConcat(a[1..], b);
    }
  }

  lemma {:induction false} StrangersAskNothing(
      st: State, operator: string, todo: seq<RoomEvent>, events: seq<RoomEvent>, others: seq<RoomEvent>)
    ensures HandedOver(OperatorRequests(st, operator, todo, events))
            == HandedOver(OperatorRequests(st, operator, FromOperator(operator, todo), others))
  {
    if todo != [] {
      var rest := OperatorRequests(st, operator, todo[1..], events);
      var own, kept := FromOperator(operator, todo), FromOperator(operator, todo[1..]);
      var fewer := OperatorRequests(st, operator, kept, others);
      StrangersAskNothing(st, operator, todo[1..], events, others);
      EventActionsHandOver(st, operator, todo[0], events, others);
      HandedOverConcat(EventActions(st, operator, todo[0], events), rest);
      HandedOverConcat(EventActions(st, operator, todo[0], others), fewer);
      if todo[0].sender == operator {
        assert own == [todo[0]] + kept && own[1..] == kept;
        assert OperatorRequests(st, operator, own, others) == EventActions(st, operator, todo[0], others) + fewer;
      } else {
        assert own == kept && EventActions(st, operator, todo[0], others) + fewer == fewer;
      }
    }
  }

  /** What is handed over does not depend on the other messages of the room. */
  lemma EventActionsHandOver(
      st: State, operator: string, event: RoomEvent, events: seq<RoomEvent>, others: seq<RoomEvent>)
    ensures HandedOver(EventActions(st, operator, event, events))
            == HandedOver(EventActions(st, operator, event, others))
  {
  }

  lemma {:induction false} ForgeRequestsHandNothingOver(st: State, origins: map<string, string>, requests: seq<Request>)
    ensures HandedOver(ForgeRequests(st, origins, requests)) == []
  {
    if requests != [] {
      ForgeRequestsHandNothingOver(st, origins, requests[1..]);
      HandedOverConcat(RequestActions(st, origins, requests[0]), ForgeRequests(st, origins, requests[1..]));
    }
  }

  /** Deleting every stranger's message leaves what the forge is asked unchanged, words and
      message; only the thread an answer goes to may be read off a quoted stranger. */
  lemma {:induction false} StrangersDecideNoChat(
      st: State, operator: string, origins: map<string, string>, requests: seq<Request>, events: seq<RoomEvent>)
    ensures HandedOver(Plan(st, operator, origins, requests, events))
            == HandedOver(Plan(st, operator, origins, requests, FromOperator(operator, events)))
  {
    var own := FromOperator(operator, events);
    StrangersAskNothing(st, operator, events, events, own);
    ForgeRequestsHandNothingOver(st, origins, requests);
    HandedOverConcat(OperatorRequests(st, operator, events, events), ForgeRequests(st, origins, requests));
    HandedOverConcat(OperatorRequests(st, operator, own, own), ForgeRequests(st, origins, requests));
  }

  // What a planned action is.

  /** The bookkeeping remembers that this work was carried out. */
  predicate Settled(st: State, a: Action) {
    match a.kind
    case PostRequestMessage => Anchor(st, a.requestID) != ""
    case PostRequestReply => Get(st.replied, a.requestID) != ""
    case CreateForgeRequest => a.source in st.pending || a.source in st.relayed
  }

  /** A planned action names its own kind of thing and nothing else. */
  predicate WellFormed(a: Action) {
    if a.kind == CreateForgeRequest then a.requestID == "" else a.source == ""
  }

  predicate PlannedFor(st: State, operator: string, origins: map<string, string>,
                       requests: seq<Request>, events: seq<RoomEvent>, a: Action)
  {
    || (exists i | 0 <= i < |events| ::
        OperatorAsked(st, operator, events[i]) && a == CreateAction(st, events[i], events))
    || (exists i | 0 <= i < |requests| :: a in RequestActions(st, origins, requests[i]))
  }

  lemma {:induction false} OperatorRequestsMembers(
      st: State, operator: string, todo: seq<RoomEvent>, events: seq<RoomEvent>, a: Action)
    ensures a in OperatorRequests(st, operator, todo, events)
            <==> exists i | 0 <= i < |todo| ::
                OperatorAsked(st, operator, todo[i]) && a == CreateAction(st, todo[i], events)
  {
    if todo != [] {
      OperatorRequestsMembers(st, operator, todo[1..], events, a);
      if exists i | 0 <= i < |todo| :: OperatorAsked(st, operator, todo[i]) && a == CreateAction(st, todo[i], events) {
        var i :| 0 <= i < |todo| && OperatorAsked(st, operator, todo[i]) && a == CreateAction(st, todo[i], events);
        assert i > 0 ==> todo[1..][i - 1] == todo[i];
      }
    }
  }

  lemma {:induction false} ForgeRequestsMembers(st: State, origins: map<string, string>, requests: seq<Request>,
                                                a: Action)
    ensures a in ForgeRequests(st, origins, requests)
            <==> exists i | 0 <= i < |requests| :: a in RequestActions(st, origins, requests[i])
  {
    if requests != [] {
      ForgeRequestsMembers(st, origins, requests[1..], a);
      if exists i | 0 <= i < |requests| :: a in RequestActions(st, origins, requests[i]) {
        var i :| 0 <= i < |requests| && a in RequestActions(st, origins, requests[i]);
        assert i > 0 ==> requests[1..][i - 1] == requests[i];
      }
    }
  }

  /** The plan is exactly the operator's unanswered messages and the requests' missing posts. */
  lemma PlanMembers(st: State, operator: string, origins: map<string, string>,
                    requests: seq<Request>, events: seq<RoomEvent>, a: Action)
    ensures a in Plan(st, operator, origins, requests, events)
            <==> PlannedFor(st, operator, origins, requests, events, a)
  {
    OperatorRequestsMembers(st, operator, events, events, a);
    ForgeRequestsMembers(st, origins, requests, a);
  }

  /** Nothing already carried out is planned. */
  lemma PlannedIsUnsettled(st: State, operator: string, origins: map<string, string>,
                           requests: seq<Request>, events: seq<RoomEvent>, a: Action)
    requires a in Plan(st, operator, origins, requests, events)
    ensures WellFormed(a) && !Settled(st, a)
  {
    hide Plan, Trim, OwnWords, AskedInThread, AnswerAnchor;
    PlanMembers(st, operator, origins, requests, events, a);
  }

  /** A reply planned without an anchor comes with the post it will be threaded under. */
  lemma UnanchoredReplyComesWithItsPost(st: State, operator: string, origins: map<string, string>,
                                        requests: seq<Request>, events: seq<RoomEvent>, a: Action)
    returns (post: Action)
    requires InvertsRelayed(st, origins) && "" !in st.relayed
    requires a in Plan(st, operator, origins, requests, events)
    requires a.kind == PostRequestReply && a.anchor == ""
    ensures post in Plan(st, operator, origins, requests, events)
    ensures post.kind == PostRequestMessage && post.requestID == a.requestID && WellFormed(post)
  {
    hide Plan;
    PlanMembers(st, operator, origins, requests, events, a);
    var i :| 0 <= i < |requests| && a in RequestActions(st, origins, requests[i]);
    post := PostAction(requests[i]);
    assert post in RequestActions(st, origins, requests[i]);
    PlanMembers(st, operator, origins, requests, events, post);
  }
}
