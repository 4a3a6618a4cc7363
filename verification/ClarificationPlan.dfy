/** What the clarifications room needs, and what the operator's replies answer
    (internal/relay/clarifications.go). */
module ClarificationPlan {
  import opened Options
  import opened Text
  import opened Quote
  import opened Relay

  datatype Clarification = Clarification(key: string, id: string, project: string, role: string, question: string)

  const NO_QUESTION := Clarification("", "", "", "", "")

  datatype Kind = PostClarification | AnswerClarification | ReplyClarification | ReactClarification

  datatype Action = Action(
    kind: Kind, key: string, clarification: Clarification, answer: string, messageID: string, text: string,
    reaction: string)

  const CARRIED_OUT := "\U{27A1}"

  function StateOf(st: map<string, ClarificationState>, key: string): ClarificationState {
    if key in st then st[key] else NO_CLARIFICATION
  }

  /** The room has the clarification and no answer is recorded for it. */
  predicate AwaitingAnswer(st: map<string, ClarificationState>, key: string) {
    key in st && st[key].messageID != "" && st[key].answer == ""
  }

  function Named(byEvent: map<string, Clarification>, eventID: string, c: Clarification): map<string, Clarification> {
    if eventID == "" then byEvent else byEvent[eventID := c]
  }

  /** The clarifications by every event the rooms hold for them; a later one wins. */
  function ByEvent(st: map<string, ClarificationState>, pending: seq<Clarification>): map<string, Clarification> {
    if pending == [] then map[]
    else
      var c := pending[|pending| - 1];
      var state := StateOf(st, c.key);
      Named(Named(ByEvent(st, pending[..|pending| - 1]), state.messageID, c), state.stateEventID, c)
  }

  function Keys(pending: seq<Clarification>): set<string> {
    set c | c in pending :: c.key
  }

  function Answer(c: Clarification, answer: string): Action {
    Action(AnswerClarification, c.key, c, answer, "", "", "")
  }

  function ReplyActions(operator: string, st: map<string, ClarificationState>, byEvent: map<string, Clarification>,
                        reply: RoomEvent): seq<Action>
  {
    if reply.sender == operator && RepliedTo(reply) in byEvent && AwaitingAnswer(st, byEvent[RepliedTo(reply)].key)
    then [Answer(byEvent[RepliedTo(reply)], OwnWords(reply.body))] else []
  }

  function AnsweredByReply(operator: string, st: map<string, ClarificationState>, byEvent: map<string, Clarification>,
                           replies: seq<RoomEvent>): seq<Action>
  {
    if replies == [] then []
    else ReplyActions(operator, st, byEvent, replies[0]) + AnsweredByReply(operator, st, byEvent, replies[1..])
  }

  function PostOf(c: Clarification): Action {
    Action(PostClarification, c.key, c, "", "", "", "")
  }

  function DuePost(st: map<string, ClarificationState>, c: Clarification): seq<Action> {
    if StateOf(st, c.key).messageID == "" then [PostOf(c)] else []
  }

  function Unposted(st: map<string, ClarificationState>, pending: seq<Clarification>): seq<Action> {
    if pending == [] then []
    else DuePost(st, pending[0]) + Unposted(st, pending[1..])
  }

  function ClarificationsReply(answer: string): string {
    if answer != "" then "Answered" else "Resolved on the desktop"
  }

  function AnswerReport(key: string, state: ClarificationState): Action {
    if state.answer != "" then Action(ReactClarification, key, NO_QUESTION, "", state.messageID, "", CARRIED_OUT)
    else Action(ReplyClarification, key, NO_QUESTION, "", state.messageID, ClarificationsReply(state.answer), "")
  }

  predicate Reported(state: ClarificationState) {
    state.replyID != "" || state.reactionID != ""
  }

  predicate UnreportedAnswer(state: ClarificationState, key: string, pending: set<string>) {
    state.messageID != "" && !Reported(state) && key !in pending
  }

  function ReportOf(state: ClarificationState, key: string, pending: set<string>): seq<Action> {
    if UnreportedAnswer(state, key, pending) then [AnswerReport(key, state)] else []
  }

  /** The reports due, in the order the bookkeeping was walked. */
  function AnswersToReport(st: map<string, ClarificationState>, pending: set<string>, order: seq<string>): seq<Action>
    requires forall k | k in order :: k in st
  {
    if order == [] then []
    else ReportOf(st[order[0]], order[0], pending) + AnswersToReport(st, pending, order[1..])
  }

  /** An order the keys of a map may be walked in. */
  ghost predicate Walks(order: seq<string>, st: map<string, ClarificationState>) {
    Distinct(order) && forall k :: k in order <==> k in st
  }

  function Plan(operator: string, st: map<string, ClarificationState>, pending: seq<Clarification>,
                replies: seq<RoomEvent>,
                order: seq<string>): seq<Action>
    requires Walks(order, st)
  {
    AnsweredByReply(operator, st, ByEvent(st, pending), replies)
    + Unposted(st, pending)
    + AnswersToReport(st, Keys(pending), order)
  }

  // The loops the plan is computed with.

  method ClarificationsByEvent(st: map<string, ClarificationState>, pending: seq<Clarification>)
    returns (byEvent: map<string, Clarification>, byKey: map<string, Clarification>)
    ensures byEvent == ByEvent(st, pending) && byKey.Keys == Keys(pending)
  {
    byEvent, byKey := map[], map[];
    for i := 0 to |pending|
      invariant byEvent == ByEvent(st, pending[..i]) && byKey.Keys == Keys(pending[..i])
    {
      assert pending[..i + 1][..i] == pending[..i] && pending[..i + 1] == pending[..i] + [pending[i]];
      var c := pending[i];
      byKey := byKey[c.key := c];
      var state := StateOf(st, c.key);
      if state.messageID != "" {
        byEvent := byEvent[state.messageID := c];
      }
      if state.stateEventID != "" {
        byEvent := byEvent[state.stateEventID := c];
      }
    }
    assert pending[..|pending|] == pending;
  }

  method PlanAnsweredByReply(operator: string, st: map<string, ClarificationState>, byEvent: map<string, Clarification>,
                             replies: seq<RoomEvent>) returns (actions: seq<Action>)
    ensures actions == AnsweredByReply(operator, st, byEvent, replies)
  {
    hide OwnWords, AwaitingAnswer, RepliedTo, Answer;
    actions := [];
    for i := 0 to |replies|
      invariant AnsweredByReply(operator, st, byEvent, replies)
                == actions + AnsweredByReply(operator, st, byEvent, replies[i..])
    {
      assert replies[i..][1..] == replies[i + 1..];
      var reply := replies[i];
      Regroup(actions, ReplyActions(operator, st, byEvent, reply),
              AnsweredByReply(operator, st, byEvent, replies[i + 1..]));
      if reply.sender != operator {
        continue;
      }
      if RepliedTo(reply) !in byEvent || !AwaitingAnswer(st, byEvent[RepliedTo(reply)].key) {
        continue;
      }
      actions := actions + [Answer(byEvent[RepliedTo(reply)], OwnWords(reply.body))];
    }
  }

  method PlanUnposted(st: map<string, ClarificationState>, pending: seq<Clarification>) returns (actions: seq<Action>)
    ensures actions == Unposted(st, pending)
  {
    hide StateOf, PostOf;
    actions := [];
    for i := 0 to |pending|
      invariant Unposted(st, pending) == actions + Unposted(st, pending[i..])
    {
      assert pending[i..][1..] == pending[i + 1..];
      Regroup(actions, DuePost(st, pending[i]), Unposted(st, pending[i + 1..]));
      if StateOf(st, pending[i].key).messageID == "" {
        actions := actions + [PostOf(pending[i])];
      }
    }
  }

  lemma {:induction false} ReportsGrow(st: map<string, ClarificationState>, pending: set<string>, order: seq<string>,
                                       key: string)
    requires key in st && forall k | k in order :: k in st
    ensures AnswersToReport(st, pending, order + [key])
            == AnswersToReport(st, pending, order) + ReportOf(st[key], key, pending)
  {
    hide ReportOf;
    if order != [] {
      assert (order + [key])[1..] == order[1..] + [key];
      ReportsGrow(st, pending, order[1..], key);
    }
  }

  method PlanAnswersToReport(st: map<string, ClarificationState>, pending: set<string>)
    returns (actions: seq<Action>, order: seq<string>)
    ensures Walks(order, st) && actions == AnswersToReport(st, pending, order)
  {
    actions, order := [], [];
    var left := st.Keys;
    while left != {}
      invariant left <= st.Keys && Distinct(order) && forall k :: k in order <==> k in st && k !in left
      invariant actions == AnswersToReport(st, pending, order)
      decreases left
    {
      var key: string :| key in left;
      left := left - {key};
      ReportsGrow(st, pending, order, key);
      order := order + [key];
      if UnreportedAnswer(st[key], key, pending) {
        actions := actions + [AnswerReport(key, st[key])];
      }
    }
  }

  method MakePlan(operator: string, st: map<string, ClarificationState>, pending: seq<Clarification>,
                  replies: seq<RoomEvent>)
    returns (actions: seq<Action>, order: seq<string>)
    ensures Walks(order, st) && actions == Plan(operator, st, pending, replies, order)
  {
    var byEvent, byKey := ClarificationsByEvent(st, pending);
    actions := PlanAnsweredByReply(operator, st, byEvent, replies);
    var unposted := PlanUnposted(st, pending);
    var reports;
    reports, order := PlanAnswersToReport(st, byKey.Keys);
    actions := actions + unposted + reports;
  }

  // Only the operator answers.

  function OwnMessages(operator: string, messages: seq<RoomEvent>): seq<RoomEvent> {
    if messages == [] then []
    else (if messages[0].sender == operator then [messages[0]] else []) + OwnMessages(operator, messages[1..])
  }

  lemma {:induction false} OwnMessagesAnswer(operator: string, st: map<string, ClarificationState>,
                                             byEvent: map<string, Clarification>, messages: seq<RoomEvent>)
    ensures AnsweredByReply(operator, st, byEvent, OwnMessages(operator, messages))
            == AnsweredByReply(operator, st, byEvent, messages)
  {
    if messages != [] {
      var rest, m := OwnMessages(operator, messages[1..]), messages[0];
      assert m.sender != operator ==> ReplyActions(operator, st, byEvent, m) == [];
      hide ReplyActions;
      OwnMessagesAnswer(operator, st, byEvent, messages[1..]);
      if m.sender == operator {
        assert ([m] + rest)[0] == m && ([m] + rest)[1..] == rest;
      } else {
        assert OwnMessages(operator, messages) == rest;
      }
    }
  }

  /** Deleting everyone else's messages leaves the whole plan as it is. */
  lemma StrangersAnswerNothing(operator: string, st: map<string, ClarificationState>, pending: seq<Clarification>,
                               replies: seq<RoomEvent>, order: seq<string>)
    requires Walks(order, st)
    ensures Plan(operator, st, pending, OwnMessages(operator, replies), order)
            == Plan(operator, st, pending, replies, order)
  {
    OwnMessagesAnswer(operator, st, ByEvent(st, pending), replies);
  }

  // What a plan holds.

  /** An event the room holds for a clarification: its message or its state event. */
  predicate EventOf(st: map<string, ClarificationState>, c: Clarification, eventID: string) {
    eventID != "" && (StateOf(st, c.key).messageID == eventID || StateOf(st, c.key).stateEventID == eventID)
  }

  lemma {:induction false} ByEventNames(st: map<string, ClarificationState>, pending: seq<Clarification>,
                                        eventID: string)
    ensures eventID in ByEvent(st, pending) <==> exists c | c in pending :: EventOf(st, c, eventID)
    ensures eventID in ByEvent(st, pending) ==>
              ByEvent(st, pending)[eventID] in pending && EventOf(st, ByEvent(st, pending)[eventID], eventID)
  {
    if pending != [] {
      var last, rest := pending[|pending| - 1], pending[..|pending| - 1];
      assert pending == rest + [last];
      ByEventNames(st, rest, eventID);
      assert (exists c | c in pending :: EventOf(st, c, eventID))
        <==> EventOf(st, last, eventID) || exists c | c in rest :: EventOf(st, c, eventID);
    }
  }

  /** The last of the waiting questions that the room holds this event for. */
  ghost predicate LastNamed(st: map<string, ClarificationState>, pending: seq<Clarification>, eventID: string,
                            c: Clarification) {
    exists i | 0 <= i < |pending| ::
      pending[i] == c && EventOf(st, c, eventID) && forall j | i < j < |pending| :: !EventOf(st, pending[j], eventID)
  }

  /** One more pending question takes the events it has. */
  lemma LastNamedStep(st: map<string, ClarificationState>, rest: seq<Clarification>, last: Clarification,
                      eventID: string, c: Clarification)
    ensures LastNamed(st, rest + [last], eventID, c)
            <==> if EventOf(st, last, eventID) then last == c else LastNamed(st, rest, eventID, c)
  {
    hide EventOf;
    var all := rest + [last];
    assert all[|rest|] == last && forall i | 0 <= i < |rest| :: all[i] == rest[i];
    if EventOf(st, last, eventID) {
      if last == c {
        assert all[|rest|] == c;
      }
    } else if LastNamed(st, rest, eventID, c) {
      var i :| 0 <= i < |rest| && rest[i] == c && EventOf(st, c, eventID)
               && forall j | i < j < |rest| :: !EventOf(st, rest[j], eventID);
      assert all[i] == c && forall j | i < j < |all| :: !EventOf(st, all[j], eventID);
    }
  }

  /** The index holds an event exactly under the last question it is held for. */
  lemma {:induction false} ByEventIsLast(st: map<string, ClarificationState>, pending: seq<Clarification>,
                                         eventID: string,
                                         c: Clarification)
    ensures eventID in ByEvent(st, pending) && ByEvent(st, pending)[eventID] == c
            <==> LastNamed(st, pending, eventID, c)
  {
    hide LastNamed;
    if pending == [] {
      NothingIsNamed(st, eventID, c);
    } else {
      var last, rest := pending[|pending| - 1], pending[..|pending| - 1];
      assert pending == rest + [last];
      ByEventIsLast(st, rest, eventID, c);
      LastNamedStep(st, rest, last, eventID, c);
    }
  }

  lemma NothingIsNamed(st: map<string, ClarificationState>, eventID: string, c: Clarification)
    ensures !LastNamed(st, [], eventID, c)
  {
  }

  /** The operator replied under this waiting question, in its thread or else by quoting one of its
      events, and the answer is what they said. */
  ghost predicate Replied(operator: string, st: map<string, ClarificationState>, pending: seq<Clarification>,
                          m: RoomEvent, a: Action) {
    && m.sender == operator
    && LastNamed(st, pending, if m.threadRoot != "" then m.threadRoot else m.replyTo, a.clarification)
    && a.key == a.clarification.key && a.key in st && st[a.key].messageID != "" && st[a.key].answer == ""
    && a.answer == OwnWords(m.body) && a.messageID == "" && a.text == "" && a.reaction == ""
  }

  ghost predicate AnsweredIn(operator: string, st: map<string, ClarificationState>, pending: seq<Clarification>,
                             replies: seq<RoomEvent>, a: Action) {
    exists m | m in replies :: Replied(operator, st, pending, m, a)
  }

  /** A waiting question the room has no message for. */
  predicate PostIsDue(st: map<string, ClarificationState>, pending: seq<Clarification>, a: Action) {
    && a.clarification in pending && a.key == a.clarification.key
    && (a.key in st ==> st[a.key].messageID == "")
    && a.answer == "" && a.messageID == "" && a.text == "" && a.reaction == ""
  }

  /** A question the room has seen, that waits no more and has not been reported: an answer given
      here is marked, and any other ending is said in words. */
  predicate ReportIsDue(st: map<string, ClarificationState>, pending: seq<Clarification>, a: Action) {
    && a.key in st && st[a.key].messageID != "" && st[a.key].replyID == "" && st[a.key].reactionID == ""
    && (forall c | c in pending :: c.key != a.key)
    && a.messageID == st[a.key].messageID && a.clarification == NO_QUESTION && a.answer == ""
    && if st[a.key].answer != "" then a.kind == ReactClarification && a.reaction == "\U{27A1}" && a.text == ""
       else a.kind == ReplyClarification && a.text == "Resolved on the desktop" && a.reaction == ""
  }

  lemma ReplyIsAnswered(operator: string, st: map<string, ClarificationState>, pending: seq<Clarification>,
                        m: RoomEvent, a: Action)
    ensures a in ReplyActions(operator, st, ByEvent(st, pending), m)
            <==> a.kind == AnswerClarification && Replied(operator, st, pending, m, a)
  {
    hide OwnWords, ByEvent, LastNamed;
    ByEventIsLast(st, pending, RepliedTo(m), a.clarification);
  }

  lemma {:induction false} AnswerMembers(operator: string, st: map<string, ClarificationState>,
                                         pending: seq<Clarification>,
                                         replies: seq<RoomEvent>, a: Action)
    ensures a in AnsweredByReply(operator, st, ByEvent(st, pending), replies)
            <==> a.kind == AnswerClarification && AnsweredIn(operator, st, pending, replies, a)
  {
    hide ReplyActions, Replied, ByEvent;
    if replies != [] {
      ReplyIsAnswered(operator, st, pending, replies[0], a);
      AnswerMembers(operator, st, pending, replies[1..], a);
      assert forall m :: m in replies <==> m == replies[0] || m in replies[1..];
    }
  }

  lemma {:induction false} UnpostedMembers(st: map<string, ClarificationState>, pending: seq<Clarification>, a: Action)
    ensures a in Unposted(st, pending)
            <==> a.clarification in pending && a == PostOf(a.clarification) && StateOf(st, a.key).messageID == ""
  {
    if pending != [] {
      UnpostedMembers(st, pending[1..], a);
      assert a.clarification in pending <==> a.clarification == pending[0] || a.clarification in pending[1..];
    }
  }

  lemma {:induction false} ReportMembers(st: map<string, ClarificationState>, pending: set<string>, order: seq<string>,
                                         a: Action)
    requires forall k | k in order :: k in st
    ensures a in AnswersToReport(st, pending, order)
            <==> a.key in order && UnreportedAnswer(st[a.key], a.key, pending) && a == AnswerReport(a.key, st[a.key])
  {
    if order != [] {
      ReportMembers(st, pending, order[1..], a);
      assert a.key in order <==> a.key == order[0] || a.key in order[1..];
    }
  }

  predicate IsReport(a: Action) {
    a.kind == ReplyClarification || a.kind == ReactClarification
  }

  /** A plan holds an action exactly when it is due: each answer is what a reply of the operator's
      says under a waiting question, each post is of a question the room has not seen, and each
      report is of one that is over. */
  lemma PlanMembers(operator: string, st: map<string, ClarificationState>, pending: seq<Clarification>,
                    replies: seq<RoomEvent>, order: seq<string>, a: Action)
    requires Walks(order, st)
    ensures a in Plan(operator, st, pending, replies, order)
            <==> match a.kind
                 case AnswerClarification => AnsweredIn(operator, st, pending, replies, a)
                 case PostClarification => PostIsDue(st, pending, a)
                 case ReplyClarification => ReportIsDue(st, pending, a)
                 case ReactClarification => ReportIsDue(st, pending, a)
  {
    hide ByEvent, AnsweredIn;
    AnswerMembers(operator, st, pending, replies, a);
    UnpostedMembers(st, pending, a);
    ReportMembers(st, Keys(pending), order, a);
    assert a.key in Keys(pending) <==> exists c | c in pending :: c.key == a.key;
  }

  lemma AnswersAreToTheWaiting(operator: string, st: map<string, ClarificationState>, pending: seq<Clarification>,
                               replies: seq<RoomEvent>, a: Action)
    requires AnsweredIn(operator, st, pending, replies, a)
    ensures a.clarification in pending && a.key == a.clarification.key && a.key in st && st[a.key].messageID != ""
  {
    hide OwnWords, EventOf;
  }

  /** Every reply of the operator's under a waiting question is sent on as its answer, whatever is
      left of it once its quote is taken off. */
  lemma EveryReplyIsSentOn(operator: string, st: map<string, ClarificationState>, pending: seq<Clarification>,
                           replies: seq<RoomEvent>, order: seq<string>, m: RoomEvent, c: Clarification)
    returns (a: Action)
    requires Walks(order, st) && m in replies && m.sender == operator
    requires LastNamed(st, pending, if m.threadRoot != "" then m.threadRoot else m.replyTo, c)
    requires c.key in st && st[c.key].messageID != "" && st[c.key].answer == ""
    ensures a in Plan(operator, st, pending, replies, order) && a.kind == AnswerClarification
    ensures a.key == c.key && a.clarification == c && a.answer == OwnWords(m.body)
  {
    hide Plan, LastNamed, OwnWords;
    a := Action(AnswerClarification, c.key, c, OwnWords(m.body), "", "", "");
    assert Replied(operator, st, pending, m, a);
    PlanMembers(operator, st, pending, replies, order, a);
  }

  /** So a phone's reply that quotes the question and adds no words answers it with nothing. */
  lemma QuoteAloneAnswersWithNothing(operator: string, st: map<string, ClarificationState>, pending: seq<Clarification>,
                                     replies: seq<RoomEvent>, order: seq<string>, m: RoomEvent, c: Clarification,
                                     quoted: string, words: string)
    returns (a: Action)
    requires Walks(order, st) && m in replies && m.sender == operator
    requires LastNamed(st, pending, if m.threadRoot != "" then m.threadRoot else m.replyTo, c)
    requires c.key in st && st[c.key].messageID != "" && st[c.key].answer == ""
    requires !Leaks(quoted) && m.body == SwipeReply(quoted, words)
    requires Trim(Normalized(words)) == "" && !StartsQuoted(Normalized(words))
    ensures a in Plan(operator, st, pending, replies, order) && a.kind == AnswerClarification
    ensures a.key == c.key && a.clarification == c && a.answer == ""
  {
    hide Plan, LastNamed, OwnWords, SwipeReply, StartsQuoted, Trim, Leaks, Normalized;
    OwnWordsUndoesTheQuote(quoted, words);
    a := EveryReplyIsSentOn(operator, st, pending, replies, order, m, c);
  }

  /** One plan never answers, posts and reports the same clarification. */
  lemma PlanIsConsistent(operator: string, st: map<string, ClarificationState>, pending: seq<Clarification>,
                         replies: seq<RoomEvent>, order: seq<string>, a: Action, b: Action)
    requires Walks(order, st) && a.key == b.key
    requires a in Plan(operator, st, pending, replies, order) && b in Plan(operator, st, pending, replies, order)
    ensures a.kind == b.kind
  {
    hide Plan, AnsweredIn, ByEvent;
    PlanMembers(operator, st, pending, replies, order, a);
    PlanMembers(operator, st, pending, replies, order, b);
    if a.kind == AnswerClarification {
      AnswersAreToTheWaiting(operator, st, pending, replies, a);
    }
    if b.kind == AnswerClarification {
      AnswersAreToTheWaiting(operator, st, pending, replies, b);
    }
  }
}
