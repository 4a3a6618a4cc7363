/** What the approvals room needs, and what the operator's gestures decide
    (internal/relay/approvals.go). */
module ApprovalPlan {
  import opened Options
  import opened Text
  import opened Quote
  import opened Relay

  datatype Approval = Approval(key: string, project: string, id: string, card: string, gate: string,
                               artifacts: seq<string>)

  const NO_ONE := Approval("", "", "", "", "", [])

  datatype Reaction = Reaction(roomID: string, eventID: string, sender: string, target: string, key: string)

  const APPROVED := "approved"
  const SENT_BACK := "sent_back"
  const DESKTOP := "desktop"
  const SUPERSEDED := "superseded"

  datatype Kind = AnswerGestures | PostApproval | ReactApproval | ReplyApproval | ResolveApproval

  datatype Action = Action(
    kind: Kind, key: string, approval: Approval, resolution: string, feedback: string,
    messageID: string, text: string, reaction: string)

  /** Who decides, and how `strings.ToLower` folds each character. */
  datatype Reader = Reader(operator: string, lower: char -> char)

  function ToLower(r: Reader, s: string): string {
    if s == "" then "" else [r.lower(s[0])] + ToLower(r, s[1..])
  }

  /** The check marks that approve, with and without the variation selector. */
  predicate Approves(key: string) {
    key in {"\U{2705}", "\U{2705}\U{FE0F}", "\U{2714}", "\U{2714}\U{FE0F}", "\U{2611}", "\U{2611}\U{FE0F}"}
  }

  function StateOf(st: map<string, ApprovalState>, key: string): ApprovalState {
    if key in st then st[key] else NO_APPROVAL
  }

  predicate Undecided(st: map<string, ApprovalState>, key: string) {
    key in st && st[key].messageID != "" && st[key].resolution == ""
  }

  function Named(byEvent: map<string, Approval>, eventID: string, approval: Approval): map<string, Approval> {
    if eventID == "" then byEvent else byEvent[eventID := approval]
  }

  /** The approvals by every event the rooms hold for them; a later approval wins. */
  function ByEvent(st: map<string, ApprovalState>, pending: seq<Approval>): map<string, Approval> {
    if pending == [] then map[]
    else
      var a := pending[|pending| - 1];
      var state := StateOf(st, a.key);
      Named(Named(ByEvent(st, pending[..|pending| - 1]), state.messageID, a), state.stateEventID, a)
  }

  function Keys(pending: seq<Approval>): set<string> {
    set a | a in pending :: a.key
  }

  method ApprovalsByEvent(st: map<string, ApprovalState>, pending: seq<Approval>)
    returns (byEvent: map<string, Approval>, byKey: map<string, Approval>)
    ensures byEvent == ByEvent(st, pending) && byKey.Keys == Keys(pending)
  {
    byEvent, byKey := map[], map[];
    for i := 0 to |pending|
      invariant byEvent == ByEvent(st, pending[..i]) && byKey.Keys == Keys(pending[..i])
    {
      assert pending[..i + 1][..i] == pending[..i] && pending[..i + 1] == pending[..i] + [pending[i]];
      var approval := pending[i];
      byKey := byKey[approval.key := approval];
      var state := StateOf(st, approval.key);
      if state.messageID != "" {
        byEvent := byEvent[state.messageID := approval];
      }
      if state.stateEventID != "" {
        byEvent := byEvent[state.stateEventID := approval];
      }
    }
    assert pending[..|pending|] == pending;
  }

  function Resolve(a: Approval, resolution: string, feedback: string): Action {
    Action(ResolveApproval, a.key, a, resolution, feedback, "", "", "")
  }

  const GESTURES := Action(AnswerGestures, "", NO_ONE, "", "", "", "", "")

  function ReactionActions(r: Reader, st: map<string, ApprovalState>, byEvent: map<string, Approval>,
                           x: Reaction): seq<Action> {
    if x.sender == r.operator && Approves(x.key) && x.target in byEvent && Undecided(st, byEvent[x.target].key)
    then [Resolve(byEvent[x.target], APPROVED, "")] else []
  }

  function ApprovedByReaction(r: Reader, st: map<string, ApprovalState>, byEvent: map<string, Approval>,
                              reactions: seq<Reaction>): seq<Action>
  {
    if reactions == [] then []
    else ReactionActions(r, st, byEvent, reactions[0]) + ApprovedByReaction(r, st, byEvent, reactions[1..])
  }

  const WORDS := ["approve", "approved", "go ahead", "yes", "ok", "okay", "lgtm"]

  /** A message's whole text approves an approval: a plain yes, or the card's name. */
  predicate Affirmative(r: Reader, text: string, a: Approval) {
    var trimmed := Trim(ToLower(r, text));
    trimmed != "" && (ToLower(r, Trim(a.card)) == trimmed || trimmed in WORDS)
  }

  /** The first pending approval whose card a text names, or the only one waiting. */
  function CardNamed(r: Reader, pending: seq<Approval>, trimmed: string): Option<Approval> {
    if pending == [] then None
    else if ToLower(r, Trim(pending[0].card)) == trimmed then Some(pending[0])
    else CardNamed(r, pending[1..], trimmed)
  }

  function ApprovalForText(r: Reader, pending: seq<Approval>, text: string): Option<Approval> {
    var named := CardNamed(r, pending, Trim(ToLower(r, text)));
    if named.Some? then named
    else if |pending| == 1 && Affirmative(r, text, pending[0]) then Some(pending[0])
    else None
  }

  function DecisionFor(r: Reader, a: Approval, body: string): Action {
    if Affirmative(r, body, a) then Resolve(a, APPROVED, "") else Resolve(a, SENT_BACK, body)
  }

  /** What one message does in the room. */
  function MessageActions(r: Reader, st: map<string, ApprovalState>, pending: seq<Approval>,
                          byEvent: map<string, Approval>,
                          m: RoomEvent): seq<Action>
  {
    var said := OwnWords(m.body);
    if m.sender != r.operator || said == "" then []
    else if RepliedTo(m) != "" && RepliedTo(m) in byEvent then
      if Undecided(st, byEvent[RepliedTo(m)].key) then [DecisionFor(r, byEvent[RepliedTo(m)], said)] else []
    else
      var found := ApprovalForText(r, pending, said);
      if found.Some? && Undecided(st, found.value.key) then [Resolve(found.value, APPROVED, "")] else [GESTURES]
  }

  function TextGestures(r: Reader, st: map<string, ApprovalState>, pending: seq<Approval>,
                        byEvent: map<string, Approval>,
                        messages: seq<RoomEvent>): seq<Action>
  {
    if messages == [] then []
    else MessageActions(r, st, pending, byEvent, messages[0]) + TextGestures(r, st, pending, byEvent, messages[1..])
  }

  function UnansweredReactions(r: Reader, reactions: seq<Reaction>): seq<Action> {
    if reactions == [] then []
    else (if reactions[0].sender == r.operator && !Approves(reactions[0].key) then [GESTURES] else [])
         + UnansweredReactions(r, reactions[1..])
  }

  function PostOf(a: Approval): Action {
    Action(PostApproval, a.key, a, "", "", "", "", "")
  }

  function DuePost(st: map<string, ApprovalState>, a: Approval): seq<Action> {
    if StateOf(st, a.key).messageID == "" then [PostOf(a)] else []
  }

  function UnpostedApprovals(st: map<string, ApprovalState>, pending: seq<Approval>): seq<Action> {
    if pending == [] then []
    else DuePost(st, pending[0]) + UnpostedApprovals(st, pending[1..])
  }

  /** The mark an approved or sent-back approval is answered with; any other ending has none. */
  function ResolutionMark(resolution: string): Option<string> {
    if resolution == APPROVED then Some("\U{27A1}")
    else if resolution == SENT_BACK then Some("\U{2B05}")
    else None
  }

  function ApprovalsReply(resolution: string): string {
    if resolution == APPROVED then "Approved"
    else if resolution == SENT_BACK then "Sent back with feedback"
    else if resolution == SUPERSEDED then "Superseded by a newer proposal"
    else "Resolved on the desktop"
  }

  /** How an approval ended: the bridge's own word, else the desk's, else the desk itself. */
  function Ending(resolution: string, desk: string): (ending: string)
    ensures ending != ""
  {
    if resolution != "" then resolution else if desk != "" then desk else DESKTOP
  }

  function ResolutionReport(key: string, state: ApprovalState, desk: string): Action {
    var ending := Ending(state.resolution, desk);
    match ResolutionMark(ending)
    case Some(mark) => Action(ReactApproval, key, NO_ONE, ending, "", state.messageID, "", mark)
    case None => Action(ReplyApproval, key, NO_ONE, ending, "", state.messageID, ApprovalsReply(ending), "")
  }

  predicate Reported(state: ApprovalState) {
    state.replyID != "" || state.reactionID != ""
  }

  predicate UnreportedResolution(state: ApprovalState, key: string, pending: set<string>) {
    state.messageID != "" && !Reported(state) && key !in pending
  }

  function ReportOf(state: ApprovalState, key: string, pending: set<string>, desk: map<string, string>): seq<Action> {
    if UnreportedResolution(state, key, pending) then [ResolutionReport(key, state, Get(desk, key))] else []
  }

  /** The reports due, in the order the bookkeeping was walked. */
  function ResolutionsToReport(st: map<string, ApprovalState>, pending: set<string>, desk: map<string, string>,
                               order: seq<string>): seq<Action>
    requires forall k | k in order :: k in st
  {
    if order == [] then []
    else ReportOf(st[order[0]], order[0], pending, desk) + ResolutionsToReport(st, pending, desk, order[1..])
  }

  /** An order the keys of a map may be walked in. */
  ghost predicate Walks(order: seq<string>, st: map<string, ApprovalState>) {
    Distinct(order) && forall k :: k in order <==> k in st
  }

  function Plan(r: Reader, st: map<string, ApprovalState>, pending: seq<Approval>, desk: map<string, string>,
                reactions: seq<Reaction>, replies: seq<RoomEvent>, order: seq<string>): seq<Action>
    requires Walks(order, st)
  {
    var byEvent := ByEvent(st, pending);
    ApprovedByReaction(r, st, byEvent, reactions)
    + TextGestures(r, st, pending, byEvent, replies)
    + UnansweredReactions(r, reactions)
    + UnpostedApprovals(st, pending)
    + ResolutionsToReport(st, Keys(pending), desk, order)
  }

  // The loops the plan is computed with.

  method PlanApprovedByReaction(r: Reader, st: map<string, ApprovalState>, byEvent: map<string, Approval>,
                                reactions: seq<Reaction>) returns (actions: seq<Action>)
    ensures actions == ApprovedByReaction(r, st, byEvent, reactions)
  {
    hide Approves, Undecided, Resolve;
    actions := [];
    for i := 0 to |reactions|
      invariant ApprovedByReaction(r, st, byEvent, reactions)
                == actions + ApprovedByReaction(r, st, byEvent, reactions[i..])
    {
      assert reactions[i..][1..] == reactions[i + 1..];
      var x := reactions[i];
      Regroup(actions, ReactionActions(r, st, byEvent, x), ApprovedByReaction(r, st, byEvent, reactions[i + 1..]));
      if x.sender != r.operator || !Approves(x.key) {
        continue;
      }
      if x.target !in byEvent || !Undecided(st, byEvent[x.target].key) {
        continue;
      }
      actions := actions + [Resolve(byEvent[x.target], APPROVED, "")];
    }
  }

  method PlanTextGestures(r: Reader, st: map<string, ApprovalState>, pending: seq<Approval>,
                          byEvent: map<string, Approval>,
                          messages: seq<RoomEvent>) returns (actions: seq<Action>)
    ensures actions == TextGestures(r, st, pending, byEvent, messages)
  {
    hide MessageActions;
    actions := [];
    for i := 0 to |messages|
      invariant TextGestures(r, st, pending, byEvent, messages)
                == actions + TextGestures(r, st, pending, byEvent, messages[i..])
    {
      assert messages[i..][1..] == messages[i + 1..];
      actions := actions + MessageActions(r, st, pending, byEvent, messages[i]);
    }
  }

  method PlanUnpostedApprovals(st: map<string, ApprovalState>, pending: seq<Approval>) returns (actions: seq<Action>)
    ensures actions == UnpostedApprovals(st, pending)
  {
    hide StateOf, PostOf;
    actions := [];
    for i := 0 to |pending|
      invariant UnpostedApprovals(st, pending) == actions + UnpostedApprovals(st, pending[i..])
    {
      assert pending[i..][1..] == pending[i + 1..];
      Regroup(actions, DuePost(st, pending[i]), UnpostedApprovals(st, pending[i + 1..]));
      if StateOf(st, pending[i].key).messageID == "" {
        actions := actions + [PostOf(pending[i])];
      }
    }
  }

  method PlanResolutionsToReport(st: map<string, ApprovalState>, pending: set<string>, desk: map<string, string>)
    returns (actions: seq<Action>, order: seq<string>)
    ensures Walks(order, st) && actions == ResolutionsToReport(st, pending, desk, order)
  {
    actions, order := [], [];
    var left := st.Keys;
    while left != {}
      invariant left <= st.Keys && Distinct(order) && forall k :: k in order <==> k in st && k !in left
      invariant actions == ResolutionsToReport(st, pending, desk, order)
      decreases left
    {
      var key :| key in left;
      left := left - {key};
      ReportsGrow(st, pending, desk, order, key);
      order := order + [key];
      if UnreportedResolution(st[key], key, pending) {
        actions := actions + [ResolutionReport(key, st[key], Get(desk, key))];
      }
    }
  }

  lemma {:induction false} ReportsGrow(st: map<string, ApprovalState>, pending: set<string>, desk: map<string, string>,
                                       order: seq<string>, key: string)
    requires key in st && forall k | k in order :: k in st
    ensures ResolutionsToReport(st, pending, desk, order + [key])
            == ResolutionsToReport(st, pending, desk, order) + ReportOf(st[key], key, pending, desk)
  {
    hide ReportOf;
    if order != [] {
      assert (order + [key])[1..] == order[1..] + [key];
      ReportsGrow(st, pending, desk, order[1..], key);
    }
  }

  method MakePlan(r: Reader, st: map<string, ApprovalState>, pending: seq<Approval>, desk: map<string, string>,
                  reactions: seq<Reaction>, replies: seq<RoomEvent>)
    returns (actions: seq<Action>, order: seq<string>)
    ensures Walks(order, st) && actions == Plan(r, st, pending, desk, reactions, replies, order)
  {
    var byEvent, byKey := ApprovalsByEvent(st, pending);
    actions := PlanApprovedByReaction(r, st, byEvent, reactions);
    var gestures := PlanTextGestures(r, st, pending, byEvent, replies);
    var unposted := PlanUnpostedApprovals(st, pending);
    var reports;
    reports, order := PlanResolutionsToReport(st, byKey.Keys, desk);
    actions := actions + gestures + UnansweredReactions(r, reactions) + unposted + reports;
  }
}
