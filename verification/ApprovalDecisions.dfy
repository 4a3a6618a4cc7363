/** Who and what decides an approval. */
module ApprovalDecisions {
  import opened Options
  import opened Text
  import opened Quote
  import opened Relay
  import opened ApprovalPlan

  // Only the operator decides.

  function OwnReactions(r: Reader, reactions: seq<Reaction>): seq<Reaction> {
    if reactions == [] then []
    else (if reactions[0].sender == r.operator then [reactions[0]] else []) + OwnReactions(r, reactions[1..])
  }

  function OwnMessages(r: Reader, messages: seq<RoomEvent>): seq<RoomEvent> {
    if messages == [] then []
    else (if messages[0].sender == r.operator then [messages[0]] else []) + OwnMessages(r, messages[1..])
  }

  lemma {:induction false} OwnReactionsApprove(r: Reader, st: map<string, ApprovalState>,
                                               byEvent: map<string, Approval>,
                                               reactions: seq<Reaction>)
    ensures ApprovedByReaction(r, st, byEvent, OwnReactions(r, reactions))
            == ApprovedByReaction(r, st, byEvent, reactions)
    ensures UnansweredReactions(r, OwnReactions(r, reactions)) == UnansweredReactions(r, reactions)
  {
    if reactions != [] {
      var rest, x := OwnReactions(r, reactions[1..]), reactions[0];
      OwnReactionsApprove(r, st, byEvent, reactions[1..]);
      if x.sender == r.operator {
        assert ([x] + rest)[0] == x && ([x] + rest)[1..] == rest;
      } else {
        assert OwnReactions(r, reactions) == rest;
        assert ReactionActions(r, st, byEvent, x) == [];
      }
    }
  }

  lemma {:induction false} OwnMessagesGesture(r: Reader, st: map<string, ApprovalState>, pending: seq<Approval>,
                                              byEvent: map<string, Approval>, messages: seq<RoomEvent>)
    ensures TextGestures(r, st, pending, byEvent, OwnMessages(r, messages))
            == TextGestures(r, st, pending, byEvent, messages)
  {
    if messages != [] {
      var rest, m := OwnMessages(r, messages[1..]), messages[0];
      OwnMessagesGesture(r, st, pending, byEvent, messages[1..]);
      if m.sender == r.operator {
        hide MessageActions;
        assert ([m] + rest)[0] == m && ([m] + rest)[1..] == rest;
      } else {
        assert OwnMessages(r, messages) == rest;
        assert MessageActions(r, st, pending, byEvent, m) == [];
      }
    }
  }

  /** Deleting everyone else's reactions and messages leaves the whole plan as it is. */
  lemma StrangersDecideNoApproval(r: Reader, st: map<string, ApprovalState>, pending: seq<Approval>,
                                  desk: map<string, string>,
                                  reactions: seq<Reaction>, replies: seq<RoomEvent>, order: seq<string>)
    requires Walks(order, st)
    ensures Plan(r, st, pending, desk, OwnReactions(r, reactions), OwnMessages(r, replies), order)
            == Plan(r, st, pending, desk, reactions, replies, order)
  {
    OwnReactionsApprove(r, st, ByEvent(st, pending), reactions);
    OwnMessagesGesture(r, st, pending, ByEvent(st, pending), replies);
  }

  // Which approval an event names.

  /** An event a room holds for an approval: its message or its state event. */
  predicate EventOf(st: map<string, ApprovalState>, a: Approval, eventID: string) {
    eventID != "" && (StateOf(st, a.key).messageID == eventID || StateOf(st, a.key).stateEventID == eventID)
  }

  /** No two pending approvals share an event. */
  ghost predicate UniqueEvents(st: map<string, ApprovalState>, pending: seq<Approval>) {
    forall a, b, e | a in pending && b in pending && EventOf(st, a, e) && EventOf(st, b, e) :: a == b
  }

  /** The index names an approval only for an event of its own. */
  lemma {:induction false} ByEventNames(st: map<string, ApprovalState>, pending: seq<Approval>, eventID: string)
    ensures eventID in ByEvent(st, pending) <==> exists a | a in pending :: EventOf(st, a, eventID)
    ensures eventID in ByEvent(st, pending) ==>
              ByEvent(st, pending)[eventID] in pending && EventOf(st, ByEvent(st, pending)[eventID], eventID)
  {
    if pending != [] {
      var last, rest := pending[|pending| - 1], pending[..|pending| - 1];
      assert pending == rest + [last];
      ByEventNames(st, rest, eventID);
      assert (exists a | a in pending :: EventOf(st, a, eventID))
        <==> EventOf(st, last, eventID) || exists a | a in rest :: EventOf(st, a, eventID);
    }
  }

  /** With events of their own, the index is the exact inverse of what is remembered. */
  lemma ByEventIsInverse(st: map<string, ApprovalState>, pending: seq<Approval>, a: Approval, eventID: string)
    requires UniqueEvents(st, pending) && a in pending
    ensures EventOf(st, a, eventID) <==> eventID in ByEvent(st, pending) && ByEvent(st, pending)[eventID] == a
  {
    ByEventNames(st, pending, eventID);
  }

  /** The last of the pending approvals that the room holds this event for. */
  ghost predicate LastNamed(st: map<string, ApprovalState>, pending: seq<Approval>, eventID: string, b: Approval) {
    exists i | 0 <= i < |pending| ::
      pending[i] == b && EventOf(st, b, eventID) && forall j | i < j < |pending| :: !EventOf(st, pending[j], eventID)
  }

  /** One more pending approval takes the events it has. */
  lemma LastNamedStep(st: map<string, ApprovalState>, rest: seq<Approval>, last: Approval, eventID: string, b: Approval)
    ensures LastNamed(st, rest + [last], eventID, b)
            <==> if EventOf(st, last, eventID) then last == b else LastNamed(st, rest, eventID, b)
  {
    hide EventOf;
    var all := rest + [last];
    assert all[|rest|] == last && forall i | 0 <= i < |rest| :: all[i] == rest[i];
    if EventOf(st, last, eventID) {
      if last == b {
        assert all[|rest|] == b;
      }
    } else if LastNamed(st, rest, eventID, b) {
      var i :| 0 <= i < |rest| && rest[i] == b && EventOf(st, b, eventID)
               && forall j | i < j < |rest| :: !EventOf(st, rest[j], eventID);
      assert all[i] == b && forall j | i < j < |all| :: !EventOf(st, all[j], eventID);
    }
  }

  /** The index holds an event exactly under the last approval it is held for. */
  lemma {:induction false} ByEventIsLast(st: map<string, ApprovalState>, pending: seq<Approval>, eventID: string,
                                         b: Approval)
    ensures eventID in ByEvent(st, pending) && ByEvent(st, pending)[eventID] == b
            <==> LastNamed(st, pending, eventID, b)
  {
    hide LastNamed;
    if pending == [] {
      NothingIsNamed(st, eventID, b);
    } else {
      var last, rest := pending[|pending| - 1], pending[..|pending| - 1];
      assert pending == rest + [last];
      ByEventIsLast(st, rest, eventID, b);
      LastNamedStep(st, rest, last, eventID, b);
    }
  }

  lemma NothingIsNamed(st: map<string, ApprovalState>, eventID: string, b: Approval)
    ensures !LastNamed(st, [], eventID, b)
  {
  }

  // What is resolved.

  /** A resolution of a pending approval the room has posted and nobody decided. */
  predicate Resolving(st: map<string, ApprovalState>, a: Action) {
    && a.key == a.approval.key && a.key in st && st[a.key].messageID != "" && st[a.key].resolution == ""
    && a.messageID == "" && a.text == "" && a.reaction == ""
  }

  /** The operator approved with a check mark on one of the approval's events. */
  ghost predicate Marked(r: Reader, st: map<string, ApprovalState>, pending: seq<Approval>, x: Reaction, a: Action) {
    && x.sender == r.operator
    && x.key in {"\U{2705}", "\U{2705}\U{FE0F}", "\U{2714}", "\U{2714}\U{FE0F}", "\U{2611}", "\U{2611}\U{FE0F}"}
    && LastNamed(st, pending, x.target, a.approval) && a.resolution == "approved" && a.feedback == ""
  }

  ghost predicate ByMark(r: Reader, st: map<string, ApprovalState>, pending: seq<Approval>, reactions: seq<Reaction>,
                         a: Action) {
    exists x | x in reactions :: Marked(r, st, pending, x, a)
  }

  /** Some words are a plain yes to an approval, or the name of its card. */
  predicate SaysYes(r: Reader, words: string, card: string) {
    var said := Trim(ToLower(r, words));
    && said != ""
    && (said in {"approve", "approved", "go ahead", "yes", "ok", "okay", "lgtm"} || said == ToLower(r, Trim(card)))
  }

  /** A message of the operator's that says something, and the event it is written under: its thread's
      root, or else what it quotes. */
  predicate SaidUnder(r: Reader, m: RoomEvent, eventID: string) {
    && m.sender == r.operator && OwnWords(m.body) != ""
    && eventID == if m.threadRoot != "" then m.threadRoot else m.replyTo
  }

  /** The operator replied under one of the approval's events: a yes approves, and anything else sends
      back with exactly what was said. */
  ghost predicate Replied(r: Reader, st: map<string, ApprovalState>, pending: seq<Approval>, m: RoomEvent, a: Action) {
    && (exists e :: SaidUnder(r, m, e) && LastNamed(st, pending, e, a.approval))
    && if SaysYes(r, OwnWords(m.body), a.approval.card) then a.resolution == "approved" && a.feedback == ""
       else a.resolution == "sent_back" && a.feedback == OwnWords(m.body)
  }

  ghost predicate ByReply(r: Reader, st: map<string, ApprovalState>, pending: seq<Approval>, replies: seq<RoomEvent>,
                          a: Action) {
    exists m | m in replies :: Replied(r, st, pending, m, a)
  }

  /** The first pending approval whose card some words name; where none is named, the only one
      pending, when they are a yes to it. */
  ghost predicate NamedBy(r: Reader, pending: seq<Approval>, words: string, b: Approval) {
    || (exists i | 0 <= i < |pending| ::
          pending[i] == b && NamesCard(r, words, b)
          && forall j | 0 <= j < i :: !NamesCard(r, words, pending[j]))
    || (pending == [b] && SaysYes(r, words, b.card))
  }

  predicate NamesCard(r: Reader, words: string, b: Approval) {
    ToLower(r, Trim(b.card)) == Trim(ToLower(r, words))
  }

  /** A message of the operator's under no approval's event. */
  ghost predicate SaidInTheRoom(r: Reader, st: map<string, ApprovalState>, pending: seq<Approval>, m: RoomEvent) {
    exists e :: SaidUnder(r, m, e) && forall b | b in pending :: !EventOf(st, b, e)
  }

  /** The operator wrote in the room what approves this approval. */
  ghost predicate ByText(r: Reader, st: map<string, ApprovalState>, pending: seq<Approval>, replies: seq<RoomEvent>,
                         a: Action) {
    exists m | m in replies ::
      SaidInTheRoom(r, st, pending, m) && NamedBy(r, pending, OwnWords(m.body), a.approval)
      && a.resolution == "approved" && a.feedback == ""
  }

  /** The operator reacted with something else than a check mark, or wrote in the room what approves
      nothing that waits for a decision. */
  ghost predicate GesturesAreDue(r: Reader, st: map<string, ApprovalState>, pending: seq<Approval>,
                                 reactions: seq<Reaction>, replies: seq<RoomEvent>) {
    || (exists x | x in reactions ::
          x.sender == r.operator
          && x.key !in {"\U{2705}", "\U{2705}\U{FE0F}", "\U{2714}", "\U{2714}\U{FE0F}", "\U{2611}", "\U{2611}\U{FE0F}"})
    || (exists m | m in replies :: Unread(r, st, pending, m))
  }

  ghost predicate Unread(r: Reader, st: map<string, ApprovalState>, pending: seq<Approval>, m: RoomEvent) {
    && SaidInTheRoom(r, st, pending, m)
    && forall b | NamedBy(r, pending, OwnWords(m.body), b) ::
         b.key !in st || st[b.key].messageID == "" || st[b.key].resolution != ""
  }

  lemma {:induction false} CardNamedIsFirst(r: Reader, pending: seq<Approval>, words: string)
    ensures var found := CardNamed(r, pending, Trim(ToLower(r, words)));
            if found.Some?
            then exists i | 0 <= i < |pending| ::
                pending[i] == found.value && NamesCard(r, words, found.value)
                && forall j | 0 <= j < i :: !NamesCard(r, words, pending[j])
            else forall b | b in pending :: !NamesCard(r, words, b)
  {
    if pending != [] && !NamesCard(r, words, pending[0]) {
      CardNamedIsFirst(r, pending[1..], words);
      var found := CardNamed(r, pending[1..], Trim(ToLower(r, words)));
      if found.Some? {
        var i :| 0 <= i < |pending[1..]| && pending[1..][i] == found.value && NamesCard(r, words, found.value)
                 && forall j | 0 <= j < i :: !NamesCard(r, words, pending[1..][j]);
        assert pending[i + 1] == found.value;
        forall j | 0 <= j < i + 1 ensures !NamesCard(r, words, pending[j]) {
          assert j > 0 ==> pending[j] == pending[1..][j - 1];
        }
      }
    }
  }

  lemma AffirmativeIsYes(r: Reader, words: string, b: Approval)
    ensures Affirmative(r, words, b) <==> SaysYes(r, words, b.card)
  {
    hide Trim, ToLower;
  }

  /** The approval a text approves is the one it names. */
  lemma TextNames(r: Reader, pending: seq<Approval>, words: string, b: Approval)
    ensures ApprovalForText(r, pending, words) == Some(b) <==> NamedBy(r, pending, words, b)
  {
    hide Trim, ToLower, SaysYes, Affirmative, CardNamed;
    CardNamedIsFirst(r, pending, words);
    var found := CardNamed(r, pending, Trim(ToLower(r, words)));
    if found.Some? {
      var i :| 0 <= i < |pending| && pending[i] == found.value && NamesCard(r, words, found.value)
               && forall j | 0 <= j < i :: !NamesCard(r, words, pending[j]);
      if NamedBy(r, pending, words, b) && pending != [b] {
        var k :| 0 <= k < |pending| && pending[k] == b && NamesCard(r, words, b)
                 && forall j | 0 <= j < k :: !NamesCard(r, words, pending[j]);
        assert i == k;
      }
    } else if |pending| == 1 {
      AffirmativeIsYes(r, words, pending[0]);
      assert pending == [pending[0]];
    }
  }

  lemma MarkResolves(r: Reader, st: map<string, ApprovalState>, pending: seq<Approval>, x: Reaction, a: Action)
    ensures a in ReactionActions(r, st, ByEvent(st, pending), x)
            <==> a.kind == ResolveApproval && Resolving(st, a) && Marked(r, st, pending, x, a)
  {
    hide ByEvent, LastNamed;
    ByEventIsLast(st, pending, x.target, a.approval);
    if x.target in ByEvent(st, pending) {
      ByEventIsLast(st, pending, x.target, ByEvent(st, pending)[x.target]);
    }
  }

  lemma {:induction false} MarksResolve(r: Reader, st: map<string, ApprovalState>, pending: seq<Approval>,
                                        reactions: seq<Reaction>, a: Action)
    ensures a in ApprovedByReaction(r, st, ByEvent(st, pending), reactions)
            <==> a.kind == ResolveApproval && Resolving(st, a) && ByMark(r, st, pending, reactions, a)
  {
    hide ReactionActions, Marked, ByEvent, Resolving;
    if reactions != [] {
      MarkResolves(r, st, pending, reactions[0], a);
      MarksResolve(r, st, pending, reactions[1..], a);
      assert forall x :: x in reactions <==> x == reactions[0] || x in reactions[1..];
    }
  }

  /** What one message does: it decides the approval it is written under or names, or asks for the
      gestures. */
  lemma MessageMeans(r: Reader, st: map<string, ApprovalState>, pending: seq<Approval>, m: RoomEvent, a: Action)
    ensures a in MessageActions(r, st, pending, ByEvent(st, pending), m)
            <==> || (a.kind == ResolveApproval && Resolving(st, a)
                     && (Replied(r, st, pending, m, a)
                         || (SaidInTheRoom(r, st, pending, m) && NamedBy(r, pending, OwnWords(m.body), a.approval)
                             && a.resolution == "approved" && a.feedback == "")))
                 || (a == GESTURES && Unread(r, st, pending, m))
  {
    hide ByEvent, OwnWords, ApprovalForText, Affirmative, SaysYes, NamedBy, LastNamed, EventOf;
    var byEvent, e := ByEvent(st, pending), RepliedTo(m);
    ByEventIsLast(st, pending, e, a.approval);
    ByEventNames(st, pending, e);
    AffirmativeIsYes(r, OwnWords(m.body), a.approval);
    assert e == "" ==> e !in byEvent by { NoEmptyEvent(st, pending); }
    assert SaidUnder(r, m, e) <==> m.sender == r.operator && OwnWords(m.body) != "";
    if e in byEvent {
      ByEventIsLast(st, pending, e, byEvent[e]);
      assert !SaidInTheRoom(r, st, pending, m);
    } else {
      NobodyNamed(st, pending, e, a.approval);
      assert SaidInTheRoom(r, st, pending, m) <==> SaidUnder(r, m, e);
      TextNames(r, pending, OwnWords(m.body), a.approval);
      TextMeans(r, st, pending, OwnWords(m.body));
    }
  }

  lemma NoEmptyEvent(st: map<string, ApprovalState>, pending: seq<Approval>)
    ensures "" !in ByEvent(st, pending)
  {
    ByEventNames(st, pending, "");
  }

  lemma NobodyNamed(st: map<string, ApprovalState>, pending: seq<Approval>, eventID: string, b: Approval)
    requires eventID !in ByEvent(st, pending)
    ensures !LastNamed(st, pending, eventID, b)
  {
    ByEventIsLast(st, pending, eventID, b);
  }

  /** Some words approve something undecided exactly when what they name is undecided. */
  lemma TextMeans(r: Reader, st: map<string, ApprovalState>, pending: seq<Approval>, words: string)
    ensures var found := ApprovalForText(r, pending, words);
            (found.Some? && Undecided(st, found.value.key))
            <==> exists b :: NamedBy(r, pending, words, b)
                             && b.key in st && st[b.key].messageID != "" && st[b.key].resolution == ""
  {
    hide ApprovalForText, NamedBy;
    var found := ApprovalForText(r, pending, words);
    forall b ensures found == Some(b) <==> NamedBy(r, pending, words, b) {
      TextNames(r, pending, words, b);
    }
  }

  lemma {:induction false} MessagesMean(r: Reader, st: map<string, ApprovalState>, pending: seq<Approval>,
                                        replies: seq<RoomEvent>, a: Action)
    ensures a in TextGestures(r, st, pending, ByEvent(st, pending), replies)
            <==> || (a.kind == ResolveApproval && Resolving(st, a)
                     && (ByReply(r, st, pending, replies, a) || ByText(r, st, pending, replies, a)))
                 || (a == GESTURES && exists m | m in replies :: Unread(r, st, pending, m))
  {
    hide MessageActions, Replied, SaidInTheRoom, NamedBy, Unread, ByEvent, Resolving, OwnWords;
    if replies != [] {
      MessageMeans(r, st, pending, replies[0], a);
      MessagesMean(r, st, pending, replies[1..], a);
      assert forall m :: m in replies <==> m == replies[0] || m in replies[1..];
    }
  }

  lemma {:induction false} UnansweredAreGestures(r: Reader, reactions: seq<Reaction>, a: Action)
    ensures a in UnansweredReactions(r, reactions)
            <==> a == GESTURES && exists x | x in reactions :: x.sender == r.operator && !Approves(x.key)
  {
    hide Approves;
    if reactions != [] {
      UnansweredAreGestures(r, reactions[1..], a);
      assert forall x :: x in reactions <==> x == reactions[0] || x in reactions[1..];
    }
  }

  lemma {:induction false} UnpostedMembers(st: map<string, ApprovalState>, pending: seq<Approval>, a: Action)
    ensures a in UnpostedApprovals(st, pending)
            <==> a.approval in pending && a == PostOf(a.approval) && StateOf(st, a.key).messageID == ""
  {
    if pending != [] {
      UnpostedMembers(st, pending[1..], a);
      assert a.approval in pending <==> a.approval == pending[0] || a.approval in pending[1..];
    }
  }

  lemma {:induction false} ReportMembers(st: map<string, ApprovalState>, pending: set<string>,
                                         desk: map<string, string>,
                                         order: seq<string>, a: Action)
    requires forall k | k in order :: k in st
    ensures a in ResolutionsToReport(st, pending, desk, order)
            <==> a.key in order && UnreportedResolution(st[a.key], a.key, pending)
                 && a == ResolutionReport(a.key, st[a.key], Get(desk, a.key))
  {
    if order != [] {
      ReportMembers(st, pending, desk, order[1..], a);
      assert a.key in order <==> a.key == order[0] || a.key in order[1..];
    }
  }

  /** A pending approval the room has no message for. */
  predicate PostIsDue(st: map<string, ApprovalState>, pending: seq<Approval>, a: Action) {
    && a.approval in pending && a.key == a.approval.key
    && (a.key in st ==> st[a.key].messageID == "")
    && a.resolution == "" && a.feedback == "" && a.messageID == "" && a.text == "" && a.reaction == ""
  }

  /** How an approval ended: as its record says, else as the desk's does, else at the desk. */
  predicate EndedAs(resolution: string, desk: map<string, string>, key: string, ending: string) {
    if resolution != "" then ending == resolution
    else if key in desk && desk[key] != "" then ending == desk[key]
    else ending == "desktop"
  }

  /** A report says how an approval ended: an arrow forward for an approved one, an arrow back for one
      sent back, and words for any other ending. */
  predicate SaysEnding(a: Action) {
    if a.resolution == "approved" then a.kind == ReactApproval && a.reaction == "\U{27A1}" && a.text == ""
    else if a.resolution == "sent_back" then a.kind == ReactApproval && a.reaction == "\U{2B05}" && a.text == ""
    else a.kind == ReplyApproval && a.reaction == ""
         && a.text == if a.resolution == "superseded" then "Superseded by a newer proposal"
                      else "Resolved on the desktop"
  }

  /** An approval the room has posted, that is pending no more and has not been reported. */
  predicate ReportIsDue(st: map<string, ApprovalState>, pending: seq<Approval>, desk: map<string, string>, a: Action) {
    && a.key in st && st[a.key].messageID != "" && st[a.key].replyID == "" && st[a.key].reactionID == ""
    && (forall b | b in pending :: b.key != a.key)
    && EndedAs(st[a.key].resolution, desk, a.key, a.resolution) && SaysEnding(a)
    && a.messageID == st[a.key].messageID && a.approval == NO_ONE && a.feedback == ""
  }

  lemma ReportsAreDue(st: map<string, ApprovalState>, pending: seq<Approval>, desk: map<string, string>, a: Action)
    ensures a.key in st && UnreportedResolution(st[a.key], a.key, Keys(pending))
            && a == ResolutionReport(a.key, st[a.key], Get(desk, a.key))
            <==> a.kind in {ReactApproval, ReplyApproval} && ReportIsDue(st, pending, desk, a)
  {
    assert a.key in Keys(pending) <==> exists b | b in pending :: b.key == a.key;
  }

  /** A plan holds an action exactly when it is due: a resolution is what a gesture of the operator's
      says, the gestures are named exactly when a gesture says nothing, and posts and reports are of
      the approvals not seen and not reported. */
  lemma PlanMembers(r: Reader, st: map<string, ApprovalState>, pending: seq<Approval>, desk: map<string, string>,
                    reactions: seq<Reaction>, replies: seq<RoomEvent>, order: seq<string>, a: Action)
    requires Walks(order, st)
    ensures a in Plan(r, st, pending, desk, reactions, replies, order)
            <==> match a.kind
                 case ResolveApproval =>
                   Resolving(st, a)
                   && (ByMark(r, st, pending, reactions, a) || ByReply(r, st, pending, replies, a)
                       || ByText(r, st, pending, replies, a))
                 case AnswerGestures =>
                   a == Action(AnswerGestures, "", NO_ONE, "", "", "", "", "")
                   && GesturesAreDue(r, st, pending, reactions, replies)
                 case PostApproval => PostIsDue(st, pending, a)
                 case ReactApproval => ReportIsDue(st, pending, desk, a)
                 case ReplyApproval => ReportIsDue(st, pending, desk, a)
  {
    hide ByMark, ByReply, ByText, ByEvent, Unread, ReportIsDue, UnreportedResolution, ResolutionReport, Resolving;
    MarksResolve(r, st, pending, reactions, a);
    MessagesMean(r, st, pending, replies, a);
    UnansweredAreGestures(r, reactions, a);
    UnpostedMembers(st, pending, a);
    ReportMembers(st, Keys(pending), desk, order, a);
    ReportsAreDue(st, pending, desk, a);
  }

  lemma LastNamedIsPending(st: map<string, ApprovalState>, pending: seq<Approval>, eventID: string, b: Approval)
    requires LastNamed(st, pending, eventID, b)
    ensures b in pending
  {
  }

  lemma NamedIsPending(r: Reader, pending: seq<Approval>, words: string, b: Approval)
    requires NamedBy(r, pending, words, b)
    ensures b in pending
  {
    hide SaysYes, NamesCard;
  }

  /** What is resolved is pending. */
  lemma ResolvedIsPending(r: Reader, st: map<string, ApprovalState>, pending: seq<Approval>, reactions: seq<Reaction>,
                          replies: seq<RoomEvent>, a: Action)
    requires ByMark(r, st, pending, reactions, a) || ByReply(r, st, pending, replies, a)
             || ByText(r, st, pending, replies, a)
    ensures a.approval in pending && a.resolution in {"approved", "sent_back"}
  {
    hide LastNamed, NamedBy, SaysYes, OwnWords, SaidInTheRoom;
    if ByMark(r, st, pending, reactions, a) {
      var x :| x in reactions && Marked(r, st, pending, x, a);
      LastNamedIsPending(st, pending, x.target, a.approval);
    } else if ByReply(r, st, pending, replies, a) {
      var m :| m in replies && Replied(r, st, pending, m, a);
      var e :| SaidUnder(r, m, e) && LastNamed(st, pending, e, a.approval);
      LastNamedIsPending(st, pending, e, a.approval);
    } else {
      var m :| m in replies && NamedBy(r, pending, OwnWords(m.body), a.approval) && a.resolution == "approved";
      NamedIsPending(r, pending, OwnWords(m.body), a.approval);
    }
  }

  /** Each message of the operator's under an approval that waits for a decision decides it: approved
      exactly when it is a yes or the card's name, and else sent back with exactly what it says. */
  lemma EveryReplyDecides(r: Reader, st: map<string, ApprovalState>, pending: seq<Approval>, desk: map<string, string>,
                          reactions: seq<Reaction>, replies: seq<RoomEvent>, order: seq<string>, m: RoomEvent,
                          e: string, b: Approval)
    returns (a: Action)
    requires Walks(order, st) && m in replies && SaidUnder(r, m, e) && LastNamed(st, pending, e, b)
    requires b.key in st && st[b.key].messageID != "" && st[b.key].resolution == ""
    ensures a in Plan(r, st, pending, desk, reactions, replies, order) && a.kind == ResolveApproval
    ensures a.key == b.key && a.approval == b
    ensures if SaysYes(r, OwnWords(m.body), b.card) then a.resolution == "approved" && a.feedback == ""
            else a.resolution == "sent_back" && a.feedback == OwnWords(m.body)
  {
    hide Plan, LastNamed, OwnWords, SaysYes;
    a := if SaysYes(r, OwnWords(m.body), b.card) then Action(ResolveApproval, b.key, b, "approved", "", "", "", "")
         else Action(ResolveApproval, b.key, b, "sent_back", OwnWords(m.body), "", "", "");
    assert Replied(r, st, pending, m, a);
    PlanMembers(r, st, pending, desk, reactions, replies, order, a);
  }

  /** And each check mark of the operator's on an event of one approves it. */
  lemma EveryMarkApproves(r: Reader, st: map<string, ApprovalState>, pending: seq<Approval>, desk: map<string, string>,
                          reactions: seq<Reaction>, replies: seq<RoomEvent>, order: seq<string>, x: Reaction,
                          b: Approval)
    returns (a: Action)
    requires Walks(order, st) && x in reactions && x.sender == r.operator && LastNamed(st, pending, x.target, b)
    requires x.key in {"\U{2705}", "\U{2705}\U{FE0F}", "\U{2714}", "\U{2714}\U{FE0F}", "\U{2611}", "\U{2611}\U{FE0F}"}
    requires b.key in st && st[b.key].messageID != "" && st[b.key].resolution == ""
    ensures a in Plan(r, st, pending, desk, reactions, replies, order) && a.kind == ResolveApproval
    ensures a.key == b.key && a.approval == b && a.resolution == "approved" && a.feedback == ""
  {
    hide Plan, LastNamed;
    a := Action(ResolveApproval, b.key, b, "approved", "", "", "", "");
    assert Marked(r, st, pending, x, a);
    PlanMembers(r, st, pending, desk, reactions, replies, order, a);
  }

  /** What the fold does to each character. */
  lemma {:induction false} ToLowerFolds(r: Reader, s: string)
    ensures |ToLower(r, s)| == |s| && forall i | 0 <= i < |s| :: ToLower(r, s)[i] == r.lower(s[i])
  {
    if s != "" {
      ToLowerFolds(r, s[1..]);
    }
  }

  /** A plan never resolves and reports, nor posts and resolves, nor posts and reports one key. */
  lemma PlanIsConsistent(r: Reader, st: map<string, ApprovalState>, pending: seq<Approval>, desk: map<string, string>,
                         reactions: seq<Reaction>, replies: seq<RoomEvent>, order: seq<string>, a: Action, b: Action)
    requires Walks(order, st)
    requires a in Plan(r, st, pending, desk, reactions, replies, order)
    requires b in Plan(r, st, pending, desk, reactions, replies, order)
    requires a.kind in {ResolveApproval, PostApproval} && a.key == b.key && b.kind != AnswerGestures
    ensures b.kind == a.kind
  {
    hide Plan, ByMark, ByReply, ByText;
    PlanMembers(r, st, pending, desk, reactions, replies, order, a);
    PlanMembers(r, st, pending, desk, reactions, replies, order, b);
    if a.kind == ResolveApproval {
      ResolvedIsPending(r, st, pending, reactions, replies, a);
    }
  }
}
