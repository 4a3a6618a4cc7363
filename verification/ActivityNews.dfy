/** What one pass over a board says of each card, in which order, and what it remembers of it
    (internal/relay/activity.go, internal/bridge/activity.go). */
module ActivityNews {
  import opened Text
  import opened Relay
  import opened Activity
  import opened ActivityRuns

  /** What the operator has not heard: a card never seen that is not done, one seen that is done and
      was not reported finished, or one seen that is not done and changed lane. */
  predicate IsNews(known: map<string, CardState>, a: Action) {
    var key := a.card.key;
    match a.kind
    case CardAppeared => key !in known && !a.card.done
    case CardFinished => key in known && a.card.done && known[key].reported != "finished"
    case CardMovedOn => key in known && !a.card.done && known[key].lane != a.card.lane
  }

  /** A plan tells exactly the news of the board's cards. */
  lemma {:induction false} PlanIsNews(known: map<string, CardState>, cards: seq<Card>, a: Action)
    ensures a in PlanActivity(known, cards) <==> a.card in cards && IsNews(known, a)
  {
    if cards != [] {
      PlanIsNews(known, cards[1..], a);
      assert a.card in cards <==> a.card == cards[0] || a.card in cards[1..];
    }
  }

  /** Some actions are about the board's cards, in its order. */
  ghost predicate InBoardOrder(actions: seq<Action>, cards: seq<Card>) {
    forall p, q | 0 <= p < q < |actions| :: ComesBefore(cards, actions[p].card, actions[q].card)
  }

  ghost predicate ComesBefore(cards: seq<Card>, a: Card, b: Card) {
    exists i, j | 0 <= i < j < |cards| :: cards[i] == a && cards[j] == b
  }

  lemma BehindTheFirst(cards: seq<Card>, a: Card, b: Card)
    requires cards != []
    ensures ComesBefore(cards[1..], a, b) ==> ComesBefore(cards, a, b)
    ensures b in cards[1..] ==> ComesBefore(cards, cards[0], b)
  {
    if ComesBefore(cards[1..], a, b) {
      var i, j :| 0 <= i < j < |cards[1..]| && cards[1..][i] == a && cards[1..][j] == b;
      assert cards[i + 1] == a && cards[j + 1] == b;
    }
    if b in cards[1..] {
      var j :| 0 <= j < |cards[1..]| && cards[1..][j] == b;
      assert cards[0] == cards[0] && cards[j + 1] == b;
    }
  }

  lemma {:induction false} PlanIsInOrder(known: map<string, CardState>, cards: seq<Card>)
    ensures InBoardOrder(PlanActivity(known, cards), cards)
  {
    if cards != [] {
      PlanIsInOrder(known, cards[1..]);
      var first, rest := CardNews(known, cards[0]), PlanActivity(known, cards[1..]);
      var plan := PlanActivity(known, cards);
      forall p, q | 0 <= p < q < |plan| ensures ComesBefore(cards, plan[p].card, plan[q].card) {
        assert |first| <= 1 && plan == first + rest;
        assert plan[q] == rest[q - |first|] && plan[q] in rest;
        PlanIsNews(known, cards[1..], plan[q]);
        if p >= |first| {
          assert plan[p] == rest[p - |first|];
          assert ComesBefore(cards[1..], rest[p - |first|].card, rest[q - |first|].card);
        }
        BehindTheFirst(cards, plan[p].card, plan[q].card);
      }
    }
  }

  lemma {:induction false} OnlyAre(actions: seq<Action>, moves: bool, a: Action)
    ensures a in Only(actions, moves) <==> a in actions && (a.kind == CardMovedOn <==> moves)
  {
    if actions != [] {
      OnlyAre(actions[1..], moves, a);
      assert a in actions <==> a == actions[0] || a in actions[1..];
    }
  }

  lemma {:induction false} OnlyIsInOrder(actions: seq<Action>, moves: bool, cards: seq<Card>)
    requires InBoardOrder(actions, cards)
    ensures InBoardOrder(Only(actions, moves), cards)
  {
    hide ComesBefore;
    if actions != [] {
      var rest, all := Only(actions[1..], moves), Only(actions, moves);
      assert forall p | 0 <= p < |actions[1..]| :: actions[1..][p] == actions[p + 1];
      OnlyIsInOrder(actions[1..], moves, cards);
      if OneOf(actions[0], moves) == [] {
        assert all == rest;
      } else {
        assert all == [actions[0]] + rest;
        forall p, q | 0 <= p < q < |all| ensures ComesBefore(cards, all[p].card, all[q].card) {
          assert all[q] == rest[q - 1];
          if p > 0 {
            assert all[p] == rest[p - 1];
          } else {
            OnlyAre(actions[1..], moves, all[q]);
            var k :| 0 <= k < |actions[1..]| && actions[1..][k] == all[q];
            assert actions[k + 1] == all[q] && ComesBefore(cards, actions[0].card, actions[k + 1].card);
          }
        }
      }
    }
  }

  lemma {:induction false} EntriesAre(actions: seq<Action>, saved: bool)
    ensures |Entries(actions, saved)| == |actions|
    ensures forall i | 0 <= i < |actions| :: Entries(actions, saved)[i] == Entry(actions[i], saved)
  {
    if actions != [] {
      EntriesAre(actions[1..], saved);
    }
  }

  /** One message: the news, or the moves, of one pass. */
  ghost predicate IsGroup(group: seq<Entry>, known: map<string, CardState>, cards: seq<Card>, moves: bool) {
    && (forall x | x in group :: x.action.card in cards && IsNews(known, x.action))
    && (forall x | x in group :: x.action.kind == CardMovedOn <==> moves)
    && forall p, q | 0 <= p < q < |group| :: ComesBefore(cards, group[p].action.card, group[q].action.card)
  }

  ghost predicate TellsAll(group: seq<Entry>, known: map<string, CardState>, cards: seq<Card>, moves: bool) {
    forall a: Action | a.card in cards && IsNews(known, a) && (a.kind == CardMovedOn <==> moves) ::
        Entry(a, true) in group
  }

  lemma GroupOfPlan(known: map<string, CardState>, cards: seq<Card>, moves: bool, saved: bool)
    ensures var group := Entries(Only(PlanActivity(known, cards), moves), saved);
            IsGroup(group, known, cards, moves) && (saved ==> TellsAll(group, known, cards, moves))
  {
    hide PlanActivity, Only, IsNews, ComesBefore, Entries;
    var actions := Only(PlanActivity(known, cards), moves);
    var group := Entries(actions, saved);
    PlanIsInOrder(known, cards);
    OnlyIsInOrder(PlanActivity(known, cards), moves, cards);
    EntriesAre(actions, saved);
    forall i | 0 <= i < |group|
      ensures group[i].action.card in cards && IsNews(known, group[i].action)
      ensures group[i].action.kind == CardMovedOn <==> moves
    {
      OnlyAre(PlanActivity(known, cards), moves, actions[i]);
      PlanIsNews(known, cards, actions[i]);
    }
    forall a: Action | saved && a.card in cards && IsNews(known, a) && (a.kind == CardMovedOn <==> moves)
      ensures Entry(a, true) in group
    {
      PlanIsNews(known, cards, a);
      OnlyAre(PlanActivity(known, cards), moves, a);
      var i :| 0 <= i < |actions| && actions[i] == a;
      assert group[i] == Entry(a, true);
    }
  }

  /** What one pass says: at most one message of news and then one of moves, each of nothing but news
      and in the board's order; and a pass that succeeds says and saves all there is to say. */
  lemma PassSays(b: Board, root: string, cards: seq<Card>, news: Post, moves: Post, saves: bool)
    returns (said: seq<Entry>, moved: seq<Entry>)
    ensures var (after, ok) := Pass(b, root, cards, news, moves, saves);
            && after.log == b.log + said + moved
            && IsGroup(said, b.activity, cards, false) && IsGroup(moved, b.activity, cards, true)
            && (ok ==> TellsAll(said, b.activity, cards, false) && TellsAll(moved, b.activity, cards, true))
  {
    hide PlanActivity, Only, Seeded, Remembered, IsGroup, TellsAll, Entries;
    var plan := PlanActivity(b.activity, cards);
    said, moved := [], [];
    SaysNothing(b.activity, cards);
    var (b1, ok1) := Posted(b, root, Only(plan, false), news);
    var (b2, ok2) := Posted(b1, root, Only(plan, true), moves);
    if news.Landed? {
      GroupOfPlan(b.activity, cards, false, news.saved);
      said := Entries(Only(plan, false), news.saved);
    }
    if moves.Landed? && ok1 {
      GroupOfPlan(b.activity, cards, true, moves.saved);
      moved := Entries(Only(plan, true), moves.saved);
    }
    NoneIsNone(b.activity, cards, false);
    NoneIsNone(b.activity, cards, true);
    assert Entries([], true) == [] == Entries([], false) by { EntriesAre([], true); EntriesAre([], false); }
    assert b.log + said == b1.log && b1.log + [] == b1.log && b.log + [] == b.log;
  }

  lemma SaysNothing(known: map<string, CardState>, cards: seq<Card>)
    ensures IsGroup([], known, cards, false) && IsGroup([], known, cards, true)
  {
  }

  lemma NoneIsNone(known: map<string, CardState>, cards: seq<Card>, moves: bool)
    ensures Only(PlanActivity(known, cards), moves) == [] ==> TellsAll([], known, cards, moves)
  {
    GroupOfPlan(known, cards, moves, true);
    EntriesAre(Only(PlanActivity(known, cards), moves), true);
  }

  // What is remembered.

  /** How a card is remembered once it was told, or quietly seeded. */
  predicate ToldAs(state: CardState, root: string, card: Card, first: bool) {
    && state.forgeRoot == root && state.lane == card.lane && state.project == card.project && state.name == card.name
    && state.reported == if card.done then "finished" else if first then "appeared" else "moved_on"
  }

  /** There is nothing to say of a card that was seen. */
  predicate Heard(known: map<string, CardState>, card: Card) {
    card.key in known
    && if card.done then known[card.key].reported == "finished" else known[card.key].lane == card.lane
  }

  /** A card is remembered as before, or as told. */
  ghost predicate AsBeforeOrTold(before: map<string, CardState>, after: map<string, CardState>, root: string,
                                 card: Card) {
    if card.key !in after then card.key !in before
    else (card.key in before && after[card.key] == before[card.key])
         || (!Heard(before, card) && ToldAs(after[card.key], root, card, card.key !in before))
  }

  lemma GroupIsRemembered(known: map<string, CardState>, root: string, cards: seq<Card>, now: map<string, CardState>,
                          moves: bool, card: Card)
    requires GoodBoard(cards) && card in cards && AsBeforeOrTold(known, now, root, card)
    ensures var after := Remembered(now, root, Only(PlanActivity(known, cards), moves));
            && AsBeforeOrTold(known, after, root, card)
  {
    hide Remembered, GoodBoard, PlanActivity, Only;
    var group := Only(PlanActivity(known, cards), moves);
    PlanIsCurrent(known, cards, moves, card);
    if About(group, card.key) == 0 {
      RememberedElsewhere(now, root, group, card.key);
    } else {
      var a := OnlyOne(group, card.key);
      PlanSaysWhatIsOwed(known, cards, card);
      OnlyMembers(PlanActivity(known, cards), moves, a);
      PlanIsNews(known, cards, a);
      RememberedHere(now, root, group, a);
    }
  }

  lemma SeedingIsRemembered(known: map<string, CardState>, root: string, cards: seq<Card>, now: map<string, CardState>,
                            card: Card)
    requires GoodBoard(cards) && card in cards && AsBeforeOrTold(known, now, root, card)
    ensures AsBeforeOrTold(known, Seeded(now, root, cards), root, card)
    ensures card.done ==> card.key in Seeded(now, root, cards)
  {
    hide GoodBoard;
    if card.key in now {
      SeededKeeps(now, root, cards, card.key);
    } else {
      SeededNew(now, root, cards, card);
    }
  }

  /** What one pass remembers of each card of the board, in memory and in the file: what it did before,
      or the card as it was told; and after a pass that succeeds, the card exactly as told or, when
      there was nothing to say of it, as before. */
  lemma PassRemembersWhatItTold(b: Board, root: string, cards: seq<Card>, news: Post, moves: Post, saves: bool,
                                card: Card)
    requires GoodBoard(cards) && card in cards
    ensures var (after, ok) := Pass(b, root, cards, news, moves, saves);
            && AsBeforeOrTold(b.activity, after.activity, root, card)
            && (after.file == b.file || AsBeforeOrTold(b.activity, after.file, root, card))
            && (ok ==> card.key in after.activity
                       && if Heard(b.activity, card) then after.activity[card.key] == b.activity[card.key]
                          else ToldAs(after.activity[card.key], root, card, card.key !in b.activity))
  {
    hide PlanActivity, Only, Seeded, Remembered, GoodBoard, Entries, AsBeforeOrTold;
    var plan := PlanActivity(b.activity, cards);
    var (b1, ok1) := Posted(b, root, Only(plan, false), news);
    var (b2, ok2) := Posted(b1, root, Only(plan, true), moves);
    AsItWas(b.activity, root, card);
    GroupIsRemembered(b.activity, root, cards, b.activity, false, card);
    GroupIsRemembered(b.activity, root, cards, b1.activity, true, card);
    SeedingIsRemembered(b.activity, root, cards, b2.activity, card);
    var (after, ok) := Pass(b, root, cards, news, moves, saves);
    PassConserves(b, root, cards, news, moves, saves, card);
    if ok {
      assert AsBeforeOrTold(b.activity, after.activity, root, card);
      NothingLeftToSay(b.activity, after.activity, root, card);
    }
  }

  /** Whether the save at the end of a pass goes through decides the file and the answer and nothing else:
      the history is remembered either way. And a pass that succeeds leaves nothing it changed unsaved. */
  lemma SavingDecidesOnlyTheFile(b: Board, root: string, cards: seq<Card>, news: Post, moves: Post, saves: bool)
    ensures var (one, _), (two, _) := Pass(b, root, cards, news, moves, true), Pass(b, root, cards, news, moves, false);
            one.activity == two.activity && one.log == two.log
    ensures var (after, ok) := Pass(b, root, cards, news, moves, saves);
            ok ==> after.file == after.activity || (after.activity == b.activity && after.file == b.file)
  {
    hide PlanActivity, Only, Seeded, Remembered, Entries;
  }

  lemma AsItWas(known: map<string, CardState>, root: string, card: Card)
    ensures AsBeforeOrTold(known, known, root, card)
  {
  }

  lemma NothingLeftToSay(before: map<string, CardState>, after: map<string, CardState>, root: string, card: Card)
    requires AsBeforeOrTold(before, after, root, card) && Owed(after, card) == 0 && (card.done ==> card.key in after)
    ensures card.key in after
    ensures if Heard(before, card) then after[card.key] == before[card.key]
            else ToldAs(after[card.key], root, card, card.key !in before)
  {
  }
}
