/** What the activity room hears about a forge's cards (internal/relay/activity.go,
    internal/bridge/activity.go). */
module Activity {
  import opened Options
  import opened Text
  import opened Relay

  datatype Card = Card(key: string, project: string, name: string, lane: string, done: bool)

  datatype Kind = CardAppeared | CardMovedOn | CardFinished

  datatype Action = Action(kind: Kind, card: Card)

  const DONE_LANE := "done"
  const FINISHED := "finished"

  function Reported(kind: Kind): string {
    match kind
    case CardAppeared => "appeared"
    case CardMovedOn => "moved_on"
    case CardFinished => FINISHED
  }

  predicate FinishedNow(known: CardState, card: Card) {
    card.done && known.reported != FINISHED
  }

  predicate MovedOn(known: CardState, card: Card) {
    !card.done && known.lane != card.lane
  }

  /** What the operator still has to hear about one card. */
  function CardNews(activity: map<string, CardState>, card: Card): seq<Action> {
    if card.key !in activity then
      if card.done then [] else [Action(CardAppeared, card)]
    else if FinishedNow(activity[card.key], card) then [Action(CardFinished, card)]
    else if MovedOn(activity[card.key], card) then [Action(CardMovedOn, card)]
    else []
  }

  function PlanActivity(activity: map<string, CardState>, cards: seq<Card>): seq<Action> {
    if cards == [] then [] else CardNews(activity, cards[0]) + PlanActivity(activity, cards[1..])
  }

  /** What one card calls for. */
  method TellCard(activity: map<string, CardState>, card: Card) returns (news: seq<Action>)
    ensures news == CardNews(activity, card)
  {
    if card.key !in activity && card.done {
      return [];
    }
    if card.key !in activity {
      return [Action(CardAppeared, card)];
    }
    if FinishedNow(activity[card.key], card) {
      return [Action(CardFinished, card)];
    }
    if MovedOn(activity[card.key], card) {
      return [Action(CardMovedOn, card)];
    }
    return [];
  }

  method MakePlan(activity: map<string, CardState>, cards: seq<Card>) returns (actions: seq<Action>)
    ensures actions == PlanActivity(activity, cards)
  {
    hide CardNews;
    actions := [];
    for i := 0 to |cards|
      invariant PlanActivity(activity, cards) == actions + PlanActivity(activity, cards[i..])
    {
      assert cards[i..][1..] == cards[i + 1..];
      Regroup(actions, CardNews(activity, cards[i]), PlanActivity(activity, cards[i + 1..]));
      var news := TellCard(activity, cards[i]);
      actions := actions + news;
    }
  }

  /** The actions of a plan that are, or are not, routine moves. */
  function OneOf(a: Action, moves: bool): seq<Action> {
    if (a.kind == CardMovedOn) == moves then [a] else []
  }

  function Only(actions: seq<Action>, moves: bool): seq<Action> {
    if actions == [] then []
    else OneOf(actions[0], moves) + Only(actions[1..], moves)
  }

  method SplitCardUpdates(actions: seq<Action>) returns (news: seq<Action>, moves: seq<Action>)
    ensures news == Only(actions, false) && moves == Only(actions, true)
  {
    news, moves := [], [];
    for i := 0 to |actions|
      invariant Only(actions, false) == news + Only(actions[i..], false)
      invariant Only(actions, true) == moves + Only(actions[i..], true)
    {
      assert actions[i..][1..] == actions[i + 1..];
      Regroup(news, OneOf(actions[i], false), Only(actions[i + 1..], false));
      Regroup(moves, OneOf(actions[i], true), Only(actions[i + 1..], true));
      if actions[i].kind == CardMovedOn {
        moves := moves + [actions[i]];
        continue;
      }
      news := news + [actions[i]];
    }
  }

  function Told(root: string, a: Action): CardState {
    CardState(root, a.card.lane, Reported(a.kind), a.card.project, a.card.name)
  }

  function Remembered(activity: map<string, CardState>, root: string, actions: seq<Action>): map<string, CardState>
    decreases |actions|
  {
    if actions == [] then activity
    else Remembered(activity[actions[0].card.key := Told(root, actions[0])], root, actions[1..])
  }

  function Quiet(root: string, card: Card): CardState {
    CardState(root, card.lane, FINISHED, card.project, card.name)
  }

  /** The history a forge arrives with, remembered without a word. */
  function Seeded(activity: map<string, CardState>, root: string, cards: seq<Card>): map<string, CardState>
    decreases |cards|
  {
    if cards == [] then activity
    else Seeded(if cards[0].key !in activity && cards[0].done then activity[cards[0].key := Quiet(root, cards[0])]
                else activity,
                root, cards[1..])
  }

  /** What became of a post: it was refused, or it is in the room and the save after it went
      through or failed. */
  datatype Post = Refused | Landed(saved: bool)

  /** One update in the room: its card, its lane, and whether it was saved that it is. */
  datatype Entry = Entry(action: Action, saved: bool)

  /** What the activity of one forge reads and writes. */
  datatype Board = Board(activity: map<string, CardState>, file: map<string, CardState>, log: seq<Entry>)

  function Entries(actions: seq<Action>, saved: bool): seq<Entry> {
    if actions == [] then [] else [Entry(actions[0], saved)] + Entries(actions[1..], saved)
  }

  /** A group posted as one message and remembered; `ok` is false when the tick stops here. */
  function Posted(b: Board, root: string, actions: seq<Action>, post: Post): (Board, bool) {
    if actions == [] then (b, true)
    else match post
         case Refused => (b, false)
         case Landed(saved) =>
           var activity := Remembered(b.activity, root, actions);
           (Board(activity, if saved then activity else b.file, b.log + Entries(actions, saved)), saved)
  }

  /** One pass over a forge's board: the news, the moves, then the history. */
  function Pass(b: Board, root: string, cards: seq<Card>, news: Post, moves: Post, saves: bool): (Board, bool) {
    var actions := PlanActivity(b.activity, cards);
    var (b1, ok1) := Posted(b, root, Only(actions, false), news);
    if !ok1 then (b1, false)
    else
      var (b2, ok2) := Posted(b1, root, Only(actions, true), moves);
      if !ok2 then (b2, false)
      else
        var seeded := Seeded(b2.activity, root, cards);
        if seeded == b2.activity then (b2, true)
        else if saves then (b2.(activity := seeded, file := seeded), true)
        else (b2.(activity := seeded), false)
  }

  class ActivityRoom {
    const root: string
    var activity: map<string, CardState>
    var file: map<string, CardState>
    ghost var log: seq<Entry>

    constructor (root: string, loaded: map<string, CardState>)
      ensures this.root == root && View() == Board(loaded, loaded, [])
    {
      this.root, activity, file, log := root, loaded, loaded, [];
    }

    ghost function View(): Board
      reads this
    {
      Board(activity, file, log)
    }

    method RememberCardUpdates(actions: seq<Action>)
      modifies this`activity
      ensures activity == Remembered(old(activity), root, actions)
    {
      for i := 0 to |actions|
        invariant Remembered(old(activity), root, actions) == Remembered(activity, root, actions[i..])
      {
        assert actions[i..][1..] == actions[i + 1..];
        activity := activity[actions[i].card.key := Told(root, actions[i])];
      }
    }

    method PostCards(actions: seq<Action>, post: Post) returns (ok: bool)
      modifies this
      ensures (View(), ok) == Posted(old(View()), root, actions, post)
    {
      if actions == [] {
        return true;
      }
      if post == Refused {
        return false;
      }
      log := log + Entries(actions, post.saved);
      RememberCardUpdates(actions);
      if post.saved {
        file := activity;
      }
      ok := post.saved;
    }

    method RememberQuietCards(cards: seq<Card>) returns (seeded: nat)
      modifies this`activity
      ensures activity == Seeded(old(activity), root, cards)
      ensures seeded == 0 <==> activity == old(activity)
    {
      seeded := 0;
      for i := 0 to |cards|
        invariant Seeded(old(activity), root, cards) == Seeded(activity, root, cards[i..])
        invariant old(activity).Keys <= activity.Keys
        invariant if seeded == 0 then activity == old(activity) else old(activity).Keys != activity.Keys
      {
        assert cards[i..][1..] == cards[i + 1..];
        if cards[i].key in activity {
          continue;
        }
        if !cards[i].done {
          continue;
        }
        activity := activity[cards[i].key := Quiet(root, cards[i])];
        seeded := seeded + 1;
        assert cards[i].key !in old(activity) && cards[i].key in activity;
      }
    }

    method CarryOutActivity(cards: seq<Card>, newsPost: Post, movesPost: Post, saves: bool)
      returns (carriedOut: nat, ok: bool)
      modifies this
      ensures (View(), ok) == Pass(old(View()), root, cards, newsPost, movesPost, saves)
      ensures ok ==> carriedOut == |PlanActivity(old(activity), cards)|
    {
      var actions := MakePlan(activity, cards);
      var news, moves := SplitCardUpdates(actions);
      carriedOut := 0;
      ok := PostCards(news, newsPost);
      if !ok {
        return;
      }
      ok := PostCards(moves, movesPost);
      if !ok {
        return;
      }
      var seeded := RememberQuietCards(cards);
      if seeded > 0 {
        if !saves {
          return 0, false;
        }
        file := activity;
      }
      carriedOut := |actions|;
    }
  }
}
