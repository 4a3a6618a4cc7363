/** What holds of a forge's activity room over whole runs. */
module ActivityRuns {
  import opened Text
  import opened Relay
  import opened Activity

  /** A board names each card once, and a card is done exactly in the done lane. */
  predicate GoodBoard(cards: seq<Card>) {
    && (forall i, j | 0 <= i < j < |cards| :: cards[i].key != cards[j].key)
    && (forall c | c in cards :: c.done <==> c.lane == DONE_LANE)
  }

  /** What is remembered as finished is what sits in the done lane. */
  predicate Consistent(activity: map<string, CardState>) {
    forall k | k in activity :: activity[k].reported == FINISHED <==> activity[k].lane == DONE_LANE
  }

  /** How many of some actions are about one card. */
  function About(actions: seq<Action>, key: string): nat {
    if actions == [] then 0 else (if actions[0].card.key == key then 1 else 0) + About(actions[1..], key)
  }

  /** How much the operator still has to hear about a card. */
  function Owed(activity: map<string, CardState>, card: Card): nat {
    |CardNews(activity, card)|
  }

  lemma {:induction false} AboutNone(actions: seq<Action>, key: string)
    ensures About(actions, key) == 0 <==> forall a | a in actions :: a.card.key != key
  {
    if actions != [] {
      AboutNone(actions[1..], key);
      assert forall a :: a in actions <==> a == actions[0] || a in actions[1..];
    }
  }

  lemma {:induction false} AboutConcat(a: seq<Action>, b: seq<Action>, key: string)
    ensures About(a + b, key) == About(a, key) + About(b, key)
  {
    if a == [] {
      assert a + b == b;
    } else {
      assert (a + b)[1..] == a[1..] + b;
      AboutConcat(a[1..], b, key);
    }
  }

  lemma {:induction false} AboutSplits(actions: seq<Action>, key: string)
    ensures About(Only(actions, false), key) + About(Only(actions, true), key) == About(actions, key)
  {
    if actions != [] {
      AboutSplits(actions[1..], key);
      AboutConcat(OneOf(actions[0], false), Only(actions[1..], false), key);
      AboutConcat(OneOf(actions[0], true), Only(actions[1..], true), key);
    }
  }

  lemma {:induction false} OnlyMembers(actions: seq<Action>, moves: bool, a: Action)
    requires a in Only(actions, moves)
    ensures a in actions && ((a.kind == CardMovedOn) <==> moves)
  {
    if a !in OneOf(actions[0], moves) {
      OnlyMembers(actions[1..], moves, a);
    }
  }

  lemma {:induction false} PlanMembers(activity: map<string, CardState>, cards: seq<Card>, a: Action)
    requires a in PlanActivity(activity, cards)
    ensures a.card in cards && a in CardNews(activity, a.card)
  {
    if a !in CardNews(activity, cards[0]) {
      PlanMembers(activity, cards[1..], a);
    }
  }

  /** The plan names a card of the board exactly as often as there is something to say of it. */
  lemma {:induction false} PlanSaysWhatIsOwed(activity: map<string, CardState>, cards: seq<Card>, card: Card)
    requires GoodBoard(cards) && card in cards
    ensures About(PlanActivity(activity, cards), card.key) == Owed(activity, card)
  {
    var first, rest := CardNews(activity, cards[0]), PlanActivity(activity, cards[1..]);
    AboutConcat(first, rest, card.key);
    assert GoodBoard(cards[1..]) by {
      assert forall i | 0 <= i < |cards[1..]| :: cards[1..][i] == cards[i + 1];
    }
    if card == cards[0] {
      forall a | a in rest ensures a.card.key != card.key {
        PlanMembers(activity, cards[1..], a);
        var i :| 0 <= i < |cards[1..]| && cards[1..][i] == a.card;
        assert cards[i + 1] == a.card;
      }
      AboutNone(rest, card.key);
    } else {
      var i :| 0 <= i < |cards| && cards[i] == card;
      assert cards[1..][i - 1] == card;
      PlanSaysWhatIsOwed(activity, cards[1..], card);
    }
  }

  /** Remembering a group leaves the cards it does not name alone. */
  lemma {:induction false} RememberedElsewhere(activity: map<string, CardState>, root: string, actions: seq<Action>,
                                               key: string)
    requires About(actions, key) == 0
    ensures var after := Remembered(activity, root, actions);
            (key in after <==> key in activity) && (key in after ==> after[key] == activity[key])
    decreases |actions|
  {
    if actions != [] {
      RememberedElsewhere(activity[actions[0].card.key := Told(root, actions[0])], root, actions[1..], key);
    }
  }

  /** And remembers each card it names once as told. */
  lemma {:induction false} RememberedHere(activity: map<string, CardState>, root: string, actions: seq<Action>,
                                          a: Action)
    requires About(actions, a.card.key) == 1 && a in actions
    ensures var after := Remembered(activity, root, actions);
            a.card.key in after && after[a.card.key] == Told(root, a)
    decreases |actions|
  {
    AboutNone(actions[1..], a.card.key);
    var next := activity[actions[0].card.key := Told(root, actions[0])];
    if actions[0].card.key == a.card.key {
      RememberedElsewhere(next, root, actions[1..], a.card.key);
    } else {
      RememberedHere(next, root, actions[1..], a);
    }
  }

  lemma {:induction false} SeededKeeps(activity: map<string, CardState>, root: string, cards: seq<Card>, key: string)
    requires key in activity
    ensures key in Seeded(activity, root, cards) && Seeded(activity, root, cards)[key] == activity[key]
    decreases |cards|
  {
    if cards != [] {
      SeededKeeps(if cards[0].key !in activity && cards[0].done then activity[cards[0].key := Quiet(root, cards[0])]
                  else activity,
                  root, cards[1..], key);
    }
  }

  lemma {:induction false} SeededNew(activity: map<string, CardState>, root: string, cards: seq<Card>, card: Card)
    requires GoodBoard(cards) && card in cards && card.key !in activity
    ensures var after := Seeded(activity, root, cards);
            if card.done then card.key in after && after[card.key] == Quiet(root, card) else card.key !in after
    decreases |cards|
  {
    var c := cards[0];
    var next := if c.key !in activity && c.done then activity[c.key := Quiet(root, c)] else activity;
    assert GoodBoard(cards[1..]) by {
      assert forall i | 0 <= i < |cards[1..]| :: cards[1..][i] == cards[i + 1];
    }
    if card == c {
      if card.done {
        SeededKeeps(next, root, cards[1..], card.key);
      } else {
        SeededElsewhere(next, root, cards[1..], card.key);
      }
    } else {
      var i :| 0 <= i < |cards| && cards[i] == card;
      assert cards[1..][i - 1] == card;
      SeededNew(next, root, cards[1..], card);
    }
  }

  lemma {:induction false} SeededElsewhere(activity: map<string, CardState>, root: string, cards: seq<Card>,
                                           key: string)
    requires key !in activity && forall i | 0 <= i < |cards| :: cards[i].key != key
    ensures key !in Seeded(activity, root, cards)
    decreases |cards|
  {
    if cards != [] {
      SeededElsewhere(if cards[0].key !in activity && cards[0].done then activity[cards[0].key := Quiet(root, cards[0])]
                      else activity,
                      root, cards[1..], key);
    }
  }

  // Conservation.

  /** How often one card's update is in the room, and how often the save after it failed. */
  function Announced(log: seq<Entry>, key: string): nat {
    if log == [] then 0 else (if log[0].action.card.key == key then 1 else 0) + Announced(log[1..], key)
  }

  function Lost(log: seq<Entry>, key: string): nat {
    if log == [] then 0 else (if log[0].action.card.key == key && !log[0].saved then 1 else 0) + Lost(log[1..], key)
  }

  lemma {:induction false} AnnouncedConcat(a: seq<Entry>, b: seq<Entry>, key: string)
    ensures Announced(a + b, key) == Announced(a, key) + Announced(b, key)
    ensures Lost(a + b, key) == Lost(a, key) + Lost(b, key)
  {
    if a == [] {
      assert a + b == b;
    } else {
      assert (a + b)[1..] == a[1..] + b;
      AnnouncedConcat(a[1..], b, key);
    }
  }

  lemma {:induction false} EntriesCount(actions: seq<Action>, saved: bool, key: string)
    ensures Announced(Entries(actions, saved), key) == About(actions, key)
    ensures Lost(Entries(actions, saved), key) == if saved then 0 else About(actions, key)
  {
    if actions != [] {
      EntriesCount(actions[1..], saved, key);
      assert Entries(actions, saved)[1..] == Entries(actions[1..], saved);
    }
  }

  /** A group of a plan that is still to be posted: it says of each card what is owed, or nothing. */
  predicate Current(activity: map<string, CardState>, actions: seq<Action>, card: Card) {
    && (About(actions, card.key) == 0 || About(actions, card.key) == Owed(activity, card))
    && forall a | a in actions && a.card.key == card.key :: a.card == card && a in CardNews(activity, card)
  }

  lemma OnlyOne(actions: seq<Action>, key: string) returns (a: Action)
    requires About(actions, key) > 0
    ensures a in actions && a.card.key == key
  {
    AboutNone(actions, key);
    a :| a in actions && a.card.key == key;
  }

  function Heard(b: Board, card: Card): nat {
    Announced(b.log, card.key)
  }

  function Unsaved(b: Board, card: Card): nat {
    Lost(b.log, card.key)
  }

  /** No more is said or still owed of a card than `total`, but for what was lost. */
  predicate Within(b: Board, card: Card, total: nat) {
    && Heard(b, card) + Owed(b.activity, card) <= total + Unsaved(b, card)
    && Heard(b, card) + Owed(b.file, card) <= total + Unsaved(b, card)
  }

  /** Posting a group moves what it says from owed to announced, and loses it only when the save
      after it fails. */
  lemma PostedConserves(b: Board, root: string, actions: seq<Action>, post: Post, card: Card)
    requires Current(b.activity, actions, card)
    ensures var (after, ok) := Posted(b, root, actions, post);
            && Heard(after, card) + Owed(after.activity, card) == Heard(b, card) + Owed(b.activity, card)
            && (ok && About(actions, card.key) > 0 ==> Owed(after.activity, card) == 0)
            && (About(actions, card.key) == 0 ==> CardNews(after.activity, card) == CardNews(b.activity, card))
            && (after.file == after.activity
                || (after.file == b.file
                    && Heard(after, card) - Heard(b, card) == Unsaved(after, card) - Unsaved(b, card)))
            && Unsaved(b, card) <= Unsaved(after, card)
  {
    hide Remembered, Entries, Announced, Lost;
    if actions != [] && post.Landed? {
      AnnouncedConcat(b.log, Entries(actions, post.saved), card.key);
      EntriesCount(actions, post.saved, card.key);
      if About(actions, card.key) == 0 {
        RememberedElsewhere(b.activity, root, actions, card.key);
      } else {
        var a := OnlyOne(actions, card.key);
        RememberedHere(b.activity, root, actions, a);
      }
    }
  }

  lemma PlanIsCurrent(activity: map<string, CardState>, cards: seq<Card>, moves: bool, card: Card)
    requires GoodBoard(cards) && card in cards
    ensures Current(activity, Only(PlanActivity(activity, cards), moves), card)
  {
    var plan := PlanActivity(activity, cards);
    var group := Only(plan, moves);
    PlanSaysWhatIsOwed(activity, cards, card);
    AboutSplits(plan, card.key);
    forall a | a in group && a.card.key == card.key ensures a.card == card && a in CardNews(activity, card) {
      OnlyMembers(plan, moves, a);
      PlanMembers(activity, cards, a);
      SameKeySameCard(cards, a.card, card);
    }
  }

  lemma SameKeySameCard(cards: seq<Card>, a: Card, b: Card)
    requires GoodBoard(cards) && a in cards && b in cards && a.key == b.key
    ensures a == b
  {
    var i :| 0 <= i < |cards| && cards[i] == a;
    var j :| 0 <= j < |cards| && cards[j] == b;
  }

  /** Remembering the history says nothing and forgets nothing. */
  lemma SeedingOwesNothing(activity: map<string, CardState>, root: string, cards: seq<Card>, card: Card)
    requires GoodBoard(cards) && card in cards
    ensures CardNews(Seeded(activity, root, cards), card) == CardNews(activity, card)
  {
    if card.key in activity {
      SeededKeeps(activity, root, cards, card.key);
    } else {
      SeededNew(activity, root, cards, card);
    }
  }

  /** What each group of a pass says of a card is what is owed of it when the group is posted. */
  lemma GroupsAreCurrent(b: Board, root: string, cards: seq<Card>, news: Post, card: Card)
    requires GoodBoard(cards) && card in cards
    ensures var plan := PlanActivity(b.activity, cards);
            var (b1, ok1) := Posted(b, root, Only(plan, false), news);
            && Current(b.activity, Only(plan, false), card)
            && About(Only(plan, false), card.key) + About(Only(plan, true), card.key) == Owed(b.activity, card)
            && (ok1 ==> Current(b1.activity, Only(plan, true), card))
  {
    hide PlanActivity, Posted, GoodBoard, Only, CardNews, Announced, Lost, About, Current;
    var plan := PlanActivity(b.activity, cards);
    PlanIsCurrent(b.activity, cards, false, card);
    PlanIsCurrent(b.activity, cards, true, card);
    PlanSaysWhatIsOwed(b.activity, cards, card);
    AboutSplits(plan, card.key);
    PostedConserves(b, root, Only(plan, false), news, card);
    var (b1, ok1) := Posted(b, root, Only(plan, false), news);
    if ok1 {
      StillCurrent(b, b1, Only(plan, false), Only(plan, true), card);
    }
  }

  /** One pass over an unchanged board: what is owed of a card and what was said of it add up to
      the same as before, whatever failed; and after a pass that succeeds nothing is owed. */
  lemma PassConserves(b: Board, root: string, cards: seq<Card>, news: Post, moves: Post, saves: bool, card: Card)
    requires GoodBoard(cards) && card in cards
    ensures var (after, ok) := Pass(b, root, cards, news, moves, saves);
            && Heard(after, card) + Owed(after.activity, card) == Heard(b, card) + Owed(b.activity, card)
            && (ok ==> Owed(after.activity, card) == 0)
  {
    hide PlanActivity, Posted, Seeded, CardNews, GoodBoard, Only, Announced, Lost, About, Current;
    var plan := PlanActivity(b.activity, cards);
    GroupsAreCurrent(b, root, cards, news, card);
    PostedConserves(b, root, Only(plan, false), news, card);
    var (b1, ok1) := Posted(b, root, Only(plan, false), news);
    if ok1 {
      PostedConserves(b1, root, Only(plan, true), moves, card);
      SeedingOwesNothing(Posted(b1, root, Only(plan, true), moves).0.activity, root, cards, card);
    }
  }

  /** And no more is said or owed of it than before, in memory and in the file, but for what was lost. */
  lemma PassStaysWithin(b: Board, root: string, cards: seq<Card>, news: Post, moves: Post, saves: bool, card: Card,
                        total: nat)
    requires GoodBoard(cards) && card in cards && Within(b, card, total)
    ensures Within(Pass(b, root, cards, news, moves, saves).0, card, total)
  {
    hide PlanActivity, Posted, Seeded, CardNews, GoodBoard, Only, Announced, Lost, About, Current;
    var plan := PlanActivity(b.activity, cards);
    GroupsAreCurrent(b, root, cards, news, card);
    PostedConserves(b, root, Only(plan, false), news, card);
    var (b1, ok1) := Posted(b, root, Only(plan, false), news);
    if ok1 {
      PostedConserves(b1, root, Only(plan, true), moves, card);
      SeedingOwesNothing(Posted(b1, root, Only(plan, true), moves).0.activity, root, cards, card);
    }
  }

  lemma StillCurrent(b: Board, b1: Board, first: seq<Action>, second: seq<Action>, card: Card)
    requires Current(b.activity, first, card) && Current(b.activity, second, card)
    requires About(first, card.key) + About(second, card.key) == Owed(b.activity, card)
    requires About(first, card.key) == 0 ==> CardNews(b1.activity, card) == CardNews(b.activity, card)
    ensures Current(b1.activity, second, card)
  {
    if About(first, card.key) != 0 {
      AboutNone(second, card.key);
    }
  }

  // Another forge's board.

  predicate SameCard(a: map<string, CardState>, b: map<string, CardState>, key: string) {
    (key in a <==> key in b) && (key in a ==> a[key] == b[key])
  }

  /** Nothing of one card is changed: not what is remembered of it, not what the file holds of it but
      for a save of the whole bookkeeping, and nothing was said of it. */
  predicate LeavesAlone(b: Board, after: Board, key: string) {
    && SameCard(b.activity, after.activity, key)
    && (SameCard(b.file, after.file, key) || SameCard(b.activity, after.file, key))
    && Announced(after.log, key) == Announced(b.log, key) && Lost(after.log, key) == Lost(b.log, key)
  }

  lemma PostedLeavesAlone(b: Board, root: string, actions: seq<Action>, post: Post, key: string)
    requires forall a | a in actions :: a.card.key != key
    ensures LeavesAlone(b, Posted(b, root, actions, post).0, key)
  {
    hide Remembered, Entries, Announced, Lost;
    AboutNone(actions, key);
    if actions != [] && post.Landed? {
      RememberedElsewhere(b.activity, root, actions, key);
      AnnouncedConcat(b.log, Entries(actions, post.saved), key);
      EntriesCount(actions, post.saved, key);
    }
  }

  lemma {:induction false} SeededLeavesAlone(activity: map<string, CardState>, root: string, cards: seq<Card>,
                                             key: string)
    requires forall c | c in cards :: c.key != key
    ensures SameCard(activity, Seeded(activity, root, cards), key)
    decreases |cards|
  {
    if cards != [] {
      assert cards[0] in cards;
      var next := if cards[0].key !in activity && cards[0].done
                  then activity[cards[0].key := Quiet(root, cards[0])] else activity;
      SeededLeavesAlone(next, root, cards[1..], key);
    }
  }

  lemma GroupIsOnTheBoard(activity: map<string, CardState>, cards: seq<Card>, moves: bool, a: Action)
    requires a in Only(PlanActivity(activity, cards), moves)
    ensures a.card in cards
  {
    OnlyMembers(PlanActivity(activity, cards), moves, a);
    PlanMembers(activity, cards, a);
  }

  /** A pass over one forge's board, whatever fails, leaves the cards of every other board alone. */
  lemma PassLeavesOthersAlone(b: Board, root: string, cards: seq<Card>, news: Post, moves: Post, saves: bool,
                              key: string)
    requires forall c | c in cards :: c.key != key
    ensures LeavesAlone(b, Pass(b, root, cards, news, moves, saves).0, key)
  {
    hide PlanActivity, Posted, Seeded, Only, Announced, Lost;
    var plan := PlanActivity(b.activity, cards);
    forall group, a | a in Only(plan, group) ensures a.card.key != key {
      GroupIsOnTheBoard(b.activity, cards, group, a);
    }
    PostedLeavesAlone(b, root, Only(plan, false), news, key);
    var (b1, _) := Posted(b, root, Only(plan, false), news);
    PostedLeavesAlone(b1, root, Only(plan, true), moves, key);
    var (b2, _) := Posted(b1, root, Only(plan, true), moves);
    SeededLeavesAlone(b2.activity, root, cards, key);
  }

  // Over a run.

  /** A pass over the same board, a pass over another forge's board, a restart from the state file,
      or a save by another part of the bridge. */
  datatype Step =
    | Read(news: Post, moves: Post, saves: bool)
    | ReadElsewhere(root: string, cards: seq<Card>, news: Post, moves: Post, saves: bool)
    | Restart
    | SavedElsewhere

  function Do(b: Board, root: string, cards: seq<Card>, step: Step): Board {
    match step
    case Read(news, moves, saves) => Pass(b, root, cards, news, moves, saves).0
    case ReadElsewhere(other, theirs, news, moves, saves) => Pass(b, other, theirs, news, moves, saves).0
    case Restart => b.(activity := b.file)
    case SavedElsewhere => b.(file := b.activity)
  }

  /** No other board has a card of this key. */
  predicate OwnCard(steps: seq<Step>, key: string) {
    forall step | step in steps && step.ReadElsewhere? :: forall c | c in step.cards :: c.key != key
  }

  lemma LeftAloneOwesTheSame(b: Board, after: Board, card: Card)
    requires LeavesAlone(b, after, card.key)
    ensures Heard(after, card) == Heard(b, card) && Unsaved(after, card) == Unsaved(b, card)
    ensures Owed(after.activity, card) == Owed(b.activity, card)
    ensures Owed(after.file, card) in {Owed(b.file, card), Owed(b.activity, card)}
  {
    hide Announced, Lost;
  }

  function Run(b: Board, root: string, cards: seq<Card>, steps: seq<Step>): Board
    decreases |steps|
  {
    if steps == [] then b else Run(Do(b, root, cards, steps[0]), root, cards, steps[1..])
  }

  lemma StepStaysWithin(b: Board, root: string, cards: seq<Card>, step: Step, card: Card, total: nat)
    requires GoodBoard(cards) && card in cards && Within(b, card, total) && OwnCard([step], card.key)
    ensures Within(Do(b, root, cards, step), card, total)
  {
    assert step in [step];
    hide Pass, GoodBoard, Announced, Lost, Owed, LeavesAlone;
    if step.Read? {
      PassStaysWithin(b, root, cards, step.news, step.moves, step.saves, card, total);
    } else if step.ReadElsewhere? {
      PassLeavesOthersAlone(b, step.root, step.cards, step.news, step.moves, step.saves, card.key);
      LeftAloneOwesTheSame(b, Do(b, root, cards, step), card);
    }
  }

  lemma {:induction false} RunStaysWithin(b: Board, root: string, cards: seq<Card>, steps: seq<Step>, card: Card,
                                          total: nat)
    requires GoodBoard(cards) && card in cards && Within(b, card, total) && OwnCard(steps, card.key)
    ensures Within(Run(b, root, cards, steps), card, total)
    decreases |steps|
  {
    hide Pass, GoodBoard, Heard, Unsaved, Owed, Within;
    if steps != [] {
      assert steps[0] in steps && forall step | step in steps[1..] :: step in steps;
      assert Within(Do(b, root, cards, steps[0]), card, total) by {
        StepStaysWithin(b, root, cards, steps[0], card, total);
      }
      RunStaysWithin(Do(b, root, cards, steps[0]), root, cards, steps[1..], card, total);
    }
  }

  /** While the board stays as it is, over any passes over any boards, failures and restarts, a card's
      change is announced at most once more than its announcements that were not saved. */
  lemma ChangeIsAnnouncedOnce(activity: map<string, CardState>, root: string, cards: seq<Card>, steps: seq<Step>,
                              card: Card)
    requires GoodBoard(cards) && card in cards && OwnCard(steps, card.key)
    ensures var end := Run(Board(activity, activity, []), root, cards, steps);
            Heard(end, card) <= Owed(activity, card) + Unsaved(end, card) <= 1 + Unsaved(end, card)
  {
    RunStaysWithin(Board(activity, activity, []), root, cards, steps, card, Owed(activity, card));
  }

  predicate NoRestart(steps: seq<Step>) {
    forall step | step in steps :: !step.Restart?
  }

  lemma {:induction false} RunConserves(b: Board, root: string, cards: seq<Card>, steps: seq<Step>, card: Card)
    requires GoodBoard(cards) && card in cards && NoRestart(steps) && OwnCard(steps, card.key)
    ensures var end := Run(b, root, cards, steps);
            Heard(end, card) + Owed(end.activity, card) == Heard(b, card) + Owed(b.activity, card)
    decreases |steps|
  {
    hide Pass, GoodBoard, Announced, Owed, LeavesAlone;
    if steps != [] {
      var step := steps[0];
      assert step in steps && forall later | later in steps[1..] :: later in steps;
      if step.Read? {
        PassConserves(b, root, cards, step.news, step.moves, step.saves, card);
      } else if step.ReadElsewhere? {
        PassLeavesOthersAlone(b, step.root, step.cards, step.news, step.moves, step.saves, card.key);
        LeftAloneOwesTheSame(b, Do(b, root, cards, step), card);
      }
      RunConserves(Do(b, root, cards, steps[0]), root, cards, steps[1..], card);
    }
  }

  /** And while the bridge keeps running it is announced exactly once, as soon as a pass succeeds,
      however many passes failed before and whether or not their saves went through. */
  lemma ChangeIsAnnouncedExactlyOnce(activity: map<string, CardState>, root: string, cards: seq<Card>, steps: seq<Step>,
                                     news: Post, moves: Post, saves: bool, card: Card)
    requires GoodBoard(cards) && card in cards && NoRestart(steps) && OwnCard(steps, card.key)
    ensures var before := Run(Board(activity, activity, []), root, cards, steps);
            var (end, ok) := Pass(before, root, cards, news, moves, saves);
            ok ==> Heard(end, card) == Owed(activity, card) && PlanActivity(end.activity, cards) == []
  {
    var before := Run(Board(activity, activity, []), root, cards, steps);
    RunConserves(Board(activity, activity, []), root, cards, steps, card);
    PassConserves(before, root, cards, news, moves, saves, card);
    var (end, ok) := Pass(before, root, cards, news, moves, saves);
    if ok && PlanActivity(end.activity, cards) != [] {
      var a := PlanActivity(end.activity, cards)[0];
      PlanMembers(end.activity, cards, a);
      PassConserves(before, root, cards, news, moves, saves, a.card);
    }
  }

  // What is remembered.

  lemma {:induction false} RememberedIsConsistent(activity: map<string, CardState>, root: string, actions: seq<Action>)
    requires Consistent(activity) && forall a | a in actions :: a.kind == CardFinished <==> a.card.lane == DONE_LANE
    ensures Consistent(Remembered(activity, root, actions))
    decreases |actions|
  {
    if actions != [] {
      assert actions[0] in actions;
      RememberedIsConsistent(activity[actions[0].card.key := Told(root, actions[0])], root, actions[1..]);
    }
  }

  lemma {:induction false} SeededIsConsistent(activity: map<string, CardState>, root: string, cards: seq<Card>)
    requires Consistent(activity) && forall c | c in cards :: c.done <==> c.lane == DONE_LANE
    ensures Consistent(Seeded(activity, root, cards))
    decreases |cards|
  {
    if cards != [] {
      assert cards[0] in cards;
      SeededIsConsistent(if cards[0].key !in activity && cards[0].done
                         then activity[cards[0].key := Quiet(root, cards[0])] else activity,
                         root, cards[1..]);
    }
  }

  lemma GroupIsHonest(activity: map<string, CardState>, cards: seq<Card>, moves: bool, a: Action)
    requires GoodBoard(cards) && a in Only(PlanActivity(activity, cards), moves)
    ensures a.kind == CardFinished <==> a.card.lane == DONE_LANE
  {
    OnlyMembers(PlanActivity(activity, cards), moves, a);
    PlanMembers(activity, cards, a);
  }

  /** Whatever fails, what is remembered as finished stays what sits in the done lane. */
  lemma PassIsConsistent(b: Board, root: string, cards: seq<Card>, news: Post, moves: Post, saves: bool)
    requires GoodBoard(cards) && Consistent(b.activity) && Consistent(b.file)
    ensures var (after, ok) := Pass(b, root, cards, news, moves, saves);
            Consistent(after.activity) && Consistent(after.file)
  {
    hide Consistent, PlanActivity, Only;
    var plan := PlanActivity(b.activity, cards);
    forall moves: bool, a | a in Only(plan, moves) ensures a.kind == CardFinished <==> a.card.lane == DONE_LANE {
      GroupIsHonest(b.activity, cards, moves, a);
    }
    RememberedIsConsistent(b.activity, root, Only(plan, false));
    var (b1, ok1) := Posted(b, root, Only(plan, false), news);
    RememberedIsConsistent(b1.activity, root, Only(plan, true));
    var (b2, ok2) := Posted(b1, root, Only(plan, true), moves);
    SeededIsConsistent(b2.activity, root, cards);
  }

  /** After a pass that succeeds, what is remembered of each card is where the board has it. */
  lemma PassRemembersTheBoard(b: Board, root: string, cards: seq<Card>, news: Post, moves: Post, saves: bool,
                              card: Card)
    requires GoodBoard(cards) && card in cards && Consistent(b.activity) && Consistent(b.file)
    ensures var (after, ok) := Pass(b, root, cards, news, moves, saves);
            ok ==> card.key in after.activity && after.activity[card.key].lane == card.lane
                   && (after.activity[card.key].reported == FINISHED <==> card.done)
  {
    PassConserves(b, root, cards, news, moves, saves, card);
    PassIsConsistent(b, root, cards, news, moves, saves);
    var (after, ok) := Pass(b, root, cards, news, moves, saves);
    if ok && card.key !in after.activity {
      PassSeeds(b, root, cards, news, moves, saves, card);
    }
  }

  lemma PassSeeds(b: Board, root: string, cards: seq<Card>, news: Post, moves: Post, saves: bool, card: Card)
    requires GoodBoard(cards) && card in cards && card.done && Pass(b, root, cards, news, moves, saves).1
    ensures card.key in Pass(b, root, cards, news, moves, saves).0.activity
  {
    hide PlanActivity, Only, GoodBoard;
    var plan := PlanActivity(b.activity, cards);
    var (b1, ok1) := Posted(b, root, Only(plan, false), news);
    var (b2, ok2) := Posted(b1, root, Only(plan, true), moves);
    if card.key in b2.activity {
      SeededKeeps(b2.activity, root, cards, card.key);
    } else {
      SeededNew(b2.activity, root, cards, card);
    }
  }
}
