/** The work one forge still owes a room (internal/bridge/pending.go). */
module PendingWork {
  import opened Text

  /** The work of some keys, in their order. */
  function InOrder<T>(items: map<string, T>, keys: seq<string>): (r: seq<T>)
    requires forall k | k in keys :: k in items
    ensures |r| == |keys| && forall i | 0 <= i < |keys| :: r[i] == items[keys[i]]
  {
    if keys == [] then [] else [items[keys[0]]] + InOrder(items, keys[1..])
  }

  /** The work waiting, in the order of its keys. */
  function Listed<T>(items: map<string, T>): seq<T> {
    InOrder(items, Sorted(items.Keys))
  }

  /** The work once a plan is kept: a later action replaces the one with its key. */
  function Kept<T>(items: map<string, T>, keyOf: T -> string, actions: seq<T>): map<string, T>
    decreases |actions|
  {
    if actions == [] then items else Kept(items[keyOf(actions[0]) := actions[0]], keyOf, actions[1..])
  }

  /** Each kept action was kept before or was planned, under its own key. */
  lemma {:induction false} KeptMembers<T>(items: map<string, T>, keyOf: T -> string, actions: seq<T>, k: string)
    requires k in Kept(items, keyOf, actions)
    ensures (k in items && Kept(items, keyOf, actions)[k] == items[k])
            || (Kept(items, keyOf, actions)[k] in actions && keyOf(Kept(items, keyOf, actions)[k]) == k)
    decreases |actions|
  {
    if actions != [] {
      KeptMembers(items[keyOf(actions[0]) := actions[0]], keyOf, actions[1..], k);
    }
  }

  /** Under each key the last action planned with it is kept, and where none was, what was kept before. */
  lemma {:induction false} KeptIsLatest<T>(items: map<string, T>, keyOf: T -> string, actions: seq<T>, k: string)
    ensures var kept := Kept(items, keyOf, actions);
            if exists a | a in actions :: keyOf(a) == k
            then k in kept && exists i | 0 <= i < |actions| ::
              keyOf(actions[i]) == k && kept[k] == actions[i] && forall j | i < j < |actions| :: keyOf(actions[j]) != k
            else (k in kept <==> k in items) && (k in kept ==> kept[k] == items[k])
    decreases |actions|
  {
    if actions != [] {
      var rest, kept := actions[1..], Kept(items, keyOf, actions);
      KeptIsLatest(items[keyOf(actions[0]) := actions[0]], keyOf, rest, k);
      assert forall i | 0 <= i < |rest| :: rest[i] == actions[i + 1];
      if a :| a in rest && keyOf(a) == k {
        var i :| 0 <= i < |rest| && keyOf(rest[i]) == k && kept[k] == rest[i]
                 && forall j | i < j < |rest| :: keyOf(rest[j]) != k;
        assert keyOf(actions[i + 1]) == k && kept[k] == actions[i + 1];
        forall j | i + 1 < j < |actions| ensures keyOf(actions[j]) != k {
          assert actions[j] == rest[j - 1];
        }
      } else if keyOf(actions[0]) == k {
        forall j | 0 < j < |actions| ensures keyOf(actions[j]) != k {
          assert actions[j] == rest[j - 1] && rest[j - 1] in rest;
        }
      }
    }
  }

  /** Nothing kept or planned is left out. */
  lemma {:induction false} KeptKeys<T>(items: map<string, T>, keyOf: T -> string, actions: seq<T>)
    ensures forall k | k in items :: k in Kept(items, keyOf, actions)
    ensures forall a | a in actions :: keyOf(a) in Kept(items, keyOf, actions)
    decreases |actions|
  {
    if actions != [] {
      KeptKeys(items[keyOf(actions[0]) := actions[0]], keyOf, actions[1..]);
    }
  }

  /** An action the forge refused is kept, keyed by what makes it the same piece of work. */
  class Work<T> {
    const keyOf: T -> string
    var items: map<string, T>

    constructor (keyOf: T -> string)
      ensures this.keyOf == keyOf && items == map[]
    {
      this.keyOf := keyOf;
      items := map[];
    }

    method Keep(action: T)
      modifies this
      ensures items == old(items)[keyOf(action) := action]
    {
      items := items[keyOf(action) := action];
    }

    method KeepAll(actions: seq<T>)
      modifies this
      ensures items == Kept(old(items), keyOf, actions)
    {
      for i := 0 to |actions|
        invariant Kept(old(items), keyOf, actions) == Kept(items, keyOf, actions[i..])
      {
        assert actions[i..][1..] == actions[i + 1..];
        Keep(actions[i]);
      }
    }

    method Done(action: T)
      modifies this
      ensures items == old(items) - {keyOf(action)}
    {
      items := items - {keyOf(action)};
    }

    /** How many pieces the next tick will try. */
    method Count() returns (n: nat)
      ensures n == |Listed(items)|
    {
      n := |items|;
      assert |items| == |items.Keys|;
    }

    method List() returns (kept: seq<T>)
      ensures kept == Listed(items)
    {
      var keys := Sorted(items.Keys);
      kept := [];
      for i := 0 to |keys|
        invariant |kept| == i && forall j | 0 <= j < i :: kept[j] == items[keys[j]]
      {
        kept := kept + [items[keys[i]]];
      }
    }
  }
}
