/** The write-through mirror of the state events a room carries (internal/bridge/facts.go). */
module Facts {
  import opened Options
  import opened Text
  import opened Relay
  import opened WaitingKeys

  /** One waiting fact: its state key and its content, written as the one string two readings are
      compared by. */
  datatype Fact = Fact(key: string, content: string)

  /** Where a room holds a state event: the room, the event type and the state key. */
  type Place = (string, string, string)

  /** The facts of a room by state key: a later one with the same key replaces an earlier. */
  function ByKey(facts: seq<Fact>): map<string, string> {
    if facts == [] then map[]
    else ByKey(facts[..|facts| - 1])[facts[|facts| - 1].key := facts[|facts| - 1].content]
  }

  /** The content a key stands for is the last fact's with that key. */
  lemma {:induction false} ByKeyIsLast(facts: seq<Fact>, key: string)
    ensures if exists f | f in facts :: f.key == key
            then key in ByKey(facts) && exists i | 0 <= i < |facts| ::
              facts[i].key == key && ByKey(facts)[key] == facts[i].content
              && forall j | i < j < |facts| :: facts[j].key != key
            else key !in ByKey(facts)
  {
    if facts != [] {
      var last, rest := facts[|facts| - 1], facts[..|facts| - 1];
      assert facts == rest + [last];
      ByKeyIsLast(rest, key);
      if last.key != key && exists f | f in rest :: f.key == key {
        var i :| 0 <= i < |rest| && rest[i].key == key && ByKey(rest)[key] == rest[i].content
                 && forall j | i < j < |rest| :: rest[j].key != key;
        assert facts[i] == rest[i] && forall j | i < j < |facts| :: facts[j].key != key;
      } else if last.key == key {
        assert facts[|facts| - 1].key == key && ByKey(facts)[key] == facts[|facts| - 1].content;
      }
    }
  }

  method FactsByKey(facts: seq<Fact>) returns (desired: map<string, string>)
    ensures desired == ByKey(facts)
  {
    desired := map[];
    for i := 0 to |facts|
      invariant desired == ByKey(facts[..i])
    {
      assert facts[..i + 1][..i] == facts[..i];
      desired := desired[facts[i].key := facts[i].content];
    }
    assert facts[..|facts|] == facts;
  }

  /** What a write is remembered under is exactly what the rooms hold, and the other way round. */
  ghost predicate Mirrored(waiting: map<string, string>, held: map<Place, string>) {
    && (forall k | k in waiting :: SplitWaiting(k).ok && HeldAs(waiting, held, k))
    && (forall t | t in held :: OneLine(t.0) && OneLine(t.1) && WaitingKey(t.0, t.1, t.2) in waiting)
  }

  ghost predicate HeldAs(waiting: map<string, string>, held: map<Place, string>, k: string)
    requires k in waiting
  {
    var p := SplitWaiting(k);
    (p.roomID, p.factType, p.stateKey) in held && held[(p.roomID, p.factType, p.stateKey)] == waiting[k]
  }

  /** What a place is remembered under reads back as that place. */
  lemma HeldIsRemembered(waiting: map<string, string>, held: map<Place, string>, t: Place)
    requires Mirrored(waiting, held) && t in held
    ensures OneLine(t.0) && OneLine(t.1) && WaitingKey(t.0, t.1, t.2) in waiting
    ensures SplitWaiting(WaitingKey(t.0, t.1, t.2)) == WaitingParts(t.0, t.1, t.2, true)
  {
    hide WaitingKey, SplitWaiting, OneLine;
    WaitingKeyRoundTrip(t.0, t.1, t.2);
  }

  lemma MirroredAt(waiting: map<string, string>, held: map<Place, string>, t: Place)
    requires Mirrored(waiting, held) && OneLine(t.0) && OneLine(t.1)
    ensures WaitingKey(t.0, t.1, t.2) in waiting <==> t in held
    ensures t in held ==> held[t] == waiting[WaitingKey(t.0, t.1, t.2)]
  {
    WaitingKeyRoundTrip(t.0, t.1, t.2);
    var k := WaitingKey(t.0, t.1, t.2);
    if k in waiting {
      assert HeldAs(waiting, held, k);
    }
  }

  lemma MirroredPut(waiting: map<string, string>, held: map<Place, string>, t: Place, content: string)
    requires Mirrored(waiting, held) && OneLine(t.0) && OneLine(t.1)
    ensures Mirrored(waiting[WaitingKey(t.0, t.1, t.2) := content], held[t := content])
  {
    hide WaitingKey, SplitWaiting, OneLine, HeldAs;
    var key := WaitingKey(t.0, t.1, t.2);
    WaitingKeyRoundTrip(t.0, t.1, t.2);
    var waiting', held' := waiting[key := content], held[t := content];
    forall k | k in waiting' ensures SplitWaiting(k).ok && HeldAs(waiting', held', k) {
      PutHolds(waiting, held, t, content, k);
    }
  }

  lemma PutHolds(waiting: map<string, string>, held: map<Place, string>, t: Place, content: string, k: string)
    requires OneLine(t.0) && OneLine(t.1)
    requires k != WaitingKey(t.0, t.1, t.2) ==> k in waiting && SplitWaiting(k).ok && HeldAs(waiting, held, k)
    ensures HeldAs(waiting[WaitingKey(t.0, t.1, t.2) := content], held[t := content], k)
  {
    hide WaitingKey, SplitWaiting, OneLine;
    WaitingKeyRoundTrip(t.0, t.1, t.2);
    if k != WaitingKey(t.0, t.1, t.2) {
      SplitWaitingWrites(k);
    }
  }

  lemma MirroredDrop(waiting: map<string, string>, held: map<Place, string>, t: Place)
    requires Mirrored(waiting, held) && OneLine(t.0) && OneLine(t.1)
    ensures Mirrored(waiting - {WaitingKey(t.0, t.1, t.2)}, held - {t})
  {
    hide WaitingKey, SplitWaiting, OneLine;
    var key := WaitingKey(t.0, t.1, t.2);
    WaitingKeyRoundTrip(t.0, t.1, t.2);
    var waiting', held' := waiting - {key}, held - {t};
    forall k | k in waiting' ensures SplitWaiting(k).ok && HeldAs(waiting', held', k) {
      assert HeldAs(waiting, held, k);
      SplitWaitingWrites(k);
    }
    forall u | u in held' ensures WaitingKey(u.0, u.1, u.2) in waiting' {
      WaitingKeyRoundTrip(u.0, u.1, u.2);
    }
  }

  /** The rooms' state, as the homeserver holds it, and what is to become of the calls to come:
      the id of the event written, or nothing when the call fails. */
  class Rooms {
    var held: map<Place, string>
    var luck: seq<Option<string>>
    ghost var calls: nat

    constructor (held: map<Place, string>, luck: seq<Option<string>>)
      ensures this.held == held && this.luck == luck && calls == 0
    {
      this.held, this.luck, calls := held, luck, 0;
    }

    /** Writes a state event, or clears it when `content` is missing. */
    method SetState(roomID: string, factType: string, stateKey: string, content: Option<string>)
      returns (eventID: Option<string>)
      modifies this
      ensures calls == old(calls) + 1
      ensures eventID == (if old(luck) == [] then None else old(luck)[0])
      ensures eventID == None ==> held == old(held)
      ensures eventID.Some? ==> held == match content
                                        case Some(c) => old(held)[(roomID, factType, stateKey) := c]
                                        case None => old(held) - {(roomID, factType, stateKey)}
    {
      calls := calls + 1;
      eventID := if luck == [] then None else luck[0];
      luck := if luck == [] then [] else luck[1..];
      if eventID.Some? {
        match content {
          case Some(c) => held := held[(roomID, factType, stateKey) := c];
          case None => held := held - {(roomID, factType, stateKey)};
        }
      }
    }
  }

  /** The facts of one room and type the rooms hold. */
  ghost predicate Holds(held: map<Place, string>, roomID: string, factType: string, key: string, content: string) {
    (roomID, factType, key) in held && held[(roomID, factType, key)] == content
  }

  /** Every place outside one room and type is as it was. */
  ghost predicate OthersKept(before: map<Place, string>, after: map<Place, string>, roomID: string, factType: string) {
    forall t: Place | t.0 != roomID || t.1 != factType ::
        (t in after <==> t in before) && (t in after ==> after[t] == before[t])
  }

  /** The place of one key is as it was. */
  ghost predicate PlaceKept(before: map<Place, string>, after: map<Place, string>, roomID: string, factType: string,
                            key: string) {
    var t := (roomID, factType, key);
    (t in after <==> t in before) && (t in after ==> after[t] == before[t])
  }

  /** The keys a room does not hold as wanted. */
  function ToWrite(held: map<Place, string>, roomID: string, factType: string,
                   desired: map<string, string>): set<string> {
    set k | k in desired && !((roomID, factType, k) in held && held[(roomID, factType, k)] == desired[k])
  }

  /** The keys a room holds and should not. */
  function ToClear(held: map<Place, string>, roomID: string, factType: string,
                   desired: map<string, string>): set<string> {
    set t | t in held && t.0 == roomID && t.1 == factType && t.2 !in desired :: t.2
  }

  /** A room carries exactly the wanted facts of one type. */
  ghost predicate Carries(held: map<Place, string>, roomID: string, factType: string, desired: map<string, string>) {
    && (forall k | k in desired :: Holds(held, roomID, factType, k, desired[k]))
    && (forall k | (roomID, factType, k) in held :: k in desired)
  }

  function Places(roomID: string, factType: string, keys: set<string>): set<Place> {
    set k | k in keys :: (roomID, factType, k)
  }

  /** An entry that clearing one room and type has no business with. */
  ghost predicate Settled(k: string, roomID: string, factType: string, desired: map<string, string>) {
    var p := SplitWaiting(k);
    p.ok && p.roomID == roomID && p.factType == factType ==> p.stateKey in desired
  }

  lemma PlacesGrow(held: map<Place, string>, roomID: string, factType: string, gone: set<string>, key: string)
    ensures held - Places(roomID, factType, gone) - {(roomID, factType, key)}
            == held - Places(roomID, factType, gone + {key})
  {
    assert Places(roomID, factType, gone + {key}) == Places(roomID, factType, gone) + {(roomID, factType, key)};
  }

  /** A remembered fact that is no longer wanted is held and not cleared yet. */
  lemma StillToClear(waiting: map<string, string>, held: map<Place, string>, start: map<Place, string>, k: string,
                     gone: set<string>, desired: map<string, string>)
    requires Mirrored(waiting, held) && k in waiting && SplitWaiting(k).stateKey !in desired
    requires held == start - Places(SplitWaiting(k).roomID, SplitWaiting(k).factType, gone)
    ensures var p := SplitWaiting(k);
            && p.stateKey in ToClear(start, p.roomID, p.factType, desired) && p.stateKey !in gone
            && WaitingKey(p.roomID, p.factType, p.stateKey) == k
  {
    hide SplitWaiting, WaitingKey;
    var p := SplitWaiting(k);
    assert HeldAs(waiting, held, k);
    SplitWaitingWrites(k);
    assert p.stateKey in gone ==> (p.roomID, p.factType, p.stateKey) in Places(p.roomID, p.factType, gone);
  }

  lemma NothingToClear(waiting: map<string, string>, held: map<Place, string>, roomID: string, factType: string,
                       desired: map<string, string>)
    requires Mirrored(waiting, held) && forall k | k in waiting :: Settled(k, roomID, factType, desired)
    ensures ToClear(held, roomID, factType, desired) == {}
  {
    hide SplitWaiting, WaitingKey, Mirrored, OneLine;
    forall t | t in held && t.0 == roomID && t.1 == factType ensures t.2 in desired {
      HeldIsRemembered(waiting, held, t);
      assert Settled(WaitingKey(t.0, t.1, t.2), roomID, factType, desired);
    }
  }

  lemma AllCleared(start: map<Place, string>, held: map<Place, string>, roomID: string, factType: string,
                   gone: set<string>, desired: map<string, string>)
    requires gone <= ToClear(start, roomID, factType, desired) && held == start - Places(roomID, factType, gone)
    requires ToClear(held, roomID, factType, desired) == {}
    ensures gone == ToClear(start, roomID, factType, desired)
  {
    forall k | k in ToClear(start, roomID, factType, desired) ensures k in gone {
      assert (roomID, factType, k) in start && (k in gone || (roomID, factType, k) in held);
      assert k !in ToClear(held, roomID, factType, desired);
    }
  }

  /** Writing leaves what there is to clear. */
  lemma ToClearKept(start: map<Place, string>, held: map<Place, string>, roomID: string, factType: string,
                    desired: map<string, string>)
    requires forall k | k !in desired :: PlaceKept(start, held, roomID, factType, k)
    ensures ToClear(held, roomID, factType, desired) == ToClear(start, roomID, factType, desired)
  {
    forall k | k !in desired ensures (roomID, factType, k) in held <==> (roomID, factType, k) in start {
      assert PlaceKept(start, held, roomID, factType, k);
    }
  }

  /** What a room already carries is neither to be written nor to be cleared. */
  lemma NothingToDo(held: map<Place, string>, roomID: string, factType: string, desired: map<string, string>)
    ensures Carries(held, roomID, factType, desired)
            <==> ToWrite(held, roomID, factType, desired) == {} && ToClear(held, roomID, factType, desired) == {}
  {
    if ToWrite(held, roomID, factType, desired) == {} && ToClear(held, roomID, factType, desired) == {} {
      forall k | k in desired ensures Holds(held, roomID, factType, k, desired[k]) {
        assert k !in ToWrite(held, roomID, factType, desired);
      }
      forall k | (roomID, factType, k) in held ensures k in desired {
        assert k !in ToClear(held, roomID, factType, desired);
      }
    }
    if Carries(held, roomID, factType, desired) {
      forall k | k in desired ensures k !in ToWrite(held, roomID, factType, desired) {
        assert Holds(held, roomID, factType, k, desired[k]);
      }
    }
  }

  lemma {:induction false} ByKeyContents(facts: seq<Fact>)
    requires forall f | f in facts :: f.content != ""
    ensures forall k | k in ByKey(facts) :: ByKey(facts)[k] != ""
  {
    if facts != [] {
      assert facts[|facts| - 1] in facts && forall f | f in facts[..|facts| - 1] :: f in facts;
      ByKeyContents(facts[..|facts| - 1]);
    }
  }

  /** The rooms' state with some of the wanted facts written. */
  function Overlaid(start: map<Place, string>, roomID: string, factType: string, desired: map<string, string>,
                    done: set<string>): map<Place, string>
    requires done <= desired.Keys
  {
    start + map k | k in done :: (roomID, factType, k) := desired[k]
  }

  lemma OverlaidNothing(start: map<Place, string>, roomID: string, factType: string, desired: map<string, string>)
    ensures Overlaid(start, roomID, factType, desired, {}) == start
  {
  }

  lemma OverlaidOne(start: map<Place, string>, roomID: string, factType: string, desired: map<string, string>,
                    done: set<string>, key: string)
    requires done <= desired.Keys && key in desired && key !in done
    ensures Overlaid(start, roomID, factType, desired, done)[(roomID, factType, key) := desired[key]]
            == Overlaid(start, roomID, factType, desired, done + {key})
    ensures var held, place := Overlaid(start, roomID, factType, desired, done), (roomID, factType, key);
            (place in held && held[place] == desired[key]) <==> key !in ToWrite(start, roomID, factType, desired)
  {
  }

  lemma OverlaidKeeps(start: map<Place, string>, roomID: string, factType: string, desired: map<string, string>,
                      done: set<string>)
    requires done <= desired.Keys
    ensures var held := Overlaid(start, roomID, factType, desired, done);
            && OthersKept(start, held, roomID, factType)
            && (forall k | k in done :: Holds(held, roomID, factType, k, desired[k]))
            && (forall k | k !in done :: PlaceKept(start, held, roomID, factType, k))
  {
  }

  lemma BroughtIs(start: map<Place, string>, roomID: string, factType: string, desired: map<string, string>,
                  written: set<string>, gone: set<string>)
    requires written <= desired.Keys
    ensures Brought(start, roomID, factType, desired, written, gone)
            == Overlaid(start, roomID, factType, desired, written) - Places(roomID, factType, gone)
  {
  }

  lemma BroughtNothingGone(start: map<Place, string>, roomID: string, factType: string, desired: map<string, string>,
                           written: set<string>)
    requires written <= desired.Keys
    ensures Brought(start, roomID, factType, desired, written, {})
            == Overlaid(start, roomID, factType, desired, written)
  {
    assert Places(roomID, factType, {}) == {};
  }

  lemma BroughtNothing(start: map<Place, string>, roomID: string, factType: string, desired: map<string, string>)
    ensures Brought(start, roomID, factType, desired, {}, {}) == start
  {
    BroughtNothingGone(start, roomID, factType, desired, {});
    OverlaidNothing(start, roomID, factType, desired);
  }

  /** Writing a fact that is held already changes nothing. */
  lemma OverlaidAlike(start: map<Place, string>, roomID: string, factType: string, desired: map<string, string>,
                      done: set<string>)
    requires done <= desired.Keys
    ensures Overlaid(start, roomID, factType, desired, done)
            == Overlaid(start, roomID, factType, desired, done * ToWrite(start, roomID, factType, desired))
  {
  }

  lemma WritesAreWanted(held: map<Place, string>, roomID: string, factType: string, desired: map<string, string>)
    ensures ToWrite(held, roomID, factType, desired) <= desired.Keys
  {
  }

  /** On the way from one state of the rooms to the wanted facts of one room and type: each key
      is as it was or as wanted, and every other room and type is as it was. */
  ghost predicate Moving(before: map<Place, string>, after: map<Place, string>, roomID: string, factType: string,
                         desired: map<string, string>)
  {
    && OthersKept(before, after, roomID, factType)
    && (forall k | k in desired ::
          Holds(after, roomID, factType, k, desired[k]) || PlaceKept(before, after, roomID, factType, k))
    && (forall k | k !in desired ::
          (roomID, factType, k) !in after || PlaceKept(before, after, roomID, factType, k))
  }

  lemma WritingLeavesToClear(start: map<Place, string>, roomID: string, factType: string, desired: map<string, string>)
    ensures ToClear(Overlaid(start, roomID, factType, desired, desired.Keys), roomID, factType, desired)
            == ToClear(start, roomID, factType, desired)
  {
    OverlaidKeeps(start, roomID, factType, desired, desired.Keys);
    ToClearKept(start, Overlaid(start, roomID, factType, desired, desired.Keys), roomID, factType, desired);
  }

  /** The rooms' state after some wanted facts were written and some others cleared. */
  function Brought(start: map<Place, string>, roomID: string, factType: string, desired: map<string, string>,
                   written: set<string>, gone: set<string>): map<Place, string>
    requires written <= desired.Keys
  {
    Overlaid(start, roomID, factType, desired, written) - Places(roomID, factType, gone)
  }

  /** What the bridge remembers of one room and type is right where it decides by it: a wanted fact
      it takes for held is held, and of an unwanted one that is held it knows. */
  ghost predicate KnowsEnough(memory: map<Place, string>, held: map<Place, string>, roomID: string, factType: string,
                              desired: map<string, string>)
  {
    && (forall k | k in desired ::
          Holds(memory, roomID, factType, k, desired[k]) ==> Holds(held, roomID, factType, k, desired[k]))
    && (forall k | (roomID, factType, k) in held && k !in desired :: (roomID, factType, k) in memory)
  }

  /** A pass writes what the memory lacks and clears what it should not have, the writing first, as
      far as the calls go through. */
  ghost predicate CanPass(memory: map<Place, string>, roomID: string, factType: string, desired: map<string, string>,
                          written: set<string>, gone: set<string>)
  {
    && written <= ToWrite(memory, roomID, factType, desired) <= desired.Keys
    && gone <= ToClear(memory, roomID, factType, desired)
    && (gone != {} ==> written == ToWrite(memory, roomID, factType, desired))
  }

  /** A pass that goes through. */
  ghost predicate WholePass(memory: map<Place, string>, roomID: string, factType: string, desired: map<string, string>,
                            written: set<string>, gone: set<string>)
  {
    && written == ToWrite(memory, roomID, factType, desired) <= desired.Keys
    && gone == ToClear(memory, roomID, factType, desired)
  }

  /** A pass, however far it comes, leaves every other room and type as it was, and each key of its
      own as it was or as wanted. */
  lemma PassIsMoving(start: map<Place, string>, memory: map<Place, string>, roomID: string, factType: string,
                     desired: map<string, string>, written: set<string>, gone: set<string>)
    requires CanPass(memory, roomID, factType, desired, written, gone)
    ensures Moving(start, Brought(start, roomID, factType, desired, written, gone), roomID, factType, desired)
  {
  }

  /** What a pass makes of one place. */
  lemma BroughtAt(start: map<Place, string>, roomID: string, factType: string, desired: map<string, string>,
                  written: set<string>, gone: set<string>, t: Place)
    requires written <= desired.Keys
    ensures var after := Brought(start, roomID, factType, desired, written, gone);
            if t.0 == roomID && t.1 == factType && t.2 in gone then t !in after
            else if t.0 == roomID && t.1 == factType && t.2 in written then t in after && after[t] == desired[t.2]
            else (t in after <==> t in start) && (t in after ==> after[t] == start[t])
  {
    assert t in Places(roomID, factType, gone) <==> t.0 == roomID && t.1 == factType && t.2 in gone;
  }

  /** After a pass that goes through a room carries exactly the wanted facts if and only if what the
      bridge remembered was right where it decides by it. */
  lemma PassCarriesWhenKnown(start: map<Place, string>, memory: map<Place, string>, roomID: string, factType: string,
                             desired: map<string, string>, written: set<string>, gone: set<string>)
    requires WholePass(memory, roomID, factType, desired, written, gone)
    ensures Carries(Brought(start, roomID, factType, desired, written, gone), roomID, factType, desired)
            <==> KnowsEnough(memory, start, roomID, factType, desired)
  {
  }

  lemma MemoryKnowsItself(memory: map<Place, string>, roomID: string, factType: string, desired: map<string, string>)
    ensures KnowsEnough(memory, memory, roomID, factType, desired)
  {
  }

  /** Keeps the facts of the rooms and the bookkeeping in step. */
  class FactMirror {
    const book: Bookkeeping
    const rooms: Rooms
    /** The rooms' state as the bookkeeping has it: what the rooms hold, unless a save was lost. */
    ghost var memory: map<Place, string>

    constructor (book: Bookkeeping, rooms: Rooms, ghost memory: map<Place, string>)
      ensures this.book == book && this.rooms == rooms && this.memory == memory
    {
      this.book, this.rooms, this.memory := book, rooms, memory;
    }

    ghost predicate Mirror()
      reads this, book
    {
      Mirrored(book.waiting, memory)
    }

    /** Writes one fact, unless the room is remembered to hold it already. */
    method WriteFact(roomID: string, factType: string, key: string, content: string)
      returns (eventID: Option<string>, ok: bool)
      requires Mirror() && OneLine(roomID) && OneLine(factType) && content != ""
      modifies this`memory, book`waiting, rooms
      ensures Mirror()
      ensures var place := (roomID, factType, key);
              var holds := place in old(memory) && old(memory)[place] == content;
              && memory == (if ok then old(memory)[place := content] else old(memory)) && (!ok ==> !holds)
              && rooms.held == (if ok && !holds then old(rooms.held)[place := content] else old(rooms.held))
              && rooms.calls == old(rooms.calls) + (if holds then 0 else 1)
              && (eventID.Some? <==> ok && !holds)
    {
      hide WaitingKey, SplitWaiting, Mirrored;
      ghost var before := memory;
      var place := (roomID, factType, key);
      MirroredAt(book.waiting, before, place);
      var remembered := WaitingKey(roomID, factType, key);
      if Get(book.waiting, remembered) == content {
        assert memory == before[place := content];
        return None, true;
      }
      eventID := rooms.SetState(roomID, factType, key, Some(content));
      ok := eventID.Some?;
      if ok {
        MirroredPut(book.waiting, before, place, content);
        book.waiting := book.waiting[remembered := content];
        memory := memory[place := content];
      }
    }

    /** Writes the facts a room is not remembered to hold yet, in any order, up to the first
        failure. The events written are handed on by state key. */
    method WriteChangedFacts(roomID: string, factType: string, desired: map<string, string>)
      returns (events: map<string, string>, ok: bool, ghost done: set<string>)
      requires Mirror() && OneLine(roomID) && OneLine(factType)
      requires forall k | k in desired :: desired[k] != ""
      modifies this`memory, book`waiting, rooms
      ensures Mirror() && done <= desired.Keys && (ok ==> done == desired.Keys)
      ensures memory == Overlaid(old(memory), roomID, factType, desired, done)
      ensures events.Keys == done * ToWrite(old(memory), roomID, factType, desired)
      ensures rooms.held == Overlaid(old(rooms.held), roomID, factType, desired, events.Keys)
      ensures !ok ==> exists k :: k in ToWrite(old(memory), roomID, factType, desired) && k !in done
      ensures rooms.calls == old(rooms.calls) + |events| + (if ok then 0 else 1)
    {
      hide Mirrored, Overlaid, ToWrite;
      events, ok, done := map[], true, {};
      ghost var start, held := memory, rooms.held;
      var left := desired.Keys;
      OverlaidNothing(start, roomID, factType, desired);
      OverlaidNothing(held, roomID, factType, desired);
      assert events.Keys == {};
      while left != {}
        invariant left <= desired.Keys && done <= desired.Keys && Mirror()
        invariant forall k | k in desired :: k in done <==> k !in left
        invariant memory == Overlaid(start, roomID, factType, desired, done)
        invariant events.Keys == done * ToWrite(start, roomID, factType, desired)
        invariant rooms.held == Overlaid(held, roomID, factType, desired, events.Keys)
        invariant rooms.calls == old(rooms.calls) + |events|
        decreases left
      {
        var key :| key in left;
        OverlaidOne(start, roomID, factType, desired, done, key);
        OverlaidOne(held, roomID, factType, desired, events.Keys, key);
        var eventID, written := WriteFact(roomID, factType, key, desired[key]);
        if !written {
          return events, false, done;
        }
        left := left - {key};
        done := done + {key};
        if eventID.Some? {
          assert (events[key := eventID.value]).Keys == events.Keys + {key};
          events := events[key := eventID.value];
        }
      }
    }

    /** Clears one fact a room should no longer carry. */
    method ClearFact(roomID: string, factType: string, key: string) returns (ok: bool)
      requires Mirror() && OneLine(roomID) && OneLine(factType)
      modifies this`memory, book`waiting, rooms
      ensures Mirror() && rooms.calls == old(rooms.calls) + 1
      ensures memory == if ok then old(memory) - {(roomID, factType, key)} else old(memory)
      ensures rooms.held == if ok then old(rooms.held) - {(roomID, factType, key)} else old(rooms.held)
      ensures book.waiting == if ok then old(book.waiting) - {WaitingKey(roomID, factType, key)} else old(book.waiting)
    {
      ghost var before := memory;
      var eventID := rooms.SetState(roomID, factType, key, None);
      ok := eventID.Some?;
      if ok {
        MirroredDrop(book.waiting, before, (roomID, factType, key));
        book.waiting := book.waiting - {WaitingKey(roomID, factType, key)};
        memory := memory - {(roomID, factType, key)};
      }
    }

    /** Clears every fact of a room and type that is remembered and no longer wanted, in any order,
        up to the first failure. */
    method ClearStoppedFacts(roomID: string, factType: string, desired: map<string, string>)
      returns (cleared: nat, ok: bool, ghost gone: set<string>)
      requires Mirror() && OneLine(roomID) && OneLine(factType)
      modifies this`memory, book`waiting, rooms
      ensures Mirror() && gone <= ToClear(old(memory), roomID, factType, desired) && |gone| == cleared
      ensures memory == old(memory) - Places(roomID, factType, gone)
      ensures rooms.held == old(rooms.held) - Places(roomID, factType, gone)
      ensures ok <==> gone == ToClear(old(memory), roomID, factType, desired)
      ensures rooms.calls == old(rooms.calls) + cleared + (if ok then 0 else 1)
    {
      hide SplitWaiting, WaitingKey, Mirrored;
      ghost var start, held := memory, rooms.held;
      gone := {};
      cleared := 0;
      var left := book.waiting.Keys;
      assert start - Places(roomID, factType, {}) == start && held - Places(roomID, factType, {}) == held;
      while left != {}
        invariant left <= book.waiting.Keys && Mirror()
        invariant gone <= ToClear(start, roomID, factType, desired) && |gone| == cleared
        invariant memory == start - Places(roomID, factType, gone)
        invariant rooms.held == held - Places(roomID, factType, gone)
        invariant forall k | k in book.waiting && k !in left :: Settled(k, roomID, factType, desired)
        invariant rooms.calls == old(rooms.calls) + cleared
        decreases left
      {
        var remembered :| remembered in left;
        left := left - {remembered};
        var p := SplitWaiting(remembered);
        if !p.ok || p.roomID != roomID || p.factType != factType || p.stateKey in desired {
          continue;
        }
        StillToClear(book.waiting, memory, start, remembered, gone, desired);
        var done := ClearFact(roomID, factType, p.stateKey);
        if !done {
          return cleared, false, gone;
        }
        PlacesGrow(start, roomID, factType, gone, p.stateKey);
        PlacesGrow(held, roomID, factType, gone, p.stateKey);
        gone := gone + {p.stateKey};
        cleared := cleared + 1;
      }
      NothingToClear(book.waiting, memory, roomID, factType, desired);
      AllCleared(start, memory, roomID, factType, gone, desired);
      ok := true;
    }

    /** Brings one room's facts of one type in step: what changed is written, what stopped is
        cleared, and what the room is remembered to hold is left alone. */
    method CarryOutFacts(roomID: string, factType: string, facts: seq<Fact>, saves: bool)
      returns (count: nat, events: map<string, string>, ok: bool, ghost gone: set<string>)
      requires Mirror() && OneLine(roomID) && OneLine(factType)
      requires forall f | f in facts :: f.content != ""
      modifies this`memory, book`waiting, book`file, rooms
      ensures Mirror() && CanPass(old(memory), roomID, factType, ByKey(facts), events.Keys, gone)
      ensures memory == Brought(old(memory), roomID, factType, ByKey(facts), events.Keys, gone)
      ensures rooms.held == Brought(old(rooms.held), roomID, factType, ByKey(facts), events.Keys, gone)
      ensures old(memory) == old(rooms.held) ==> memory == rooms.held
      ensures ok ==> WholePass(old(memory), roomID, factType, ByKey(facts), events.Keys, gone)
                     && Carries(memory, roomID, factType, ByKey(facts))
                     && count == |events| + |gone| && rooms.calls == old(rooms.calls) + count
      ensures ok ==> (Carries(rooms.held, roomID, factType, ByKey(facts))
                      <==> KnowsEnough(old(memory), old(rooms.held), roomID, factType, ByKey(facts)))
      ensures Carries(old(memory), roomID, factType, ByKey(facts)) ==>
                ok && rooms.calls == old(rooms.calls) && count == 0
      ensures book.file == if ok && count > 0 then book.Value() else old(book.file)
      ensures ok ==> (Mirrored(book.file.waiting, memory)
                      <==> count > 0 || Mirrored(old(book.file.waiting), old(memory)))
    {
      hide Overlaid, Places, ToWrite, ToClear, Carries, ByKey, Mirrored, KnowsEnough, Brought, OneLine;
      var desired := FactsByKey(facts);
      ByKeyContents(facts);
      ghost var start, held := memory, rooms.held;
      ghost var done;
      events, ok, done := WriteChangedFacts(roomID, factType, desired);
      count := |events|;
      NothingToDo(start, roomID, factType, desired);
      WritesAreWanted(start, roomID, factType, desired);
      OverlaidAlike(start, roomID, factType, desired, done);
      if !ok {
        gone := {};
        BroughtNothingGone(start, roomID, factType, desired, events.Keys);
        BroughtNothingGone(held, roomID, factType, desired, events.Keys);
        return;
      }
      WritingLeavesToClear(start, roomID, factType, desired);
      var cleared;
      cleared, ok, gone := ClearStoppedFacts(roomID, factType, desired);
      count := count + cleared;
      BroughtIs(start, roomID, factType, desired, events.Keys, gone);
      BroughtIs(held, roomID, factType, desired, events.Keys, gone);
      if !ok {
        return;
      }
      PassCarriesWhenKnown(start, start, roomID, factType, desired, events.Keys, gone);
      PassCarriesWhenKnown(held, start, roomID, factType, desired, events.Keys, gone);
      MemoryKnowsItself(start, roomID, factType, desired);
      assert events.Keys == ToWrite(start, roomID, factType, desired) && |events| == |events.Keys|;
      if count == 0 {
        BroughtNothing(start, roomID, factType, desired);
        return;
      }
      ok := book.Save(saves);
    }
  }
}
