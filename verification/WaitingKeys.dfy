/** The key one state event the bridge wrote is remembered under
    (internal/bridge/facts.go, internal/removal/relay.go). */
module WaitingKeys {
  import opened Text
  import opened Relay

  function WaitingKey(roomID: string, factType: string, stateKey: string): string {
    roomID + "\n" + (factType + "\n" + stateKey)
  }

  lemma WaitingKeyIs(roomID: string, factType: string, stateKey: string)
    ensures WaitingKey(roomID, factType, stateKey) == roomID + "\n" + factType + "\n" + stateKey
  {
    assert roomID + "\n" + (factType + "\n" + stateKey) == roomID + "\n" + factType + "\n" + stateKey;
  }

  datatype WaitingParts = WaitingParts(roomID: string, factType: string, stateKey: string, ok: bool)

  const NO_PARTS := WaitingParts("", "", "", false)

  /** `strings.SplitN(key, "\n", 3)`: the state key may hold newlines of its own. */
  function SplitWaiting(key: string): WaitingParts {
    var i := LineEnd(key);
    if i == |key| then NO_PARTS
    else
      var rest := key[i + 1..];
      var j := LineEnd(rest);
      if j == |rest| then NO_PARTS else WaitingParts(key[..i], rest[..j], rest[j + 1..], true)
  }

  /** Reading a key back undoes writing it, whatever the state key holds. */
  lemma WaitingKeyRoundTrip(roomID: string, factType: string, stateKey: string)
    requires OneLine(roomID) && OneLine(factType)
    ensures SplitWaiting(WaitingKey(roomID, factType, stateKey)) == WaitingParts(roomID, factType, stateKey, true)
  {
    var rest := factType + "\n" + stateKey;
    var key := WaitingKey(roomID, factType, stateKey);
    LineEndIs(roomID, rest);
    LineEndIs(factType, stateKey);
    assert key[..|roomID|] == roomID && key[|roomID| + 1..] == rest;
    assert rest[..|factType|] == factType && rest[|factType| + 1..] == stateKey;
  }

  lemma CutAt(s: string, i: nat)
    requires i < |s|
    ensures s == s[..i] + [s[i]] + s[i + 1..]
  {
  }

  lemma CutAtLineEnd(s: string)
    requires LineEnd(s) < |s|
    ensures s == s[..LineEnd(s)] + "\n" + s[LineEnd(s) + 1..]
  {
    hide OneLine, LineEnd;
    CutAt(s, LineEnd(s));
    assert [s[LineEnd(s)]] == "\n";
  }

  /** A key that reads back was written from what it reads as. */
  lemma SplitWaitingWrites(key: string)
    requires SplitWaiting(key).ok
    ensures var p := SplitWaiting(key);
            WaitingKey(p.roomID, p.factType, p.stateKey) == key && OneLine(p.roomID) && OneLine(p.factType)
  {
    hide LineEnd, OneLine;
    CutAtLineEnd(key);
    CutAtLineEnd(key[LineEnd(key) + 1..]);
  }
}
