/** The string operations of Go's `strings` and `sort` packages the bridge reads and writes
    its text with, and the facts about them the round trips rest on. */
module Text {

  /** What `strings.TrimSpace` trims: the characters `unicode.IsSpace` accepts. */
  predicate IsSpace(c: char) {
    || '\t' <= c <= '\r' || c == ' '
    || c == '\U{0085}' || c == '\U{00A0}' || c == '\U{1680}'
    || '\U{2000}' <= c <= '\U{200A}'
    || c == '\U{2028}' || c == '\U{2029}' || c == '\U{202F}' || c == '\U{205F}' || c == '\U{3000}'
  }

  predicate Blank(s: string) {
    forall c | c in s :: IsSpace(c)
  }

  function TrimLeft(s: string): (r: string)
    ensures |r| <= |s|
    ensures r == "" || !IsSpace(r[0])
  {
    if s != "" && IsSpace(s[0]) then TrimLeft(s[1..]) else s
  }

  function TrimRight(s: string): (r: string)
    ensures r <= s
    ensures r == "" || !IsSpace(r[|r| - 1])
  {
    if s != "" && IsSpace(s[|s| - 1]) then TrimRight(s[..|s| - 1]) else s
  }

  /** `strings.TrimSpace`. */
  function Trim(s: string): string {
    TrimRight(TrimLeft(s))
  }

  /** Neither end of `s` is white space, so trimming leaves it alone. */
  predicate Trimmed(s: string) {
    s == "" || (!IsSpace(s[0]) && !IsSpace(s[|s| - 1]))
  }

  lemma {:induction false} TrimIsTrimmed(s: string)
    ensures Trimmed(Trim(s))
    ensures Trim(s) == s <==> Trimmed(s)
  {
    var t := TrimLeft(s);
    assert Trim(s) <= t;
    if Trimmed(s) {
      assert t == s && TrimRight(t) == t;
    }
  }

  lemma {:induction false} TrimLeftDropsBlank(a: string, b: string)
    requires Blank(a)
    ensures TrimLeft(a + b) == TrimLeft(b)
  {
    if a == "" {
      assert a + b == b;
    } else {
      assert a[0] in a && (a + b)[1..] == a[1..] + b;
      TrimLeftDropsBlank(a[1..], b);
    }
  }

  lemma {:induction false} TrimOfBlank(s: string)
    ensures Trim(s) == "" <==> Blank(s)
  {
    if Blank(s) {
      TrimLeftDropsBlank(s, "");
      assert s + "" == s;
    } else {
      TrimLeftOfVisible(s);
    }
  }

  lemma {:induction false} TrimLeftOfVisible(s: string)
    requires !Blank(s)
    ensures TrimLeft(s) != "" && Trim(s) != ""
  {
    if IsSpace(s[0]) {
      assert s == [s[0]] + s[1..];
      TrimLeftOfVisible(s[1..]);
    } else {
      TrimRightKeepsVisible(s);
    }
  }

  lemma {:induction false} TrimRightKeepsVisible(s: string)
    requires s != "" && !IsSpace(s[0])
    ensures TrimRight(s) != ""
  {
    if IsSpace(s[|s| - 1]) {
      TrimRightKeepsVisible(s[..|s| - 1]);
    }
  }

  lemma {:induction false} TrimRightOfConcat(a: string, b: string)
    requires !Blank(b)
    ensures TrimRight(a + b) == a + TrimRight(b)
  {
    hide TrimRight;
    var last, front := b[|b| - 1], b[..|b| - 1];
    assert b == front + [last] && a + b == (a + front) + [last];
    TrimRightStep(front, last);
    TrimRightStep(a + front, last);
    if IsSpace(last) {
      TrimRightOfConcat(a, front);
    }
  }

  lemma TrimRightStep(s: string, c: char)
    ensures TrimRight(s + [c]) == if IsSpace(c) then TrimRight(s) else s + [c]
  {
    assert (s + [c])[..|s|] == s;
  }

  lemma {:induction false} TrimLeftIsTail(s: string) returns (blank: string)
    ensures s == blank + TrimLeft(s)
    ensures !Blank(s) ==> !Blank(TrimLeft(s))
  {
    if s != "" && IsSpace(s[0]) {
      var rest := TrimLeftIsTail(s[1..]);
      blank := [s[0]] + rest;
      assert s == [s[0]] + s[1..];
    } else {
      blank := "";
    }
  }

  /** Text in front that starts visibly is never trimmed away. */
  lemma {:induction false} TrimKeepsFront(front: string, s: string)
    requires front != "" && !IsSpace(front[0])
    ensures |Trim(front + s)| > |Trim(s)|
  {
    assert TrimLeft(front + s) == front + s;
    if Blank(s) {
      TrimOfBlank(s);
      TrimRightKeepsVisible(front + s);
    } else {
      var blank := TrimLeftIsTail(s);
      TrimRightOfConcat(front, s);
      TrimRightOfConcat(blank, TrimLeft(s));
    }
  }


  /** Trimming a string leaves no less than trimming its tail, and more when what is in front of
      the tail is not blank. */
  lemma TrimOfTail(front: string, s: string)
    ensures |Trim(front + s)| >= |Trim(s)|
    ensures !Blank(front) ==> |Trim(front + s)| > |Trim(s)|
  {
    if Blank(front) {
      TrimLeftDropsBlank(front, s);
    } else {
      var blank := TrimLeftIsTail(front);
      assert TrimLeft(front + s) == TrimLeft(front) + s by { TrimLeftOfFront(front, s); }
      TrimKeepsFront(TrimLeft(front), s);
      assert TrimLeft(TrimLeft(front) + s) == TrimLeft(front) + s;
    }
  }

  lemma {:induction false} TrimLeftOfFront(front: string, s: string)
    requires !Blank(front)
    ensures TrimLeft(front + s) == TrimLeft(front) + s
  {
    assert (front + s)[0] == front[0] && (front + s)[1..] == front[1..] + s;
    if IsSpace(front[0]) {
      assert front == [front[0]] + front[1..];
      TrimLeftOfFront(front[1..], s);
    }
  }
  /** `strings.Split(s, "\n")`. */
  function Lines(s: string): (r: seq<string>)
    ensures |r| >= 1
  {
    if s == "" then [""]
    else if s[0] == '\n' then [""] + Lines(s[1..])
    else var rest := Lines(s[1..]); [[s[0]] + rest[0]] + rest[1..]
  }

  /** `strings.Join(lines, "\n")`. */
  function Join(lines: seq<string>): string {
    if |lines| == 0 then ""
    else if |lines| == 1 then lines[0]
    else lines[0] + "\n" + Join(lines[1..])
  }

  predicate OneLine(s: string) {
    '\n' !in s
  }

  lemma {:induction false} LinesOfOneLine(s: string)
    requires OneLine(s)
    ensures Lines(s) == [s]
  {
    if s != "" {
      LinesOfOneLine(s[1..]);
      assert [s[0]] + s[1..] == s;
    }
  }

  lemma {:induction false} LinesAreOneLine(s: string)
    ensures forall l | l in Lines(s) :: OneLine(l)
  {
    if s != "" {
      var rest := Lines(s[1..]);
      LinesAreOneLine(s[1..]);
      forall l | l in Lines(s) ensures OneLine(l) {
        if s[0] != '\n' && l !in rest {
          assert l == [s[0]] + rest[0] && rest[0] in rest;
        }
      }
    }
  }

  /** The lines of a string, from its first character and the lines of the rest. */
  function WithChar(c: char, lines: seq<string>): seq<string>
    requires lines != []
  {
    if c == '\n' then [""] + lines else [[c] + lines[0]] + lines[1..]
  }

  lemma LinesStep(c: char, s: string)
    ensures Lines([c] + s) == WithChar(c, Lines(s))
  {
    assert ([c] + s)[1..] == s;
  }

  lemma FirstOff(a: string, m: string, b: string)
    requires a != ""
    ensures a == [a[0]] + a[1..] && a + m + b == [a[0]] + (a[1..] + m + b)
  {
    assert a + m + b == ([a[0]] + a[1..]) + m + b;
  }

  lemma WithCharInFront(c: char, x: seq<string>, y: seq<string>)
    requires x != []
    ensures WithChar(c, x + y) == WithChar(c, x) + y
  {
    assert (x + y)[1..] == x[1..] + y;
  }

  lemma {:induction false} LinesOfConcat(a: string, b: string)
    ensures Lines(a + "\n" + b) == Lines(a) + Lines(b)
  {
    if a == "" {
      assert a + "\n" + b == ['\n'] + b;
      LinesStep('\n', b);
    } else {
      hide Lines, WithChar;
      var rest := a[1..] + "\n" + b;
      LinesOfConcat(a[1..], b);
      LinesStep(a[0], a[1..]);
      LinesStep(a[0], rest);
      FirstOff(a, "\n", b);
      WithCharInFront(a[0], Lines(a[1..]), Lines(b));
    }
  }

  lemma {:induction false} LinesOfJoin(lines: seq<string>)
    requires |lines| >= 1
    requires forall l | l in lines :: OneLine(l)
    ensures Lines(Join(lines)) == lines
  {
    LinesOfOneLine(lines[0]);
    hide Lines, OneLine;
    if |lines| > 1 {
      LinesOfConcat(lines[0], Join(lines[1..]));
      LinesOfJoin(lines[1..]);
      assert lines == [lines[0]] + lines[1..];
    } else {
      assert lines == [lines[0]];
    }
  }

  lemma {:induction false} JoinOfLines(s: string)
    ensures Join(Lines(s)) == s
  {
    if s == "" {
    } else {
      var rest := Lines(s[1..]);
      JoinOfLines(s[1..]);
      if s[0] == '\n' {
        assert ([""] + rest)[1..] == rest;
        assert Join([""] + rest) == "" + "\n" + s[1..];
      } else {
        var grown := [[s[0]] + rest[0]] + rest[1..];
        assert grown[1..] == rest[1..];
        assert Join(grown) == [s[0]] + Join(rest) by {
          if |rest| > 1 {
            assert [s[0]] + rest[0] + "\n" + Join(rest[1..]) == [s[0]] + (rest[0] + "\n" + Join(rest[1..]));
          }
        }
      }
    }
  }

  /** Go's `<=` on strings: the order `sort.Strings` sorts by. */
  predicate AtMost(a: string, b: string) {
    if a == "" then true
    else if b == "" then false
    else a[0] < b[0] || (a[0] == b[0] && AtMost(a[1..], b[1..]))
  }

  lemma {:induction false} AtMostReflexive(a: string)
    ensures AtMost(a, a)
  {
    if a != "" {
      AtMostReflexive(a[1..]);
    }
  }

  lemma {:induction false} AtMostTotal(a: string, b: string)
    ensures AtMost(a, b) || AtMost(b, a)
  {
    if a != "" && b != "" && a[0] == b[0] {
      AtMostTotal(a[1..], b[1..]);
    }
  }

  lemma {:induction false} AtMostAntisymmetric(a: string, b: string)
    requires AtMost(a, b) && AtMost(b, a)
    ensures a == b
  {
    if a != "" && b != "" {
      AtMostAntisymmetric(a[1..], b[1..]);
      assert a == [a[0]] + a[1..] && b == [b[0]] + b[1..];
    }
  }

  lemma {:induction false} AtMostTransitive(a: string, b: string, c: string)
    requires AtMost(a, b) && AtMost(b, c)
    ensures AtMost(a, c)
  {
    if a != "" && b != "" && c != "" && a[0] == b[0] && b[0] == c[0] {
      AtMostTransitive(a[1..], b[1..], c[1..]);
    }
  }

  /** A shared front decides nothing: the order is the order of what follows it. */
  lemma {:induction false} AtMostAfterFront(front: string, a: string, b: string)
    ensures AtMost(front + a, front + b) == AtMost(a, b)
  {
    if front == "" {
      assert front + a == a && front + b == b;
    } else {
      assert (front + a)[1..] == front[1..] + a && (front + b)[1..] == front[1..] + b;
      AtMostAfterFront(front[1..], a, b);
    }
  }

  predicate IsLeast(x: string, s: set<string>) {
    x in s && forall y | y in s :: AtMost(x, y)
  }

  lemma {:induction false} LeastExists(s: set<string>)
    requires s != {}
    ensures exists x :: IsLeast(x, s)
  {
    var y :| y in s;
    var rest := s - {y};
    AtMostReflexive(y);
    if rest == {} {
      assert s == {y};
      assert IsLeast(y, s);
    } else {
      LeastExists(rest);
      var z :| IsLeast(z, rest);
      AtMostTotal(y, z);
      if AtMost(y, z) {
        forall w | w in s ensures AtMost(y, w) {
          if w != y { AtMostTransitive(y, z, w); }
        }
        assert IsLeast(y, s);
      } else {
        assert IsLeast(z, s);
      }
    }
  }

  function Least(s: set<string>): (x: string)
    requires s != {}
    ensures IsLeast(x, s)
  {
    LeastExists(s);
    assert forall x, y | IsLeast(x, s) && IsLeast(y, s) :: x == y by {
      forall x, y | IsLeast(x, s) && IsLeast(y, s) ensures x == y {
        AtMostAntisymmetric(x, y);
      }
    }
    var x :| IsLeast(x, s);
    x
  }

  /** The keys of a Go map, collected and passed to `sort.Strings`. */
  function Sorted(s: set<string>): (r: seq<string>)
    ensures |r| == |s|
    ensures forall x :: x in r <==> x in s
    decreases |s|
  {
    if s == {} then [] else
    var x := Least(s);
    assert s == {x} + (s - {x});
    [x] + Sorted(s - {x})
  }

  predicate Distinct<T(==)>(s: seq<T>) {
    forall i, j | 0 <= i < j < |s| :: s[i] != s[j]
  }

  lemma AscendingInFront(x: string, rest: seq<string>)
    requires Distinct(rest) && x !in rest && forall y | y in rest :: AtMost(x, y)
    requires forall i, j | 0 <= i <= j < |rest| :: AtMost(rest[i], rest[j])
    ensures var r := [x] + rest; Distinct(r) && forall i, j | 0 <= i <= j < |r| :: AtMost(r[i], r[j])
  {
    AtMostReflexive(x);
    hide AtMost;
    var r := [x] + rest;
    forall i, j | 0 <= i <= j < |r| ensures AtMost(r[i], r[j]) && (i != j ==> r[i] != r[j]) {
      if j > 0 {
        assert r[j] == rest[j - 1] && r[j] in rest;
        assert i > 0 ==> r[i] == rest[i - 1];
      }
    }
  }

  lemma {:induction false} SortedIsAscending(s: set<string>)
    ensures Distinct(Sorted(s))
    ensures forall i, j | 0 <= i <= j < |s| :: AtMost(Sorted(s)[i], Sorted(s)[j])
    decreases |s|
  {
    hide AtMost;
    if s != {} {
      hide Distinct;
      var x := Least(s);
      SortedIsAscending(s - {x});
      assert forall y | y in Sorted(s - {x}) :: y in s - {x};
      AscendingInFront(x, Sorted(s - {x}));
    }
  }

  /** `strings.ReplaceAll(s, "\r\n", "\n")`. */
  function JoinCRLF(s: string): string {
    if s == "" then ""
    else if |s| > 1 && s[0] == '\r' && s[1] == '\n' then "\n" + JoinCRLF(s[2..])
    else [s[0]] + JoinCRLF(s[1..])
  }

  /** `strings.ReplaceAll(s, "\r", "\n")`. */
  function ReplaceCR(s: string): string {
    if s == "" then "" else [if s[0] == '\r' then '\n' else s[0]] + ReplaceCR(s[1..])
  }

  predicate PairAt(s: string, i: int, a: char, b: char) {
    0 <= i < |s| - 1 && s[i] == a && s[i + 1] == b
  }

  lemma PairShifts(s: string, i: int, a: char, b: char)
    requires s != "" && i >= 0
    ensures PairAt(s[1..], i, a, b) == PairAt(s, i + 1, a, b)
  {
    if i < |s| - 2 {
      assert s[1..][i] == s[i + 1] && s[1..][i + 1] == s[i + 2];
    }
  }

  /** The first place the two characters follow each other in `s`, or `|s|` when they never do:
      what `strings.Cut` cuts a text at. */
  function Find(s: string, a: char, b: char): (i: nat)
    ensures i <= |s|
    ensures i < |s| ==> PairAt(s, i, a, b)
    ensures forall j | 0 <= j < i :: !PairAt(s, j, a, b)
  {
    if s == "" || PairAt(s, 0, a, b) then 0
    else
      var i := 1 + Find(s[1..], a, b);
      assert forall j | 1 <= j :: PairAt(s, j, a, b) == PairAt(s[1..], j - 1, a, b) by {
        forall j | 1 <= j ensures PairAt(s, j, a, b) == PairAt(s[1..], j - 1, a, b) {
          PairShifts(s, j - 1, a, b);
        }
      }
      i
  }

  /** Two texts that agree, each cut at its first mark, agree on both sides of it. */
  lemma CutAtMark(a: string, x: string, b: string, y: string, mark: char)
    requires mark !in a && mark !in b && a + [mark] + x == b + [mark] + y
    ensures a == b && x == y
  {
    var s := a + [mark] + x;
    assert s[|a|] == mark && s[..|a|] == a && s[|a| + 1..] == x;
    assert s == b + [mark] + y && s[|b|] == mark && s[..|b|] == b && s[|b| + 1..] == y;
    assert forall i | 0 <= i < |a| :: s[i] == a[i] && a[i] in a;
    assert forall i | 0 <= i < |b| :: s[i] == b[i] && b[i] in b;
  }

  lemma Regroup<T>(a: seq<T>, b: seq<T>, c: seq<T>)
    ensures a + (b + c) == (a + b) + c && a + [] == a
  {
  }

  /** What a lookup in a Go `map[string]string` reads: missing is empty. */
  function Get(m: map<string, string>, k: string): string {
    if k in m then m[k] else ""
  }
}
