/** What the operator said in a message their phone sent by quoting another one
    (internal/relay/quote.go), and the phone's quoting it undoes
    (acceptance/fixtures/user.go). */
module Quote {
  import opened Text

  /** One message seen in a room. */
  datatype RoomEvent = RoomEvent(
    roomID: string, eventID: string, sender: string, body: string,
    threadRoot: string, replyTo: string)

  function RepliedTo(reply: RoomEvent): string {
    if reply.threadRoot != "" then reply.threadRoot else reply.replyTo
  }

  function Normalized(body: string): string {
    ReplaceCR(JoinCRLF(body))
  }

  predicate IsQuote(line: string) {
    ">" <= line
  }

  /** A line the reader passes over while it is still in the quote. */
  predicate Skipped(line: string) {
    IsQuote(line) || Trim(line) == ""
  }

  /** The lines from the first one that is neither quoted nor blank. */
  function AfterQuote(lines: seq<string>): seq<string> {
    if lines != [] && Skipped(lines[0]) then AfterQuote(lines[1..]) else lines
  }

  function OwnWords(body: string): string {
    Trim(Join(AfterQuote(Lines(Normalized(body)))))
  }

  /** The operator's own words are the message from its first line on that neither opens with the quote
      marker nor is blank, trimmed. */
  lemma {:induction false} OwnWordsBegin(lines: seq<string>) returns (k: nat)
    ensures k <= |lines| && AfterQuote(lines) == lines[k..]
    ensures forall i | 0 <= i < k :: ">" <= lines[i] || Blank(lines[i])
    ensures k < |lines| ==> !(">" <= lines[k]) && !Blank(lines[k])
  {
    k := 0;
    if lines != [] {
      TrimOfBlank(lines[0]);
      if Skipped(lines[0]) {
        k := OwnWordsBegin(lines[1..]);
        k := k + 1;
        assert lines[k..] == lines[1..][k - 1..];
        forall i | 0 <= i < k ensures ">" <= lines[i] || Blank(lines[i]) {
          assert i > 0 ==> lines[i] == lines[1..][i - 1];
        }
      }
    }
  }

  lemma OwnWordsAre(body: string) returns (lines: seq<string>, k: nat)
    ensures lines == Lines(Normalized(body)) && k <= |lines| && OwnWords(body) == Trim(Join(lines[k..]))
    ensures forall i | 0 <= i < k :: ">" <= lines[i] || Blank(lines[i])
    ensures k < |lines| ==> !(">" <= lines[k]) && !Blank(lines[k])
  {
    hide Lines, Normalized, Trim;
    lines := Lines(Normalized(body));
    k := OwnWordsBegin(lines);
  }

  /** The loop that computes the operator's own words. */
  method ReadOwnWords(body: string) returns (said: string)
    ensures said == OwnWords(body)
  {
    hide Trim, IsQuote, Join, Lines, Normalized;
    var quoted := true;
    var words: seq<string> := [];
    var lines := Lines(Normalized(body));
    for i := 0 to |lines|
      invariant quoted ==> words == [] && AfterQuote(lines) == AfterQuote(lines[i..])
      invariant !quoted ==> AfterQuote(lines) == words + lines[i..]
    {
      var line := lines[i];
      assert lines[i..] == [line] + lines[i + 1..];
      if quoted {
        if IsQuote(line) {
          continue;
        }
        if Trim(line) == "" {
          continue;
        }
        quoted := false;
      }
      words := words + [line];
    }
    assert lines[|lines|..] == [];
    assert quoted ==> AfterQuote(lines) == [];
    assert AfterQuote(lines) == words;
    said := Trim(Join(words));
  }

  /** What the phone writes into the body of a swipe-reply. */
  function QuoteBack(body: string): string {
    Join(Marked(Lines(body)))
  }

  function Marked(lines: seq<string>): (r: seq<string>)
    ensures |r| == |lines|
    ensures forall i | 0 <= i < |r| :: r[i] == "> " + lines[i]
  {
    if lines == [] then [] else ["> " + lines[0]] + Marked(lines[1..])
  }

  /** The client rewrites its slice of lines in place. */
  method WriteQuote(body: string) returns (quote: string)
    ensures quote == QuoteBack(body)
  {
    var given := Lines(body);
    var lines := given;
    for i := 0 to |lines|
      invariant |lines| == |given|
      invariant forall k | 0 <= k < i :: lines[k] == "> " + given[k]
      invariant forall k | i <= k < |lines| :: lines[k] == given[k]
    {
      lines := lines[i := "> " + lines[i]];
    }
    assert lines == Marked(given);
    quote := Join(lines);
  }

  /** The phone's quote is the quoted lines, each behind the marker and a space. */
  lemma QuoteBackMarks(body: string)
    ensures var quote := Lines(QuoteBack(body));
            |quote| == |Lines(body)| && forall i | 0 <= i < |quote| :: quote[i] == "> " + Lines(body)[i]
  {
    hide Lines, Join;
    var marked := Marked(Lines(body));
    LinesAreOneLine(body);
    forall l | l in marked ensures OneLine(l) {
      var i :| 0 <= i < |marked| && marked[i] == l;
      assert Lines(body)[i] in Lines(body);
    }
    LinesOfJoin(marked);
  }

  /** And the whole body is that quote, an empty line and the words. */
  lemma SwipeReplyIs(quoted: string, words: string)
    ensures SwipeReply(quoted, words) == Join(Lines(QuoteBack(quoted))) + "\n\n" + words
  {
    JoinOfLines(QuoteBack(quoted));
  }

  function SwipeReply(quoted: string, words: string): string {
    QuoteBack(quoted) + "\n\n" + words
  }

  /** The first line that says anything starts with the quote marker. */
  predicate StartsQuoted(words: string) {
    OpensWithQuote(Lines(words))
  }

  predicate OpensWithQuote(lines: seq<string>) {
    lines != [] && (IsQuote(lines[0]) || (Trim(lines[0]) == "" && OpensWithQuote(lines[1..])))
  }

  // What becomes of the quoted lines when the body is read.

  /** A line without the carriage return that its newline takes with it. */
  function WithoutEnd(line: string): string {
    if line != "" && line[|line| - 1] == '\r' then line[..|line| - 1] else line
  }

  /** The lines one line is read as: any other carriage return starts a new one. */
  function Broken(line: string): (r: seq<string>)
    ensures |r| >= 1
  {
    Lines(ReplaceCR(WithoutEnd(line)))
  }

  /** The lines a quote is read as: the client marks each line once, however often it breaks. */
  function ReadBack(lines: seq<string>): seq<string> {
    if lines == [] then [] else Broken("> " + lines[0]) + ReadBack(lines[1..])
  }

  /** Some piece that a carriage return starts inside a quoted line is neither blank nor itself
      marked as a quote. */
  predicate Leaks(quoted: string) {
    exists l | l in Lines(quoted) :: exists p | p in Broken(l)[1..] :: !Skipped(p)
  }

  /** A line and its newline are normalised apart from what follows. */
  lemma {:induction false} NormalizedLine(line: string, more: string)
    requires OneLine(line)
    ensures Normalized(line + "\n" + more) == ReplaceCR(WithoutEnd(line)) + "\n" + Normalized(more)
  {
    hide Normalized, ReplaceCR;
    if line == "" {
      assert line + "\n" + more == ['\n'] + more;
      NormalizedStep('\n', more);
      assert ReplaceCR("") == "" by { EndIsOneLine(more); }
    } else if line == "\r" {
      EndIsOneLine(more);
    } else {
      var c, rest := line[0], line[1..];
      assert line == [c] + rest && c in line && forall x | x in rest :: x in line;
      NormalizedLine(rest, more);
      assert line + "\n" + more == [c] + (rest + "\n" + more);
      NormalizedStep(c, rest + "\n" + more);
      assert WithoutEnd(line) == [c] + WithoutEnd(rest);
      ReplaceStep(c, WithoutEnd(rest));
    }
  }

  /** A carriage return before a newline is part of it. */
  lemma EndIsOneLine(more: string)
    ensures Normalized("\r" + "\n" + more) == ReplaceCR("") + "\n" + Normalized(more)
    ensures ReplaceCR("") == "" && WithoutEnd("\r") == ""
  {
    var all := "\r" + "\n" + more;
    assert all[0] == '\r' && all[1] == '\n' && all[2..] == more;
    assert JoinCRLF(all) == ['\n'] + JoinCRLF(more);
    assert (['\n'] + JoinCRLF(more))[1..] == JoinCRLF(more);
  }

  function Uncarried(c: char): char {
    if c == '\r' then '\n' else c
  }

  lemma NormalizedStep(c: char, rest: string)
    requires c != '\r' || rest == "" || rest[0] != '\n'
    ensures Normalized([c] + rest) == [Uncarried(c)] + Normalized(rest)
  {
    assert ([c] + rest)[1..] == rest;
    assert JoinCRLF([c] + rest) == [c] + JoinCRLF(rest);
    assert ([c] + JoinCRLF(rest))[1..] == JoinCRLF(rest);
  }

  lemma ReplaceStep(c: char, rest: string)
    ensures ReplaceCR([c] + rest) == [Uncarried(c)] + ReplaceCR(rest)
  {
    assert ([c] + rest)[1..] == rest;
  }

  /** The mark stays in front of a line's first piece. */
  lemma MarkedBreaks(line: string)
    ensures Broken("> " + line) == ["> " + Broken(line)[0]] + Broken(line)[1..]
  {
    var end := WithoutEnd(line);
    assert WithoutEnd("> " + line) == "> " + end;
    assert "> " + end == ['>'] + ([' '] + end);
    ReplaceStep('>', [' '] + end);
    ReplaceStep(' ', end);
    var read := ReplaceCR(end);
    assert ReplaceCR("> " + end) == ['>'] + ([' '] + read);
    LinesStep('>', [' '] + read);
    LinesStep(' ', read);
    BrokenIs(line);
    BrokenIs("> " + line);
    hide Lines, Broken;
    var pieces := Lines(read);
    assert ([[' '] + pieces[0]] + pieces[1..])[1..] == pieces[1..];
    assert ['>'] + ([' '] + pieces[0]) == "> " + pieces[0];
  }

  /** The lines a marked quote and what follows it are read as. */
  lemma {:induction false} LinesOfQuote(lines: seq<string>, rest: string)
    requires lines != [] && forall l | l in lines :: OneLine(l)
    ensures Lines(Normalized(Join(Marked(lines)) + "\n" + rest)) == ReadBack(lines) + Lines(Normalized(rest))
  {
    hide Lines, Normalized, Broken;
    var head := "> " + lines[0];
    assert lines[0] in lines && OneLine(head);
    assert Marked(lines) == [head] + Marked(lines[1..]);
    var more := if |lines| == 1 then rest else Join(Marked(lines[1..])) + "\n" + rest;
    assert Join(Marked(lines)) + "\n" + rest == head + "\n" + more;
    NormalizedLine(head, more);
    LinesOfConcat(ReplaceCR(WithoutEnd(head)), Normalized(more));
    assert Broken(head) == Lines(ReplaceCR(WithoutEnd(head))) by { BrokenIs(head); }
    if |lines| == 1 {
      assert ReadBack(lines) == Broken(head) + ReadBack([]);
    } else {
      LinesOfQuote(lines[1..], rest);
    }
  }

  lemma BrokenIs(line: string)
    ensures Broken(line) == Lines(ReplaceCR(WithoutEnd(line)))
  {
  }

  /** Everything a quote is read as is skipped exactly when no line breaks off a piece that is not. */
  lemma {:induction false} ReadBackIsSkipped(lines: seq<string>)
    ensures (forall p | p in ReadBack(lines) :: Skipped(p))
            <==> forall l | l in lines :: forall p | p in Broken(l)[1..] :: Skipped(p)
  {
    hide Broken;
    if lines != [] {
      MarkedBreaks(lines[0]);
      ReadBackIsSkipped(lines[1..]);
      assert forall p :: p in ReadBack(lines) <==> p in Broken("> " + lines[0]) || p in ReadBack(lines[1..]);
      assert forall l :: l in lines <==> l == lines[0] || l in lines[1..];
      var first, others := "> " + Broken(lines[0])[0], Broken(lines[0])[1..];
      assert forall p :: p in Broken("> " + lines[0]) <==> p == first || p in others;
    }
  }

  /** The lines of a whole swipe-reply. */
  lemma LinesOfSwipeReply(quoted: string, words: string)
    ensures Lines(Normalized(SwipeReply(quoted, words))) == ReadBack(Lines(quoted)) + ([""] + Lines(Normalized(words)))
  {
    hide ReadBack;
    LinesAreOneLine(quoted);
    LinesOfQuote(Lines(quoted), "\n" + words);
    NormalizedLine("", words);
    LinesOfConcat("", Normalized(words));
    hide Normalized, Lines, Join;
    assert SwipeReply(quoted, words) == QuoteBack(quoted) + "\n" + ("\n" + words);
    assert "" + "\n" + words == "\n" + words && ReplaceCR(WithoutEnd("")) == "";
    assert "" + "\n" + Normalized(words) == "\n" + Normalized(words) && Lines("") == [""] by { EmptyIsOneLine(); }
  }

  lemma EmptyIsOneLine()
    ensures Lines("") == [""]
  {
  }

  lemma {:induction false} AfterQuoteSkips(front: seq<string>, rest: seq<string>)
    requires forall l | l in front :: Skipped(l)
    ensures AfterQuote(front + rest) == AfterQuote(rest)
  {
    if front == [] {
      assert front + rest == rest;
    } else {
      assert front[0] in front && (front + rest)[1..] == front[1..] + rest;
      AfterQuoteSkips(front[1..], rest);
    }
  }

  /** With a line that says something in front, more is left than of what follows it. */
  lemma {:induction false} SomethingIsLeft(front: seq<string>, rest: seq<string>)
    requires rest != [] && exists l | l in front :: !Skipped(l)
    ensures AfterQuote(front + rest) == AfterQuote(front) + rest && AfterQuote(front) != []
    ensures |Trim(Join(AfterQuote(front + rest)))| > |Trim(Join(rest))|
  {
    assert (front + rest)[0] == front[0] && (front + rest)[1..] == front[1..] + rest;
    if Skipped(front[0]) {
      SomethingIsLeft(front[1..], rest);
    } else {
      JoinKeepsTail(front, rest);
      assert !Blank(front[0]) by {
        if Blank(front[0]) {
          TrimOfBlank(front[0]);
        }
      }
    }
  }

  lemma {:induction false} JoinKeepsTail(front: seq<string>, rest: seq<string>)
    requires front != [] && rest != []
    ensures |Trim(Join(front + rest))| >= |Trim(Join(rest))|
    ensures !Blank(front[0]) ==> |Trim(Join(front + rest))| > |Trim(Join(rest))|
  {
    hide Trim;
    assert (front + rest)[0] == front[0] && (front + rest)[1..] == front[1..] + rest;
    var line := front[0] + "\n";
    assert Join(front + rest) == line + Join(front[1..] + rest);
    TrimOfTail(line, Join(front[1..] + rest));
    assert Blank(line) ==> Blank(front[0]);
    if |front| > 1 {
      JoinKeepsTail(front[1..], rest);
    } else {
      assert front[1..] + rest == rest;
    }
  }

  /** No reading past a quote leaves more than there was. */
  lemma {:induction false} ReadingTakesAway(lines: seq<string>)
    ensures |Trim(Join(AfterQuote(lines)))| <= |Trim(Join(lines))|
  {
    hide Skipped;
    if lines != [] && Skipped(lines[0]) {
      ReadingTakesAway(lines[1..]);
      if |lines| > 1 {
        assert [lines[0]] + lines[1..] == lines;
        JoinKeepsTail([lines[0]], lines[1..]);
      } else {
        assert Trim("") == "";
      }
    }
  }

  /** A swipe-reply reads as its words alone would exactly when the quoted message leaks nothing. */
  lemma SwipeReplyReadsAsItsWords(quoted: string, words: string)
    ensures OwnWords(SwipeReply(quoted, words)) == OwnWords(words) <==> !Leaks(quoted)
  {
    hide Lines, Normalized, SwipeReply, Trim, Join, ReadBack, Broken, Skipped;
    var front, own := ReadBack(Lines(quoted)), Lines(Normalized(words));
    LinesOfSwipeReply(quoted, words);
    ReadBackIsSkipped(Lines(quoted));
    if Leaks(quoted) {
      SomethingIsLeft(front, [""] + own);
      JoinKeepsTail([""], own);
      ReadingTakesAway(own);
    } else {
      AfterQuoteSkips(front, [""] + own);
      EmptyIsSkipped();
      AfterQuoteSkips([""], own);
    }
  }

  lemma EmptyIsSkipped()
    ensures Skipped("")
  {
  }

  /** Reading words that open without a quote marker only trims them. */
  lemma {:induction false} PlainWordsAreTrimmed(lines: seq<string>)
    requires lines != [] && !OpensWithQuote(lines)
    ensures Trim(Join(AfterQuote(lines))) == Trim(Join(lines))
  {
    if Skipped(lines[0]) {
      TrimOfBlank(lines[0]);
      if |lines| == 1 {
        assert AfterQuote(lines) == [];
        assert Trim("") == "";
      } else {
        PlainWordsAreTrimmed(lines[1..]);
        TrimLeftDropsBlank(lines[0] + "\n", Join(lines[1..]));
        assert lines[0] + "\n" + Join(lines[1..]) == (lines[0] + "\n") + Join(lines[1..]);
      }
    }
  }

  /** What is left is a proper tail of the whole. */
  lemma {:induction false} LostPart(lines: seq<string>) returns (front: string)
    requires lines != [] && Skipped(lines[0])
    ensures lines[0] <= front
    ensures Join(lines) == front + Join(AfterQuote(lines))
  {
    if |lines| == 1 {
      front := lines[0];
      assert AfterQuote(lines) == [];
    } else if Skipped(lines[1]) {
      var rest := LostPart(lines[1..]);
      front := lines[0] + "\n" + rest;
    } else {
      assert AfterQuote(lines) == lines[1..];
      front := lines[0] + "\n";
    }
  }

  /** Words that open with a quote marker lose at least that marker. */
  lemma {:induction false} QuotedWordsAreLost(lines: seq<string>)
    requires OpensWithQuote(lines)
    ensures Trim(Join(AfterQuote(lines))) != Trim(Join(lines))
  {
    if IsQuote(lines[0]) {
      var front := LostPart(lines);
      TrimKeepsFront(front, Join(AfterQuote(lines)));
    } else {
      TrimOfBlank(lines[0]);
      QuotedWordsAreLost(lines[1..]);
      TrimLeftDropsBlank(lines[0] + "\n", Join(lines[1..]));
      assert lines[0] + "\n" + Join(lines[1..]) == (lines[0] + "\n") + Join(lines[1..]);
    }
  }

  /** The quote is undone, and the words come back trimmed, exactly when the quoted message leaks
      nothing and the words do not themselves open with a quote marker. */
  lemma OwnWordsUndoesTheQuote(quoted: string, words: string)
    ensures OwnWords(SwipeReply(quoted, words)) == Trim(Normalized(words))
            <==> !Leaks(quoted) && !StartsQuoted(Normalized(words))
  {
    SwipeReplyReadsAsItsWords(quoted, words);
    var lines := Lines(Normalized(words));
    JoinOfLines(Normalized(words));
    if Leaks(quoted) {
      LeakIsRead(quoted, words);
    } else if OpensWithQuote(lines) {
      QuotedWordsAreLost(lines);
    } else {
      PlainWordsAreTrimmed(lines);
    }
  }

  /** What a leaking message leaves in front of the words: everything from the first piece that is
      neither blank nor marked. */
  function Leaked(quoted: string): string {
    Join(AfterQuote(ReadBack(Lines(quoted))))
  }

  /** Read from a leaking message, the operator's words are its leak and then the words, whole. */
  lemma LeakIsRead(quoted: string, words: string)
    requires Leaks(quoted)
    ensures OwnWords(SwipeReply(quoted, words)) == Trim(Leaked(quoted) + "\n\n" + Normalized(words))
    ensures |OwnWords(SwipeReply(quoted, words))| > |Trim(Normalized(words))|
  {
    hide Lines, Normalized, SwipeReply, Trim, ReadBack, Broken, Skipped;
    var front, own := ReadBack(Lines(quoted)), Lines(Normalized(words));
    LinesOfSwipeReply(quoted, words);
    ReadBackIsSkipped(Lines(quoted));
    SomethingIsLeft(front, [""] + own);
    JoinKeepsTail([""], own);
    JoinOfLines(Normalized(words));
    JoinOfConcat(AfterQuote(front), [""] + own);
    JoinOfConcat([""], own);
    assert Leaked(quoted) + "\n" + ("" + "\n" + Normalized(words)) == Leaked(quoted) + "\n\n" + Normalized(words);
  }

  lemma {:induction false} JoinOfConcat(a: seq<string>, b: seq<string>)
    requires a != [] && b != []
    ensures Join(a + b) == Join(a) + "\n" + Join(b)
  {
    assert (a + b)[0] == a[0] && (a + b)[1..] == a[1..] + b;
    if |a| > 1 {
      JoinOfConcat(a[1..], b);
    } else {
      assert a[1..] + b == b;
    }
  }

  /** One such message: a carriage return inside its one line starts a piece the phone never
      marked. */
  lemma CarriageReturnLeaksTheQuote(front: string, leaked: string)
    requires OneLine(front) && OneLine(leaked) && '\r' !in front && '\r' !in leaked && !Skipped(leaked)
    ensures Leaks(front + "\r" + leaked) && Leaked(front + "\r" + leaked) == leaked
  {
    hide Skipped;
    var quoted := front + "\r" + leaked;
    BreaksInTwo(front, leaked);
    assert leaked in Broken(quoted)[1..];
    hide Broken, Lines;
    assert quoted in [quoted];
    MarkedBreaks(quoted);
    assert ReadBack([quoted]) == ["> " + front, leaked] by {
      assert ["> " + front] + [front, leaked][1..] == ["> " + front, leaked];
      assert ReadBack([quoted]) == Broken("> " + quoted) + ReadBack([]);
    }
    OneQuotedLine("> " + front, leaked);
  }

  lemma BreaksInTwo(front: string, leaked: string)
    requires OneLine(front) && OneLine(leaked) && '\r' !in front && '\r' !in leaked && !Skipped(leaked)
    ensures var quoted := front + "\r" + leaked; Lines(quoted) == [quoted] && Broken(quoted) == [front, leaked]
  {
    hide Skipped;
    var quoted := front + "\r" + leaked;
    LinesOfOneLine(quoted);
    assert leaked != "" by { EmptyIsSkipped(); }
    assert WithoutEnd(quoted) == quoted;
    ReplaceInside(front, leaked);
    LinesOfOneLine(front);
    LinesOfOneLine(leaked);
    LinesOfConcat(front, leaked);
    hide Lines;
  }

  /** Reading past one quoted line to a line of words. */
  lemma OneQuotedLine(quoted: string, said: string)
    requires IsQuote(quoted) && !Skipped(said)
    ensures AfterQuote([quoted, said]) == [said]
  {
    assert [quoted, said][1..] == [said];
  }

  lemma {:induction false} ReplaceInside(a: string, b: string)
    requires '\r' !in a && '\r' !in b
    ensures ReplaceCR(a + "\r" + b) == a + "\n" + b
  {
    if a == "" {
      assert a + "\r" + b == ['\r'] + b;
      ReplaceStep('\r', b);
      ReplaceNothing(b);
      assert ['\n'] + b == a + "\n" + b;
    } else {
      assert a[0] in a && forall c | c in a[1..] :: c in a;
      ReplaceInside(a[1..], b);
      assert a + "\r" + b == [a[0]] + (a[1..] + "\r" + b);
      ReplaceStep(a[0], a[1..] + "\r" + b);
      assert [a[0]] + (a[1..] + "\n" + b) == a + "\n" + b;
    }
  }

  lemma {:induction false} ReplaceNothing(s: string)
    requires '\r' !in s
    ensures ReplaceCR(s) == s
  {
    if s != "" {
      assert s[0] in s && s == [s[0]] + s[1..] && forall c | c in s[1..] :: c in s;
      ReplaceNothing(s[1..]);
    }
  }
}
