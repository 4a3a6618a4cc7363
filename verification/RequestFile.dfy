/** The dashboard's request file: header lines, a blank line, the body
    (internal/dashboard/request.go). */
module RequestFile {
  import opened Text
  import opened Options
  import Quote

  datatype Request = Request(
    id: string, status: string, role: string, body: string,
    response: string, createdAt: string, updatedAt: string)

  /** The body a request file carries when the request has none. */
  const BODY_FALLBACK := ""

  const EMPTY := Request("", "", "", "", "", "", "")

  /** `strings.ReplaceAll(s, "\n", "\\n")`: a response is written on one line. */
  function Escape(s: string): string {
    if s == "" then ""
    else (if s[0] == '\n' then "\\n" else [s[0]]) + Escape(s[1..])
  }

  /** `strings.ReplaceAll(s, "\\n", "\n")`. */
  function Unescape(s: string): string {
    if s == "" then ""
    else if PairAt(s, 0, '\\', 'n') then "\n" + Unescape(s[2..])
    else [s[0]] + Unescape(s[1..])
  }

  /** `strings.TrimRight(body, "\n")`. */
  function TrimNewlines(s: string): string {
    if s != "" && s[|s| - 1] == '\n' then TrimNewlines(s[..|s| - 1]) else s
  }

  /** One header line. */
  function Line(key: string, value: string): string {
    key + ": " + value
  }

  function Header(r: Request): seq<string> {
    [Line("id", r.id), Line("status", r.status)] + RoleLine(r) + [Line("created_at", r.createdAt)]
    + UpdatedLine(r) + ResponseLine(r)
  }

  function RoleLine(r: Request): seq<string> {
    if Trim(r.role) != "" then [Line("role", r.role)] else []
  }

  function UpdatedLine(r: Request): seq<string> {
    if r.updatedAt != "" then [Line("updated_at", r.updatedAt)] else []
  }

  function ResponseLine(r: Request): seq<string> {
    if r.response != "" then [Line("response", Escape(r.response))] else []
  }

  predicate EndsLine(body: string) {
    body != "" && body[|body| - 1] == '\n'
  }

  function Ended(body: string): string {
    if EndsLine(body) then body else body + "\n"
  }

  function Render(r: Request): string {
    Join(Header(r)) + "\n\n" + Ended(r.body)
  }

  lemma {:induction false} JoinGrows(lines: seq<string>, line: string)
    requires lines != []
    ensures Join(lines + [line]) == Join(lines) + "\n" + line
  {
    assert (lines + [line])[1..] == lines[1..] + [line];
    if |lines| > 1 {
      JoinGrows(lines[1..], line);
      assert Join(lines) + "\n" + line == lines[0] + "\n" + (Join(lines[1..]) + "\n" + line);
    }
  }

  /** One line of the builder: what is written so far stays the lines joined, each ended. */
  method WriteLine(b: string, ghost lines: seq<string>, key: string, value: string) returns (more: string)
    requires b == if lines == [] then "" else Join(lines) + "\n"
    ensures more == Join(lines + [Line(key, value)]) + "\n"
  {
    if lines != [] {
      JoinGrows(lines, Line(key, value));
    }
    more := b + Line(key, value) + "\n";
  }

  /** A line that is left out when there is nothing to say. */
  method WriteOptional(b: string, ghost lines: seq<string>, key: string, value: string, written: bool)
    returns (more: string)
    requires lines != [] && b == Join(lines) + "\n"
    ensures more == Join(lines + if written then [Line(key, value)] else []) + "\n"
  {
    hide Line, Join;
    more := b;
    if written {
      more := WriteLine(b, lines, key, value);
    } else {
      assert lines + [] == lines;
    }
  }

  /** The header lines `render` writes one by one. */
  method WriteHeader(r: Request) returns (b: string)
    ensures b == Join(Header(r)) + "\n"
  {
    hide Line, Join, Escape, Trim;
    ghost var first := [Line("id", r.id)];
    assert [] + first == first;
    b := WriteLine("", [], "id", r.id);
    b := WriteLine(b, first, "status", r.status);
    ghost var lines := first + [Line("status", r.status)];
    b := WriteOptional(b, lines, "role", r.role, Trim(r.role) != "");
    lines := lines + RoleLine(r);
    b := WriteLine(b, lines, "created_at", r.createdAt);
    lines := lines + [Line("created_at", r.createdAt)];
    b := WriteOptional(b, lines, "updated_at", r.updatedAt, r.updatedAt != "");
    lines := lines + UpdatedLine(r);
    b := WriteOptional(b, lines, "response", Escape(r.response), r.response != "");
    lines := lines + ResponseLine(r);
    hide RoleLine, UpdatedLine, ResponseLine;
    assert lines == Header(r);
  }

  method WriteRequest(r: Request) returns (b: string)
    ensures b == Render(r)
  {
    hide Header, Join;
    b := WriteHeader(r);
    var body := r.body;
    if body == "" {
      body := BODY_FALLBACK;
    }
    b := b + "\n" + body;
    if !EndsLine(body) {
      b := b + "\n";
    }
    assert Join(Header(r)) + "\n" + "\n" == Join(Header(r)) + "\n\n";
  }

  datatype FieldName = Id | Status | Role | CreatedAt | UpdatedAt | Response

  /** The header keys a reader knows: the same fields `render` writes. */
  function FieldNamed(key: string): Option<FieldName> {
    if key == "id" then Some(Id)
    else if key == "status" then Some(Status)
    else if key == "role" then Some(Role)
    else if key == "created_at" then Some(CreatedAt)
    else if key == "updated_at" then Some(UpdatedAt)
    else if key == "response" then Some(Response)
    else None
  }

  function Assign(r: Request, field: FieldName, value: string): Request {
    match field
    case Id => r.(id := value)
    case Status => r.(status := value)
    case Role => r.(role := value)
    case CreatedAt => r.(createdAt := value)
    case UpdatedAt => r.(updatedAt := value)
    case Response => r.(response := value)
  }

  function Field(r: Request, key: string, value: string): Request {
    match FieldNamed(key)
    case Some(field) => Assign(r, field, value)
    case None => r
  }

  function ParseLine(r: Request, line: string): Request {
    var i := Find(line, ':', ' ');
    if i == |line| then r else Field(r, line[..i], Trim(line[i + 2..]))
  }

  function ParseLines(r: Request, lines: seq<string>): Request
    decreases |lines|
  {
    if lines == [] then r else ParseLines(ParseLine(r, lines[0]), lines[1..])
  }

  function Parse(text: string): Request {
    var i := Find(text, '\n', '\n');
    var header, body := text[..i], if i == |text| then "" else text[i + 2..];
    var r := ParseLines(EMPTY, Lines(header));
    r.(response := Unescape(r.response), body := TrimNewlines(body))
  }

  lemma {:induction false} ParseLinesConcat(r: Request, a: seq<string>, b: seq<string>)
    ensures ParseLines(r, a + b) == ParseLines(ParseLines(r, a), b)
    decreases |a|
  {
    if a == [] {
      assert a + b == b;
    } else {
      assert (a + b)[1..] == a[1..] + b;
      ParseLinesConcat(ParseLine(r, a[0]), a[1..], b);
    }
  }

  /** The loop that assigns each known header line's field. */
  method ReadRequest(text: string) returns (request: Request)
    ensures request == Parse(text)
  {
    hide Find, Field, Unescape, TrimNewlines, Trim, Lines;
    var i := Find(text, '\n', '\n');
    var header, body := text, "";
    if i != |text| {
      header, body := text[..i], text[i + 2..];
    } else {
      assert text[..i] == text;
    }
    request := EMPTY;
    var lines := Lines(header);
    for k := 0 to |lines|
      invariant request == ParseLines(EMPTY, lines[..k])
    {
      assert lines[..k + 1] == lines[..k] + [lines[k]];
      ParseLinesConcat(EMPTY, lines[..k], [lines[k]]);
      var at := Find(lines[k], ':', ' ');
      if at == |lines[k]| {
        continue;
      }
      request := Field(request, lines[k][..at], Trim(lines[k][at + 2..]));
    }
    assert lines[..|lines|] == lines;
    request := request.(response := Unescape(request.response), body := TrimNewlines(body));
  }

  // Which requests the format carries unchanged.

  predicate HeaderValue(s: string) {
    OneLine(s) && Trimmed(s)
  }

  predicate HeaderValues(r: Request) {
    HeaderValue(r.id) && HeaderValue(r.status) && HeaderValue(r.role)
    && HeaderValue(r.createdAt) && HeaderValue(r.updatedAt)
  }

  predicate Literal(s: string) {
    exists i | 0 <= i < |s| :: PairAt(s, i, '\\', 'n')
  }

  /** An edge of a response that trimming would take away: a newline is escaped by then. */
  predicate LooseEdge(c: char) {
    IsSpace(c) && c != '\n'
  }

  predicate ResponseValue(s: string) {
    s == "" || (!LooseEdge(s[0]) && !LooseEdge(s[|s| - 1]) && !Literal(s))
  }

  predicate Renderable(r: Request) {
    HeaderValues(r) && ResponseValue(r.response) && !EndsLine(r.body)
  }

  lemma {:induction false} FindIs(s: string, a: char, b: char, i: nat)
    requires PairAt(s, i, a, b)
    requires forall j | 0 <= j < i :: !PairAt(s, j, a, b)
    ensures Find(s, a, b) == i
  {
    assert !(Find(s, a, b) > i);
  }

  lemma {:induction false} NoBlankLineInside(lines: seq<string>, rest: string, j: nat)
    requires lines != [] && forall l | l in lines :: OneLine(l) && l != ""
    requires j < |Join(lines)|
    ensures var s := Join(lines) + "\n\n" + rest; s[j] != '\n' || s[j + 1] != '\n'
  {
    var first := lines[0];
    var s := Join(lines) + "\n\n" + rest;
    assert first in lines;
    if j < |first| {
      assert s[j] == first[j] && first[j] in first;
    } else {
      var tail := lines[1..];
      var t := Join(tail) + "\n\n" + rest;
      assert tail[0] in lines && tail[0][0] in tail[0];
      assert s == first + "\n" + t;
      if j == |first| {
        assert s[j + 1] == t[0] == tail[0][0];
      } else {
        NoBlankLineInside(tail, rest, j - |first| - 1);
        assert s[j] == t[j - |first| - 1] && s[j + 1] == t[j - |first|];
      }
    }
  }

  lemma {:induction false} FindBlankLine(lines: seq<string>, rest: string)
    requires lines != [] && forall l | l in lines :: OneLine(l) && l != ""
    ensures Find(Join(lines) + "\n\n" + rest, '\n', '\n') == |Join(lines)|
  {
    var s := Join(lines) + "\n\n" + rest;
    forall j | 0 <= j < |Join(lines)| ensures !PairAt(s, j, '\n', '\n') {
      NoBlankLineInside(lines, rest, j);
    }
    FindIs(s, '\n', '\n', |Join(lines)|);
  }

  lemma {:induction false} ParseHeaderLine(r: Request, key: string, value: string)
    requires key != "" && ':' !in key
    ensures ParseLine(r, Line(key, value)) == Field(r, key, Trim(value))
  {
    var line := Line(key, value);
    forall j | 0 <= j < |key| ensures !PairAt(line, j, ':', ' ') {
      assert line[j] == key[j] && key[j] in key;
    }
    FindIs(line, ':', ' ', |key|);
    assert line[|key| + 2..] == value && line[..|key|] == key;
  }

  lemma ParseHeaderLines(r: Request, key: string, value: string, more: seq<string>)
    requires key != "" && ':' !in key
    ensures ParseLines(r, [Line(key, value)] + more) == ParseLines(Field(r, key, Trim(value)), more)
  {
    ParseHeaderLine(r, key, value);
    assert ([Line(key, value)] + more)[1..] == more;
  }

  lemma ParseOptional(r: Request, key: string, value: string, more: seq<string>, written: bool)
    requires key != "" && ':' !in key
    requires !written ==> r == Field(r, key, Trim(value))
    ensures ParseLines(r, (if written then [Line(key, value)] else []) + more)
            == ParseLines(Field(r, key, Trim(value)), more)
  {
    if written {
      ParseHeaderLines(r, key, value, more);
    } else {
      assert [] + more == more;
    }
  }

  lemma ParseRole(r: Request, q: Request, more: seq<string>)
    requires q.role == "" && Trimmed(r.role)
    ensures ParseLines(q, RoleLine(r) + more) == ParseLines(q.(role := r.role), more)
  {
    TrimIsTrimmed(r.role);
    ParseOptional(q, "role", r.role, more, Trim(r.role) != "");
  }

  lemma ParseUpdated(r: Request, q: Request, more: seq<string>)
    requires q.updatedAt == "" && Trimmed(r.updatedAt)
    ensures ParseLines(q, UpdatedLine(r) + more) == ParseLines(q.(updatedAt := r.updatedAt), more)
  {
    TrimIsTrimmed(r.updatedAt);
    ParseOptional(q, "updated_at", r.updatedAt, more, r.updatedAt != "");
  }

  lemma ParseResponse(r: Request, q: Request)
    requires q.response == ""
    ensures ParseLines(q, ResponseLine(r)) == q.(response := Trim(Escape(r.response)))
  {
    assert Trim(Escape("")) == "";
    ParseOptional(q, "response", Escape(r.response), [], r.response != "");
    assert ResponseLine(r) + [] == ResponseLine(r);
  }

  lemma ParseStart(r: Request, more: seq<string>)
    requires Trimmed(r.id) && Trimmed(r.status)
    ensures ParseLines(EMPTY, [Line("id", r.id), Line("status", r.status)] + more)
            == ParseLines(EMPTY.(id := r.id, status := r.status), more)
  {
    TrimIsTrimmed(r.id);
    TrimIsTrimmed(r.status);
    var lines := [Line("status", r.status)] + more;
    assert [Line("id", r.id), Line("status", r.status)] + more == [Line("id", r.id)] + lines;
    ParseHeaderLines(EMPTY, "id", r.id, lines);
    ParseHeaderLines(EMPTY.(id := r.id), "status", r.status, more);
  }

  lemma ParseCreated(r: Request, q: Request, more: seq<string>)
    requires Trimmed(r.createdAt)
    ensures ParseLines(q, [Line("created_at", r.createdAt)] + more) == ParseLines(q.(createdAt := r.createdAt), more)
  {
    TrimIsTrimmed(r.createdAt);
    ParseHeaderLines(q, "created_at", r.createdAt, more);
  }

  lemma ParseOfHeader(r: Request)
    requires HeaderValues(r)
    ensures ParseLines(EMPTY, Header(r)) == r.(body := "", response := Trim(Escape(r.response)))
  {
    var fromUpdated := UpdatedLine(r) + ResponseLine(r);
    var fromCreated := [Line("created_at", r.createdAt)] + fromUpdated;
    assert Header(r) == [Line("id", r.id), Line("status", r.status)] + (RoleLine(r) + fromCreated);
    var q := EMPTY.(id := r.id, status := r.status);
    ParseStart(r, RoleLine(r) + fromCreated);
    ParseRole(r, q, fromCreated);
    ParseCreated(r, q.(role := r.role), fromUpdated);
    ParseUpdated(r, q.(role := r.role, createdAt := r.createdAt), ResponseLine(r));
    ParseResponse(r, q.(role := r.role, createdAt := r.createdAt, updatedAt := r.updatedAt));
  }

  lemma {:induction false} EscapeIsOneLine(s: string)
    ensures OneLine(Escape(s))
  {
    if s != "" {
      EscapeIsOneLine(s[1..]);
    }
  }

  lemma HeaderIsOneLine(r: Request, l: string)
    requires HeaderValues(r) && l in Header(r)
    ensures OneLine(l) && l != ""
  {
    EscapeIsOneLine(r.response);
  }

  /** What reading back a written request yields, whatever its response and body. */
  lemma ParseOfRender(r: Request)
    requires HeaderValues(r)
    ensures Parse(Render(r)) == r.(response := Unescape(Trim(Escape(r.response))), body := TrimNewlines(r.body))
  {
    forall l | l in Header(r) ensures OneLine(l) && l != "" {
      HeaderIsOneLine(r, l);
    }
    LinesOfJoin(Header(r));
    ParseOfHeader(r);
    ParseOfParts(Header(r), r.body);
  }

  lemma ParseOfText(header: string, rest: string)
    requires Find(header + "\n\n" + rest, '\n', '\n') == |header|
    ensures var q := ParseLines(EMPTY, Lines(header));
            Parse(header + "\n\n" + rest) == q.(response := Unescape(q.response), body := TrimNewlines(rest))
  {
    var text := header + "\n\n" + rest;
    assert text[..|header|] == header && text[|header| + 2..] == rest;
  }

  lemma BodyIsKept(body: string)
    ensures TrimNewlines(Ended(body)) == TrimNewlines(body)
  {
    assert (body + "\n")[..|body|] == body;
  }

  lemma ParseOfParts(header: seq<string>, body: string)
    requires header != [] && forall l | l in header :: OneLine(l) && l != ""
    ensures var q := ParseLines(EMPTY, Lines(Join(header)));
            Parse(Join(header) + "\n\n" + Ended(body))
            == q.(response := Unescape(q.response), body := TrimNewlines(body))
  {
    FindBlankLine(header, Ended(body));
    ParseOfText(Join(header), Ended(body));
    BodyIsKept(body);
  }

  lemma AssignTakesHeaderValue(r: Request, field: FieldName, value: string)
    requires HeaderValues(r) && HeaderValue(value)
    ensures HeaderValues(Assign(r, field, value))
  {
  }

  lemma FieldTakesHeaderValue(r: Request, key: string, value: string)
    requires HeaderValues(r) && HeaderValue(value)
    ensures HeaderValues(Field(r, key, value))
  {
    var field := FieldNamed(key);
    if field.Some? {
      AssignTakesHeaderValue(r, field.value, value);
    }
  }

  lemma {:induction false} ReadFieldsAreHeaderValues(r: Request, lines: seq<string>)
    requires HeaderValues(r) && forall l | l in lines :: OneLine(l)
    ensures HeaderValues(ParseLines(r, lines))
    decreases |lines|
  {
    if lines != [] {
      var line := lines[0];
      var i := Find(line, ':', ' ');
      assert line in lines;
      if i != |line| {
        var value := line[i + 2..];
        assert forall c | c in value :: c in line;
        TrimIsTrimmed(value);
        TrimKeepsLine(value);
        FieldTakesHeaderValue(r, line[..i], Trim(value));
      }
      ReadFieldsAreHeaderValues(ParseLine(r, line), lines[1..]);
    }
  }

  lemma {:induction false} TrimKeepsLine(s: string)
    requires OneLine(s)
    ensures OneLine(Trim(s))
  {
    var blank := TrimLeftIsTail(s);
    assert forall c | c in TrimLeft(s) :: c in s;
    assert Trim(s) <= TrimLeft(s);
  }

  lemma {:induction false} TrimNewlinesEndsNoLine(s: string)
    ensures !EndsLine(TrimNewlines(s))
    ensures TrimNewlines(s) == s <==> !EndsLine(s)
    ensures TrimNewlines(s) <= s
  {
    if EndsLine(s) {
      TrimNewlinesEndsNoLine(s[..|s| - 1]);
    }
  }

  lemma {:induction false} EscapeEnds(s: string)
    requires s != ""
    ensures Escape(s) != ""
    ensures Escape(s)[0] == if s[0] == '\n' then '\\' else s[0]
    ensures Escape(s)[|Escape(s)| - 1] == if s[|s| - 1] == '\n' then 'n' else s[|s| - 1]
  {
    if |s| > 1 {
      EscapeEnds(s[1..]);
    }
  }

  lemma {:induction false} UnescapeEnds(s: string)
    requires s != ""
    ensures Unescape(s) != ""
    ensures Unescape(s)[0] == s[0] || Unescape(s)[0] == '\n'
    ensures var u := Unescape(s); u[|u| - 1] == s[|s| - 1] || u[|u| - 1] == '\n'
  {
    var rest := if PairAt(s, 0, '\\', 'n') then s[2..] else s[1..];
    if rest != "" {
      UnescapeEnds(rest);
    }
  }

  /** A literal backslash-n shifts with the text it stands in. */
  lemma LiteralShifts(s: string)
    requires s != ""
    ensures Literal(s) <==> PairAt(s, 0, '\\', 'n') || Literal(s[1..])
  {
    if Literal(s[1..]) {
      var i :| 0 <= i < |s[1..]| && PairAt(s[1..], i, '\\', 'n');
      PairShifts(s, i, '\\', 'n');
      assert PairAt(s, i + 1, '\\', 'n');
    }
    if Literal(s) && !PairAt(s, 0, '\\', 'n') {
      var i :| 0 <= i < |s| && PairAt(s, i, '\\', 'n');
      assert i != 0;
      PairShifts(s, i - 1, '\\', 'n');
      assert PairAt(s[1..], i - 1, '\\', 'n');
    }
  }

  /** Escaping puts a backslash-n where a newline was, and nowhere else. */
  lemma EscapeStep(s: string)
    requires s != ""
    ensures s[0] == '\n' ==> PairAt(Escape(s), 0, '\\', 'n') && Escape(s)[2..] == Escape(s[1..])
    ensures s[0] != '\n' ==> Escape(s)[1..] == Escape(s[1..]) && Escape(s)[0] == s[0]
    ensures s[0] != '\n' ==> (PairAt(Escape(s), 0, '\\', 'n') <==> PairAt(s, 0, '\\', 'n'))
  {
    if |s| > 1 {
      EscapeEnds(s[1..]);
    }
  }

  lemma {:induction false} UnescapeUndoesEscape(s: string)
    requires !Literal(s)
    ensures Unescape(Escape(s)) == s
  {
    if s != "" {
      assert s == [s[0]] + s[1..];
      LiteralShifts(s);
      EscapeStep(s);
      UnescapeUndoesEscape(s[1..]);
    }
  }

  lemma {:induction false} UnescapeShrinksLiterals(s: string)
    ensures |Unescape(Escape(s))| <= |s|
    ensures Literal(s) ==> |Unescape(Escape(s))| < |s|
  {
    if s != "" {
      LiteralShifts(s);
      EscapeStep(s);
      if PairAt(s, 0, '\\', 'n') {
        EscapeStep(s[1..]);
        assert Escape(s)[2..] == Escape(s[1..])[1..] == Escape(s[2..]);
        UnescapeShrinksLiterals(s[2..]);
      } else {
        UnescapeShrinksLiterals(s[1..]);
      }
    }
  }

  /** A response comes back as it was exactly when it can be carried. */
  lemma ResponseRoundTrip(s: string)
    ensures Unescape(Trim(Escape(s))) == s <==> ResponseValue(s)
  {
    if s == "" {
      assert Trim(Escape(s)) == "";
    } else {
      var e := Escape(s);
      EscapeEnds(s);
      TrimIsTrimmed(e);
      if LooseEdge(s[0]) || LooseEdge(s[|s| - 1]) {
        if Trim(e) != "" {
          UnescapeEnds(Trim(e));
        }
      } else {
        assert Trim(e) == e;
        UnescapeShrinksLiterals(s);
        if !Literal(s) {
          UnescapeUndoesEscape(s);
        }
      }
    }
  }

  /** Reading undoes writing for exactly the requests the format can carry. */
  lemma ParseUndoesRender(r: Request)
    ensures Parse(Render(r)) == r <==> Renderable(r)
  {
    var text := Render(r);
    var i := Find(text, '\n', '\n');
    LinesAreOneLine(text[..i]);
    ReadFieldsAreHeaderValues(EMPTY, Lines(text[..i]));
    if HeaderValues(r) {
      ParseOfRender(r);
      ResponseRoundTrip(r.response);
      TrimNewlinesEndsNoLine(r.body);
    }
  }

  lemma TrimmedEndsNoLine(s: string)
    ensures !EndsLine(Trim(s))
  {
    TrimIsTrimmed(s);
  }

  /** What the operator said survives the request file, so the body the queue shows can be
      compared for equality with the text that was handed over. */
  lemma OwnWordsSurviveTheFile(body: string, r: Request)
    requires HeaderValues(r) && r.body == Quote.OwnWords(body)
    ensures Parse(Render(r)).body == Quote.OwnWords(body)
  {
    ParseOfRender(r);
    TrimmedEndsNoLine(Join(Quote.AfterQuote(Lines(Quote.Normalized(body)))));
    TrimNewlinesEndsNoLine(r.body);
  }

  // The file's text.

  /** One header line with its newline, when it is written. */
  function Written(line: string, due: bool): string {
    if due then line + "\n" else ""
  }

  /** What is written, spelled out: the header lines in their order, each with its newline, an empty
      line, and the body with a newline at its end. */
  lemma RenderIs(r: Request)
    ensures Render(r)
            == Written("id: " + r.id, true) + Written("status: " + r.status, true)
               + Written("role: " + r.role, Trim(r.role) != "") + Written("created_at: " + r.createdAt, true)
               + Written("updated_at: " + r.updatedAt, r.updatedAt != "")
               + Written("response: " + Escape(r.response), r.response != "")
               + "\n" + r.body + Written("", r.body == "" || r.body[|r.body| - 1] != '\n')
  {
    hide Trim, Escape, Written;
    HeaderWithEnds(r);
    JoinWithEnds(Header(r));
    assert Render(r) == (Join(Header(r)) + "\n") + "\n" + Ended(r.body) by {
      assert "\n\n" == "\n" + "\n";
    }
    EndedIs(r.body);
  }

  lemma EndedIs(body: string)
    ensures Ended(body) == body + Written("", body == "" || body[|body| - 1] != '\n')
  {
    assert "" + "\n" == "\n" && body + "" == body;
  }

  lemma HeaderWithEnds(r: Request)
    ensures WithEnds(Header(r))
            == Written("id: " + r.id, true) + Written("status: " + r.status, true)
               + Written("role: " + r.role, Trim(r.role) != "") + Written("created_at: " + r.createdAt, true)
               + Written("updated_at: " + r.updatedAt, r.updatedAt != "")
               + Written("response: " + Escape(r.response), r.response != "")
  {
    hide Trim, Escape, Written, Line, RoleLine, UpdatedLine, ResponseLine;
    var start, role, created := [Line("id", r.id), Line("status", r.status)], RoleLine(r),
        [Line("created_at", r.createdAt)];
    var updated, response := UpdatedLine(r), ResponseLine(r);
    LinesWithEnds(start + role + created + updated, response);
    LinesWithEnds(start + role + created, updated);
    LinesWithEnds(start + role, created);
    LinesWithEnds(start, role);
    SpelledLines(r);
  }

  function WithEnds(lines: seq<string>): string {
    if lines == [] then "" else lines[0] + "\n" + WithEnds(lines[1..])
  }

  lemma {:induction false} LinesWithEnds(a: seq<string>, b: seq<string>)
    ensures WithEnds(a + b) == WithEnds(a) + WithEnds(b)
  {
    if a == [] {
      assert a + b == b;
    } else {
      assert (a + b)[1..] == a[1..] + b;
      LinesWithEnds(a[1..], b);
    }
  }

  lemma {:induction false} JoinWithEnds(lines: seq<string>)
    requires lines != []
    ensures Join(lines) + "\n" == WithEnds(lines)
  {
    if |lines| > 1 {
      JoinWithEnds(lines[1..]);
    } else {
      assert WithEnds(lines[1..]) == "";
    }
  }

  lemma SpelledLines(r: Request)
    ensures WithEnds([Line("id", r.id), Line("status", r.status)])
            == Written("id: " + r.id, true) + Written("status: " + r.status, true)
    ensures WithEnds(RoleLine(r)) == Written("role: " + r.role, Trim(r.role) != "")
    ensures WithEnds([Line("created_at", r.createdAt)]) == Written("created_at: " + r.createdAt, true)
    ensures WithEnds(UpdatedLine(r)) == Written("updated_at: " + r.updatedAt, r.updatedAt != "")
    ensures WithEnds(ResponseLine(r)) == Written("response: " + Escape(r.response), r.response != "")
  {
    hide Trim, Escape;
    assert "id" + ": " == "id: " && "status" + ": " == "status: " && "role" + ": " == "role: ";
    assert "created_at" + ": " == "created_at: " && "updated_at" + ": " == "updated_at: ";
    assert "response" + ": " == "response: ";
    assert forall l: string :: WithEnds([l]) == l + "\n" by {
      forall l: string ensures WithEnds([l]) == l + "\n" {
        assert [l][1..] == [];
      }
    }
    assert [Line("id", r.id), Line("status", r.status)][1..] == [Line("status", r.status)];
  }

  /** A response on one line: each of its newlines is a backslash and an n. */
  lemma {:induction false} EscapeIs(lines: seq<string>)
    requires lines != [] && forall l | l in lines :: OneLine(l)
    ensures Escape(Join(lines)) == lines[0] + Behind(lines[1..])
  {
    EscapeOfOneLine(lines[0]);
    if |lines| > 1 {
      EscapeIs(lines[1..]);
      var rest := Join(lines[1..]);
      EscapeConcat(lines[0], "\n" + rest);
      assert lines[0] + "\n" + rest == lines[0] + ("\n" + rest) && ("\n" + rest)[1..] == rest;
    }
  }

  function Behind(lines: seq<string>): string {
    if lines == [] then "" else ['\\', 'n'] + lines[0] + Behind(lines[1..])
  }

  lemma {:induction false} EscapeConcat(a: string, b: string)
    ensures Escape(a + b) == Escape(a) + Escape(b)
  {
    if a == "" {
      assert a + b == b;
    } else {
      assert (a + b)[1..] == a[1..] + b;
      EscapeConcat(a[1..], b);
    }
  }

  lemma {:induction false} EscapeOfOneLine(s: string)
    requires OneLine(s)
    ensures Escape(s) == s
  {
    if s != "" {
      EscapeOfOneLine(s[1..]);
      assert s == [s[0]] + s[1..];
    }
  }

  // What is read.

  /** A header line that names a key. */
  predicate Names(line: string, key: string) {
    Find(line, ':', ' ') == |key| && |key| + 2 <= |line| && line[..|key|] == key
  }

  /** A header line that names a key and has this value behind the name, trimmed. */
  predicate Gives(line: string, key: string, value: string) {
    Names(line, key) && value == Trim(line[|key| + 2..])
  }

  /** The value of a key: that of the last header line naming it, or none. */
  ghost predicate Says(lines: seq<string>, key: string, value: string) {
    if exists l | l in lines :: Names(l, key) then
      exists i | 0 <= i < |lines| ::
        Gives(lines[i], key, value) && forall j | i < j < |lines| :: !Names(lines[j], key)
    else value == ""
  }

  function Value(r: Request, field: FieldName): string {
    match field
    case Id => r.id
    case Status => r.status
    case Role => r.role
    case CreatedAt => r.createdAt
    case UpdatedAt => r.updatedAt
    case Response => r.response
  }

  lemma LineSays(r: Request, line: string, key: string, field: FieldName)
    requires FieldNamed(key) == Some(field)
    ensures Value(ParseLine(r, line), field)
            == if Names(line, key) then Trim(line[|key| + 2..]) else Value(r, field)
    ensures Names(line, key) ==> Gives(line, key, Value(ParseLine(r, line), field))
  {
    hide Find, Trim;
    var i := Find(line, ':', ' ');
    if i != |line| && FieldNamed(line[..i]) == Some(field) {
      assert line[..i] == key && |line[..i]| == i;
    }
  }

  lemma NothingSaid(field: FieldName)
    ensures Value(EMPTY, field) == ""
  {
  }

  lemma {:induction false} LinesSay(lines: seq<string>, key: string, field: FieldName)
    requires FieldNamed(key) == Some(field)
    ensures Says(lines, key, Value(ParseLines(EMPTY, lines), field))
  {
    hide Names, Gives, ParseLine, Value, FieldNamed;
    NothingSaid(field);
    if lines != [] {
      var last, rest := lines[|lines| - 1], lines[..|lines| - 1];
      assert lines == rest + [last];
      LinesSay(rest, key, field);
      assert forall l :: l in lines <==> l == last || l in rest;
      ParseLinesConcat(EMPTY, rest, [last]);
      assert ParseLines(ParseLines(EMPTY, rest), [last]) == ParseLine(ParseLines(EMPTY, rest), last);
      LineSays(ParseLines(EMPTY, rest), last, key, field);
      if Names(last, key) {
        assert Gives(lines[|lines| - 1], key, Value(ParseLines(EMPTY, lines), field));
      } else if exists l | l in rest :: Names(l, key) {
        var value := Value(ParseLines(EMPTY, rest), field);
        var i :| 0 <= i < |rest| && Gives(rest[i], key, value)
                 && forall j | i < j < |rest| :: !Names(rest[j], key);
        assert lines[i] == rest[i] && forall j | i < j < |lines| :: !Names(lines[j], key);
      }
    }
  }

  /** The text before its first empty line, and what follows that. */
  ghost predicate Cut(text: string, header: string, body: string) {
    if exists i | 0 <= i < |text| :: PairAt(text, i, '\n', '\n') then
      exists i | 0 <= i < |text| ::
        && PairAt(text, i, '\n', '\n') && header == text[..i] && body == text[i + 2..]
        && forall j | 0 <= j < i :: !PairAt(text, j, '\n', '\n')
    else header == text && body == ""
  }

  lemma CutIs(text: string)
    ensures var i := Find(text, '\n', '\n');
            Cut(text, text[..i], if i == |text| then "" else text[i + 2..])
  {
    hide PairAt, Find;
    var i := Find(text, '\n', '\n');
    NoneBefore(text, i);
    if i == |text| {
      assert text[..i] == text;
    }
  }

  lemma NoneBefore(text: string, i: nat)
    requires i == Find(text, '\n', '\n')
    ensures forall j | 0 <= j < i :: !PairAt(text, j, '\n', '\n')
    ensures i < |text| ==> PairAt(text, i, '\n', '\n')
  {
  }

  /** What is read, said of the text: each field is what the last header line with its name says, the
      response read back from its one line, and the body is what follows the first empty line, without
      the newlines at its end. */
  lemma ParseMeans(text: string) returns (header: string, rest: string, response: string)
    ensures Cut(text, header, rest)
    ensures var r, lines := Parse(text), Lines(header);
            && Says(lines, "id", r.id) && Says(lines, "status", r.status) && Says(lines, "role", r.role)
            && Says(lines, "created_at", r.createdAt) && Says(lines, "updated_at", r.updatedAt)
            && Says(lines, "response", response) && r.response == Unescape(response)
    ensures Parse(text).body <= rest && (Parse(text).body == "" || !EndsLine(Parse(text).body))
    ensures forall i | |Parse(text).body| <= i < |rest| :: rest[i] == '\n'
  {
    hide Says, ParseLines, Lines, Unescape, Cut, Find;
    var i := Find(text, '\n', '\n');
    CutIs(text);
    header, rest := text[..i], if i == |text| then "" else text[i + 2..];
    var lines := Lines(header);
    var read := ParseLines(EMPTY, lines);
    response := read.response;
    LinesSay(lines, "id", Id);
    LinesSay(lines, "status", Status);
    LinesSay(lines, "role", Role);
    LinesSay(lines, "created_at", CreatedAt);
    LinesSay(lines, "updated_at", UpdatedAt);
    LinesSay(lines, "response", Response);
    OnlyNewlinesGo(rest);
  }

  lemma {:induction false} OnlyNewlinesGo(s: string)
    ensures TrimNewlines(s) <= s
    ensures TrimNewlines(s) == "" || TrimNewlines(s)[|TrimNewlines(s)| - 1] != '\n'
    ensures forall i | |TrimNewlines(s)| <= i < |s| :: s[i] == '\n'
  {
    if s != "" && s[|s| - 1] == '\n' {
      OnlyNewlinesGo(s[..|s| - 1]);
    }
  }
}
