/** A multipart body that is written out and parsed comes back part by part. */
module MultipartRoundTrip {
  import opened MultipartSpec
  import opened MultipartParser
  import opened MultipartRuns
  import opened MultipartSearch
  import opened MultipartHeaderText
  import opened Common

  datatype Header = Header(name: string, value: string)

  datatype Part = Part(headers: seq<Header>, body: string)

  predicate IsName(s: string) { s != [] && forall i :: 0 <= i < |s| ==> IsLetter(s[i]) || s[i] == '-' }

  predicate HeaderOk(h: Header) { IsName(h.name) && CR !in h.value && (h.value != [] ==> h.value[0] != ' ') }

  predicate HeadersOk(hs: seq<Header>) { forall i :: 0 <= i < |hs| ==> HeaderOk(hs[i]) }

  /** d stands nowhere in s. */
  predicate Without(s: string, d: string) { forall k :: 0 <= k <= |s| ==> !EndsWith(s[..k], d) }

  predicate PartOk(boundary: string, p: Part) { HeadersOk(p.headers) && Without(p.body, Delimiter(boundary)) }

  predicate PartsOk(boundary: string, ps: seq<Part>) { forall i :: 0 <= i < |ps| ==> PartOk(boundary, ps[i]) }

  function Line(h: Header): string { h.name + ": " + h.value + "\r\n" }

  function Lines(hs: seq<Header>): string { if hs == [] then [] else Lines(hs[..|hs| - 1]) + Line(hs[|hs| - 1]) }

  /** A part, up to and including the delimiter that ends it. */
  function PartText(boundary: string, p: Part): string {
    Lines(p.headers) + "\r\n" + (p.body + Delimiter(boundary))
  }

  /** Parts with a line end between them. */
  function PartsText(boundary: string, ps: seq<Part>): string {
    if ps == [] then []
    else PartsText(boundary, ps[..|ps| - 1]) + "\r\n" + PartText(boundary, ps[|ps| - 1])
  }

  /** A whole multipart body: section 5.1.1 of RFC 2046.  `boundary` is the dash-boundary. */
  function Message(boundary: string, ps: seq<Part>): string { boundary + PartsText(boundary, ps) + "--" }

  function HeaderEvents(hs: seq<Header>): seq<Event> {
    if hs == [] then []
    else HeaderEvents(hs[..|hs| - 1]) + [Data(Field, hs[|hs| - 1].name), Data(FieldValue, hs[|hs| - 1].value)]
  }

  function PartEvents(p: Part): seq<Event> {
    [PartDataBegin] + HeaderEvents(p.headers) + [HeadersComplete] + [Data(PartData, p.body)] + [PartDataEnded]
  }

  function PartsEvents(ps: seq<Part>): seq<Event> {
    if ps == [] then [] else PartsEvents(ps[..|ps| - 1]) + PartEvents(ps[|ps| - 1])
  }

  function MessageEvents(ps: seq<Part>): seq<Event> { PartsEvents(ps) + [BodyEnd] }

  lemma {:induction false} Then(
    boundary: string, c: Core, log: seq<Event>, a: string, c1: Core, held1: string, log1: seq<Event>, s: string,
      open: bool)
    requires Scan(boundary, c, [], log, a, true) == Result(c1, held1, log1, []) && s != []
    ensures Scan(boundary, c, [], log, a + s, open) == Scan(boundary, c1, held1, log1, s, open)
  {
    hide Scan;
    ScanConcat(boundary, c, [], log, a, s, open);
  }

  lemma {:induction false} One(boundary: string, c: Core, held: string, log: seq<Event>, ch: char, open: bool)
    ensures Scan(boundary, c, held, log, [ch], open) ==
            var r := Octet(boundary, c, held, log, ch, !open);
            Result(r.core, r.held, r.log, if r.going then [] else [ch])
  {
    hide Octet;
    assert [ch][1..] == [];
  }

  /** The text of a name is held until its colon. */
  lemma {:induction false} NameHeld(boundary: string, c: Core, log: seq<Event>, name: string)
    requires c.state.HeaderFieldStart? && IsName(name)
    ensures Scan(boundary, c, [], log, name, true) == Result(c.(state := HeaderField), name, log, [])
    decreases |name|
  {
    hide Scan, Push;
    var n := |name| - 1;
    assert name == name[..n] + [name[n]];
    if n == 0 {
      One(boundary, c, [], log, name[0], true);
      assert name == [name[0]] && [] + [name[0]] == [name[0]];
    } else {
      NameHeld(boundary, c, log, name[..n]);
      ScanSnoc(boundary, c, [], log, name[..n], name[n], true);
    }
  }

  lemma {:induction false} ValueHeld(boundary: string, c: Core, log: seq<Event>, v: string)
    requires c.state.HeaderValueStart? && v != [] && v[0] != ' ' && CR !in v
    ensures Scan(boundary, c, [], log, v, true) == Result(c.(state := HeaderValue), v, log, [])
    decreases |v|
  {
    hide Scan, Push;
    var n := |v| - 1;
    assert v == v[..n] + [v[n]] && v[n] in v;
    if n == 0 {
      One(boundary, c, [], log, v[0], true);
      assert v == [v[0]] && [] + [v[0]] == [v[0]];
    } else {
      ValueHeld(boundary, c, log, v[..n]);
      ScanSnoc(boundary, c, [], log, v[..n], v[n], true);
    }
  }

  lemma {:induction false} ColonSpace(boundary: string, c: Core, name: string, log: seq<Event>)
    requires c.state.HeaderField?
    ensures Scan(boundary, c, name, log, ": ", true) ==
            Result(c.(state := HeaderValueStart), [], Push(log, Data(Field, name)), [])
  {
    hide Scan, Push;
    assert [':'] + [' '] == ": ";
    One(boundary, c, name, log, ':', true);
    ScanSnoc(boundary, c, name, log, [':'], ' ', true);
  }

  lemma {:induction false} LineEnd(boundary: string, c: Core, v: string, log: seq<Event>)
    requires c.state.HeaderValue? || (c.state.HeaderValueStart? && v == [])
    ensures Scan(boundary, c, v, log, "\r\n", true) ==
            Result(c.(state := HeaderFieldStart), [], Push(log, Data(FieldValue, v)), [])
  {
    hide Scan, Push;
    assert [CR] + [LF] == "\r\n";
    One(boundary, c, v, log, CR, true);
    ScanSnoc(boundary, c, v, log, [CR], LF, true);
  }

  predicate Ready(log: seq<Event>) { log == [] || !log[|log| - 1].Data? || !log[|log| - 1].channel.Field? }

  lemma {:induction false} LinePushed(log: seq<Event>, h: Header)
    requires Ready(log)
    ensures var log' := Push(Push(log, Data(Field, h.name)), Data(FieldValue, h.value));
            log' == log + [Data(Field, h.name), Data(FieldValue, h.value)] && Ready(log')
  {
    var e := [Data(Field, h.name)] + [Data(FieldValue, h.value)];
    assert log + [Data(Field, h.name)] + [Data(FieldValue, h.value)] == log + e;
  }

  lemma {:induction false} LineRun(boundary: string, c: Core, log: seq<Event>, h: Header)
    requires c.state.HeaderFieldStart? && HeaderOk(h) && Ready(log)
    ensures Scan(boundary, c, [], log, Line(h), true) ==
            Result(c, [], log + [Data(Field, h.name), Data(FieldValue, h.value)], [])
  {
    hide Scan, Push, IsName;
    var c1, c2 := c.(state := HeaderField), c.(state := HeaderValueStart);
    var log1 := Push(log, Data(Field, h.name));
    NameHeld(boundary, c, log, h.name);
    Then(boundary, c, log, h.name, c1, h.name, log, ": ", true);
    ColonSpace(boundary, c1, h.name, log);
    if h.value == [] {
      Then(boundary, c, log, h.name + ": ", c2, [], log1, "\r\n", true);
      LineEnd(boundary, c2, [], log1);
      assert h.name + ": " + h.value + "\r\n" == h.name + ": " + "\r\n";
    } else {
      Then(boundary, c, log, h.name + ": ", c2, [], log1, h.value, true);
      ValueHeld(boundary, c2, log1, h.value);
      Then(boundary, c, log, h.name + ": " + h.value, c.(state := HeaderValue), h.value, log1, "\r\n", true);
      LineEnd(boundary, c.(state := HeaderValue), h.value, log1);
    }
    LinePushed(log, h);
  }

  lemma {:induction false} LinesRun(boundary: string, c: Core, log: seq<Event>, hs: seq<Header>)
    requires c.state.HeaderFieldStart? && HeadersOk(hs) && Ready(log)
    ensures Scan(boundary, c, [], log, Lines(hs), true) == Result(c, [], log + HeaderEvents(hs), [])
            && Ready(log + HeaderEvents(hs))
    decreases |hs|
  {
    hide Scan, Push, HeaderOk, Line;
    if hs == [] {
      assert log + [] == log;
      Nothing(boundary, c, log);
    } else {
      var u, h := hs[..|hs| - 1], hs[|hs| - 1];
      LinesRun(boundary, c, log, u);
      LineNotEmpty(h);
      Then(boundary, c, log, Lines(u), c, [], log + HeaderEvents(u), Line(h), true);
      LineRun(boundary, c, log + HeaderEvents(u), h);
      var e := [Data(Field, h.name), Data(FieldValue, h.value)];
      assert log + HeaderEvents(u) + e == log + (HeaderEvents(u) + e);
    }
  }

  lemma Nothing(boundary: string, c: Core, log: seq<Event>)
    ensures Scan(boundary, c, [], log, [], true) == Result(c, [], log, [])
  {
  }

  lemma LineNotEmpty(h: Header)
    ensures Line(h) != []
  {
  }

  lemma {:induction false} EmptyLine(boundary: string, c: Core, log: seq<Event>)
    requires c.state.HeaderFieldStart?
    ensures Scan(boundary, c, [], log, "\r\n", true) == Result(c.(state := PartDataStart), [], log, [])
  {
    hide Scan, Push;
    assert [CR] + [LF] == "\r\n";
    One(boundary, c, [], log, CR, true);
    ScanSnoc(boundary, c, [], log, [CR], LF, true);
  }

  /** For a boundary without CR it is enough that the body does not contain the delimiter. */
  lemma {:induction false} NoneInBody(boundary: string, body: string)
    requires CR !in boundary && Without(body, Delimiter(boundary))
    ensures var s := body + Delimiter(boundary); NoneBefore(s, Delimiter(boundary)) && EndsWith(s, Delimiter(boundary))
  {
    var d := Delimiter(boundary);
    var s := body + d;
    assert d == [CR, LF] + boundary && forall i :: 2 <= i < |d| ==> d[i] == boundary[i - 2] && d[i] in boundary;
    forall k | 0 <= k < |s|
      ensures !EndsWith(s[..k], d)
    {
      if k <= |body| {
        assert s[..k] == body[..k];
      } else if |d| <= k {
        var x := |body| + |d| - k;
        assert s[..k][k - |d|..][x] == s[|body|] == CR != d[x];
      }
    }
    assert s[|body|..] == d;
  }

  predicate AtPartEnd(r: Result, log: seq<Event>) {
    r.rest == [] && r.held == [] && r.core.state.PartDataAlmostEnd? && r.log == log
  }

  lemma {:induction false} BodyRun(boundary: string, c: Core, log: seq<Event>, body: string)
    requires boundary != [] && CR !in boundary && c.state.PartDataStart? && Without(body, Delimiter(boundary))
    ensures AtPartEnd(Scan(boundary, c, [], log, body + Delimiter(boundary), true),
                      log + [HeadersComplete] + [Data(PartData, body)] + [PartDataEnded])
  {
    hide Scan, EndsWith, NoneBefore, Without;
    var d := Delimiter(boundary);
    NoneInBody(boundary, body);
    DelimiterShape(boundary);
    SearchFinds(boundary, c, log, body + d, true);
    assert (body + d)[..|body + d| - |d|] == body;
  }

  lemma {:induction false} PartRun(boundary: string, c: Core, log: seq<Event>, p: Part)
    requires boundary != [] && CR !in boundary && c.state.HeaderFieldStart? && PartOk(boundary, p) && Ready(log)
    ensures AtPartEnd(Scan(boundary, c, [], log, PartText(boundary, p), true),
                      log + HeaderEvents(p.headers) + [HeadersComplete] + [Data(PartData, p.body)] + [PartDataEnded])
  {
    hide Scan, Without, HeadersOk, Lines, HeaderEvents, AtPartEnd;
    var log1 := log + HeaderEvents(p.headers);
    LinesRun(boundary, c, log, p.headers);
    Then(boundary, c, log, Lines(p.headers), c, [], log1, "\r\n", true);
    EmptyLine(boundary, c, log1);
    Then(boundary, c, log, Lines(p.headers) + "\r\n", c.(state := PartDataStart), [], log1,
      p.body + Delimiter(boundary), true);
    BodyRun(boundary, c.(state := PartDataStart), log1, p.body);
  }

  /** Octets of the first boundary. */
  lemma {:induction false} FirstRun(boundary: string, c: Core, log: seq<Event>, n: nat)
    requires c.state.Start? && 1 <= n <= |boundary|
    ensures Scan(boundary, c, [], log, boundary[..n], true) == Result(Core(StartBoundary, n), [], log, [])
    decreases n
  {
    hide Scan, Push;
    assert boundary[..n] == boundary[..n - 1] + [boundary[n - 1]];
    if n == 1 {
      assert boundary[..1] == [boundary[0]];
      One(boundary, c, [], log, boundary[0], true);
    } else {
      FirstRun(boundary, c, log, n - 1);
      ScanSnoc(boundary, c, [], log, boundary[..n - 1], boundary[n - 1], true);
    }
  }

  predicate Between(boundary: string, c: Core) {
    (c.state.StartBoundary? && c.index == |boundary|) || c.state.PartDataAlmostEnd?
  }

  lemma {:induction false} NextPart(boundary: string, c: Core, log: seq<Event>)
    requires Between(boundary, c)
    ensures var r := Scan(boundary, c, [], log, "\r\n", true);
            r.core.state.HeaderFieldStart? && r.held == [] && r.rest == [] && r.log == log + [PartDataBegin]
  {
    hide Scan;
    assert [CR] + [LF] == "\r\n";
    One(boundary, c, [], log, CR, true);
    ScanSnoc(boundary, c, [], log, [CR], LF, true);
  }

  lemma {:induction false} WholePart(boundary: string, c: Core, log: seq<Event>, p: Part)
    requires boundary != [] && CR !in boundary && Between(boundary, c) && PartOk(boundary, p)
    ensures AtPartEnd(Scan(boundary, c, [], log, "\r\n" + PartText(boundary, p), true), log + PartEvents(p))
  {
    hide Scan, PartOk, PartText, PartEvents, HeaderEvents, AtPartEnd;
    NextPart(boundary, c, log);
    var r := Scan(boundary, c, [], log, "\r\n", true);
    PartTextNotEmpty(boundary, p);
    Then(boundary, c, log, "\r\n", r.core, [], r.log, PartText(boundary, p), true);
    PartRun(boundary, r.core, r.log, p);
    Grouped(log, p);
  }

  lemma {:induction false} PartsSnoc(boundary: string, log: seq<Event>, ps: seq<Part>)
    requires ps != []
    ensures var u, p := ps[..|ps| - 1], ps[|ps| - 1];
            && boundary + PartsText(boundary, u) + ("\r\n" + PartText(boundary, p)) ==
               boundary + PartsText(boundary, ps)
            && log + PartsEvents(u) + PartEvents(p) == log + PartsEvents(ps)
  {
    hide PartText, PartEvents;
  }

  lemma {:induction false} PartsRun(boundary: string, log: seq<Event>, ps: seq<Part>)
    requires boundary != [] && CR !in boundary && PartsOk(boundary, ps)
    ensures var r := Scan(boundary, Core(Start, 0), [], log, boundary + PartsText(boundary, ps), true);
            && r.rest == [] && r.held == [] && Between(boundary, r.core) && r.log == log + PartsEvents(ps)
            && (ps != [] ==> r.core.state.PartDataAlmostEnd?)
    decreases |ps|
  {
    hide Scan, PartOk, PartText, PartEvents, Delimiter, HeaderEvents;
    if ps == [] {
      FirstRun(boundary, Core(Start, 0), log, |boundary|);
      assert boundary[..|boundary|] == boundary == boundary + [];
      assert log + [] == log;
    } else {
      var u, p := ps[..|ps| - 1], ps[|ps| - 1];
      PartsRun(boundary, log, u);
      var text := boundary + PartsText(boundary, u);
      var r := Scan(boundary, Core(Start, 0), [], log, text, true);
      var more := "\r\n" + PartText(boundary, p);
      Then(boundary, Core(Start, 0), log, text, r.core, [], r.log, more, true);
      WholePart(boundary, r.core, r.log, p);
      PartsSnoc(boundary, log, ps);
    }
  }

  lemma PartTextNotEmpty(boundary: string, p: Part)
    ensures PartText(boundary, p) != []
  {
  }

  lemma {:induction false} Grouped(log: seq<Event>, p: Part)
    ensures log + [PartDataBegin] + HeaderEvents(p.headers) + [HeadersComplete] + [Data(PartData, p.body)]
            + [PartDataEnded]
         == log + PartEvents(p)
  {
    var a, b := [PartDataBegin] + HeaderEvents(p.headers),
      [HeadersComplete] + [Data(PartData, p.body)] + [PartDataEnded];
    assert PartEvents(p) == a + b;
  }

  lemma {:induction false} Closing(boundary: string, c: Core, log: seq<Event>)
    requires c.state.PartDataAlmostEnd?
    ensures Scan(boundary, c, [], log, "--", false) == Result(c.(state := EndState), [], log + [BodyEnd], [])
  {
    hide Scan;
    assert ['-'] + ['-'] == "--";
    One(boundary, c, [], log, '-', true);
    ScanSnoc(boundary, c, [], log, ['-'], '-', false);
  }

  /** Round trip: a body written from parts is read back as those parts, in order, with their headers
      and their data, and then as ended. */
  lemma {:induction false} RoundTrip(boundary: string, ps: seq<Part>)
    requires boundary != [] && CR !in boundary && ps != [] && PartsOk(boundary, ps)
    ensures var r := Scan(boundary, Core(Start, 0), [], [], Message(boundary, ps), false);
            r.rest == [] && r.core.state.EndState? && r.log == MessageEvents(ps)
  {
    hide Scan, PartsText, PartsEvents, PartsOk;
    PartsRun(boundary, [], ps);
    var text := boundary + PartsText(boundary, ps);
    var r := Scan(boundary, Core(Start, 0), [], [], text, true);
    Then(boundary, Core(Start, 0), [], text, r.core, [], r.log, "--", false);
    Closing(boundary, r.core, r.log);
    assert [] + PartsEvents(ps) == PartsEvents(ps);
  }

  // Every name reaches its colon.

  lemma {:induction false} LineTidy(boundary: string, c: Core, h: Header)
    requires c.state.HeaderFieldStart? && HeaderOk(h)
    ensures Tidy(boundary, c, Line(h)) && CoreAfter(boundary, c, Line(h)) == c
  {
    hide Scan, Tidy, CoreAfter, Taken;
    LineRun(boundary, c, [], h);
    CoreOf(boundary, c, [], [], Line(h), true);
    var text := h.name + ": " + h.value;
    CoreThen(boundary, c, text, "\r\n");
    TextPlain(boundary, c, h);
    TidyPlain(boundary, c, text);
    TidyLineEnd(boundary, CoreAfter(boundary, c, text));
    TidyThen(boundary, c, text, "\r\n");
  }

  lemma NoReturn(h: Header)
    requires HeaderOk(h)
    ensures CR !in h.name + ": " + h.value
  {
  }

  lemma {:induction false} TextPlain(boundary: string, c: Core, h: Header)
    requires c.state.HeaderFieldStart? && HeaderOk(h)
    ensures var text := h.name + ": " + h.value;
            CR !in text && !CoreAfter(boundary, c, text).state.HeaderField?
  {
    NoReturn(h);
    hide Scan, Push, IsName;
    var c1, c2, log1 := c.(state := HeaderField), c.(state := HeaderValueStart), Push([], Data(Field, h.name));
    NameHeld(boundary, c, [], h.name);
    Then(boundary, c, [], h.name, c1, h.name, [], ": ", true);
    ColonSpace(boundary, c1, h.name, []);
    if h.value == [] {
      assert h.name + ": " + h.value == h.name + ": ";
    } else {
      Then(boundary, c, [], h.name + ": ", c2, [], log1, h.value, true);
      ValueHeld(boundary, c2, log1, h.value);
    }
  }

  lemma {:induction false} LinesTidy(boundary: string, c: Core, hs: seq<Header>)
    requires c.state.HeaderFieldStart? && HeadersOk(hs)
    ensures Tidy(boundary, c, Lines(hs)) && CoreAfter(boundary, c, Lines(hs)) == c
    decreases |hs|
  {
    hide Scan, CoreAfter, Taken, HeaderOk, Line;
    if hs == [] {
      TakesNothing(boundary, c);
    } else {
      var u, h := hs[..|hs| - 1], hs[|hs| - 1];
      hide Tidy;
      LinesTidy(boundary, c, u);
      LineTidy(boundary, c, h);
      TidyThen(boundary, c, Lines(u), Line(h));
      CoreThen(boundary, c, Lines(u), Line(h));
      TidyTaken(boundary, c, Lines(u));
    }
  }

  /** Part data is not a name. */
  lemma {:induction false} BodyTidy(boundary: string, c: Core, body: string)
    requires boundary != [] && CR !in boundary && c.state.PartDataStart? && Without(body, Delimiter(boundary))
    ensures var s := body + Delimiter(boundary);
            Tidy(boundary, c, s) && CoreAfter(boundary, c, s).state.PartDataAlmostEnd?
  {
    hide Scan, EndsWith, NoneBefore, Without;
    var d := Delimiter(boundary);
    var s := body + d;
    NoneInBody(boundary, body);
    DelimiterShape(boundary);
    BodyRun(boundary, c, [], body);
    forall k | 0 <= k < |s|
      ensures !CoreAfter(boundary, c, s[..k]).state.HeaderField?
    {
      StillSearching(boundary, c, s, k);
    }
  }

  lemma {:induction false} StillSearching(boundary: string, c: Core, s: string, k: nat)
    requires boundary != [] && Rigid(Delimiter(boundary)) && c.state.PartDataStart?
    requires k < |s| && NoneBefore(s, Delimiter(boundary))
    ensures !CoreAfter(boundary, c, s[..k]).state.HeaderField?
  {
    hide Scan, EndsWith, Rigid;
    if k == 0 {
      assert s[..0] == [];
      TakesNothing(boundary, c);
    } else {
      var u := s[..k];
      forall j | 0 <= j < |u| ensures !EndsWith(u[..j], Delimiter(boundary)) { assert u[..j] == s[..j]; }
      SearchFinds(boundary, c, [], u, true);
    }
  }

  lemma {:induction false} PartTidy(boundary: string, c: Core, p: Part)
    requires boundary != [] && CR !in boundary && c.state.HeaderFieldStart? && PartOk(boundary, p)
    ensures Tidy(boundary, c, PartText(boundary, p))
            && CoreAfter(boundary, c, PartText(boundary, p)).state.PartDataAlmostEnd?
  {
    hide Scan, Without, HeadersOk, Lines, Tidy, CoreAfter, Taken;
    var lines, body := Lines(p.headers), p.body + Delimiter(boundary);
    var c1 := c.(state := PartDataStart);
    LinesTidy(boundary, c, p.headers);
    EmptyLine(boundary, c, []);
    CoreOf(boundary, c, [], [], "\r\n", true);
    TidyLineEnd(boundary, c);
    BodyTidy(boundary, c1, p.body);
    TidyThen(boundary, c, "\r\n", body);
    CoreThen(boundary, c, "\r\n", body);
    TidyThen(boundary, c, lines, "\r\n" + body);
    TidyTaken(boundary, c, lines);
    CoreThen(boundary, c, lines, "\r\n" + body);
    assert PartText(boundary, p) == lines + ("\r\n" + body);
  }

  lemma {:induction false} BetweenTidy(boundary: string, c: Core)
    requires Between(boundary, c)
    ensures Tidy(boundary, c, "\r\n") && CoreAfter(boundary, c, "\r\n").state.HeaderFieldStart?
    ensures Taken(boundary, c, "\r\n")
  {
    hide Scan, Tidy;
    NextPart(boundary, c, []);
    TidyLineEnd(boundary, c);
  }

  lemma {:induction false} StartTidy(boundary: string)
    requires boundary != [] && CR !in boundary
    ensures Tidy(boundary, Core(Start, 0), boundary) && Between(boundary, CoreAfter(boundary, Core(Start, 0), boundary))
  {
    hide Scan, Tidy;
    FirstRun(boundary, Core(Start, 0), [], |boundary|);
    assert boundary[..|boundary|] == boundary;
    TidyPlain(boundary, Core(Start, 0), boundary);
  }

  lemma {:induction false} PartsTidy(boundary: string, ps: seq<Part>)
    requires boundary != [] && CR !in boundary && PartsOk(boundary, ps)
    ensures var s, c := boundary + PartsText(boundary, ps), Core(Start, 0);
            && Tidy(boundary, c, s) && Between(boundary, CoreAfter(boundary, c, s))
            && (ps != [] ==> CoreAfter(boundary, c, s).state.PartDataAlmostEnd?)
    decreases |ps|
  {
    hide Scan, Tidy, CoreAfter, Taken, PartOk, PartText;
    if ps == [] {
      StartTidy(boundary);
      assert boundary + [] == boundary;
    } else {
      var u, p := ps[..|ps| - 1], ps[|ps| - 1];
      var s, c, text := boundary + PartsText(boundary, u), Core(Start, 0), PartText(boundary, p);
      PartsTidy(boundary, u);
      var c1 := CoreAfter(boundary, c, s);
      BetweenTidy(boundary, c1);
      CoreThen(boundary, c1, "\r\n", text);
      PartTidy(boundary, CoreAfter(boundary, c1, "\r\n"), p);
      TidyThen(boundary, c1, "\r\n", text);
      TidyThen(boundary, c, s, "\r\n" + text);
      TidyTaken(boundary, c, s);
      CoreThen(boundary, c, s, "\r\n" + text);
      PartsSnoc(boundary, [], ps);
    }
  }

  lemma {:induction false} MessageTidy(boundary: string, ps: seq<Part>)
    requires boundary != [] && CR !in boundary && ps != [] && PartsOk(boundary, ps)
    ensures Tidy(boundary, Core(Start, 0), Message(boundary, ps))
    ensures CoreAfter(boundary, Core(Start, 0), Message(boundary, ps)).state.EndState?
  {
    hide Scan, Tidy, PartsText, PartsOk;
    var s, c := boundary + PartsText(boundary, ps), Core(Start, 0);
    PartsTidy(boundary, ps);
    TidyTaken(boundary, c, s);
    var c1 := CoreAfter(boundary, c, s);
    Closing(boundary, c1, []);
    CoreOf(boundary, c1, [], [], "--", false);
    TidyPlain(boundary, c1, "--");
    TidyThen(boundary, c, s, "--");
    CoreThen(boundary, c, s, "--");
  }

  /** A new parser that is handed the whole body at once reports everything in it. */
  method ParseWhole(boundary: string, ps: seq<Part>, answer: seq<Event> -> bool) returns (client: Client, n: nat)
    requires boundary != [] && CR !in boundary && ps != [] && PartsOk(boundary, ps)
    ensures client.refused || (n == |Message(boundary, ps)| && client.Joined() == MessageEvents(ps))
    ensures (forall l :: answer(l)) ==> !client.refused
  {
    hide Scan, PartsOk, Message, MessageEvents;
    var parser := new Parser(boundary);
    client := new Client(answer);
    RoundTrip(boundary, ps);
    n := parser.Execute(client, Message(boundary, ps));
  }

  /** A new parser that is handed the body in any pieces takes all of it, makes the same notifications and
      delivers the same part data; and it reports exactly the parts, names and values included, if and
      only if no piece ends after a '-' inside a name or after the CR that ends a value. */
  method ParsePieces(boundary: string, ps: seq<Part>, pieces: seq<string>, answer: seq<Event> -> bool)
    returns (client: Client, taken: nat)
    requires boundary != [] && CR !in boundary && ps != [] && PartsOk(boundary, ps)
    requires Concat(pieces) == Message(boundary, ps) && forall l :: answer(l)
    ensures taken == |Message(boundary, ps)| && Visible(client.Joined()) == Visible(MessageEvents(ps))
    ensures client.Joined() == MessageEvents(ps) <==> PlainlyClean(boundary, Core(Start, 0), pieces)
  {
    hide Scan, PartsOk, Message, MessageEvents, Visible, Handed, Clean, PlainlyClean, Tidy, CoreAfter;
    var parser := new Parser(boundary);
    client := new Client(answer);
    RoundTrip(boundary, ps);
    MessageTidy(boundary, ps);
    CutsExact(boundary, Core(Start, 0), [], pieces);
    PlainCuts(boundary, Core(Start, 0), pieces);
    taken := Feed(parser, client, pieces);
  }
}
