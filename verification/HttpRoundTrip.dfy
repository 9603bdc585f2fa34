/** Messages written to the wire are read back as they were, one after the other. */
module HttpRoundTrip {
  import opened HttpTypes
  import opened HttpChars
  import opened HttpSpec
  import opened HttpInvariant
  import opened HttpKeywords
  import opened HttpLengths
  import opened HttpMessages
  import opened HttpHeaders
  import opened HttpCount
  import opened HttpFraming
  import opened HttpUrlWalk
  import HttpMethods
  import HttpTrace
  import opened HttpParser
  import opened HttpRuns
  import opened Common

  datatype Body = Empty | Fixed(bytes: string) | Chunks(chunks: seq<string>, trailers: seq<Header>)

  datatype Outgoing = Outgoing(
    verb: Method, url: string, major: nat, minor: nat, headers: seq<Header>, body: Body)

  predicate BodyOk(b: Body) {
    match b
    case Empty => true
    case Fixed(bytes) => |bytes| / 10 <= Limit(10)
    case Chunks(chunks, trailers) => ChunksOk(chunks) && AllPlain(trailers)
  }

  predicate Sendable(q: Outgoing) {
    && q.url != [] && IsUrlText(q.url) && UrlMayEnd(Walk(UrlStart(q.verb.Connect?), q.url))
    && 1 <= q.major <= 9 && q.minor <= 9
    && AllPlain(q.headers) && BodyOk(q.body)
  }

  /** The header that announces the body. */
  function Framing(b: Body): seq<Header> {
    match b
    case Empty => []
    case Fixed(bytes) => [Header("Content-Length", Written(10, |bytes|))]
    case Chunks(_, _) => [Header("Transfer-Encoding", "chunked")]
  }

  function Encoded(b: Body): string {
    match b
    case Empty => []
    case Fixed(bytes) => bytes
    case Chunks(chunks, trailers) => CodedBody(chunks, trailers)
  }

  function Version(major: nat, minor: nat): string
    requires major <= 9 && minor <= 9
  {
    " HTTP/" + [DigitOf(major)] + "." + [DigitOf(minor)] + "\r\n"
  }

  /** The request line, the headers and the empty line. */
  function Head(q: Outgoing): string
    requires q.major <= 9 && q.minor <= 9
  {
    MethodString(q.verb) + " " + q.url + Version(q.major, q.minor) + Lines(q.headers + Framing(q.body)) + "\r\n"
  }

  function Serialized(q: Outgoing): string
    requires q.major <= 9 && q.minor <= 9
  {
    Head(q) + Encoded(q.body)
  }

  predicate AllSendable(qs: seq<Outgoing>) { forall i :: 0 <= i < |qs| ==> Sendable(qs[i]) }

  function AllSerialized(qs: seq<Outgoing>): string
    requires AllSendable(qs)
  {
    if qs == [] then [] else AllSerialized(qs[..|qs| - 1]) + Serialized(qs[|qs| - 1])
  }

  /** The octets of a body once the transfer coding is undone. */
  function Content(b: Body): string {
    match b
    case Empty => []
    case Fixed(bytes) => bytes
    case Chunks(chunks, _) => Concat(chunks)
  }

  function Trailers(b: Body): seq<Header> { if b.Chunks? then b.trailers else [] }

  function Received(q: Outgoing): Message {
    Message(Url(q.url), q.headers + Framing(q.body), Content(q.body), Trailers(q.body))
  }

  function AllReceived(qs: seq<Outgoing>): seq<Message> {
    if qs == [] then [] else AllReceived(qs[..|qs| - 1]) + [Received(qs[|qs| - 1])]
  }

  /** The flags the headers leave. */
  function HeadFlags(q: Outgoing): Flags { FramedFlags(q.body, Effects(q.headers, NO_FLAGS)) }

  /** The flags the whole message leaves. */
  function FinalFlags(q: Outgoing): Flags {
    if q.body.Chunks? then Effects(q.body.trailers, HeadFlags(q).(trailing := true)) else HeadFlags(q)
  }

  /** The message asks for another protocol: its body and what follows are not for this parser. */
  predicate Switches(q: Outgoing) {
    (HeadFlags(q).upgrade && HeadFlags(q).connectionUpgrade) || q.verb.Connect?
  }

  /** The connection stays open for another request: section 8.1 of RFC 2616. */
  predicate Persists(q: Outgoing) {
    if q.minor > 0 then !FinalFlags(q).close else FinalFlags(q).keepAlive
  }

  /** The state a message leaves the parser in. */
  function After(q: Outgoing): State { if Persists(q) then Start(StartReq) else DEAD }

  // How much of a message is counted as header.

  function Larger(a: nat, b: nat): nat { if a < b then b else a }

  /** The octets counted after the count was last cleared. */
  function Uncleared(b: Body): nat { if b.Chunks? then |Lines(b.trailers)| + 2 else 0 }

  /** The longest stretch of header octets of a message that finds n of them counted already. */
  function Stretch(n: nat, q: Outgoing): nat
    requires q.major <= 9 && q.minor <= 9
  {
    Larger(Larger(n + |Head(q)|, SIZE_LINE), Uncleared(q.body))
  }

  function AllUncleared(n: nat, qs: seq<Outgoing>): nat { if qs == [] then n else Uncleared(qs[|qs| - 1].body) }

  function Longest(n: nat, qs: seq<Outgoing>): nat
    requires AllSendable(qs)
  {
    if qs == [] then n
    else Larger(Longest(n, qs[..|qs| - 1]), Stretch(AllUncleared(n, qs[..|qs| - 1]), qs[|qs| - 1]))
  }

  // The request line.

  lemma {:induction false} Http(c: Core, log: seq<Event>)
    requires c.state == InVersion(HttpStart)
    ensures Run(c, log, "HTTP/") == Result(c.(tally := c.tally + 5, state := InVersion(FirstHttpMajor)), log, [], More)
  {
    hide Run;
    var c1 := c.(tally := c.tally + 1, state := InVersion(HttpH));
    var c2 := c.(tally := c.tally + 2, state := InVersion(HttpHT));
    var c3 := c.(tally := c.tally + 3, state := InVersion(HttpHTT));
    var c4 := c.(tally := c.tally + 4, state := InVersion(HttpHTTP));
    var c5 := c.(tally := c.tally + 5, state := InVersion(FirstHttpMajor));
    assert Byte(c, log, 'H') == Go(c1, log) && Byte(c1, log, 'T') == Go(c2, log) && Byte(c2, log, 'T') == Go(c3, log);
    assert Byte(c3, log, 'P') == Go(c4, log) && Byte(c4, log, '/') == Go(c5, log);
    hide Byte;
    assert "HTTP" + ['/'] == "HTTP/" && "HTT" + ['P'] == "HTTP" && "HT" + ['T'] == "HTT" && "H" + ['T'] == "HT";
    One(c, log, 'H', c1, log);
    Snoc(c, log, "H", 'T', c1, log, c2, log);
    Snoc(c, log, "HT", 'T', c2, log, c3, log);
    Snoc(c, log, "HTT", 'P', c3, log, c4, log);
    Snoc(c, log, "HTTP", '/', c4, log, c5, log);
  }

  lemma {:induction false} MajorRun(c: Core, log: seq<Event>, d: nat)
    requires c.state == InVersion(FirstHttpMajor) && 1 <= d <= 9
    ensures Run(c, log, [DigitOf(d)] + ".") ==
            Result(c.(tally := c.tally + 2, major := d, state := InVersion(FirstHttpMinor)), log, [], More)
  {
    hide Run, MajorDigit;
    var c1 := c.(tally := c.tally + 1, major := d, state := InVersion(HttpMajor));
    var c2 := c.(tally := c.tally + 2, major := d, state := InVersion(FirstHttpMinor));
    assert Byte(c, log, DigitOf(d)) == Go(c1, log) && Byte(c1, log, '.') == Go(c2, log);
    hide Byte;
    assert [DigitOf(d)] + ['.'] == [DigitOf(d)] + ".";
    One(c, log, DigitOf(d), c1, log);
    Snoc(c, log, [DigitOf(d)], '.', c1, log, c2, log);
  }

  lemma {:induction false} MinorRun(c: Core, log: seq<Event>, d: nat)
    requires c.state == InVersion(FirstHttpMinor) && d <= 9
    ensures Run(c, log, [DigitOf(d)] + "\r\n") ==
            Result(c.(tally := c.tally + 3, minor := d, state := InHeader(FieldStart)), log, [], More)
  {
    hide Run, MinorDigit;
    var c1 := c.(tally := c.tally + 1, minor := d, state := InVersion(HttpMinor));
    var c2 := c.(tally := c.tally + 2, minor := d, state := InVersion(LineAlmostDone));
    var c3 := c.(tally := c.tally + 3, minor := d, state := InHeader(FieldStart));
    assert Byte(c, log, DigitOf(d)) == Go(c1, log) && Byte(c1, log, CR) == Go(c2, log)
      && Byte(c2, log, LF) == Go(c3, log);
    hide Byte;
    assert [DigitOf(d)] + [CR] + [LF] == [DigitOf(d)] + "\r\n";
    One(c, log, DigitOf(d), c1, log);
    Snoc(c, log, [DigitOf(d)], CR, c1, log, c2, log);
    Snoc(c, log, [DigitOf(d)] + [CR], LF, c2, log, c3, log);
  }

  lemma {:induction false} VersionRun(c: Core, s: UrlState, log: seq<Event>, major: nat, minor: nat)
    requires c.state == InUrl(s) && UrlMayEnd(s) && 1 <= major <= 9 && minor <= 9
    ensures Run(c, log, Version(major, minor)) ==
            Result(c.(tally := c.tally + 11, major := major, minor := minor, state := InHeader(FieldStart)), log, [],
              More)
  {
    hide Run, Byte, DigitOf;
    UrlThenSpace(c, s, log);
    var c1 := c.(tally := c.tally + 1, state := InVersion(HttpStart));
    var a, b := [DigitOf(major)] + ".", [DigitOf(minor)] + "\r\n";
    assert " " + "HTTP/" == " HTTP/" && [' '] == " ";
    assert Version(major, minor) == " HTTP/" + a + b;
    One(c, log, ' ', c1, log);
    Then(c, log, " ", c1, log, "HTTP/");
    Http(c1, log);
    var c2 := c1.(tally := c1.tally + 5, state := InVersion(FirstHttpMajor));
    Then(c, log, " HTTP/", c2, log, a);
    MajorRun(c2, log, major);
    var c3 := c2.(tally := c2.tally + 2, major := major, state := InVersion(FirstHttpMinor));
    Then(c, log, " HTTP/" + a, c3, log, b);
    MinorRun(c3, log, minor);
  }

  predicate Fresh(c: Core) { c.state == Start(StartReq) && c.kind.Request? }

  /** The header section is about to begin. */
  predicate Opened(c: Core, q: Outgoing) {
    c.state == InHeader(FieldStart) && c.flags == NO_FLAGS && c.length == NO_LENGTH && c.kind.Request?
    && c.verb == q.verb && c.major == q.major && c.minor == q.minor
  }

  lemma {:induction false} RequestLine(c: Core, log: seq<Event>, q: Outgoing)
    requires Fresh(c) && Sendable(q)
    ensures var r := Run(c, log, MethodString(q.verb) + " " + q.url + Version(q.major, q.minor));
            && r.end.More? && r.rest == [] && r.log == log + [MessageBegin, Data(UrlData, q.url)] && Opened(r.core, q)
  {
    hide Run, MethodString, Walk, AllPlain, BodyOk, Version;
    HttpMethods.NameLength(q.verb);
    NoSpace(q.verb);
    HttpMethods.MethodsRecognised(c, log, MethodString(q.verb));
    var r := Run(c, log, MethodString(q.verb) + " ");
    assert MethodString(q.verb) + [' '] == MethodString(q.verb) + " ";
    RunConcat(c, log, MethodString(q.verb) + " ", q.url);
    UrlRun(r.core, r.log, q.url);
    var s := Walk(UrlStart(q.verb.Connect?), q.url);
    var c1 := r.core.(tally := r.core.tally + |q.url|, state := InUrl(s));
    var log1 := Push(r.log, Data(UrlData, q.url));
    Then(c, log, MethodString(q.verb) + " " + q.url, c1, log1, Version(q.major, q.minor));
    VersionRun(c1, s, log1, q.major, q.minor);
    BeginUrl(log, q.url);
  }

  lemma {:induction false} BeginUrl(log: seq<Event>, url: string)
    ensures Push(Push(log, MessageBegin), Data(UrlData, url)) == log + [MessageBegin, Data(UrlData, url)]
  {
    PushAfter(log, MessageBegin, Data(UrlData, url));
    var e := [MessageBegin] + [Data(UrlData, url)];
    assert log + [MessageBegin] + [Data(UrlData, url)] == log + e;
  }

  lemma {:induction false} NoSpace(m: Method)
    ensures ' ' !in MethodString(m)
  {
    hide MethodString;
    forall i | 0 <= i < |MethodString(m)|
      ensures MethodString(m)[i] != ' '
    {
      HttpMethods.NameOctets(m, i);
    }
  }

  // The framing header.

  lemma LengthTokens()
    ensures IsToken("Content-Length") && Tokens("Content-Length") == "content-length"
  {
  }

  lemma {:induction false} CodingTokens()
    ensures IsToken("Transfer-Encoding") && Tokens("Transfer-Encoding") == "transfer-encoding"
    ensures LineOk("Transfer-Encoding", "chunked")
  {
  }

  lemma ChunkedSpelt()
    ensures Spells("chunked", "chunked")
  {
  }

  lemma {:induction false} DigitsAreDigits(ds: string)
    requires IsDecimal(ds)
    ensures Digits(ds) == ds
    decreases |ds|
  {
    if ds != [] {
      DigitsAreDigits(ds[..|ds| - 1]);
    }
  }

  lemma DecimalText(ds: string)
    requires IsDecimal(ds) && ds != []
    ensures IsLengthText(ds)
  {
  }

  function FramedFlags(b: Body, f: Flags): Flags { if b.Chunks? then f.(chunked := true) else f }

  function FramedLength(b: Body): nat { if b.Fixed? then |b.bytes| else NO_LENGTH }

  lemma NothingBlank()
    ensures AllBlank(" ")
  {
  }

  lemma {:induction false} ChunkedLine(c: Core, log: seq<Event>)
    requires c.state == InHeader(FieldStart)
    ensures var r := Run(c, log, Line("Transfer-Encoding", "chunked"));
            var (c', log') := AtNewLine(r.core, r.log);
            && r.end.More? && r.rest == []
            && log' == Push(Push(log, Data(FieldData, "Transfer-Encoding")), Data(ValueData, "chunked"))
            && SameBut(c, c', c.flags.(chunked := true), c.length)
  {
    hide Run, Push, AtNewLine, GappedLine, Spells, Tokens, IsConnection, LineOk, AllBlank;
    CodingTokens();
    ChunkedSpelt();
    NothingBlank();
    LineMeans(c, log, "Transfer-Encoding", " ", "chunked");
  }

  lemma {:induction false} NumberLine(c: Core, log: seq<Event>, n: nat)
    requires c.state == InHeader(FieldStart) && n / 10 <= Limit(10)
    ensures var r := Run(c, log, Line("Content-Length", Written(10, n)));
            var (c', log') := AtNewLine(r.core, r.log);
            && r.end.More? && r.rest == []
            && log' == Push(Push(log, Data(FieldData, "Content-Length")), Data(ValueData, Written(10, n)))
            && SameBut(c, c', c.flags, n) && n != NO_LENGTH
  {
    hide Run, Push, AtNewLine, GappedLine, Tokens, Limit, Number, Written, Digits, AllBlank;
    LengthTokens();
    WrittenOk(10, n);
    DigitsAreDigits(Written(10, n));
    DecimalText(Written(10, n));
    NothingBlank();
    LengthLine(c, log, "Content-Length", " ", Written(10, n));
  }

  lemma {:induction false} FramingLine(c: Core, log: seq<Event>, b: Body)
    requires c.state == InHeader(FieldStart) && c.length == NO_LENGTH && BodyOk(b) && !b.Empty?
    ensures var h := Framing(b)[0];
            var r := Run(c, log, Line(h.name, h.value));
            var (c', log') := AtNewLine(r.core, r.log);
            && r.end.More? && r.rest == []
            && log' == Push(Push(log, Data(FieldData, h.name)), Data(ValueData, h.value))
            && SameBut(c, c', FramedFlags(b, c.flags), FramedLength(b))
  {
    hide Run, Push, AtNewLine, Line, Limit, Written, ChunksOk, AllPlain, SameBut;
    if b.Chunks? {
      ChunkedLine(c, log);
    } else {
      NumberLine(c, log, |b.bytes|);
    }
  }

  /** The whole header section, up to the empty line. */
  lemma {:induction false} HeaderSection(c: Core, log: seq<Event>, hs: seq<Header>, b: Body)
    requires c.state == InHeader(FieldStart) && c.length == NO_LENGTH && AllPlain(hs) && BodyOk(b) && Ready(log)
    ensures LinesRead(c, log, Run(c, log, Lines(hs + Framing(b))), hs + Framing(b),
                      FramedFlags(b, Effects(hs, c.flags)), FramedLength(b))
  {
    hide Run, Push, AtNewLine, Line, Ready, AllPlain, HeaderEvents, Limit, Written, LinesRead, ChunksOk, SameBut;
    hide Effects;
    HeadersRun(c, log, hs);
    if b.Empty? {
      assert hs + Framing(b) == hs;
    } else {
      var h := Framing(b)[0];
      var f := Effects(hs, c.flags);
      assert (hs + [h])[..|hs|] == hs;
      forall c1: Core, log1: seq<Event> | SameBut(c, c1, f, NO_LENGTH)
        ensures var r := Run(c1, log1, Line(h.name, h.value));
                var (c', log') := AtNewLine(r.core, r.log);
                r.end.More? && r.rest == []
                  && log' == Push(Push(log1, Data(FieldData, h.name)), Data(ValueData, h.value))
                && SameBut(c1, c', FramedFlags(b, f), FramedLength(b))
      {
        SameStart(c, c1, f, NO_LENGTH);
        FramingLine(c1, log1, b);
      }
      LengthTokens();
      CodingTokens();
      MoreLine(c, log, Lines(hs), hs, f, NO_LENGTH, h, FramedFlags(b, f), FramedLength(b));
    }
  }

  // The head of a message.

  /** The parser with the headers behind it, about to settle what the body is. */
  predicate Headed(c: Core, q: Outgoing) {
    && c.flags == HeadFlags(q) && c.length == FramedLength(q.body) && c.kind.Request? && c.tally == 0
    && c.major == q.major && c.minor == q.minor && c.verb == q.verb && c.upgrade == Switches(q)
  }

  lemma {:induction false} HeadUntrailed(q: Outgoing)
    requires AllPlain(q.headers)
    ensures !HeadFlags(q).trailing && HeadFlags(q).chunked == q.body.Chunks?
  {
    hide AllPlain, Effects;
    PlainEffects(q.headers, NO_FLAGS);
  }

  lemma {:induction false} HeadSwitches(c: Core, q: Outgoing)
    requires c.flags == HeadFlags(q) && c.verb == q.verb
    ensures WantsUpgrade(c) == Switches(q)
  {
    hide HeadFlags;
  }

  /** The request line and the headers are reported, and the empty line settles what follows. */
  lemma {:induction false} HeadRun(c: Core, log: seq<Event>, q: Outgoing) returns (c': Core)
    requires Fresh(c) && Sendable(q)
    ensures Headed(c', q) && (High(c') <= High(c) || High(c') <= c.tally + |Head(q)|)
    ensures High(c') >= c.tally + |Head(q)|
    ensures var r := OpenBody(c', log + HeadEvents(Received(q)) + [HeadersComplete]);
            !r.end.Failed? && Run(c, log, Head(q)) == Result(r.core, r.log, [], r.end)
  {
    hide Run, Lines, HeaderEvents, AllPlain, BodyOk, Walk, MethodString, LinesRead, Version, Content, HeadFlags;
    hide OpenBody, High;
    hide Effects;
    var hs := q.headers + Framing(q.body);
    var line := MethodString(q.verb) + " " + q.url + Version(q.major, q.minor);
    RequestLine(c, log, q);
    var r1 := Run(c, log, line);
    Then(c, log, line, r1.core, r1.log, Lines(hs) + "\r\n");
    assert Head(q) == line + (Lines(hs) + "\r\n");
    ReadyToStart(log, q.url);
    HeaderSection(r1.core, r1.log, q.headers, q.body);
    assert HeadFlags(q) == FramedFlags(q.body, Effects(q.headers, NO_FLAGS)) by { HeadFlagsAre(q); }
    HeadUntrailed(q);
    var c2, log2 := AfterEmpty(r1.core, r1.log, Lines(hs), hs, HeadFlags(q), FramedLength(q.body));
    HeadSwitches(c2, q);
    HeadCounted(c, log, line, hs, q.url);
    c' := HttpFraming.HeadersDone(c2, log2);
    assert log + [MessageBegin, Data(UrlData, q.url)] + HeaderEvents(hs) == log + HeadEvents(Received(q));
    ClearedHolds(c2, c');
    HeadHigh(c, log, q, c', log2 + [HeadersComplete]);
  }

  lemma ClearedHolds(c: Core, c': Core)
    requires c'.peak == High(c.(tally := c.tally + 2))
    ensures High(c') >= c.tally + 2
  {
  }

  /** Up to the empty line after the headers every octet is counted. */
  lemma {:induction false} HeadCounted(c: Core, log: seq<Event>, line: string, hs: seq<Header>, url: string)
    requires InHead(c.state)
    requires var r := Run(c, log, line);
             r.end.More? && r.rest == [] && r.log == log + [MessageBegin, Data(UrlData, url)]
    requires var r := Run(c, log, line);
             var r' := Run(r.core, r.log, Lines(hs));
             r'.end.More? && AtNewLine(r'.core, r'.log).1 == r.log + HeaderEvents(hs)
    ensures var r := Run(c, log, line);
            Run(r.core, r.log, Lines(hs)).core.tally == c.tally + |line| + |Lines(hs)|
  {
    hide Run, Lines, Sections, HeaderEvents;
    var r := Run(c, log, line);
    var r' := Run(r.core, r.log, Lines(hs));
    assert log + [MessageBegin] + [Data(UrlData, url)] == r.log;
    SectionsSnoc(log, MessageBegin);
    SectionsSnoc(log + [MessageBegin], Data(UrlData, url));
    RunStays(c, log, line);
    HeadersSections(hs);
    SectionsConcat(r.log, HeaderEvents(hs));
    SectionsPush(r'.log, Data(ValueData, []));
    RunStays(r.core, r.log, Lines(hs));
  }

  lemma HeadFlagsAre(q: Outgoing)
    ensures HeadFlags(q) == FramedFlags(q.body, Effects(q.headers, NO_FLAGS))
  {
  }

  /** The empty line after the headers, wherever they have left the parser. */
  lemma {:induction false} AfterEmpty(c: Core, log: seq<Event>, text: string, hs: seq<Header>, f: Flags, n: nat)
    returns (c': Core, log': seq<Event>)
    requires LinesRead(c, log, Run(c, log, text), hs, f, n) && !f.trailing
    ensures Run(c, log, text + "\r\n") == Run(c', log', "\r\n")
    ensures SameBut(c, c', f, n) && log' == log + HeaderEvents(hs)
    ensures Run(c, log, text).end.More? && c'.tally == Run(c, log, text).core.tally
    ensures AtNewLine(Run(c, log, text).core, Run(c, log, text).log).1 == log'
  {
    hide Run, LinesRead, HeaderEvents, OpenBody;
    var r := Run(c, log, text);
    c', log' := AtNewLine(r.core, r.log).0, AtNewLine(r.core, r.log).1;
    LinesReadIs(c, log, r, hs, f, n);
    RunConcat(c, log, text, "\r\n");
    EmptyAtNewLine(r.core, r.log);
  }

  lemma {:induction false} LinesReadIs(c: Core, log: seq<Event>, r: Result, hs: seq<Header>, f: Flags, n: nat)
    requires LinesRead(c, log, r, hs, f, n)
    ensures var (c', log') := AtNewLine(r.core, r.log);
            r.end.More? && r.rest == [] && SameBut(c, c', f, n) && log' == log + HeaderEvents(hs)
  {
    hide HeaderEvents;
  }

  lemma {:induction false} EmptyAtNewLine(c: Core, log: seq<Event>)
    requires AtNewLine(c, log).0.state == InHeader(FieldStart)
    ensures Run(c, log, "\r\n") == Run(AtNewLine(c, log).0, AtNewLine(c, log).1, "\r\n")
  {
    hide Run, Push, BeginField, LineFlags;
    var (c', log') := AtNewLine(c, log);
    assert "\r\n"[0..] == "\r\n";
    RunHere(c, log, "\r\n", 0);
    RunHere(c', log', "\r\n", 0);
  }

  lemma {:induction false} HeadHigh(c: Core, log: seq<Event>, q: Outgoing, c': Core, log': seq<Event>)
    requires q.major <= 9 && q.minor <= 9
    requires Run(c, log, Head(q)).core == OpenBody(c', log').core && c'.tally == 0
    ensures High(c') <= High(c) || High(c') <= c.tally + |Head(q)|
  {
    hide Run, Head, OpenBody;
    RunTall(c, log, Head(q));
    OpenHigh(c', log');
  }

  lemma ReadyToStart(log: seq<Event>, url: string)
    ensures Ready(log + [MessageBegin, Data(UrlData, url)])
  {
  }

  lemma ReadyForBody(log: seq<Event>)
    ensures Ready(log + [HeadersComplete]) && !LastSpoke(log + [HeadersComplete], BodyData)
  {
  }

  // Whole messages.

  /** The message has been delivered, and the parser waits in the state that follows it. */
  predicate Delivered(r: Result, log: seq<Event>, s: State) {
    r.end.More? && r.rest == [] && r.log == log && r.core.state == s && r.core.kind.Request?
  }

  /** The method and the version a client finds in the parser when it is told that the message is complete. */
  predicate Holds(c: Core, q: Outgoing) { c.verb == q.verb && c.major == q.major && c.minor == q.minor }

  /** What a message does to the count of header octets. */
  predicate Within(c: Core, c': Core, n: nat, longest: nat) {
    && c'.tally == n && (High(c') <= High(c) || High(c') <= longest)
    && (High(c') >= longest || longest <= SIZE_LINE)
  }

  lemma {:induction false} NextIs(c: Core, q: Outgoing)
    requires c.kind.Request? && c.major == q.major && c.minor == q.minor && c.flags == FinalFlags(q) && q.major >= 1
    ensures NewMessage(c) == After(q)
  {
    hide FinalFlags;
  }

  lemma {:induction false} OpensNothing(c: Core, log: seq<Event>)
    requires !c.upgrade && !c.flags.chunked && (c.length == 0 || (c.length == NO_LENGTH && c.kind.Request?))
    ensures OpenBody(c, log) == Go(c.(state := NewMessage(c)), log + [MessageComplete])
  {
    hide NewMessage;
    assert Push(log, MessageComplete) == log + [MessageComplete];
  }

  lemma OpensFixed(c: Core, log: seq<Event>)
    requires !c.upgrade && !c.flags.chunked && c.length != 0 && c.length != NO_LENGTH
    ensures OpenBody(c, log) == Go(c.(state := InBody(Identity)), log)
  {
  }

  lemma OpensChunks(c: Core, log: seq<Event>)
    requires !c.upgrade && c.flags.chunked
    ensures OpenBody(c, log) == Go(c.(state := InChunk(ChunkState.SizeStart)), log)
  {
  }

  lemma {:induction false} OpensOther(c: Core, log: seq<Event>)
    requires c.upgrade
    ensures var r := OpenBody(c, log);
            r.end.Exited? && r.log == log + [MessageComplete] && r.core == c.(state := NewMessage(c))
  {
    hide NewMessage;
    assert Push(log, MessageComplete) == log + [MessageComplete];
  }

  /** The log once the body of a message has followed its headers. */
  function Bodied(log: seq<Event>, b: Body): seq<Event> {
    log + BodyEvents(Content(b)) + HeaderEvents(Trailers(b)) + [MessageComplete]
  }

  lemma {:induction false} EmptyBodied(log: seq<Event>, b: Body)
    requires b.Empty? || b == Fixed([])
    ensures Bodied(log, b) == log + [MessageComplete]
  {
    HeadersNone();
    assert log + [] + [] + [MessageComplete] == log + [MessageComplete];
  }

  lemma {:induction false} FixedBodied(log: seq<Event>, bytes: string)
    requires bytes != []
    ensures Bodied(log, Fixed(bytes)) == log + [Data(BodyData, bytes), MessageComplete]
  {
    HeadersNone();
    var e := [Data(BodyData, bytes)] + [MessageComplete];
    assert log + [Data(BodyData, bytes)] + [] + [MessageComplete] == log + e;
  }

  lemma {:induction false} NoBodyRun(c: Core, log: seq<Event>, q: Outgoing)
    requires Headed(c, q) && Sendable(q) && !Switches(q) && (q.body.Empty? || q.body == Fixed([]))
    ensures var s := OpenBody(c, log);
            s.end.More? && s.core == c.(state := After(q)) && s.log == Bodied(log, q.body)
  {
    hide AllPlain, Walk, HeadFlags, Switches, BodyOk;
    HeadUntrailed(q);
    OpensNothing(c, log);
    NextIs(c, q);
    EmptyBodied(log, q.body);
  }

  lemma {:induction false} FixedRun(c: Core, log: seq<Event>, q: Outgoing)
    requires Headed(c, q) && Sendable(q) && !Switches(q) && q.body.Fixed? && q.body.bytes != []
    requires !LastSpoke(log, BodyData)
    ensures var s := OpenBody(c, log);
            s.end.More? && Run(s.core, s.log, q.body.bytes) ==
                           Result(c.(length := 0, state := After(q)), Bodied(log, q.body), [], More)
  {
    hide AllPlain, Walk, HeadFlags, Switches, Limit, Run, NewMessage;
    HeadUntrailed(q);
    FixedFits(q.body.bytes);
    OpensFixed(c, log);
    IdentityBody(c.(state := InBody(Identity)), log, q.body.bytes);
    NextIs(c.(state := InBody(Identity), length := 0), q);
    FixedBodied(log, q.body.bytes);
  }

  lemma {:induction false} FixedFits(bytes: string)
    requires BodyOk(Fixed(bytes))
    ensures |bytes| < NO_LENGTH
  {
    assert Limit(10) < NO_LENGTH / 10;
  }

  lemma {:induction false} ChunksRun(c: Core, log: seq<Event>, q: Outgoing)
    requires Headed(c, q) && Sendable(q) && !Switches(q) && q.body.Chunks?
    requires !LastSpoke(log, BodyData) && Ready(log)
    ensures var s := OpenBody(c, log);
            s.end.More? && Delivered(Run(s.core, s.log, Encoded(q.body)), Bodied(log, q.body), After(q))
            && Holds(Run(s.core, s.log, Encoded(q.body)).core, q)
            && Within(c, Run(s.core, s.log, Encoded(q.body)).core, Uncleared(q.body),
               Larger(SIZE_LINE, Uncleared(q.body)))
  {
    hide AllPlain, Walk, HeadFlags, Switches, Run, NewMessage, LastSpoke, Ready, CodedBody, ChunksOk, HeaderEvents;
    hide Lines;
    hide Effects;
    HeadUntrailed(q);
    OpensChunks(c, log);
    ChunkedBody(c.(state := InChunk(ChunkState.SizeStart)), log, q.body.chunks, q.body.trailers);
    NextIs(Run(c.(state := InChunk(ChunkState.SizeStart)), log, Encoded(q.body)).core, q);
  }

  /** One message. */
  lemma {:induction false} MessageRun(c: Core, log: seq<Event>, q: Outgoing)
    requires Fresh(c) && Sendable(q) && !Switches(q)
    ensures Delivered(Run(c, log, Serialized(q)), log + Events(Received(q)), After(q))
    ensures Holds(Run(c, log, Serialized(q)).core, q)
    ensures Within(c, Run(c, log, Serialized(q)).core, Uncleared(q.body), Stretch(c.tally, q))
  {
    hide Run, HeadEvents, LastSpoke, Ready, Sendable, Switches, Headed, Encoded, Content, Trailers, NewMessage;
    hide OpenBody, Head;
    hide After, Uncleared, Bodied;
    SendableVersion(q);
    var c1 := HeadRun(c, log, q);
    var log1 := log + HeadEvents(Received(q)) + [HeadersComplete];
    var s := OpenBody(c1, log1);
    ReadyForBody(log + HeadEvents(Received(q)));
    HeadedIs(c1, q);
    OpenHigh(c1, log1);
    RunHigh(s.core, s.log, Encoded(q.body));
    RunConcat(c, log, Head(q), Encoded(q.body));
    Spelled(log, q);
    if q.body.Empty? || q.body == Fixed([]) {
      NoBodyRun(c1, log1, q);
      NothingEncoded(q.body);
      HttpMethods.RunNothing(s.core, s.log);
    } else if q.body.Fixed? {
      FixedRun(c1, log1, q);
      BytesEncoded(q.body);
    } else {
      ChunksRun(c1, log1, q);
    }
  }

  lemma {:induction false} OpenHigh(c: Core, log: seq<Event>)
    ensures High(OpenBody(c, log).core) == High(c)
  {
    hide Push, NewMessage, NeedsEof;
  }

  lemma SendableVersion(q: Outgoing)
    requires Sendable(q)
    ensures 1 <= q.major <= 9 && q.minor <= 9
  {
  }

  lemma HeadedIs(c: Core, q: Outgoing)
    requires Headed(c, q)
    ensures c.kind.Request? && c.tally == 0 && Holds(c, q)
  {
  }

  lemma NothingEncoded(b: Body)
    requires b.Empty? || b == Fixed([])
    ensures Encoded(b) == [] && Uncleared(b) == 0
  {
  }

  lemma BytesEncoded(b: Body)
    requires b.Fixed?
    ensures Encoded(b) == b.bytes && Uncleared(b) == 0
  {
  }

  lemma {:induction false} Spelled(log: seq<Event>, q: Outgoing)
    ensures log + Events(Received(q)) == Bodied(log + HeadEvents(Received(q)) + [HeadersComplete], q.body)
  {
    hide HeaderEvents, BodyEvents, HeadEvents, Framing;
    var m := Received(q);
    assert m.body == Content(q.body) && m.trailers == Trailers(q.body);
    assert log + (UpToBody(m) + HeaderEvents(m.trailers) + [MessageComplete])
        == log + UpToBody(m) + HeaderEvents(m.trailers) + [MessageComplete];
    assert log + (HeadEvents(m) + [HeadersComplete] + BodyEvents(m.body))
        == log + HeadEvents(m) + [HeadersComplete] + BodyEvents(m.body);
  }

  /** A message that asks for another protocol ends the parser's work right after its empty line: the body and
      all that follows are left to the caller. */
  lemma {:induction false} SwitchRun(c: Core, log: seq<Event>, q: Outgoing, more: string)
    requires Fresh(c) && Sendable(q) && Switches(q)
    ensures var r := Run(c, log, Serialized(q) + more);
            && r.end.Exited? && r.rest == Encoded(q.body) + more
            && r.log == log + HeadEvents(Received(q)) + [HeadersComplete, MessageComplete]
            && Within(c, r.core, 0, c.tally + |Head(q)|) && Holds(r.core, q)
  {
    hide Run, HeadEvents, NewMessage, Sendable, Switches, Encoded, Content, Trailers, OpenBody, Head;
    SendableVersion(q);
    var c1 := HeadRun(c, log, q);
    var log0 := log + HeadEvents(Received(q));
    OpensOther(c1, log0 + [HeadersComplete]);
    HeadedIs(c1, q);
    assert Serialized(q) + more == Head(q) + (Encoded(q.body) + more);
    RunConcat(c, log, Head(q), Encoded(q.body) + more);
    var e := [HeadersComplete] + [MessageComplete];
    assert log0 + [HeadersComplete] + [MessageComplete] == log0 + e;
  }

  // Any number of messages.

  /** Requests that may follow one another on a connection: only the last may close it. */
  predicate Pipelined(qs: seq<Outgoing>) {
    && AllSendable(qs)
    && (forall i :: 0 <= i < |qs| ==> !Switches(qs[i]))
    && (forall i :: 0 <= i < |qs| - 1 ==> Persists(qs[i]))
  }

  function AfterAll(qs: seq<Outgoing>): State { if qs == [] then Start(StartReq) else After(qs[|qs| - 1]) }

  lemma {:induction false} PipelinedInit(qs: seq<Outgoing>)
    requires Pipelined(qs) && qs != []
    ensures Pipelined(qs[..|qs| - 1]) && AfterAll(qs[..|qs| - 1]) == Start(StartReq)
    ensures Sendable(qs[|qs| - 1]) && !Switches(qs[|qs| - 1])
  {
    hide Sendable, Switches, Persists;
    var u := qs[..|qs| - 1];
    if u != [] {
      assert u[|u| - 1] == qs[|qs| - 2] && Persists(qs[|qs| - 2]);
    }
  }

  /** Round trip: any number of requests written one after the other are read back, in order, with
      the same URL, headers, body and trailers, and nothing else is reported.  The last one may close
      the connection. */
  lemma {:induction false} AllRun(c: Core, log: seq<Event>, qs: seq<Outgoing>)
    requires Fresh(c) && Pipelined(qs)
    ensures Delivered(Run(c, log, AllSerialized(qs)), log + AllEvents(AllReceived(qs)), AfterAll(qs))
    ensures qs != [] ==> Holds(Run(c, log, AllSerialized(qs)).core, qs[|qs| - 1])
    ensures Within(c, Run(c, log, AllSerialized(qs)).core, AllUncleared(c.tally, qs), Longest(c.tally, qs))
    decreases |qs|
  {
    hide Run, Sendable, Serialized, Received, Events, Switches, Within, Stretch, Pipelined, After, Uncleared;
    if qs == [] {
      HttpMethods.RunNothing(c, log);
      assert log + [] == log;
      WithinNothing(c);
    } else {
      var n := |qs| - 1;
      var u, q := qs[..n], qs[n];
      PipelinedIs(qs);
      PipelinedInit(qs);
      PipelinedIs(u);
      AllRun(c, log, u);
      var r := Run(c, log, AllSerialized(u));
      SendableVersion(q);
      Then(c, log, AllSerialized(u), r.core, r.log, Serialized(q));
      MessageRun(r.core, r.log, q);
      RunHigh(r.core, r.log, Serialized(q));
      MoreWithin(c, r.core, Run(r.core, r.log, Serialized(q)).core, u, q);
      AllEventsSnoc(AllReceived(u), Received(q));
      var l, e := AllEvents(AllReceived(u)), Events(Received(q));
      assert log + l + e == log + (l + e);
    }
  }

  lemma {:induction false} PipelinedIs(qs: seq<Outgoing>)
    requires Pipelined(qs)
    ensures AllSendable(qs)
  {
    hide Sendable, Switches, Persists;
  }

  lemma {:induction false} FirstOnes(qs: seq<Outgoing>, k: nat) returns (rest: string)
    requires Pipelined(qs) && k <= |qs|
    ensures Pipelined(qs[..k]) && AllSendable(qs[..k]) && AllSendable(qs)
    ensures AllSerialized(qs) == AllSerialized(qs[..k]) + rest
    decreases |qs|
  {
    hide Sendable, Serialized, Pipelined;
    PipelinedIs(qs);
    if k == |qs| {
      assert qs[..k] == qs;
      rest := [];
    } else {
      var n := |qs| - 1;
      PipelinedInit(qs);
      rest := FirstOnes(qs[..n], k);
      assert qs[..n][..k] == qs[..k];
      SendableVersion(qs[n]);
      var a, b := AllSerialized(qs[..k]), Serialized(qs[n]);
      assert a + rest + b == a + (rest + b);
      rest := rest + b;
    }
  }

  /** Each request in its place: when its last octet has been read, the requests up to it and nothing more
      have been reported, the parser holds its method and version, and what follows is read from there. */
  lemma {:induction false} EachRun(c: Core, log: seq<Event>, qs: seq<Outgoing>, i: nat) returns (rest: string)
    requires Fresh(c) && Pipelined(qs) && i < |qs|
    ensures AllSendable(qs) && AllSendable(qs[..i + 1]) && AllSerialized(qs) == AllSerialized(qs[..i + 1]) + rest
    ensures var r := Run(c, log, AllSerialized(qs[..i + 1]));
            && r.log == log + AllEvents(AllReceived(qs[..i])) + Events(Received(qs[i])) && Holds(r.core, qs[i])
            && Run(c, log, AllSerialized(qs)) == Run(r.core, r.log, rest)
  {
    hide Run, Sendable, AllSerialized, Received, Events, Within, Pipelined, AfterAll, Holds;
    var u := qs[..i + 1];
    rest := FirstOnes(qs, i + 1);
    AllRun(c, log, u);
    var r := Run(c, log, AllSerialized(u));
    RunConcat(c, log, AllSerialized(u), rest);
    assert u[..i] == qs[..i] && u[i] == qs[i];
    AllEventsSnoc(AllReceived(qs[..i]), Received(qs[i]));
    var l, e := AllEvents(AllReceived(qs[..i])), Events(Received(qs[i]));
    assert log + (l + e) == log + l + e;
  }

  lemma WithinNothing(c: Core)
    ensures Within(c, c, c.tally, c.tally)
  {
  }

  lemma {:induction false} MoreWithin(c: Core, c1: Core, c2: Core, u: seq<Outgoing>, q: Outgoing)
    requires AllSendable(u) && q.major <= 9 && q.minor <= 9
    requires Within(c, c1, AllUncleared(c.tally, u), Longest(c.tally, u))
    requires Within(c1, c2, Uncleared(q.body), Stretch(c1.tally, q)) && High(c2) >= High(c1)
    ensures Within(c, c2, Uncleared(q.body), Larger(Longest(c.tally, u), Stretch(AllUncleared(c.tally, u), q)))
  {
    hide High, Longest, Stretch, AllUncleared, Uncleared, Sendable;
  }

  /** After a last request that closes the connection, whatever follows is not reported: line ends are
      tolerated, and anything else is an error. */
  lemma {:induction false} ClosedRun(c: Core, log: seq<Event>, qs: seq<Outgoing>, more: string)
    requires Fresh(c) && Pipelined(qs) && AfterAll(qs) == DEAD
    ensures var r := Run(c, log, AllSerialized(qs) + more);
            && r.log == log + AllEvents(AllReceived(qs))
            && (r.end.More? <==> forall i :: 0 <= i < |more| ==> more[i] == CR || more[i] == LF)
            && (r.end.More? || r.end == Failed(ClosedConnection))
  {
    hide Run, AllSerialized, AllReceived, AllEvents, Pipelined, AllSendable, AfterAll, Within;
    PipelinedIs(qs);
    AllRun(c, log, qs);
    var r := Run(c, log, AllSerialized(qs));
    RunConcat(c, log, AllSerialized(qs), more);
    HttpTrace.NothingAfterClose(r.core, r.log, more);
  }

  /** The longest stretch of header octets when a request that asks for another protocol comes last. */
  function LongestWith(n: nat, qs: seq<Outgoing>, q: Outgoing): nat
    requires AllSendable(qs) && q.major <= 9 && q.minor <= 9
  {
    Larger(Longest(n, qs), AllUncleared(n, qs) + |Head(q)|)
  }

  /** A last request that asks for another protocol, after any number of others. */
  lemma {:induction false} AllThenSwitch(c: Core, log: seq<Event>, qs: seq<Outgoing>, q: Outgoing, more: string)
    requires Fresh(c) && Pipelined(qs) && AfterAll(qs) == Start(StartReq) && Sendable(q) && Switches(q)
    ensures var r := Run(c, log, AllSerialized(qs) + (Serialized(q) + more));
            && r.end.Exited? && r.rest == Encoded(q.body) + more
            && r.log == log + AllEvents(AllReceived(qs)) + HeadEvents(Received(q)) + [HeadersComplete, MessageComplete]
            && Within(c, r.core, 0, LongestWith(c.tally, qs, q)) && Holds(r.core, q)
  {
    hide Run, AllSerialized, AllReceived, AllEvents, Pipelined, AllSendable, AfterAll, Sendable, Switches, High, Head;
    hide Serialized, AllUncleared, Longest, Holds;
    SendableVersion(q);
    PipelinedIs(qs);
    AllRun(c, log, qs);
    var r := Run(c, log, AllSerialized(qs));
    RunConcat(c, log, AllSerialized(qs), Serialized(q) + more);
    RunHigh(r.core, r.log, Serialized(q) + more);
    SwitchRun(r.core, r.log, q, more);
  }

  /** A new request parser that is handed the requests in any pieces, its callbacks pausing it wherever
      they like, reports exactly the messages sent, unless it refuses an over-long header section; it
      does not refuse while eight times the longest stretch of header octets, bodies not counted and
      whatever the number of requests, is below the limit. */
  method Serve(qs: seq<Outgoing>, pieces: seq<string>, answer: seq<Event> -> Verdict)
    returns (parser: Parser, app: Application)
    requires Pipelined(qs) && Concat(pieces) == AllSerialized(qs)
    requires forall i :: 0 <= i < |pieces| ==> |pieces[i]| <= SAFE_LENGTH
    requires forall l :: answer(l).Proceed? || answer(l).Pause?
    ensures parser.errno.OK? || (parser.errno.HeaderOverflow? && parser.nread > MAX_HEADER_SIZE)
    ensures 8 * Longest(0, qs) + 5 <= MAX_HEADER_SIZE ==> parser.errno.OK?
    ensures LetsValuesPass(app) && Longest(0, qs) > MAX_HEADER_SIZE ==> parser.errno.HeaderOverflow?
    ensures parser.errno.OK? && qs != [] ==> Holds(parser.Fields(), qs[|qs| - 1])
    ensures app.answer == answer
    ensures parser.errno.OK? ==> app.Joined() == AllEvents(AllReceived(qs)) && parser.state == AfterAll(qs)
  {
    hide Run, Sendable, AllSendable, Pipelined, AllSerialized, AllReceived, AllEvents, Longest, AfterAll, AllUncleared;
    parser := new Parser(Request);
    app := new Application(answer);
    InitialInv(Request);
    PipelinedIs(qs);
    AllRun(Initial(Request), [], qs);
    assert [] + AllEvents(AllReceived(qs)) == AllEvents(AllReceived(qs));
    var _ := Drive(parser, app, pieces);
  }

  /** The same when a request that asks for another protocol comes last: it is reported complete at its empty
      line, and exactly its body and what follows it are left to the caller, for every cut of the octets and
      every pattern of pauses. */
  method ServeSwitch(
    qs: seq<Outgoing>, q: Outgoing, more: string, pieces: seq<string>, answer: seq<Event> -> Verdict)
    returns (parser: Parser, app: Application, left: string)
    requires Pipelined(qs) && AfterAll(qs) == Start(StartReq) && Sendable(q) && Switches(q)
    requires Concat(pieces) == AllSerialized(qs) + (Serialized(q) + more)
    requires forall i :: 0 <= i < |pieces| ==> |pieces[i]| <= SAFE_LENGTH
    requires forall l :: answer(l).Proceed? || answer(l).Pause?
    ensures parser.errno.OK? || (parser.errno.HeaderOverflow? && parser.nread > MAX_HEADER_SIZE)
    ensures 8 * LongestWith(0, qs, q) + 5 <= MAX_HEADER_SIZE ==> parser.errno.OK?
    ensures LetsValuesPass(app) && LongestWith(0, qs, q) > MAX_HEADER_SIZE ==> parser.errno.HeaderOverflow?
    ensures app.answer == answer
    ensures parser.errno.OK? ==>
              parser.upgrade && left == Encoded(q.body) + more && Holds(parser.Fields(), q)
              && app.Joined() ==
                 AllEvents(AllReceived(qs)) + HeadEvents(Received(q)) + [HeadersComplete, MessageComplete]
  {
    hide Run, Sendable, AllSendable, Pipelined, AllSerialized, AllReceived, AllEvents, AfterAll, AllUncleared;
    hide Serialized, Switches, LongestWith, Encoded, HeadEvents, Holds;
    parser := new Parser(Request);
    app := new Application(answer);
    InitialInv(Request);
    PipelinedIs(qs);
    SendableVersion(q);
    AllThenSwitch(Initial(Request), [], qs, q, more);
    assert [] + AllEvents(AllReceived(qs)) == AllEvents(AllReceived(qs));
    left := Drive(parser, app, pieces);
  }
}
