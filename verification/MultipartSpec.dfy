/** What the multipart parser means, octet by octet: no buffer, no mark and no lookbehind.
    One `char` stands for one octet. */
module MultipartSpec {
  const CR := '\r'
  const LF := '\n'

  datatype State =
    | Start | StartBoundary | HeaderFieldStart | HeaderField | HeadersAlmostDone | HeaderValueStart | HeaderValue
    | HeaderValueAlmostDone | PartDataStart | InPartData | PartDataAlmostBoundary | PartDataBoundary
    | PartDataAlmostEnd | PartDataEnd | PartDataFinalHyphen | EndState

  datatype Channel = Field | FieldValue | PartData

  /** One callback. */
  datatype Event = PartDataBegin | HeadersComplete | PartDataEnded | BodyEnd | Data(channel: Channel, bytes: string)

  /** Appends an event; data for the channel that spoke last is joined to what it said. */
  function Push(log: seq<Event>, e: Event): seq<Event> {
    if e.Data? && log != [] && log[|log| - 1].Data? && log[|log| - 1].channel == e.channel
    then log[..|log| - 1] + [Data(e.channel, log[|log| - 1].bytes + e.bytes)]
    else log + [e]
  }

  function Join(log: seq<Event>): seq<Event> {
    if log == [] then [] else Push(Join(log[..|log| - 1]), log[|log| - 1])
  }

  /** The fields that decide what happens next. */
  datatype Core = Core(state: State, index: nat)

  /** `held` is header text that has not been reported yet; going is false once an octet is refused. */
  datatype Step = Step(core: Core, held: string, log: seq<Event>, going: bool)

  function Go(c: Core, held: string, log: seq<Event>): Step { Step(c, held, log, true) }

  function Refuse(c: Core, log: seq<Event>): Step { Step(c, [], log, false) }

  /** tolower(c) lies between 'a' and 'z'. */
  predicate IsLetter(c: char) { 'a' <= c <= 'z' || 'A' <= c <= 'Z' }

  /** The octet must be `want`; then the state is `next`. */
  function Expect(c: Core, log: seq<Event>, ch: char, want: char, next: State): Step {
    if ch == want then Go(c.(state := next), [], log) else Refuse(c, log)
  }

  /** The first boundary and the line end after it. */
  function FirstBoundary(boundary: string, c: Core, log: seq<Event>, ch: char): Step {
    if c.index == |boundary| then if ch != CR then Refuse(c, log) else Go(c.(index := c.index + 1), [], log)
    else if c.index == |boundary| + 1 then
      if ch != LF then Refuse(c, log) else Go(Core(HeaderFieldStart, 0), [], Push(log, PartDataBegin))
    else if c.index > |boundary| || ch != boundary[c.index] then Refuse(c, log)
    else Go(c.(index := c.index + 1), [], log)
  }

  /** A header name.  At the end of a buffer the text so far is reported, unless it ends in '-'. */
  function FieldOctet(c: Core, held: string, log: seq<Event>, ch: char, last: bool): Step {
    if ch == CR then Go(c.(state := HeadersAlmostDone), [], log)
    else if ch == '-' then Go(c, if last then [] else held + [ch], log)
    else if ch == ':' then Go(c.(state := HeaderValueStart), [], Push(log, Data(Field, held)))
    else if !IsLetter(ch) then Refuse(c, log)
    else if last then Go(c, [], Push(log, Data(Field, held + [ch])))
    else Go(c, held + [ch], log)
  }

  /** A header value.  If the CR after it is the last octet of a buffer, the value is reported twice. */
  function ValueOctet(c: Core, held: string, log: seq<Event>, ch: char, last: bool): Step {
    if ch == CR then
      var log1 := Push(log, Data(FieldValue, held));
      Go(c.(state := HeaderValueAlmostDone), [], if last then Push(log1, Data(FieldValue, held + [ch])) else log1)
    else if last then Go(c, [], Push(log, Data(FieldValue, held + [ch])))
    else Go(c, held + [ch], log)
  }

  /** Part data.  A CR may begin a delimiter and is kept back. */
  function DataOctet(c: Core, log: seq<Event>, ch: char): Step {
    if ch == CR then Go(c.(state := PartDataAlmostBoundary), [], Push(log, Data(PartData, [])))
    else Go(c.(state := InPartData), [], Push(log, Data(PartData, [ch])))
  }

  /** What separates parts: section 5.1.1 of RFC 2046. */
  function Delimiter(boundary: string): string { [CR, LF] + boundary }

  /** How many octets of a delimiter have been seen. */
  function Matched(c: Core): nat {
    match c.state
    case PartDataAlmostBoundary => 1
    case PartDataBoundary => 2 + c.index
    case _ => 0
  }

  function BoundaryOctet(boundary: string, c: Core, log: seq<Event>, ch: char): Step {
    if c.index >= |boundary| || boundary[c.index] != ch then
      DataOctet(c,
        Push(log, Data(PartData, [CR, LF] + boundary[..if c.index <= |boundary| then c.index else |boundary|])), ch)
    else if c.index + 1 == |boundary| then Go(Core(PartDataAlmostEnd, c.index + 1), [], Push(log, PartDataEnded))
    else Go(c.(index := c.index + 1), [], log)
  }

  /** The meaning of one octet; `last` says that a buffer ends after it. */
  function Octet(boundary: string, c: Core, held: string, log: seq<Event>, ch: char, last: bool): Step {
    match c.state
    case Start => FirstBoundary(boundary, Core(StartBoundary, 0), log, ch)
    case StartBoundary => FirstBoundary(boundary, c, log, ch)
    case HeaderFieldStart => FieldOctet(c.(state := HeaderField), [], log, ch, last)
    case HeaderField => FieldOctet(c, held, log, ch, last)
    case HeadersAlmostDone => Expect(c, log, ch, LF, PartDataStart)
    case HeaderValueStart => if ch == ' ' then Go(c, [], log)
      else ValueOctet(c.(state := HeaderValue), [], log, ch, last)
    case HeaderValue => ValueOctet(c, held, log, ch, last)
    case HeaderValueAlmostDone => Expect(c, log, ch, LF, HeaderFieldStart)
    case PartDataStart => DataOctet(c, Push(log, HeadersComplete), ch)
    case InPartData => DataOctet(c, log, ch)
    case PartDataAlmostBoundary =>
      if ch == LF then Go(Core(PartDataBoundary, 0), [], log) else DataOctet(c, Push(log, Data(PartData, [CR])), ch)
    case PartDataBoundary => BoundaryOctet(boundary, c, log, ch)
    case PartDataAlmostEnd =>
      if ch == '-' then Go(c.(state := PartDataFinalHyphen), [], log) else Expect(c, log, ch, CR, PartDataEnd)
    case PartDataEnd =>
      if ch == LF then Go(c.(state := HeaderFieldStart), [], Push(log, PartDataBegin)) else Refuse(c, log)
    case PartDataFinalHyphen =>
      if ch == '-' then Go(c.(state := EndState), [], Push(log, BodyEnd)) else Refuse(c, log)
    case EndState => Go(c, [], log)
  }

  /** Where a scan ends; rest is what was not taken. */
  datatype Result = Result(core: Core, held: string, log: seq<Event>, rest: string)

  /** The meaning of a stretch of input.  If it is open, more of the same buffer follows it. */
  function Scan(boundary: string, c: Core, held: string, log: seq<Event>, s: string, open: bool): Result
    decreases |s|
  {
    if s == [] then Result(c, held, log, [])
    else
      var r := Octet(boundary, c, held, log, s[0], !open && |s| == 1);
      if r.going then Scan(boundary, r.core, r.held, r.log, s[1..], open) else Result(r.core, r.held, r.log, s)
  }

  lemma {:induction false} ScanConcat(
    boundary: string, c: Core, held: string, log: seq<Event>, a: string, b: string, open: bool)
    requires b != []
    ensures var r := Scan(boundary, c, held, log, a, true);
            Scan(boundary, c, held, log, a + b, open) ==
            if r.rest == [] then Scan(boundary, r.core, r.held, r.log, b, open) else r.(rest := r.rest + b)
    decreases |a|
  {
    hide Octet;
    if a == [] {
      assert a + b == b;
    } else {
      assert (a + b)[0] == a[0] && (a + b)[1..] == a[1..] + b;
      var r := Octet(boundary, c, held, log, a[0], false);
      if r.going {
        ScanConcat(boundary, r.core, r.held, r.log, a[1..], b, open);
      }
    }
  }

  lemma {:induction false} ScanHere(
    boundary: string, c: Core, held: string, log: seq<Event>, data: string, p: nat, open: bool)
    requires p < |data|
    ensures var r := Octet(boundary, c, held, log, data[p], !open && p == |data| - 1);
            Scan(boundary, c, held, log, data[p..], open) ==
            if r.going then Scan(boundary, r.core, r.held, r.log, data[p + 1..], open)
            else Result(r.core, r.held, r.log, data[p..])
  {
    hide Octet;
    assert data[p..][1..] == data[p + 1..];
  }

  lemma {:induction false} PushPush(log: seq<Event>, k: Channel, a: string, b: string)
    ensures Push(Push(log, Data(k, a)), Data(k, b)) == Push(log, Data(k, a + b))
  {
    if log != [] && log[|log| - 1].Data? && log[|log| - 1].channel == k {
      var init, last := log[..|log| - 1], log[|log| - 1];
      assert (init + [Data(k, last.bytes + a)])[..|init|] == init;
      assert last.bytes + a + b == last.bytes + (a + b);
    } else {
      assert (log + [Data(k, a)])[..|log|] == log;
    }
  }

  lemma {:induction false} JoinSnoc(log: seq<Event>, e: Event)
    ensures Join(log + [e]) == Push(Join(log), e)
  {
    hide Push;
    assert (log + [e])[..|log|] == log;
  }

  /** What has been reported is the beginning of b; its last piece of data may be the beginning of one in b. */
  predicate Leads(a: seq<Event>, b: seq<Event>) {
    a == []
    || (|a| <= |b|
        && var n := |a| - 1;
           a[..n] == b[..n]
           && (a[n] == b[n] || (a[n].Data? && b[n].Data? && a[n].channel == b[n].channel && a[n].bytes <= b[n].bytes)))
  }

  lemma {:induction false} LeadsOn(a: seq<Event>, b: seq<Event>, c: seq<Event>)
    requires Leads(a, b) && Leads(b, c)
    ensures Leads(a, c)
  {
    if a != [] {
      var n := |a| - 1;
      assert b[..|b| - 1] == c[..|b| - 1];
      if n < |b| - 1 {
        assert a[..n] == b[..n] == b[..|b| - 1][..n] == c[..|b| - 1][..n] == c[..n];
        assert b[n] == b[..|b| - 1][n] == c[..|b| - 1][n] == c[n];
      }
    }
  }

  lemma LeadsPush(log: seq<Event>, e: Event)
    ensures Leads(log, log) && Leads(log, Push(log, e))
  {
  }

  lemma {:induction false} LeadsTwice(log: seq<Event>, e: Event, e': Event)
    ensures Leads(log, Push(Push(log, e), e'))
  {
    hide Push, Leads;
    LeadsPush(log, e);
    LeadsPush(Push(log, e), e');
    LeadsOn(log, Push(log, e), Push(Push(log, e), e'));
  }

  lemma {:induction false} TextLeads(c: Core, held: string, log: seq<Event>, ch: char, last: bool)
    ensures Leads(log, FieldOctet(c, held, log, ch, last).log)
    ensures Leads(log, ValueOctet(c, held, log, ch, last).log)
  {
    hide Push, Leads, IsLetter;
    LeadsPush(log, Data(Field, held));
    LeadsPush(log, Data(Field, held + [ch]));
    LeadsPush(log, Data(FieldValue, held));
    LeadsPush(log, Data(FieldValue, held + [ch]));
    LeadsTwice(log, Data(FieldValue, held), Data(FieldValue, held + [ch]));
  }

  lemma {:induction false} DataLeads(c: Core, log: seq<Event>, e: Event, ch: char)
    ensures Leads(log, DataOctet(c, log, ch).log) && Leads(log, DataOctet(c, Push(log, e), ch).log)
  {
    hide Push, Leads;
    LeadsPush(log, Data(PartData, []));
    LeadsPush(log, Data(PartData, [ch]));
    LeadsTwice(log, e, Data(PartData, []));
    LeadsTwice(log, e, Data(PartData, [ch]));
  }

  lemma {:induction false} BoundaryLeads(boundary: string, c: Core, log: seq<Event>, ch: char)
    ensures Leads(log, FirstBoundary(boundary, c, log, ch).log) && Leads(log, BoundaryOctet(boundary, c, log, ch).log)
  {
    hide Push, Leads, DataOctet;
    LeadsPush(log, PartDataBegin);
    LeadsPush(log, PartDataEnded);
    DataLeads(c, log,
      Data(PartData, [CR, LF] + boundary[..if c.index <= |boundary| then c.index else |boundary|]), ch);
  }

  lemma {:induction false} OctetLeads(boundary: string, c: Core, held: string, log: seq<Event>, ch: char, last: bool)
    ensures Leads(log, Octet(boundary, c, held, log, ch, last).log)
  {
    hide Push, Leads, FieldOctet, ValueOctet, DataOctet, FirstBoundary, BoundaryOctet;
    BoundaryLeads(boundary, c, log, ch);
    BoundaryLeads(boundary, Core(StartBoundary, 0), log, ch);
    TextLeads(c, held, log, ch, last);
    TextLeads(c.(state := HeaderField), [], log, ch, last);
    TextLeads(c.(state := HeaderValue), [], log, ch, last);
    DataLeads(c, log, HeadersComplete, ch);
    DataLeads(c, log, Data(PartData, [CR]), ch);
    LeadsPush(log, PartDataBegin);
    LeadsPush(log, BodyEnd);
  }

  /** What has been reported is never taken back. */
  lemma {:induction false} ScanLeads(
    boundary: string, c: Core, held: string, log: seq<Event>, s: string, open: bool)
    ensures Leads(log, Scan(boundary, c, held, log, s, open).log)
    decreases |s|
  {
    hide Octet, Push, Leads;
    if s == [] {
      LeadsPush(log, BodyEnd);
    } else {
      OctetLeads(boundary, c, held, log, s[0], !open && |s| == 1);
      var r := Octet(boundary, c, held, log, s[0], !open && |s| == 1);
      if r.going {
        ScanLeads(boundary, r.core, r.held, r.log, s[1..], open);
        LeadsOn(log, r.log, Scan(boundary, r.core, r.held, r.log, s[1..], open).log);
      }
    }
  }
}
