/** What the HTTP parser means, octet by octet: no buffers, no marks, no re-execution and no bulk
    moves.  Every callback is taken to succeed. */
module HttpSpec {
  import opened Common
  import opened HttpTypes
  import opened HttpChars

  /** Appends an event; data for the channel that spoke last is joined to what it said. */
  function Push(log: seq<Event>, e: Event): seq<Event> {
    if e.Data? && log != [] && log[|log| - 1].Data? && log[|log| - 1].channel == e.channel
    then log[..|log| - 1] + [Data(e.channel, log[|log| - 1].bytes + e.bytes)]
    else log + [e]
  }

  /** The joined form of a list of callbacks. */
  function Join(log: seq<Event>): seq<Event> {
    if log == [] then [] else Push(Join(log[..|log| - 1]), log[|log| - 1])
  }

  /** No piece of a body is reported without octets. */
  predicate NoEmptyBody(log: seq<Event>) {
    forall i :: 0 <= i < |log| && log[i].Data? && log[i].channel.BodyData? ==> log[i].bytes != []
  }

  /** The callbacks a client may be told. */
  type Callbacks = log: seq<Event> | NoEmptyBody(log)

  datatype End = More | Exited | Failed(error: Errno)

  datatype Step = Step(core: Core, log: seq<Event>, end: End)

  function Go(c: Core, log: seq<Event>): Step { Step(c, log, More) }

  function Err(c: Core, log: seq<Event>, e: Errno): Step { Step(c, log, Failed(e)) }

  function Say(log: seq<Event>, channel: Channel, ch: char): seq<Event> { Push(log, Data(channel, [ch])) }

  /** The octet must be `want` (STRICT_CHECK); then the state is `next`. */
  function Expect(c: Core, log: seq<Event>, ch: char, want: char, next: State): Step {
    if ch != want then Err(c, log, Strict) else Go(c.(state := next), log)
  }

  function StartByte(c: Core, s: StartState, log: seq<Event>, ch: char): Step {
    match s
    case Dead => if ch == CR || ch == LF then Go(c, log) else Err(c, log, ClosedConnection)
    case StartReqOrRes =>
      if ch == CR || ch == LF then Go(c, log)
      else
        var c' := c.(flags := NO_FLAGS, length := NO_LENGTH);
        if ch == 'H' then Go(c'.(state := Start(ResOrRespH)), Push(log, MessageBegin))
        else StartRequest(c'.(kind := Request, state := Start(StartReq)), log, ch)
    case ResOrRespH =>
      if ch == 'T' then Go(c.(kind := Response, state := StatusLine(ResHT)), log)
      else if ch == 'E' then Go(c.(kind := Request, verb := Head, index := 2, state := InMethod), log)
      else Err(c, log, InvalidConstant)
    case StartRes =>
      var c' := c.(flags := NO_FLAGS, length := NO_LENGTH);
      if ch == 'H' then Go(c'.(state := StatusLine(ResH)), Push(log, MessageBegin))
      else if ch == CR || ch == LF then Go(c', Push(log, MessageBegin))
      else Err(c', log, InvalidConstant)
    case _ => StartRequest(c, log, ch)
  }

  function StartRequest(c: Core, log: seq<Event>, ch: char): Step {
    if ch == CR || ch == LF then Go(c, log)
    else
      var c' := c.(flags := NO_FLAGS, length := NO_LENGTH);
      if !IsAlpha(ch) then Err(c', log, InvalidMethod)
      else
        var c'' := c'.(verb := Delete, index := 1);
        match FirstMethod(ch)
        case None => Err(c'', log, InvalidMethod)
        case Some(m) => Go(c''.(verb := m, state := InMethod), Push(log, MessageBegin))
  }

  function StatusByte(c: Core, s: StatusState, log: seq<Event>, ch: char): Step {
    match s
    case ResH => Expect(c, log, ch, 'T', StatusLine(ResHT))
    case ResHT => Expect(c, log, ch, 'T', StatusLine(ResHTT))
    case ResHTT => Expect(c, log, ch, 'P', StatusLine(ResHTTP))
    case ResHTTP => Expect(c, log, ch, '/', StatusLine(ResFirstHttpMajor))
    case ResFirstHttpMajor =>
      if !IsNum(ch) then Err(c, log, InvalidVersion)
        else Go(c.(major := Digit(ch), state := StatusLine(ResHttpMajor)), log)
    case ResHttpMajor =>
      if ch == '.' then Go(c.(state := StatusLine(ResFirstHttpMinor)), log) else MajorDigit(c, log, ch)
    case ResFirstHttpMinor =>
      if !IsNum(ch) then Err(c, log, InvalidVersion)
        else Go(c.(minor := Digit(ch), state := StatusLine(ResHttpMinor)), log)
    case ResHttpMinor =>
      if ch == ' ' then Go(c.(state := StatusLine(ResFirstStatusCode)), log) else MinorDigit(c, log, ch)
    case ResFirstStatusCode =>
      if IsNum(ch) then Go(c.(status := Digit(ch), state := StatusLine(ResStatusCode)), log)
      else if ch == ' ' then Go(c, log)
      else Err(c, log, InvalidStatus)
    case ResStatusCode =>
      if IsNum(ch) then
        var c' := c.(status := c.status * 10 + Digit(ch));
        if c'.status > 999 then Err(c', log, InvalidStatus) else Go(c', log)
      else if ch == ' ' then Go(c.(state := StatusLine(ResStatusStart)), log)
      else if ch == CR then Go(c.(state := StatusLine(ResLineAlmostDone)), log)
      else if ch == LF then Go(c.(state := InHeader(FieldStart)), log)
      else Err(c, log, InvalidStatus)
    case ResStatusStart =>
      if ch == CR then Go(c.(state := StatusLine(ResLineAlmostDone)), log)
      else if ch == LF then Go(c.(state := InHeader(FieldStart)), log)
      else Go(c.(state := StatusLine(ResStatus), index := 0), Say(log, StatusData, ch))
    case ResStatus =>
      if ch == CR then Go(c.(state := StatusLine(ResLineAlmostDone)), log)
      else if ch == LF then Go(c.(state := InHeader(FieldStart)), log)
      else Go(c, Say(log, StatusData, ch))
    case _ => Expect(c, log, ch, LF, InHeader(FieldStart))
  }

  function MajorDigit(c: Core, log: seq<Event>, ch: char): Step {
    if !IsNum(ch) then Err(c, log, InvalidVersion)
    else
      var c' := c.(major := c.major * 10 + Digit(ch));
      if c'.major > 999 then Err(c', log, InvalidVersion) else Go(c', log)
  }

  function MinorDigit(c: Core, log: seq<Event>, ch: char): Step {
    if !IsNum(ch) then Err(c, log, InvalidVersion)
    else
      var c' := c.(minor := c.minor * 10 + Digit(ch));
      if c'.minor > 999 then Err(c', log, InvalidVersion) else Go(c', log)
  }

  function MethodByte(c: Core, log: seq<Event>, ch: char): Step {
    var want := At(MethodString(c.verb), c.index);
    if ch == '\0' then Err(c, log, InvalidMethod)
    else if ch == ' ' && want == '\0' then Go(c.(state := InUrl(SpacesBeforeUrl), index := Inc8(c.index)), log)
    else if ch == want then Go(c.(index := Inc8(c.index)), log)
    else
      match ReviseMethod(c.verb, c.index, ch)
      case None => Err(c, log, InvalidMethod)
      case Some(m) => Go(c.(verb := m, index := Inc8(c.index)), log)
  }

  function UrlByte(c: Core, s: UrlState, log: seq<Event>, ch: char): Step {
    match s
    case SpacesBeforeUrl =>
      if ch == ' ' then Go(c, log)
      else UrlChar(c, if c.verb.Connect? then ServerStart else SpacesBeforeUrl, log, ch)
    case Schema => UrlOnly(c, s, log, ch)
    case SchemaSlash => UrlOnly(c, s, log, ch)
    case SchemaSlashSlash => UrlOnly(c, s, log, ch)
    case ServerStart => UrlOnly(c, s, log, ch)
    case _ =>
      if ch == ' ' then Go(c.(state := InVersion(HttpStart)), log)
      else if ch == CR then Go(c.(major := 0, minor := 9, state := InVersion(LineAlmostDone)), log)
      else if ch == LF then Go(c.(major := 0, minor := 9, state := InHeader(FieldStart)), log)
      else UrlChar(c, s, log, ch)
  }

  /** The URL may not end here. */
  function UrlOnly(c: Core, s: UrlState, log: seq<Event>, ch: char): Step {
    if ch == ' ' || ch == CR || ch == LF then Err(c, log, InvalidUrl) else UrlChar(c, s, log, ch)
  }

  function UrlChar(c: Core, s: UrlState, log: seq<Event>, ch: char): Step {
    var s' := ParseUrlChar(s, ch);
    if s'.UrlDead? then Err(c.(state := DEAD), log, InvalidUrl)
    else Go(c.(state := InUrl(s')), Say(log, UrlData, ch))
  }

  function VersionByte(c: Core, s: VersionState, log: seq<Event>, ch: char): Step {
    match s
    case HttpStart =>
      if ch == 'H' then Go(c.(state := InVersion(HttpH)), log)
      else if ch == ' ' then Go(c, log)
      else Err(c, log, InvalidConstant)
    case HttpH => Expect(c, log, ch, 'T', InVersion(HttpHT))
    case HttpHT => Expect(c, log, ch, 'T', InVersion(HttpHTT))
    case HttpHTT => Expect(c, log, ch, 'P', InVersion(HttpHTTP))
    case HttpHTTP => Expect(c, log, ch, '/', InVersion(FirstHttpMajor))
    case FirstHttpMajor =>
      if ch < '1' || ch > '9' then Err(c, log, InvalidVersion)
      else Go(c.(major := Digit(ch), state := InVersion(HttpMajor)), log)
    case HttpMajor =>
      if ch == '.' then Go(c.(state := InVersion(FirstHttpMinor)), log) else MajorDigit(c, log, ch)
    case FirstHttpMinor =>
      if !IsNum(ch) then Err(c, log, InvalidVersion) else Go(c.(minor := Digit(ch), state := InVersion(HttpMinor)), log)
    case HttpMinor =>
      if ch == CR then Go(c.(state := InVersion(LineAlmostDone)), log)
      else if ch == LF then Go(c.(state := InHeader(FieldStart)), log)
      else MinorDigit(c, log, ch)
    case _ => if ch != LF then Err(c, log, LfExpected) else Go(c.(state := InHeader(FieldStart)), log)
  }

  function BeginField(c: Core, log: seq<Event>, ch: char): Step {
    if ch == CR then Go(c.(state := InHeader(HeadersAlmostDone)), log)
    else if ch == LF then EndHeaders(c.(state := InHeader(HeadersAlmostDone)), log, ch)
    else if Token(ch) == '\0' then Err(c, log, InvalidHeaderToken)
    else Go(c.(state := InHeader(Field), index := 0, hstate := FirstField(Token(ch))), Say(log, FieldData, ch))
  }

  function FieldByte(c: Core, log: seq<Event>, ch: char): Step {
    if Token(ch) != '\0' then
      var (h, i) := NextField(c.hstate, c.index, Token(ch), ch);
      Go(c.(hstate := h, index := i), Say(log, FieldData, ch))
    else if ch == ':' then Go(c.(state := InHeader(DiscardWs)), log)
    else Err(c, log, InvalidHeaderToken)
  }

  function BeginValue(c: Core, log: seq<Event>, ch: char): Step {
    var c' := c.(state := InHeader(Value), index := 0);
    if c.hstate.ContentLength? && !IsNum(ch) then Err(c', log, InvalidContentLength)
    else
      var c'' := c'.(hstate := FirstValue(c.hstate, ch),
                     length := if c.hstate.ContentLength? then Digit(ch) else c.length,
                     flags := if c.hstate.Upgrade? then c.flags.(upgrade := true) else c.flags);
      Go(c'', Say(log, ValueData, ch))
  }

  /** The largest length that may still be multiplied by `base`. */
  function Limit(base: nat): nat
    requires 0 < base <= 16
  {
    (U64 - 1 - base) / base
  }

  function ValueByte(c: Core, log: seq<Event>, ch: char): Step {
    if ch == CR then Go(c.(state := InHeader(AlmostDone)), log)
    else if ch == LF then Go(c.(state := InHeader(ValueLws)), log)
    else if c.hstate.ContentLength? && ch != ' ' then
      if !IsNum(ch) || Limit(10) < c.length then Err(c, log, InvalidContentLength)
      else Go(c.(length := c.length * 10 + Digit(ch)), Say(log, ValueData, ch))
    else
      var (h, i) := NextValue(c.hstate, c.index, ch);
      Go(c.(hstate := h, index := i, flags := if ch == ',' then ConnectionFlags(c.hstate, c.flags) else c.flags),
         Say(log, ValueData, ch))
  }

  function HeaderByte(c: Core, s: HeaderState, log: seq<Event>, ch: char): Step {
    match s
    case FieldStart => BeginField(c, log, ch)
    case Field => FieldByte(c, log, ch)
    case DiscardWs =>
      if IsBlank(ch) then Go(c, log)
      else if ch == CR then Go(c.(state := InHeader(DiscardWsAlmostDone)), log)
      else if ch == LF then Go(c.(state := InHeader(DiscardLws)), log)
      else BeginValue(c, log, ch)
    case DiscardWsAlmostDone => Expect(c, log, ch, LF, InHeader(DiscardLws))
    case DiscardLws =>
      if IsBlank(ch) then Go(c.(state := InHeader(DiscardWs)), log)
      else BeginField(c.(state := InHeader(FieldStart), flags := LineFlags(c.hstate, c.flags)),
        Push(log, Data(ValueData, [])), ch)
    case ValueStart => BeginValue(c, log, ch)
    case Value => ValueByte(c, log, ch)
    case AlmostDone => Expect(c, log, ch, LF, InHeader(ValueLws))
    case ValueLws =>
      if IsBlank(ch) then BeginValue(c, log, ch)
      else BeginField(c.(state := InHeader(FieldStart), flags := LineFlags(c.hstate, c.flags)), log, ch)
    case HeadersAlmostDone => EndHeaders(c, log, ch)
    case _ => StartBody(c, log, ch)
  }

  /** The message is over; this octet was its last. */
  function Complete(c: Core, log: seq<Event>): Step {
    Go(c.(state := NewMessage(c)), Push(log, MessageComplete))
  }

  predicate WantsUpgrade(c: Core) {
    (c.flags.upgrade && c.flags.connectionUpgrade) || c.verb.Connect?
  }

  function EndHeaders(c: Core, log: seq<Event>, ch: char): Step {
    if ch != LF then Err(c, log, Strict)
    else if c.flags.trailing then Complete(c, log)
    else StartBody(c.(state := InHeader(HeadersDone), upgrade := WantsUpgrade(c)), Push(log, HeadersComplete), ch)
  }

  /** The longest stretch of header octets so far. */
  function High(c: Core): nat { if c.tally > c.peak then c.tally else c.peak }

  /** The count starts again. */
  function Cleared(c: Core): Core { c.(tally := 0, peak := High(c)) }

  /** Message framing: section 4.4 of RFC 2616. */
  function OpenBody(c: Core, log: seq<Event>): Step {
    if c.upgrade then Complete(c, log).(end := Exited)
    else if c.flags.chunked then Go(c.(state := InChunk(SizeStart)), log)
    else if c.length == 0 then Complete(c, log)
    else if c.length != NO_LENGTH then Go(c.(state := InBody(Identity)), log)
    else if c.kind.Request? || !NeedsEof(c) then Complete(c, log)
    else Go(c.(state := InBody(IdentityEof)), log)
  }

  function StartBody(c: Core, log: seq<Event>, ch: char): Step {
    if ch != LF then Err(c, log, Strict) else OpenBody(Cleared(c), log)
  }

  function BodyByte(c: Core, s: BodyState, log: seq<Event>, ch: char): Step {
    match s
    case Identity =>
      var log' := Say(log, BodyData, ch);
      if c.length <= 1 then Complete(c.(length := 0), log') else Go(c.(length := c.length - 1), log')
    case IdentityEof => Go(c, Say(log, BodyData, ch))
    case _ => Complete(c, log)
  }

  /** The chunked coding: section 3.6.1 of RFC 2616. */
  function ChunkByte(c: Core, s: ChunkState, log: seq<Event>, ch: char): Step {
    match s
    case SizeStart =>
      if Unhex(ch) == -1 then Err(c, log, InvalidChunkSize)
      else Go(c.(length := Unhex(ch), state := InChunk(Size)), log)
    case Size =>
      if ch == CR then Go(c.(state := InChunk(SizeAlmostDone)), log)
      else if Unhex(ch) == -1 then
        if ch == ';' || ch == ' ' then Go(c.(state := InChunk(Parameters)), log) else Err(c, log, InvalidChunkSize)
      else if Limit(16) < c.length then Err(c, log, InvalidContentLength)
      else Go(c.(length := c.length * 16 + Unhex(ch)), log)
    case Parameters => if ch == CR then Go(c.(state := InChunk(SizeAlmostDone)), log) else Go(c, log)
    case SizeAlmostDone =>
      if ch != LF then Err(c, log, Strict)
      else if c.length == 0 then
        Go(Cleared(c).(flags := c.flags.(trailing := true), state := InHeader(FieldStart)), log)
      else Go(Cleared(c).(state := InChunk(ChunkData)), log)
    case ChunkData =>
      var log' := Say(log, BodyData, ch);
      if c.length <= 1 then Go(c.(length := 0, state := InChunk(DataAlmostDone)), log')
      else Go(c.(length := c.length - 1), log')
    case DataAlmostDone => Expect(c, log, ch, CR, InChunk(DataDone))
    case _ => if ch != LF then Err(c, log, Strict) else Go(Cleared(c).(state := InChunk(SizeStart)), log)
  }

  function Dispatch(c: Core, log: seq<Event>, ch: char): Step {
    match c.state
    case Start(s) => StartByte(c, s, log, ch)
    case StatusLine(s) => StatusByte(c, s, log, ch)
    case InMethod => MethodByte(c, log, ch)
    case InUrl(s) => UrlByte(c, s, log, ch)
    case InVersion(s) => VersionByte(c, s, log, ch)
    case InHeader(s) => HeaderByte(c, s, log, ch)
    case InChunk(s) => ChunkByte(c, s, log, ch)
    case InBody(s) => BodyByte(c, s, log, ch)
  }

  /** An octet is counted against the header size before it is looked at. */
  function Counted(c: Core): Core { if ParsingHeader(c.state) then c.(tally := c.tally + 1) else c }

  /** The meaning of one octet. */
  function Byte(c: Core, log: seq<Event>, ch: char): Step { Dispatch(Counted(c), log, ch) }

  /** Where a run ends: the parser, its callbacks so far, the octets it did not take, and why it stopped. */
  datatype Result = Result(core: Core, log: seq<Event>, rest: string, end: End)

  /** The meaning of a stretch of input. */
  function Run(c: Core, log: seq<Event>, s: string): Result
    decreases |s|
  {
    if s == [] then Result(c, log, [], More)
    else
      var r := Byte(c, log, s[0]);
      match r.end
      case More => Run(r.core, r.log, s[1..])
      case Exited => Result(r.core, r.log, s[1..], Exited)
      case Failed(e) => Result(r.core, r.log, s, Failed(e))
  }

  /** How the input is cut does not matter. */
  lemma {:induction false} RunConcat(c: Core, log: seq<Event>, a: string, b: string)
    ensures var r := Run(c, log, a);
            Run(c, log, a + b) ==
            if r.end.More? then Run(r.core, r.log, b) else r.(rest := r.rest + b)
    decreases |a|
  {
    if a == [] {
      assert a + b == b;
    } else {
      assert (a + b)[0] == a[0] && (a + b)[1..] == a[1..] + b;
      var r := Byte(c, log, a[0]);
      if r.end.More? {
        RunConcat(r.core, r.log, a[1..], b);
      }
    }
  }

  /** One octet of a run. */
  lemma {:induction false} RunHere(c: Core, log: seq<Event>, data: string, p: nat)
    requires p < |data|
    ensures var r := Byte(c, log, data[p]);
            Run(c, log, data[p..]) ==
            match r.end
            case More => Run(r.core, r.log, data[p + 1..])
            case Exited => Result(r.core, r.log, data[p + 1..], Exited)
            case Failed(e) => Result(r.core, r.log, data[p..], Failed(e))
  {
    hide Byte;
    assert data[p..][1..] == data[p + 1..];
  }

  lemma {:induction false} RunEnd(c: Core, log: seq<Event>, data: string)
    ensures data[|data|..] == [] && Run(c, log, []) == Result(c, log, [], More)
  {
  }

  // The longest stretch of header octets.

  /** What a step does to the count: it keeps the octet counted, or clears it. */
  predicate Counts(c: Core, r: Step) {
    (r.core.tally == c.tally && r.core.peak == c.peak) || (r.core.tally == 0 && r.core.peak == High(c))
  }

  lemma {:induction false} StartCounts(c: Core, s: StartState, log: seq<Event>, ch: char)
    ensures Counts(c, StartByte(c, s, log, ch))
  {
    hide Push, High;
  }

  lemma {:induction false} LineCounts(c: Core, log: seq<Event>, ch: char)
    ensures c.state.StatusLine? ==> Counts(c, StatusByte(c, c.state.status, log, ch))
    ensures c.state.InVersion? ==> Counts(c, VersionByte(c, c.state.version, log, ch))
  {
    hide Say, High;
  }

  lemma {:induction false} MethodCounts(c: Core, log: seq<Event>, ch: char)
    ensures Counts(c, MethodByte(c, log, ch))
  {
    hide High, MethodString, ReviseMethod;
  }

  lemma {:induction false} UrlCounts(c: Core, s: UrlState, log: seq<Event>, ch: char)
    ensures Counts(c, UrlByte(c, s, log, ch))
  {
    hide Say, High, ParseUrlChar;
  }

  lemma {:induction false} EndCounts(c: Core, log: seq<Event>, ch: char)
    ensures Counts(c, StartBody(c, log, ch)) && Counts(c, EndHeaders(c, log, ch))
  {
    hide Push, NewMessage, NeedsEof;
  }

  lemma {:induction false} LineStartCounts(c: Core, log: seq<Event>, ch: char)
    ensures Counts(c, BeginField(c, log, ch)) && Counts(c, BeginValue(c, log, ch))
  {
    hide Say, High, EndHeaders, Token, FirstField, FirstValue;
    EndCounts(c.(state := InHeader(HeadersAlmostDone)), log, ch);
    HighSame(c, InHeader(HeadersAlmostDone), c.flags);
  }

  lemma HighSame(c: Core, s: State, f: Flags)
    ensures High(c.(state := s, flags := f)) == High(c)
  {
  }

  lemma {:induction false} HeaderCounts(c: Core, s: HeaderState, log: seq<Event>, ch: char)
    ensures Counts(c, HeaderByte(c, s, log, ch))
  {
    hide Push, High, EndHeaders, StartBody, BeginField, BeginValue, Token, NextField, NextValue, Limit, LineFlags;
    hide ConnectionFlags;
    var f := LineFlags(c.hstate, c.flags);
    EndCounts(c, log, ch);
    LineStartCounts(c, log, ch);
    LineStartCounts(c.(state := InHeader(FieldStart), flags := f), log, ch);
    LineStartCounts(c.(state := InHeader(FieldStart), flags := f), Push(log, Data(ValueData, [])), ch);
    HighSame(c, InHeader(FieldStart), f);
  }

  lemma {:induction false} BodyCounts(c: Core, log: seq<Event>, ch: char)
    ensures c.state.InChunk? ==> Counts(c, ChunkByte(c, c.state.chunk, log, ch))
    ensures c.state.InBody? ==> Counts(c, BodyByte(c, c.state.body, log, ch))
  {
    hide Push, Unhex, Limit, NewMessage;
  }

  /** An octet is counted, and never forgotten. */
  lemma {:induction false} ByteCounts(c: Core, log: seq<Event>, ch: char)
    ensures var r := Byte(c, log, ch);
            Counts(Counted(c), r) && High(r.core) == High(Counted(c)) && r.core.tally <= Counted(c).tally
    ensures High(c) <= High(Counted(c)) <= High(c) + 1 && Counted(c).tally <= c.tally + 1
  {
    hide StartByte, StatusByte, MethodByte, UrlByte, VersionByte, HeaderByte, ChunkByte, BodyByte;
    var c' := Counted(c);
    match c'.state
    case Start(s) => StartCounts(c', s, log, ch);
    case StatusLine(_) => LineCounts(c', log, ch);
    case InMethod => MethodCounts(c', log, ch);
    case InUrl(s) => UrlCounts(c', s, log, ch);
    case InVersion(_) => LineCounts(c', log, ch);
    case InHeader(s) => HeaderCounts(c', s, log, ch);
    case InChunk(_) => BodyCounts(c', log, ch);
    case InBody(_) => BodyCounts(c', log, ch);
  }

  lemma {:induction false} RunHigh(c: Core, log: seq<Event>, s: string)
    ensures High(Run(c, log, s).core) >= High(c)
    decreases |s|
  {
    hide Byte, High;
    if s != [] {
      ByteCounts(c, log, s[0]);
      var r := Byte(c, log, s[0]);
      if r.end.More? {
        RunHigh(r.core, r.log, s[1..]);
      }
    }
  }

  /** What a stretch of input adds to the count, if it is not cleared. */
  lemma {:induction false} RunTall(c: Core, log: seq<Event>, s: string)
    ensures var c' := Run(c, log, s).core;
            c'.tally <= c.tally + |s| && (High(c') <= High(c) || High(c') <= c.tally + |s|)
    decreases |s|
  {
    hide Byte;
    if s != [] {
      ByteCounts(c, log, s[0]);
      var r := Byte(c, log, s[0]);
      if r.end.More? {
        RunTall(r.core, r.log, s[1..]);
      }
    }
  }

  /** The longest stretch is one that the octets after some prefix have been counted up to. */
  lemma {:induction false} HighReached(c: Core, log: seq<Event>, s: string) returns (k: nat)
    requires High(Run(c, log, s).core) > High(c)
    ensures k < |s| && Run(c, log, s[..k]).end.More?
    ensures Counted(Run(c, log, s[..k]).core).tally == High(Run(c, log, s).core)
    decreases |s|
  {
    hide Byte;
    ByteCounts(c, log, s[0]);
    var r := Byte(c, log, s[0]);
    if High(Run(c, log, s).core) == High(Counted(c)) {
      k := 0;
    } else {
      k := HighReached(r.core, r.log, s[1..]);
      k := k + 1;
      assert s[..k][1..] == s[1..][..k - 1];
    }
  }
}
