/** What makes up a message besides its first line: header lines, the empty line, and the bodies. */
module HttpFraming {
  import opened HttpTypes
  import opened HttpChars
  import opened HttpSpec
  import opened HttpInvariant
  import opened HttpKeywords
  import opened HttpOptions
  import opened HttpLengths
  import opened HttpMessages
  import opened HttpHeaders
  import opened HttpCount
  import HttpMethods
  import HttpBulk
  import opened Common

  /** A header that does not say how the body is framed. */
  predicate Plain(h: Header) {
    LineOk(h.name, h.value) && Tokens(h.name) != "content-length" && Tokens(h.name) != "transfer-encoding"
  }

  predicate AllPlain(hs: seq<Header>) { forall i :: 0 <= i < |hs| ==> Plain(hs[i]) }

  function Lines(hs: seq<Header>): string {
    if hs == [] then [] else Lines(hs[..|hs| - 1]) + Line(hs[|hs| - 1].name, hs[|hs| - 1].value)
  }

  /** The flags that a list of headers stands for. */
  function Effects(hs: seq<Header>, f: Flags): Flags {
    if hs == [] then f
    else Effect(hs[|hs| - 1].name, hs[|hs| - 1].value, Effects(hs[..|hs| - 1], f))
  }

  /** A chunk is not empty and its length can be written as a chunk size. */
  predicate ChunkOk(chunk: string) { chunk != [] && |chunk| / 16 <= Limit(16) }

  predicate ChunksOk(chunks: seq<string>) { forall i :: 0 <= i < |chunks| ==> ChunkOk(chunks[i]) }

  /** One chunk: section 3.6.1 of RFC 2616. */
  function ChunkText(chunk: string): string { Written(16, |chunk|) + "\r\n" + chunk + "\r\n" }

  function Coded(chunks: seq<string>): string {
    if chunks == [] then [] else Coded(chunks[..|chunks| - 1]) + ChunkText(chunks[|chunks| - 1])
  }

  /** A whole chunked body: the chunks, the chunk of size 0, the trailer and the empty line. */
  function CodedBody(chunks: seq<string>, trailers: seq<Header>): string {
    Coded(chunks) + "0\r\n" + Lines(trailers) + "\r\n"
  }

  // Header lines.

  predicate Ready(log: seq<Event>) { !LastSpoke(log, FieldData) }

  lemma {:induction false} HeaderPushed(log: seq<Event>, h: Header)
    requires Ready(log)
    ensures Push(Push(log, Data(FieldData, h.name)), Data(ValueData, h.value))
         == log + [Data(FieldData, h.name), Data(ValueData, h.value)]
    ensures Ready(log + [Data(FieldData, h.name), Data(ValueData, h.value)])
  {
    PushNew(log, Data(FieldData, h.name));
    PushAfter(log, Data(FieldData, h.name), Data(ValueData, h.value));
    var e := [Data(FieldData, h.name)] + [Data(ValueData, h.value)];
    assert log + [Data(FieldData, h.name)] + [Data(ValueData, h.value)] == log + e;
  }

  lemma {:induction false} PlainEffect(h: Header, f: Flags)
    requires Plain(h)
    ensures var g := Effect(h.name, h.value, f); g.chunked == f.chunked && g.trailing == f.trailing
  {
    hide Tokens, ListedOptions;
    OptionsKeep(h.value, f);
  }

  /** Plain headers leave the framing alone. */
  lemma {:induction false} PlainEffects(hs: seq<Header>, f: Flags)
    requires AllPlain(hs)
    ensures Effects(hs, f).chunked == f.chunked && Effects(hs, f).trailing == f.trailing
    decreases |hs|
  {
    hide Plain, Effect;
    if hs != [] {
      var n := |hs| - 1;
      assert Plain(hs[n]);
      PlainEffects(hs[..n], f);
      PlainEffect(hs[n], Effects(hs[..n], f));
    }
  }

  lemma {:induction false} LineStarts(h: Header)
    requires h.name != [] && IsToken(h.name)
    ensures Line(h.name, h.value) != [] && !IsBlank(Line(h.name, h.value)[0])
  {
    assert Line(h.name, h.value)[0] == h.name[0];
    assert Token(' ') == '\0' && Token('\t') == '\0';
  }

  /** The lines so far have been read from c, and nothing but the header list has come of them. */
  predicate LinesRead(c: Core, log: seq<Event>, r: Result, hs: seq<Header>, f: Flags, n: nat) {
    var (c', log') := AtNewLine(r.core, r.log);
    && r.end.More? && r.rest == [] && SameBut(c, c', f, n)
    && log' == log + HeaderEvents(hs) && Ready(log')
  }

  /** One more line. */
  lemma {:induction false} MoreLine(
    c: Core, log: seq<Event>, text: string, hs: seq<Header>, f: Flags, n: nat, h: Header, f': Flags, n': nat)
    requires LinesRead(c, log, Run(c, log, text), hs, f, n) && h.name != [] && IsToken(h.name)
    requires forall c1: Core, log1: seq<Event> :: SameBut(c, c1, f, n) ==>
               var r := Run(c1, log1, Line(h.name, h.value));
               var (c', log') := AtNewLine(r.core, r.log);
               r.end.More? && r.rest == []
                 && log' == Push(Push(log1, Data(FieldData, h.name)), Data(ValueData, h.value))
               && SameBut(c1, c', f', n')
    ensures LinesRead(c, log, Run(c, log, text + Line(h.name, h.value)), hs + [h], f', n')
  {
    hide Run, Push, Line, AtNewLine, IsToken, IsBlank, HeaderEvents, Ready;
    var r := Run(c, log, text);
    var (c1, log1) := AtNewLine(r.core, r.log);
    RunConcat(c, log, text, Line(h.name, h.value));
    LineStarts(h);
    NewLineRun(r.core, r.log, Line(h.name, h.value));
    HeaderPushed(log1, h);
    HeadersEnd(hs, h);
    assert log + HeaderEvents(hs) + [Data(FieldData, h.name), Data(ValueData, h.value)] == log + HeaderEvents(hs + [h]);
  }

  lemma {:induction false} PlainLine(c: Core, log: seq<Event>, h: Header)
    requires c.state == InHeader(FieldStart) && Plain(h)
    ensures var r := Run(c, log, Line(h.name, h.value));
            var (c', log') := AtNewLine(r.core, r.log);
            && r.end.More? && r.rest == []
            && log' == Push(Push(log, Data(FieldData, h.name)), Data(ValueData, h.value))
            && SameBut(c, c', Effect(h.name, h.value, c.flags), c.length)
  {
    hide Run, Push, AtNewLine, LineOk, Tokens, Effect, GappedLine;
    LineMeans(c, log, h.name, " ", h.value);
  }

  /** Header lines are reported, and they set exactly the flags they stand for. */
  lemma {:induction false} HeadersRun(c: Core, log: seq<Event>, hs: seq<Header>)
    requires c.state == InHeader(FieldStart) && AllPlain(hs) && Ready(log)
    ensures LinesRead(c, log, Run(c, log, Lines(hs)), hs, Effects(hs, c.flags), c.length)
    decreases |hs|
  {
    hide Run, Push, Line, AtNewLine, LineOk, Tokens, HeaderEvents, Effect, Ready, SameBut;
    if hs == [] {
      HttpMethods.RunNothing(c, log);
      HeadersNone();
      NewLineStart(c, log);
      assert log + [] == log;
    } else {
      var n := |hs| - 1;
      var u, h := hs[..n], hs[n];
      assert Plain(h) && AllPlain(u);
      HeadersRun(c, log, u);
      var f := Effects(u, c.flags);
      forall c1: Core, log1: seq<Event> | SameBut(c, c1, f, c.length)
        ensures var r := Run(c1, log1, Line(h.name, h.value));
                var (c', log') := AtNewLine(r.core, r.log);
                r.end.More? && r.rest == []
                  && log' == Push(Push(log1, Data(FieldData, h.name)), Data(ValueData, h.value))
                && SameBut(c1, c', Effects(hs, c.flags), c.length)
      {
        SameStart(c, c1, f, c.length);
        PlainLine(c1, log1, h);
      }
      LineParts(h.name, h.value);
      MoreLine(c, log, Lines(u), u, f, c.length, h, Effects(hs, c.flags), c.length);
      assert hs == u + [h];
    }
  }

  lemma LineParts(name: string, v: string)
    requires LineOk(name, v)
    ensures name != [] && IsToken(name)
  {
  }

  lemma NewLineStart(c: Core, log: seq<Event>)
    requires c.state == InHeader(FieldStart)
    ensures AtNewLine(c, log) == (c, log) && SameBut(c, c, c.flags, c.length)
  {
  }

  lemma SameStart(c: Core, c': Core, f: Flags, n: nat)
    requires SameBut(c, c', f, n)
    ensures c'.state == InHeader(FieldStart) && c'.flags == f && c'.length == n
  {
  }

  lemma {:induction false} AfterLines(
    c: Core, log: seq<Event>, text: string, hs: seq<Header>, f: Flags, n: nat, s: string)
    returns (c': Core, log': seq<Event>)
    requires LinesRead(c, log, Run(c, log, text), hs, f, n) && s != [] && !IsBlank(s[0])
    ensures Run(c', log', s).end.More? ==> Run(c, log, text + s) == Run(c', log', s)
    ensures SameBut(c, c', f, n) && log' == log + HeaderEvents(hs)
  {
    hide Run, Push, AtNewLine, HeaderEvents, Ready;
    var r := Run(c, log, text);
    c', log' := AtNewLine(r.core, r.log).0, AtNewLine(r.core, r.log).1;
    Then(c, log, text, r.core, r.log, s);
    NewLineRun(r.core, r.log, s);
  }

  // The empty line.

  lemma {:induction false} LineFeedAfterHeaders(c: Core, log: seq<Event>)
    requires c.state == InHeader(HeadersAlmostDone) && !c.flags.trailing
    ensures Byte(c, log, LF) ==
            OpenBody(Cleared(c.(tally := c.tally + 1)).(state := InHeader(HeaderState.HeadersDone),
              upgrade := WantsUpgrade(c)),
                     log + [HeadersComplete])
  {
    hide OpenBody, WantsUpgrade;
    var c1 := c.(tally := c.tally + 1);
    assert WantsUpgrade(c1) == WantsUpgrade(c) by {
      WantsSame(c, c1);
    }
    assert Push(log, HeadersComplete) == log + [HeadersComplete];
  }

  lemma WantsSame(c: Core, c': Core)
    requires c.flags == c'.flags && c.verb == c'.verb
    ensures WantsUpgrade(c) == WantsUpgrade(c')
  {
  }

  /** The empty line after the headers reports them complete and opens the body. */
  lemma {:induction false} HeadersDone(c: Core, log: seq<Event>) returns (c': Core)
    requires c.state == InHeader(FieldStart) && !c.flags.trailing
    ensures c' ==
            Cleared(c.(tally := c.tally + 2)).(state := InHeader(HeaderState.HeadersDone), upgrade := WantsUpgrade(c))
    ensures var r := OpenBody(c', log + [HeadersComplete]);
            !r.end.Failed? && Run(c, log, "\r\n") == Result(r.core, r.log, [], r.end)
  {
    hide Run, FirstField, Token, WantsUpgrade, Complete, NeedsEof;
    var c1 := c.(tally := c.tally + 1, state := InHeader(HeadersAlmostDone));
    c' := Cleared(c.(tally := c.tally + 2)).(state := InHeader(HeaderState.HeadersDone), upgrade := WantsUpgrade(c));
    assert Byte(c, log, CR) == Go(c1, log);
    LineFeedAfterHeaders(c1, log);
    WantsSame(c, c1);
    OpenEnds(c', log + [HeadersComplete]);
    hide Byte, OpenBody;
    One(c, log, CR, c1, log);
    RunSnoc(c, log, [CR], LF);
    assert [CR] + [LF] == "\r\n";
  }

  lemma {:induction false} OpenEnds(c: Core, log: seq<Event>)
    ensures !OpenBody(c, log).end.Failed?
  {
    hide Push, NewMessage, NeedsEof;
  }

  /** Which message comes next does not depend on where this one was. */
  lemma NextSame(c: Core, c': Core)
    requires c.kind == c'.kind && c.flags == c'.flags && c.major == c'.major && c.minor == c'.minor
    requires c.status == c'.status && c.length == c'.length
    ensures NewMessage(c) == NewMessage(c')
  {
  }

  // Bodies.

  lemma {:induction false} MessageDoneByte(c: Core, log: seq<Event>, ch: char)
    requires c.state == InBody(MessageDone)
    ensures Byte(c, log, ch) == Go(c.(state := NewMessage(c)), log + [MessageComplete])
  {
    hide NewMessage;
    assert Push(log, MessageComplete) == log + [MessageComplete];
  }

  /** An identity body: exactly Content-Length octets are delivered, then the message is complete. */
  lemma {:induction false} IdentityBody(c: Core, log: seq<Event>, bytes: string)
    requires c.state == InBody(Identity) && bytes != [] && c.length == |bytes| && !LastSpoke(log, BodyData)
    ensures Run(c, log, bytes) ==
            Result(c.(length := 0, state := NewMessage(c.(length := 0))),
                   log + [Data(BodyData, bytes), MessageComplete], [], More)
  {
    hide Run, Byte, NewMessage;
    var n := |bytes|;
    HttpBulk.IdentityEnds(c, log, bytes, 0, n);
    assert bytes[0..] == bytes && bytes[0..n] == bytes && bytes[n..] == [];
    var c1, log1 := c.(state := InBody(MessageDone), length := 0), Push(log, Data(BodyData, bytes));
    RunHere(c1, log1, bytes, n - 1);
    MessageDoneByte(c1, log1, bytes[n - 1]);
    NextSame(c1, c.(length := 0));
    HttpMethods.RunNothing(c1.(state := NewMessage(c1)), log1 + [MessageComplete]);
    PushNew(log, Data(BodyData, bytes));
    var e := [Data(BodyData, bytes)] + [MessageComplete];
    assert log + [Data(BodyData, bytes)] + [MessageComplete] == log + e;
  }

  lemma {:induction false} SizeLineEnds(c: Core, log: seq<Event>)
    requires c.state == InChunk(ChunkState.Size)
    ensures Run(c, log, "\r\n") ==
            Result(if c.length == 0 then
              Cleared(c.(tally := c.tally + 2)).(flags := c.flags.(trailing := true), state := InHeader(FieldStart))
                   else Cleared(c.(tally := c.tally + 2)).(state := InChunk(ChunkData)), log, [], More)
  {
    hide Run;
    var c1 := c.(tally := c.tally + 1, state := InChunk(SizeAlmostDone));
    assert Byte(c, log, CR) == Go(c1, log);
    var c2 := if c.length == 0 then
      Cleared(c.(tally := c.tally + 2)).(flags := c.flags.(trailing := true), state := InHeader(FieldStart))
              else Cleared(c.(tally := c.tally + 2)).(state := InChunk(ChunkData));
    assert Byte(c1, log, LF) == Go(c2, log);
    hide Byte;
    One(c, log, CR, c1, log);
    Snoc(c, log, [CR], LF, c1, log, c2, log);
    assert [CR] + [LF] == "\r\n";
  }

  lemma {:induction false} ChunkDataEnds(c: Core, log: seq<Event>)
    requires c.state == InChunk(DataAlmostDone)
    ensures Run(c, log, "\r\n") == Result(Cleared(c).(state := InChunk(ChunkState.SizeStart)), log, [], More)
  {
    hide Run;
    var c1 := c.(state := InChunk(DataDone));
    assert Byte(c, log, CR) == Go(c1, log);
    var c2 := Cleared(c).(state := InChunk(ChunkState.SizeStart));
    assert Byte(c1, log, LF) == Go(c2, log);
    hide Byte;
    One(c, log, CR, c1, log);
    Snoc(c, log, [CR], LF, c1, log, c2, log);
    assert [CR] + [LF] == "\r\n";
  }

  /** What the octets of a chunked body may add to the longest stretch: a size of sixteen digits and its line end. */
  const SIZE_LINE: nat := 18

  predicate Calm(c: Core, c': Core, n: nat) {
    c'.tally == 0 && (High(c') <= High(c) || High(c') <= n)
  }

  lemma {:induction false} SizeText(chunk: string)
    requires ChunkOk(chunk)
    ensures |Written(16, |chunk|)| <= 16
  {
    hide Written, Power;
    SixteenDigits();
    WrittenShort(|chunk|, 16);
  }

  lemma ClearedHigh(c: Core, f: Flags, s: State)
    ensures var c' := Cleared(c).(flags := f, state := s); c'.tally == 0 && High(c') == High(c)
    ensures c.tally == 0 ==> High(c.(flags := f, state := s, length := 0)) == High(c)
  {
  }

  /** A chunk is delivered as it is. */
  lemma {:induction false} ChunkRun(c: Core, log: seq<Event>, chunk: string)
    requires c.state == InChunk(ChunkState.SizeStart) && ChunkOk(chunk) && c.tally == 0
    ensures var r := Run(c, log, ChunkText(chunk));
            && r.end.More? && r.rest == [] && r.log == Push(log, Data(BodyData, chunk))
            && r.core.state == InChunk(ChunkState.SizeStart) && SameRest(c, r.core) && Calm(c, r.core, SIZE_LINE)
  {
    hide Run, Push, Limit, Number, Written, IsHexadecimal, High;
    var n := |chunk|;
    var ds := Written(16, n);
    WrittenOk(16, n);
    SizeText(chunk);
    ChunkSizeExact(c, log, ds);
    var r := Run(c, log, ds);
    Then(c, log, ds, r.core, log, "\r\n");
    SizeLineEnds(r.core, log);
    var c1 := Cleared(r.core.(tally := r.core.tally + 2)).(state := InChunk(ChunkData));
    RunTall(c, log, ds + "\r\n");
    Then(c, log, ds + "\r\n", c1, log, chunk);
    HttpBulk.ChunkEnds(c1, log, chunk, 0, n);
    assert chunk[0..] == chunk && chunk[0..n] == chunk && chunk[n..] == [];
    var c2, log2 := c1.(state := InChunk(DataAlmostDone), length := 0), Push(log, Data(BodyData, chunk));
    HttpMethods.RunNothing(c2, log2);
    Then(c, log, ds + "\r\n" + chunk, c2, log2, "\r\n");
    ChunkDataEnds(c2, log2);
    ClearedHigh(c1, c1.flags, InChunk(DataAlmostDone));
    ClearedHigh(c2, c2.flags, InChunk(ChunkState.SizeStart));
  }

  /** The chunks come out joined. */
  lemma {:induction false} CodedRun(c: Core, log: seq<Event>, chunks: seq<string>)
    requires c.state == InChunk(ChunkState.SizeStart) && ChunksOk(chunks) && !LastSpoke(log, BodyData) && c.tally == 0
    ensures var r := Run(c, log, Coded(chunks));
            && r.end.More? && r.rest == [] && r.log == log + BodyEvents(Concat(chunks))
            && r.core.state == InChunk(ChunkState.SizeStart) && SameRest(c, r.core) && Calm(c, r.core, SIZE_LINE)
            && (chunks != [] ==> Concat(chunks) != [])
    decreases |chunks|
  {
    hide Run, ChunkText, LastSpoke, Push, ChunkOk, High;
    if chunks == [] {
      HttpMethods.RunNothing(c, log);
      assert log + [] == log;
    } else {
      var n := |chunks| - 1;
      var u, chunk := chunks[..n], chunks[n];
      assert ChunkOk(chunk) && ChunksOk(u);
      CodedRun(c, log, u);
      var r := Run(c, log, Coded(u));
      Then(c, log, Coded(u), r.core, r.log, ChunkText(chunk));
      ChunkRun(r.core, r.log, chunk);
      ChunkNotEmpty(chunk);
      ConcatSnoc(u, chunk);
      assert chunks == u + [chunk];
      MoreBody(log, Concat(u), chunk);
    }
  }

  lemma ChunkNotEmpty(chunk: string)
    requires ChunkOk(chunk)
    ensures chunk != []
  {
  }

  lemma {:induction false} MoreBody(log: seq<Event>, body: string, chunk: string)
    requires !LastSpoke(log, BodyData) && chunk != []
    ensures Push(log + BodyEvents(body), Data(BodyData, chunk)) == log + BodyEvents(body + chunk)
  {
    if body == [] {
      assert log + [] == log && body + chunk == chunk;
    } else {
      PushOn(log, BodyData, body, chunk);
    }
  }

  /** The chunk of size 0 opens the trailer. */
  lemma {:induction false} LastChunk(c: Core, log: seq<Event>)
    requires c.state == InChunk(ChunkState.SizeStart) && c.tally == 0
    ensures var r := Run(c, log, "0\r\n");
            && r.end.More? && r.rest == [] && r.log == log && Calm(c, r.core, SIZE_LINE) && r.core.length == 0
            && r.core.state == InHeader(FieldStart) && SameRest(c.(flags := c.flags.(trailing := true)), r.core)
  {
    hide Run, Unhex, Limit, Number, High;
    DigitOfOk(0);
    HttpLengths.SizeStart(c, log, '0');
    var r := Run(c, log, ['0']);
    Then(c, log, ['0'], r.core, log, "\r\n");
    SizeLineEnds(r.core, log);
    assert ['0'] + "\r\n" == "0\r\n";
    RunTall(c, log, "0\r\n");
  }

  /** The empty line after the trailer completes the message. */
  lemma {:induction false} TrailerEnds(c: Core, log: seq<Event>)
    requires c.state == InHeader(FieldStart) && c.flags.trailing
    ensures Run(c, log, "\r\n") ==
            Result(c.(tally := c.tally + 2, state := NewMessage(c)), log + [MessageComplete], [], More)
  {
    hide Run, FirstField, LastSpoke, Token, StartBody, NewMessage;
    var c1 := c.(tally := c.tally + 1, state := InHeader(HeadersAlmostDone));
    var c2 := c.(tally := c.tally + 2, state := InHeader(HeadersAlmostDone));
    assert Byte(c, log, CR) == Go(c1, log);
    assert Byte(c1, log, LF) == Complete(c2, log);
    assert Push(log, MessageComplete) == log + [MessageComplete];
    NextSame(c, c2);
    hide Byte;
    One(c, log, CR, c1, log);
    Snoc(c, log, [CR], LF, c1, log, c2.(state := NewMessage(c)), log + [MessageComplete]);
    assert [CR] + [LF] == "\r\n";
  }

  /** A chunked body with its trailer, whatever message it belongs to: the chunks come out joined, the
      trailer is reported, and the message is complete.  What follows is what the trailer leaves to follow. */
  lemma {:induction false} ChunkedBody(c: Core, log: seq<Event>, chunks: seq<string>, trailers: seq<Header>)
    requires c.state == InChunk(ChunkState.SizeStart) && !LastSpoke(log, BodyData) && Ready(log) && c.tally == 0
    requires ChunksOk(chunks) && AllPlain(trailers)
    ensures var r := Run(c, log, CodedBody(chunks, trailers));
            && r.end.More? && r.rest == []
            && r.log == log + BodyEvents(Concat(chunks)) + HeaderEvents(trailers) + [MessageComplete]
            && SameRest(c.(flags := Effects(trailers, c.flags.(trailing := true))), r.core) && r.core.length == 0
            && r.core.state == NewMessage(r.core)
            && r.core.tally == |Lines(trailers)| + 2
            && (High(r.core) <= High(c) || High(r.core) <= SIZE_LINE || High(r.core) <= |Lines(trailers)| + 2)
  {
    hide Run, Coded, Lines, Concat, HeaderEvents, LastSpoke, AllPlain, ChunksOk, LinesRead, AtNewLine, Effects, High;
    hide NewMessage;
    CodedRun(c, log, chunks);
    var r1 := Run(c, log, Coded(chunks));
    Then(c, log, Coded(chunks), r1.core, r1.log, "0\r\n");
    LastChunk(r1.core, r1.log);
    var r2 := Run(r1.core, r1.log, "0\r\n");
    var text := Lines(trailers) + "\r\n";
    Then(c, log, Coded(chunks) + "0\r\n", r2.core, r2.log, text);
    assert Coded(chunks) + "0\r\n" + text == CodedBody(chunks, trailers);
    ReadyAfterBody(log, Concat(chunks));
    TrailerRun(r2.core, r2.log, trailers);
  }

  /** The trailer and the empty line after it. */
  lemma {:induction false} TrailerRun(c: Core, log: seq<Event>, trailers: seq<Header>)
    requires c.state == InHeader(FieldStart) && c.flags.trailing && c.tally == 0 && c.length == 0
    requires Ready(log) && AllPlain(trailers)
    ensures var r := Run(c, log, Lines(trailers) + "\r\n");
            && r.end.More? && r.rest == [] && r.log == log + HeaderEvents(trailers) + [MessageComplete]
            && SameRest(c.(flags := Effects(trailers, c.flags)), r.core) && r.core.length == 0
            && r.core.state == NewMessage(r.core)
            && r.core.tally == |Lines(trailers)| + 2
            && (High(r.core) <= High(c) || High(r.core) <= |Lines(trailers)| + 2)
  {
    hide Run, Lines, HeaderEvents, AllPlain, LinesRead, AtNewLine, Effects, High, NewMessage, Ready;
    HeadersRun(c, log, trailers);
    PlainEffects(trailers, c.flags);
    var c', log' := AfterLines(c, log, Lines(trailers), trailers, Effects(trailers, c.flags), c.length, "\r\n");
    TrailerEnds(c', log');
    NextSame(c', c'.(tally := c'.tally + 2, state := NewMessage(c')));
    RunTall(c, log, Lines(trailers) + "\r\n");
    TrailerSections(log, trailers);
    RunStays(c, log, Lines(trailers) + "\r\n");
  }

  lemma {:induction false} TrailerSections(log: seq<Event>, trailers: seq<Header>)
    ensures Sections(log + HeaderEvents(trailers) + [MessageComplete]) == Sections(log)
  {
    hide Sections, HeaderEvents;
    HeadersSections(trailers);
    SectionsConcat(log, HeaderEvents(trailers));
    SectionsSnoc(log + HeaderEvents(trailers), MessageComplete);
  }

  lemma {:induction false} ReadyAfterBody(log: seq<Event>, body: string)
    requires Ready(log)
    ensures Ready(log + BodyEvents(body))
  {
    if body == [] {
      assert log + [] == log;
    }
  }
}
