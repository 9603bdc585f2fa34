/** Header lines: what a whole line does to the parser. */
module HttpHeaders {
  import opened HttpTypes
  import opened HttpChars
  import opened HttpSpec
  import opened HttpKeywords
  import opened HttpOptions
  import opened HttpLengths
  import opened HttpMethods
  import HttpMarks
  import HttpBulk

  lemma {:induction false} Then(c: Core, log: seq<Event>, a: string, c1: Core, log1: seq<Event>, b: string)
    requires Run(c, log, a) == Result(c1, log1, [], More)
    ensures Run(c, log, a + b) == Run(c1, log1, b)
  {
    hide Run;
    RunConcat(c, log, a, b);
  }

  lemma {:induction false} One(c: Core, log: seq<Event>, ch: char, c1: Core, log1: seq<Event>)
    requires Byte(c, log, ch) == Go(c1, log1)
    ensures Run(c, log, [ch]) == Result(c1, log1, [], More)
  {
    hide Byte, Run;
    RunSnoc(c, log, [], ch);
    RunNothing(c, log);
    assert [] + [ch] == [ch];
  }

  lemma {:induction false} Snoc(
    c: Core, log: seq<Event>, s: string, ch: char, c1: Core, log1: seq<Event>, c2: Core, log2: seq<Event>)
    requires Run(c, log, s) == Result(c1, log1, [], More) && Byte(c1, log1, ch) == Go(c2, log2)
    ensures Run(c, log, s + [ch]) == Result(c2, log2, [], More)
  {
    hide Byte, Run;
    RunSnoc(c, log, s, ch);
  }

  // Names.

  lemma {:induction false} FieldFirst(c: Core, log: seq<Event>, ch: char)
    requires c.state == InHeader(FieldStart) && Token(ch) != '\0'
    ensures Byte(c, log, ch) ==
            Go(c.(tally := c.tally + 1, state := InHeader(Field), index := 0, hstate := FirstField(Token(ch))),
              Say(log, FieldData, ch))
  {
    hide Say, FirstField, EndHeaders;
    assert Token(CR) == '\0' && Token(LF) == '\0';
    hide Token;
  }

  /** header_state at the end of a name is what the name automaton makes of it. */
  lemma {:induction false} FieldRun(c: Core, log: seq<Event>, name: string)
    requires c.state == InHeader(FieldStart) && name != [] && IsToken(name)
    ensures Run(c, log, name) ==
            Result(c.(tally := c.tally + |name|, state := InHeader(Field), hstate := AfterName(name).0,
              index := AfterName(name).1),
                   Push(log, Data(FieldData, name)), [], More)
    decreases |name|
  {
    hide Run, Byte, Push, Say, Token, FirstField, NextField;
    var n := |name| - 1;
    var u, ch := name[..n], name[n];
    assert name == u + [ch];
    if n == 0 {
      assert name == [ch];
      FieldFirst(c, log, ch);
      assert Say(log, FieldData, ch) == Push(log, Data(FieldData, name)) by { SayIsPush(log, FieldData, ch); }
      One(c, log, ch, c.(tally := c.tally + 1, state := InHeader(Field), index := 0, hstate := FirstField(Token(ch))),
        Push(log, Data(FieldData, name)));
    } else {
      FieldRun(c, log, u);
      var (h, i) := AfterName(u);
      var c1 := c.(tally := c.tally + n, state := InHeader(Field), hstate := h, index := i);
      HttpBulk.FieldOctet(c1, Push(log, Data(FieldData, u)), ch);
      HttpMarks.SayOn(log, FieldData, u, ch);
      var (h', i') := NextField(h, i, Token(ch), ch);
      Snoc(c, log, u, ch, c1, Push(log, Data(FieldData, u)), c1.(hstate := h', index := i', tally := c1.tally + 1),
           Push(log, Data(FieldData, name)));
    }
  }

  lemma SayIsPush(log: seq<Event>, k: Channel, ch: char)
    ensures Say(log, k, ch) == Push(log, Data(k, [ch]))
  {
  }

  predicate AllBlank(gap: string) { forall i :: 0 <= i < |gap| ==> IsBlank(gap[i]) }

  lemma {:induction false} ColonAndBlanks(c: Core, log: seq<Event>, gap: string)
    requires c.state == InHeader(Field) && AllBlank(gap)
    ensures Run(c, log, [':'] + gap) ==
            Result(c.(tally := c.tally + 1 + |gap|, state := InHeader(DiscardWs)), log, [], More)
    decreases |gap|
  {
    hide Run, NextField, Say, BeginValue;
    if gap == [] {
      assert Byte(c, log, ':') == Go(c.(tally := c.tally + 1, state := InHeader(DiscardWs)), log);
      hide Byte;
      One(c, log, ':', c.(tally := c.tally + 1, state := InHeader(DiscardWs)), log);
      assert [':'] + [] == [':'];
    } else {
      var n := |gap| - 1;
      ColonAndBlanks(c, log, gap[..n]);
      var c1 := c.(tally := c.tally + 1 + n, state := InHeader(DiscardWs));
      assert Byte(c1, log, gap[n]) == Go(c1.(tally := c1.tally + 1), log);
      hide Byte;
      Snoc(c, log, [':'] + gap[..n], gap[n], c1, log, c1.(tally := c1.tally + 1), log);
      assert [':'] + gap[..n] + [gap[n]] == [':'] + gap;
    }
  }

  // Values.

  predicate IsLineText(v: string) { forall i :: 0 <= i < |v| ==> v[i] != CR && v[i] != LF }

  lemma {:induction false} ValueFirst(c: Core, log: seq<Event>, ch: char)
    requires c.state == InHeader(DiscardWs) && !c.hstate.ContentLength?
    requires !IsBlank(ch) && ch != CR && ch != LF
    ensures Byte(c, log, ch) ==
            Go(c.(tally := c.tally + 1, state := InHeader(HeaderState.Value), index := 0,
              hstate := FirstValue(c.hstate, ch),
                  flags := if c.hstate.Upgrade? then c.flags.(upgrade := true) else c.flags), Say(log, ValueData, ch))
  {
    hide Say, FirstValue;
  }

  lemma {:induction false} ValueNext(c: Core, log: seq<Event>, ch: char)
    requires c.state == InHeader(HeaderState.Value) && !c.hstate.ContentLength? && ch != CR && ch != LF
    ensures var (h, i) := NextValue(c.hstate, c.index, ch);
            Byte(c, log, ch) ==
            Go(c.(tally := c.tally + 1, hstate := h, index := i,
                  flags := if ch == ',' then ConnectionFlags(c.hstate, c.flags) else c.flags), Say(log, ValueData, ch))
  {
    hide Say, NextValue, ConnectionFlags;
  }

  lemma NotLength(h: HState, i: nat, ch: char)
    requires !h.ContentLength?
    ensures !NextValue(h, i, ch).0.ContentLength?
    ensures !FirstValue(h, ch).ContentLength?
  {
  }

  /** The parser at the end of an unfolded value read from c. */
  function AtValue(c: Core, v: string): Core
    requires v != []
  {
    var (h, i, f) := AfterValue(c.hstate, v, if c.hstate.Upgrade? then c.flags.(upgrade := true) else c.flags);
    c.(tally := c.tally + |v|, state := InHeader(HeaderState.Value), hstate := h, index := i, flags := f)
  }

  lemma {:induction false} AtValueSnoc(c: Core, u: string, ch: char)
    requires u != []
    ensures var c1 := AtValue(c, u);
            var (h, i) := NextValue(c1.hstate, c1.index, ch);
            AtValue(c, u + [ch]) ==
            c1.(hstate := h, index := i, tally := c1.tally + 1,
                flags := if ch == ',' then ConnectionFlags(c1.hstate, c1.flags) else c1.flags)
  {
    hide NextValue, FirstValue, ConnectionFlags;
    assert (u + [ch])[..|u|] == u;
  }

  lemma {:induction false} AtValueFirst(c: Core, log: seq<Event>, ch: char)
    requires c.state == InHeader(DiscardWs) && !c.hstate.ContentLength?
    requires !IsBlank(ch) && ch != CR && ch != LF
    ensures Byte(c, log, ch) == Go(AtValue(c, [ch]), Push(log, Data(ValueData, [ch])))
    ensures AtValue(c, [ch]).hstate == FirstValue(c.hstate, ch)
  {
    hide Byte, Push, FirstValue, NextValue, IsBlank;
    ValueFirst(c, log, ch);
  }

  /** header_state and flags at the end of an unfolded value are what the value automaton makes of it. */
  lemma {:induction false} ValueRun(c: Core, log: seq<Event>, v: string)
    requires c.state == InHeader(DiscardWs) && !c.hstate.ContentLength?
    requires v != [] && !IsBlank(v[0]) && IsLineText(v)
    ensures Run(c, log, v) == Result(AtValue(c, v), Push(log, Data(ValueData, v)), [], More)
    ensures AtValue(c, v).state == InHeader(HeaderState.Value) && !AtValue(c, v).hstate.ContentLength?
    decreases |v|
  {
    hide Run, Byte, Push, FirstValue, NextValue, IsBlank, AtValue, ConnectionFlags;
    var n := |v| - 1;
    var u, ch := v[..n], v[n];
    assert v == u + [ch];
    if n == 0 {
      assert v == [ch];
      NotLength(c.hstate, 0, ch);
      AtValueFirst(c, log, ch);
      One(c, log, ch, AtValue(c, v), Push(log, Data(ValueData, v)));
      AtValueState(c, v);
    } else {
      assert u[0] == v[0];
      ValueRun(c, log, u);
      var c1 := AtValue(c, u);
      NotLength(c1.hstate, c1.index, ch);
      AtValueSnoc(c, u, ch);
      ValueNext(c1, Push(log, Data(ValueData, u)), ch);
      HttpMarks.SayOn(log, ValueData, u, ch);
      Snoc(c, log, u, ch, c1, Push(log, Data(ValueData, u)), AtValue(c, v), Push(log, Data(ValueData, v)));
    }
  }

  lemma {:induction false} AtValueState(c: Core, v: string)
    requires v != []
    ensures AtValue(c, v).state == InHeader(HeaderState.Value)
  {
    hide AfterValue;
  }

  // Lines.

  /** The parser about to look at the first octet of a line that does not continue the line before. */
  function AtNewLine(c: Core, log: seq<Event>): (Core, seq<Event>) {
    if c.state == InHeader(ValueLws) then
      (c.(state := InHeader(FieldStart), flags := LineFlags(c.hstate, c.flags)), log)
    else if c.state == InHeader(DiscardLws) then
      (c.(state := InHeader(FieldStart), flags := LineFlags(c.hstate, c.flags)), Push(log, Data(ValueData, [])))
    else (c, log)
  }

  lemma {:induction false} NewLineRun(c: Core, log: seq<Event>, s: string)
    requires s != [] && !IsBlank(s[0])
    ensures var (c', log') := AtNewLine(c, log); Run(c, log, s) == Run(c', log', s) || !Run(c, log, s).end.More?
    ensures var (c', log') := AtNewLine(c, log); Run(c', log', s).end.More? ==> Run(c, log, s) == Run(c', log', s)
  {
    hide Run, Push, BeginField, LineFlags;
    var (c', log') := AtNewLine(c, log);
    assert s[0..] == s;
    RunHere(c, log, s, 0);
    RunHere(c', log', s, 0);
  }

  lemma {:induction false} ValueEnds(c: Core, log: seq<Event>)
    requires c.state == InHeader(HeaderState.Value)
    ensures Run(c, log, "\r\n") == Result(c.(tally := c.tally + 2, state := InHeader(ValueLws)), log, [], More)
  {
    hide Run, NextValue, Say;
    var c1 := c.(tally := c.tally + 1, state := InHeader(AlmostDone));
    assert Byte(c, log, CR) == Go(c1, log);
    assert Byte(c1, log, LF) == Go(c1.(tally := c1.tally + 1, state := InHeader(ValueLws)), log);
    hide Byte;
    One(c, log, CR, c1, log);
    Snoc(c, log, [CR], LF, c1, log, c1.(tally := c1.tally + 1, state := InHeader(ValueLws)), log);
    assert [CR] + [LF] == "\r\n";
  }

  lemma {:induction false} EmptyValueEnds(c: Core, log: seq<Event>)
    requires c.state == InHeader(DiscardWs)
    ensures Run(c, log, "\r\n") == Result(c.(tally := c.tally + 2, state := InHeader(DiscardLws)), log, [], More)
  {
    hide Run, BeginValue;
    var c1 := c.(tally := c.tally + 1, state := InHeader(DiscardWsAlmostDone));
    assert Byte(c, log, CR) == Go(c1, log);
    assert Byte(c1, log, LF) == Go(c1.(tally := c1.tally + 1, state := InHeader(DiscardLws)), log);
    hide Byte;
    One(c, log, CR, c1, log);
    Snoc(c, log, [CR], LF, c1, log, c1.(tally := c1.tally + 1, state := InHeader(DiscardLws)), log);
    assert [CR] + [LF] == "\r\n";
  }

  predicate LineOk(name: string, v: string) {
    name != [] && IsToken(name) && IsLineText(v) && (v != [] ==> !IsBlank(v[0]))
  }

  /** A header line with any blanks between the colon and the value. */
  function GappedLine(name: string, gap: string, v: string): string { name + [':'] + gap + v + "\r\n" }

  function Line(name: string, v: string): string { GappedLine(name, " ", v) }

  predicate IsConnection(name: string) { Tokens(name) == "connection" || Tokens(name) == "proxy-connection" }

  /** The flags a header line stands for. */
  function Effect(name: string, v: string, f: Flags): Flags {
    var w := Tokens(name);
    if w == "transfer-encoding" then f.(chunked := f.chunked || Spells(v, "chunked"))
    else if IsConnection(name) then ListedOptions(v, f)
    else if w == "upgrade" then f.(upgrade := f.upgrade || v != [])
    else f
  }

  /** The flags that the automata set by the end of the line. */
  function Reckoned(h: HState, v: string, f: Flags): Flags {
    if v == [] then LineFlags(h, f)
    else
      var (h', _, g) := AfterValue(h, v, if h.Upgrade? then f.(upgrade := true) else f);
      LineFlags(h', g)
  }

  lemma {:induction false} ReckonedChunked(v: string, f: Flags)
    requires v != []
    ensures Reckoned(TransferEncoding, v, f) == f.(chunked := f.chunked || Spells(v, "chunked"))
  {
    hide AfterValue, Spells;
    ChunkedRecognised(v, f);
    var (h, _, g) := AfterValue(TransferEncoding, v, f);
    assert Reckoned(TransferEncoding, v, f) == LineFlags(h, g);
  }

  lemma {:induction false} ReckonedConnection(v: string, f: Flags)
    requires v != []
    ensures Reckoned(Connection, v, f) == ListedOptions(v, f)
  {
    hide AfterValue, ListedOptions;
    OptionsRecognised(v, f);
  }

  lemma {:induction false} ReckonedOther(h: HState, v: string, f: Flags)
    requires v != [] && IsFieldState(h) && !h.Connection? && !h.ContentLength? && !h.TransferEncoding?
    ensures Reckoned(h, v, f) == if h.Upgrade? then f.(upgrade := true) else f
  {
    hide AfterValue;
    CommalessValue(h, v, if h.Upgrade? then f.(upgrade := true) else f);
  }

  lemma NoValueSpells(k: string)
    requires k != []
    ensures !Spells("", k)
  {
  }

  lemma {:induction false} NoOptions(f: Flags)
    ensures ListedOptions("", f) == f
  {
    NothingSpells(f);
  }

  lemma {:induction false} ReckonedIsEffect(name: string, v: string, f: Flags)
    requires name != [] && IsToken(name) && Tokens(name) != "content-length"
    ensures Reckoned(AfterName(name).0, v, f) == Effect(name, v, f)
    ensures !AfterName(name).0.ContentLength?
  {
    hide Reckoned, Spells, AfterName, Tokens, ListedOptions;
    NamesRecognised(name);
    FieldStates(name);
    var h := AfterName(name).0;
    if v == [] {
      NoValueSpells("chunked");
      NoOptions(f);
      ReckonedNothing(h, f);
    } else if h.TransferEncoding? {
      ReckonedChunked(v, f);
    } else if h.Connection? {
      ReckonedConnection(v, f);
    } else {
      ReckonedOther(h, v, f);
    }
  }

  lemma ReckonedNothing(h: HState, f: Flags)
    requires IsFieldState(h)
    ensures Reckoned(h, [], f) == f
  {
  }

  lemma {:induction false} FieldStates(name: string)
    requires name != [] && IsToken(name)
    ensures IsFieldState(AfterName(name).0)
  {
    hide Meaning;
    NameMeans(name);
    ShortWhileCounting(Tokens(name));
  }

  /** The fields a header line cannot touch. */
  predicate SameBut(c: Core, c': Core, f: Flags, n: nat) {
    && c'.state == InHeader(FieldStart) && c'.flags == f && c'.length == n
    && c'.kind == c.kind && c'.major == c.major && c'.minor == c.minor && c'.verb == c.verb && c'.status == c.status
    && c'.upgrade == c.upgrade
  }

  lemma {:induction false} ValuePart(c: Core, log: seq<Event>, v: string)
    requires c.state == InHeader(DiscardWs) && IsFieldState(c.hstate) && !c.hstate.ContentLength?
    requires IsLineText(v) && (v != [] ==> !IsBlank(v[0]))
    ensures var r := Run(c, log, v + "\r\n");
            var (c', log') := AtNewLine(r.core, r.log);
            && r.end.More? && r.rest == [] && log' == Push(log, Data(ValueData, v))
            && SameBut(c, c', Reckoned(c.hstate, v, c.flags), c.length)
  {
    hide Run, Push, AfterValue, FirstValue, LineFlags;
    if v == [] {
      EmptyValueEnds(c, log);
      assert v + "\r\n" == "\r\n";
    } else {
      ValueRun(c, log, v);
      Then(c, log, v, AtValue(c, v), Push(log, Data(ValueData, v)), "\r\n");
      ValueEnds(AtValue(c, v), Push(log, Data(ValueData, v)));
    }
  }

  /** The name, the colon and the blanks after it. */
  lemma {:induction false} NameRun(c: Core, log: seq<Event>, name: string, gap: string, rest: string)
    requires c.state == InHeader(FieldStart) && name != [] && IsToken(name) && AllBlank(gap)
    ensures Run(c, log, name + [':'] + gap + rest) ==
            Run(c.(tally := c.tally + |name| + 1 + |gap|, state := InHeader(DiscardWs), hstate := AfterName(name).0,
                   index := AfterName(name).1), Push(log, Data(FieldData, name)), rest)
  {
    hide Run, Push, AfterName, AllBlank, IsToken;
    FieldRun(c, log, name);
    var (h, i) := AfterName(name);
    var log1 := Push(log, Data(FieldData, name));
    var c1 := c.(tally := c.tally + |name|, state := InHeader(Field), hstate := h, index := i);
    var c2 := c1.(tally := c1.tally + 1 + |gap|, state := InHeader(DiscardWs));
    ColonAndBlanks(c1, log1, gap);
    assert name + [':'] + gap + rest == name + ([':'] + gap + rest);
    Then(c, log, name, c1, log1, [':'] + gap + rest);
    Then(c1, log1, [':'] + gap, c2, log1, rest);
  }

  /** What a header line does: it is reported, and it sets exactly the flags it stands for. */
  lemma {:induction false} LineMeans(c: Core, log: seq<Event>, name: string, gap: string, v: string)
    requires c.state == InHeader(FieldStart) && LineOk(name, v) && AllBlank(gap) && Tokens(name) != "content-length"
    ensures var r := Run(c, log, GappedLine(name, gap, v));
            var (c', log') := AtNewLine(r.core, r.log);
            && r.end.More? && r.rest == []
            && log' == Push(Push(log, Data(FieldData, name)), Data(ValueData, v))
            && SameBut(c, c', Effect(name, v, c.flags), c.length)
  {
    hide Run, Push, AfterName, Tokens, Effect, Reckoned, AtNewLine, IsBlank, AllBlank, IsToken;
    FieldStates(name);
    ReckonedIsEffect(name, v, c.flags);
    NameRun(c, log, name, gap, v + "\r\n");
    var (h, i) := AfterName(name);
    var log1 := Push(log, Data(FieldData, name));
    var c2 := c.(tally := c.tally + |name| + 1 + |gap|, state := InHeader(DiscardWs), hstate := h, index := i);
    assert GappedLine(name, gap, v) == name + [':'] + gap + (v + "\r\n");
    ValuePart(c2, log1, v);
  }

  /** A Content-Length line gives the message its length. */
  lemma {:induction false} LengthLine(c: Core, log: seq<Event>, name: string, gap: string, v: string)
    requires c.state == InHeader(FieldStart) && name != [] && IsToken(name) && Tokens(name) == "content-length"
    requires AllBlank(gap) && IsLengthText(v)
    ensures Digits(v) != []
    ensures var r := Run(c, log, GappedLine(name, gap, v));
            if Number(10, ButLast(Digits(v))) <= Limit(10) then
              var (c', log') := AtNewLine(r.core, r.log);
              && r.end.More? && r.rest == []
              && log' == Push(Push(log, Data(FieldData, name)), Data(ValueData, v))
              && SameBut(c, c', c.flags, Number(10, Digits(v))) && Number(10, Digits(v)) != NO_LENGTH
            else r.end == Failed(InvalidContentLength)
  {
    hide Run, Push, AfterName, Tokens, AtNewLine, Digits, Number, Limit, IsLengthText, AllBlank, IsToken;
    NamesRecognised(name);
    NameRun(c, log, name, gap, v + "\r\n");
    var (h, i) := AfterName(name);
    var log1 := Push(log, Data(FieldData, name));
    var c2 := c.(tally := c.tally + |name| + 1 + |gap|, state := InHeader(DiscardWs), hstate := h, index := i);
    assert GappedLine(name, gap, v) == name + [':'] + gap + (v + "\r\n");
    ContentLengthExact(c2, log1, v);
    RunConcat(c2, log1, v, "\r\n");
    var r := Run(c2, log1, v);
    if Number(10, ButLast(Digits(v))) <= Limit(10) {
      ValueEnds(r.core, r.log);
      LengthSettles(c, r.core, r.log);
    }
  }

  lemma LengthSettles(c0: Core, c: Core, log: seq<Event>)
    requires c.state == InHeader(HeaderState.Value) && c.hstate.ContentLength? && SameRest(c0, c)
    requires c.status == c0.status && c.upgrade == c0.upgrade
    ensures var (c', log') := AtNewLine(c.(tally := c.tally + 2, state := InHeader(ValueLws)), log);
            log' == log && SameBut(c0, c', c0.flags, c.length)
  {
  }
}
