/** How header octets are counted: every one of them, until the headers are complete. */
module HttpCount {
  import opened HttpTypes
  import opened HttpChars
  import opened HttpSpec
  import opened HttpMessages

  /** The states before the headers are complete, and those of a trailer. */
  predicate InHead(s: State) { !s.InBody? && !s.InChunk? && s != InHeader(HeadersDone) }

  /** How many header sections have been reported complete. */
  function Sections(log: seq<Event>): nat {
    if log == [] then 0 else Sections(log[..|log| - 1]) + if log[|log| - 1].HeadersComplete? then 1 else 0
  }

  lemma {:induction false} SectionsSnoc(log: seq<Event>, e: Event)
    ensures Sections(log + [e]) == Sections(log) + if e.HeadersComplete? then 1 else 0
  {
    assert (log + [e])[..|log|] == log;
  }

  lemma {:induction false} SectionsPush(log: seq<Event>, e: Event)
    ensures Sections(Push(log, e)) == Sections(log) + if e.HeadersComplete? then 1 else 0
  {
    SectionsSnoc(log, e);
    if log != [] && e.Data? && log[|log| - 1].Data? {
      SectionsSnoc(log[..|log| - 1], Data(e.channel, log[|log| - 1].bytes + e.bytes));
    }
  }

  /** A step forgets no section, and if none is completed the count stays as it is. */
  predicate Stays(c: Core, log: seq<Event>, r: Step) {
    Sections(r.log) >= Sections(log)
    && (InHead(c.state) && r.end.More? && Sections(r.log) == Sections(log) ==>
          InHead(r.core.state) && r.core.tally == c.tally && r.core.peak == c.peak)
  }

  lemma {:induction false} SectionsSay(log: seq<Event>, k: Channel, ch: char)
    ensures Sections(Say(log, k, ch)) == Sections(log)
  {
    hide Push, Sections;
    SectionsPush(log, Data(k, [ch]));
  }

  lemma {:induction false} LineStays(c: Core, log: seq<Event>, ch: char)
    requires c.state.Start? || c.state.StatusLine? || c.state.InMethod?
    ensures Stays(c, log, Dispatch(c, log, ch))
  {
    hide HeaderByte, UrlByte, VersionByte, ChunkByte, BodyByte, Push, Say, Sections, ReviseMethod, MethodString;
    hide FirstMethod;
    SectionsPush(log, MessageBegin);
    SectionsSay(log, StatusData, ch);
  }

  lemma {:induction false} TargetStays(c: Core, log: seq<Event>, ch: char)
    requires c.state.InUrl? || c.state.InVersion?
    ensures Stays(c, log, Dispatch(c, log, ch))
  {
    hide HeaderByte, StartByte, StatusByte, MethodByte, ChunkByte, BodyByte, Push, Say, Sections, ParseUrlChar;
    SectionsSay(log, UrlData, ch);
  }

  lemma {:induction false} BodyStays(c: Core, log: seq<Event>, ch: char)
    requires c.state.InChunk? || c.state.InBody?
    ensures Stays(c, log, Dispatch(c, log, ch))
  {
    hide HeaderByte, StartByte, StatusByte, MethodByte, UrlByte, VersionByte, Push, Say, Sections, NewMessage;
    hide Unhex, Limit;
    SectionsSay(log, BodyData, ch);
    SectionsPush(log, MessageComplete);
    SectionsPush(Say(log, BodyData, ch), MessageComplete);
  }

  lemma {:induction false} OpenSections(c: Core, log: seq<Event>, ch: char)
    ensures Sections(StartBody(c, log, ch).log) == Sections(log)
  {
    hide Push, Sections, NewMessage, NeedsEof;
    SectionsPush(log, MessageComplete);
  }

  lemma {:induction false} EmptyLineStays(c: Core, log: seq<Event>, ch: char)
    ensures Stays(c, log, EndHeaders(c, log, ch))
  {
    hide Push, Sections, NewMessage, StartBody, WantsUpgrade;
    SectionsPush(log, MessageComplete);
    SectionsPush(log, HeadersComplete);
    OpenSections(c.(state := InHeader(HeadersDone), upgrade := WantsUpgrade(c)), Push(log, HeadersComplete), ch);
    NewMessageStarts(c);
  }

  lemma NewMessageStarts(c: Core)
    ensures InHead(NewMessage(c))
  {
  }

  lemma {:induction false} LineStartStays(c: Core, log: seq<Event>, ch: char)
    requires c.state.InHeader?
    ensures Stays(c, log, BeginField(c, log, ch)) && Stays(c, log, BeginValue(c, log, ch))
  {
    hide Push, Say, Sections, EndHeaders, Token, FirstField, FirstValue;
    EmptyLineStays(c.(state := InHeader(HeadersAlmostDone)), log, ch);
    SectionsSay(log, FieldData, ch);
    SectionsSay(log, ValueData, ch);
  }

  lemma {:induction false} HeaderStays(c: Core, h: HeaderState, log: seq<Event>, ch: char)
    requires c.state == InHeader(h)
    ensures Stays(c, log, HeaderByte(c, h, log, ch))
  {
    hide Push, Say, Sections, EndHeaders, StartBody, BeginField, BeginValue, LineFlags, NextValue, NextField, Token;
    hide Limit, ConnectionFlags;
    OpenSections(c, log, ch);
    EmptyLineStays(c, log, ch);
    SectionsSay(log, FieldData, ch);
    SectionsSay(log, ValueData, ch);
    SectionsPush(log, Data(ValueData, []));
    LineStartStays(c, log, ch);
    var c' := c.(state := InHeader(FieldStart), flags := LineFlags(c.hstate, c.flags));
    LineStartStays(c', log, ch);
    LineStartStays(c', Push(log, Data(ValueData, [])), ch);
  }

  lemma {:induction false} ByteStays(c: Core, log: seq<Event>, ch: char)
    ensures Stays(Counted(c), log, Byte(c, log, ch))
  {
    var c' := Counted(c);
    if c.state.InHeader? {
      hide HeaderByte, StartByte, StatusByte, MethodByte, UrlByte, VersionByte, ChunkByte, BodyByte, Stays;
      HeaderStays(c', c.state.header, log, ch);
    } else {
      hide Dispatch, Stays;
      if c.state.InUrl? || c.state.InVersion? {
        TargetStays(c', log, ch);
      } else if c.state.InChunk? || c.state.InBody? {
        BodyStays(c', log, ch);
      } else {
        LineStays(c', log, ch);
      }
    }
  }

  /** As long as no header section is completed every octet is counted. */
  lemma {:induction false} RunStays(c: Core, log: seq<Event>, s: string)
    ensures var r := Run(c, log, s);
            && Sections(r.log) >= Sections(log)
            && (InHead(c.state) && r.end.More? && Sections(r.log) == Sections(log) ==>
                  InHead(r.core.state) && r.core.tally == c.tally + |s| && r.core.peak == c.peak)
    decreases |s|
  {
    hide Byte, Sections;
    if s != [] {
      ByteStays(c, log, s[0]);
      var r := Byte(c, log, s[0]);
      if r.end.More? {
        RunStays(r.core, r.log, s[1..]);
      }
    }
  }

  // What requests report.

  lemma {:induction false} SectionsConcat(a: seq<Event>, b: seq<Event>)
    ensures Sections(a + b) == Sections(a) + Sections(b)
    decreases |b|
  {
    if b == [] {
      assert a + b == a;
    } else {
      var u, e := b[..|b| - 1], b[|b| - 1];
      assert a + b == a + u + [e];
      SectionsConcat(a, u);
      SectionsSnoc(a + u, e);
    }
  }

  lemma {:induction false} HeadersSections(hs: seq<Header>)
    ensures Sections(HeaderEvents(hs)) == 0
    decreases |hs|
  {
    if hs != [] {
      var u, h := hs[..|hs| - 1], hs[|hs| - 1];
      HeadersSections(u);
      assert HeaderEvents(hs) == HeaderEvents(u) + [Data(FieldData, h.name)] + [Data(ValueData, h.value)];
      SectionsSnoc(HeaderEvents(u), Data(FieldData, h.name));
      SectionsSnoc(HeaderEvents(u) + [Data(FieldData, h.name)], Data(ValueData, h.value));
    }
  }
}
