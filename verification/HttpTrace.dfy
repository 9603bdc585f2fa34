/** The callbacks of a parser, over any number of pipelined messages. */
module HttpTrace {
  import opened HttpTypes
  import opened HttpChars
  import opened HttpSpec
  import opened HttpInvariant
  import opened HttpMessages
  import HttpParser

  /** The states agree with the kind of message, and trailers come at the end. */
  predicate Kinded(c: Core) {
    && (match c.state
        case Start(s) =>
          (s.StartReq? ==> c.kind.Request?) && (s.StartRes? ==> c.kind.Response?)
          && (s.StartReqOrRes? || s.ResOrRespH? ==> c.kind.Both?)
        case StatusLine(_) => c.kind.Response?
        case InMethod => c.kind.Request?
        case InUrl(_) => c.kind.Request?
        case InVersion(_) => c.kind.Request?
        case _ => !c.kind.Both?)
    && (c.flags.trailing ==>
          (c.state.Start? && !c.state.start.ResOrRespH?) || (c.state.InHeader? && !c.state.header.HeadersDone?))
  }

  /** The message has its opening behind it, if it has one. */
  predicate AtHeaders(d: Draft, k: Kind) { d.AtOpening? || d.AtValue? || (d.Begun? && k.Response?) }

  /** How far the message being read is in each state. */
  predicate Fits(d: Draft, c: Core) {
    match c.state
    case Start(s) =>
      if s.StartRes? then d.Idle? || d.Begun? else if s.ResOrRespH? then d == Begun(0) else d.Idle?
    case StatusLine(s) =>
      if s.ResStatus? then d.AtOpening? else d.Begun? || (s.ResLineAlmostDone? && d.AtOpening?)
    case InMethod => d == Begun(0)
    case InUrl(u) => if u.SpacesBeforeUrl? then d == Begun(0) else d.AtOpening?
    case InVersion(_) => d.AtOpening?
    case InHeader(h) =>
      if ReadingField(h) then if c.flags.trailing then d.AtTrailerField? else d.AtField?
      else if ReadingValue(h) then if c.flags.trailing then d.AtTrailerValue? else d.AtValue?
      else if h.HeadersDone? then d.AtBody?
      else if c.flags.trailing then d.AtBody? || d.AtTrailerValue?
      else AtHeaders(d, c.kind)
    case InChunk(_) => d.AtBody?
    case InBody(_) => d.AtBody?
  }

  predicate OfKind(m: Message, k: Kind) {
    match k
    case Request => m.opening.Url?
    case Response => m.opening.Status?
    case Both => false
  }

  /** Every message read, and the one being read, is of this kind. */
  predicate Sorted(r: Reader, k: Kind) {
    && (forall i :: 0 <= i < |r.done| ==> OfKind(r.done[i], k))
    && (r.draft.Idle? || r.draft.Begun? || r.draft.Garbled? || OfKind(r.draft.m, k))
  }

  /** The log is exactly what has been read from it, and that is of one kind. */
  predicate Spelt(log: seq<Event>, k: Kind) {
    !Read(log).draft.Garbled? && ReaderEvents(Read(log)) == log && Sorted(Read(log), k)
  }

  predicate Good(r: Step, k: Kind) {
    && (k.Both? || r.core.kind == k) && Spelt(r.log, r.core.kind)
    && (!r.end.Failed? ==> Kinded(r.core) && Fits(Read(r.log).draft, r.core))
  }

  /** Only a request has a URL, and only a response a status or no opening at all. */
  predicate Suits(d: Draft, e: Event, k: Kind) {
    && (e.Data? && e.channel.UrlData? ==> k.Request?)
    && (e.Data? && e.channel.StatusData? ==> k.Response?)
    && (d.Begun? && (e.HeadersComplete? || (e.Data? && e.channel.FieldData?)) ==> k.Response?)
  }

  lemma {:induction false} TakeSorted(r: Reader, e: Event, k: Kind)
    requires Sorted(r, k) && Suits(r.draft, e, k)
    ensures Sorted(Take(r, e), k)
  {
    hide MoreValue;
  }

  /** The first message of a parser for both kinds settles the kind. */
  lemma {:induction false} KindChosen(log: seq<Event>, k: Kind)
    requires Spelt(log, Both) && (Read(log).draft.Idle? || Read(log).draft.Begun?)
    ensures Spelt(log, k)
  {
    hide Read, ReaderEvents;
    assert forall i :: 0 <= i < |Read(log).done| ==> OfKind(Read(log).done[i], Both);
  }

  lemma {:induction false} PushSpelt(log: seq<Event>, e: Event, k: Kind)
    requires Spelt(log, k) && !Take(Read(log), e).draft.Garbled? && Suits(Read(log).draft, e, k)
    ensures Spelt(Push(log, e), k) && Read(Push(log, e)) == Take(Read(log), e)
  {
    hide Push, Read, Take, ReaderEvents, Sorted, Suits;
    ReadSane(log);
    ReadPush(log, e);
    TakeEvents(Read(log), e);
    TakeSorted(Read(log), e, k);
  }

  lemma DraftTakes(r: Reader, e: Event, k: Kind)
    ensures e.MessageBegin? && r.draft.Idle? ==> Take(r, e).draft == Begun(0)
    ensures e.MessageBegin? && r.draft.Begun? ==> Take(r, e).draft.Begun?
    ensures e.HeadersComplete? && AtHeaders(r.draft, k) ==> Take(r, e).draft.AtBody?
    ensures e.MessageComplete? && (r.draft.AtBody? || r.draft.AtTrailerValue?) ==> Take(r, e).draft.Idle?
    ensures e.Data? && e.channel.ValueData? && r.draft.AtField? ==> Take(r, e).draft.AtValue?
    ensures e.Data? && e.channel.ValueData? && r.draft.AtTrailerField? ==> Take(r, e).draft.AtTrailerValue?
  {
  }

  lemma {:induction false} StartGood(c: Core, s: StartState, log: seq<Event>, ch: char)
    requires Kinded(c) && Fits(Read(log).draft, c) && Spelt(log, c.kind) && c.state == Start(s)
    ensures Good(StartByte(c, s, log, ch), c.kind)
  {
    hide Push, Read, Spelt, Take, FirstMethod;
    DraftTakes(Read(log), MessageBegin, c.kind);
    if s.StartReqOrRes? || s.ResOrRespH? {
      KindChosen(log, Request);
      KindChosen(log, Response);
      PushSpelt(log, MessageBegin, Request);
    }
    PushSpelt(log, MessageBegin, c.kind);
  }

  lemma {:induction false} OpeningOfKind(log: seq<Event>, k: Kind)
    requires Spelt(log, k)
    ensures Read(log).draft.AtOpening? ==> OfKind(Read(log).draft.m, k)
  {
    hide Read, ReaderEvents;
  }

  lemma {:induction false} StatusGood(c: Core, s: StatusState, log: seq<Event>, ch: char)
    requires Kinded(c) && Fits(Read(log).draft, c) && Spelt(log, c.kind) && c.state == StatusLine(s)
    ensures Good(StatusByte(c, s, log, ch), c.kind)
  {
    hide Say, Read, Spelt;
    if s.ResStatusStart? || s.ResStatus? {
      ReadSane(log);
      OpeningOfKind(log, c.kind);
      SayGood(log, StatusData, ch, c.kind);
    }
  }

  lemma {:induction false} MethodGood(c: Core, log: seq<Event>, ch: char)
    requires Kinded(c) && Fits(Read(log).draft, c) && Spelt(log, c.kind) && c.state == InMethod
    ensures Good(MethodByte(c, log, ch), c.kind)
  {
    hide Read, Spelt, ReviseMethod, MethodString;
  }

  lemma {:induction false} SayGood(log: seq<Event>, ch: Channel, octet: char, k: Kind)
    requires Spelt(log, k) && !TakeData(Read(log).draft, ch, [octet]).Garbled?
    requires Suits(Read(log).draft, Data(ch, [octet]), k)
    ensures Spelt(Say(log, ch, octet), k) && Read(Say(log, ch, octet)).draft == TakeData(Read(log).draft, ch, [octet])
  {
    hide Push, Read, Spelt, TakeData, Suits;
    PushSpelt(log, Data(ch, [octet]), k);
  }

  lemma {:induction false} UrlGood(c: Core, s: UrlState, log: seq<Event>, ch: char)
    requires Kinded(c) && Fits(Read(log).draft, c) && Spelt(log, c.kind) && c.state == InUrl(s)
    ensures Good(UrlByte(c, s, log, ch), c.kind)
  {
    hide Push, Say, Read, Spelt, ParseUrlChar;
    OpeningOfKind(log, c.kind);
    SayGood(log, UrlData, ch, c.kind);
    StaysInUrl(s, ch);
    StaysInUrl(ServerStart, ch);
  }

  lemma {:induction false} VersionGood(c: Core, s: VersionState, log: seq<Event>, ch: char)
    requires Kinded(c) && Fits(Read(log).draft, c) && Spelt(log, c.kind) && c.state == InVersion(s)
    ensures Good(VersionByte(c, s, log, ch), c.kind)
  {
    hide Read, Spelt;
  }

  lemma {:induction false} CompleteGood(c: Core, log: seq<Event>)
    requires !c.kind.Both? && Spelt(log, c.kind) && (Read(log).draft.AtBody? || Read(log).draft.AtTrailerValue?)
    ensures Good(Complete(c, log), c.kind)
  {
    hide Push, Read, Spelt, Take;
    DraftTakes(Read(log), MessageComplete, c.kind);
    PushSpelt(log, MessageComplete, c.kind);
  }

  lemma {:induction false} StartBodyGood(c: Core, log: seq<Event>, ch: char)
    requires !c.kind.Both? && !c.flags.trailing && Spelt(log, c.kind) && Read(log).draft.AtBody?
    ensures Good(StartBody(c, log, ch), c.kind)
  {
    hide Read, Spelt, Complete;
    CompleteGood(Cleared(c), log);
    CompleteRequests(Cleared(c), log);
  }

  lemma CompleteRequests(c: Core, log: seq<Event>)
    ensures Complete(c, log).end.More?
  {
  }

  lemma {:induction false} EndHeadersGood(c: Core, log: seq<Event>, ch: char)
    requires !c.kind.Both? && Spelt(log, c.kind)
    requires if c.flags.trailing then Read(log).draft.AtBody? || Read(log).draft.AtTrailerValue?
             else AtHeaders(Read(log).draft, c.kind)
    ensures Good(EndHeaders(c, log, ch), c.kind)
  {
    hide Push, Read, Spelt, Take, StartBody, Complete, WantsUpgrade;
    if c.flags.trailing {
      CompleteGood(c, log);
    } else {
      DraftTakes(Read(log), HeadersComplete, c.kind);
      PushSpelt(log, HeadersComplete, c.kind);
      StartBodyGood(c.(state := InHeader(HeadersDone), upgrade := WantsUpgrade(c)), Push(log, HeadersComplete), ch);
    }
  }

  lemma {:induction false} BeginFieldGood(c: Core, log: seq<Event>, ch: char)
    requires !c.kind.Both? && Spelt(log, c.kind)
    requires if c.flags.trailing then Read(log).draft.AtBody? || Read(log).draft.AtTrailerValue?
             else AtHeaders(Read(log).draft, c.kind)
    ensures Good(BeginField(c, log, ch), c.kind)
  {
    hide Push, Say, Read, Spelt, Take, EndHeaders, Token, FirstField;
    EndHeadersGood(c.(state := InHeader(HeadersAlmostDone)), log, ch);
    SayGood(log, FieldData, ch, c.kind);
  }

  lemma {:induction false} FieldGood(c: Core, log: seq<Event>, ch: char)
    requires Kinded(c) && Fits(Read(log).draft, c) && Spelt(log, c.kind) && c.state == InHeader(Field)
    ensures Good(FieldByte(c, log, ch), c.kind)
  {
    hide Say, Read, Spelt, Token, NextField;
    SayGood(log, FieldData, ch, c.kind);
  }

  lemma {:induction false} BeginValueGood(c: Core, log: seq<Event>, ch: char)
    requires !c.kind.Both? && Spelt(log, c.kind)
    requires if c.flags.trailing then Read(log).draft.AtTrailerField? || Read(log).draft.AtTrailerValue?
             else Read(log).draft.AtField? || Read(log).draft.AtValue?
    ensures Good(BeginValue(c, log, ch), c.kind)
  {
    hide Say, Read, Spelt, FirstValue;
    ReadSane(log);
    SayGood(log, ValueData, ch, c.kind);
  }

  lemma {:induction false} ValueGood(c: Core, log: seq<Event>, ch: char)
    requires Kinded(c) && Fits(Read(log).draft, c) && Spelt(log, c.kind) && c.state == InHeader(Value)
    ensures Good(ValueByte(c, log, ch), c.kind)
  {
    hide Say, Read, Spelt, NextValue, ConnectionFlags, Limit;
    ReadSane(log);
    SayGood(log, ValueData, ch, c.kind);
    FlagsKept(c.hstate, c.flags);
  }

  lemma {:induction false} HeaderGood(c: Core, s: HeaderState, log: seq<Event>, ch: char)
    requires Kinded(c) && Fits(Read(log).draft, c) && Spelt(log, c.kind) && c.state == InHeader(s)
    ensures Good(HeaderByte(c, s, log, ch), c.kind)
  {
    hide Push, Read, Spelt, BeginField, FieldByte, BeginValue, ValueByte, EndHeaders, StartBody, LineFlags, Take;
    LineTrailing(c.hstate, c.flags);
    match s
    case FieldStart => BeginFieldGood(c, log, ch);
    case Field => FieldGood(c, log, ch);
    case DiscardWs => BeginValueGood(c, log, ch);
    case DiscardLws =>
      DraftTakes(Read(log), Data(ValueData, []), c.kind);
      PushSpelt(log, Data(ValueData, []), c.kind);
      BeginFieldGood(c.(state := InHeader(FieldStart), flags := LineFlags(c.hstate, c.flags)),
        Push(log, Data(ValueData, [])), ch);
    case ValueStart => BeginValueGood(c, log, ch);
    case Value => ValueGood(c, log, ch);
    case ValueLws =>
      BeginValueGood(c, log, ch);
      BeginFieldGood(c.(state := InHeader(FieldStart), flags := LineFlags(c.hstate, c.flags)), log, ch);
    case HeadersAlmostDone => EndHeadersGood(c, log, ch);
    case HeadersDone => StartBodyGood(c, log, ch);
    case _ =>
  }

  lemma LineTrailing(h: HState, f: Flags)
    ensures LineFlags(h, f).trailing == f.trailing
  {
  }

  lemma {:induction false} ChunkGood(c: Core, s: ChunkState, log: seq<Event>, ch: char)
    requires Kinded(c) && Fits(Read(log).draft, c) && Spelt(log, c.kind) && c.state == InChunk(s)
    ensures Good(ChunkByte(c, s, log, ch), c.kind)
  {
    hide Say, Read, Spelt, Unhex, Limit;
    SayGood(log, BodyData, ch, c.kind);
  }

  lemma {:induction false} BodyGood(c: Core, s: BodyState, log: seq<Event>, ch: char)
    requires Kinded(c) && Fits(Read(log).draft, c) && Spelt(log, c.kind) && c.state == InBody(s)
    ensures Good(BodyByte(c, s, log, ch), c.kind)
  {
    hide Say, Read, Spelt, Complete;
    SayGood(log, BodyData, ch, c.kind);
    CompleteGood(c, log);
    CompleteGood(c.(length := 0), Say(log, BodyData, ch));
  }

  lemma {:induction false} ByteGood(c: Core, log: seq<Event>, ch: char)
    requires Kinded(c) && Fits(Read(log).draft, c) && Spelt(log, c.kind)
    ensures Good(Byte(c, log, ch), c.kind)
  {
    hide Read, Spelt, Good, StartByte, StatusByte, MethodByte, UrlByte, VersionByte, HeaderByte, ChunkByte, BodyByte;
    var c' := Counted(c);
    match c'.state
    case Start(s) => StartGood(c', s, log, ch);
    case StatusLine(s) => StatusGood(c', s, log, ch);
    case InMethod => MethodGood(c', log, ch);
    case InUrl(s) => UrlGood(c', s, log, ch);
    case InVersion(s) => VersionGood(c', s, log, ch);
    case InHeader(s) => HeaderGood(c', s, log, ch);
    case InChunk(s) => ChunkGood(c', s, log, ch);
    case InBody(s) => BodyGood(c', s, log, ch);
  }

  lemma {:induction false} RunGood(c: Core, log: seq<Event>, s: string)
    requires Kinded(c) && Fits(Read(log).draft, c) && Spelt(log, c.kind)
    ensures var r := Run(c, log, s); Good(Step(r.core, r.log, r.end), c.kind)
    decreases |s|
  {
    hide Read, Spelt, Byte, Fits, Kinded;
    if s != [] {
      ByteGood(c, log, s[0]);
      var r := Byte(c, log, s[0]);
      if r.end.More? {
        RunGood(r.core, r.log, s[1..]);
      }
    }
  }

  /** An unfinished draft is the beginning of some message. */
  lemma {:induction false} DraftBegins(d: Draft)
    requires Sane(d) && !d.Garbled?
    ensures exists m :: DraftEvents(d) <= Events(m)
  {
    hide HeaderEvents, BodyEvents;
    match d
    case Idle => assert DraftEvents(d) <= Events(Opened(Url([])));
    case Begun(n) => assert DraftEvents(d) <= Events(Opened(Status(n, [])));
    case AtOpening(m) => assert DraftEvents(d) <= Events(m);
    case AtField(m, name) =>
      var m' := m.(headers := m.headers + [Header(name, [])]);
      HeadersEnd(m.headers, Header(name, []));
      assert DraftEvents(d) <= Events(m');
    case AtValue(m) => assert DraftEvents(d) <= Events(m);
    case AtBody(m) => assert DraftEvents(d) <= Events(m);
    case AtTrailerField(m, name) =>
      var m' := m.(trailers := m.trailers + [Header(name, [])]);
      HeadersEnd(m.trailers, Header(name, []));
      assert DraftEvents(d) <= Events(m');
    case AtTrailerValue(m) => assert DraftEvents(d) <= Events(m);
  }

  /** The callbacks of a parser of any kind, data joined, are the complete calls for some messages followed by
      the beginning of the calls for one more.  The messages are all requests or all responses, as the parser
      is for; between messages nothing has begun, unless a response has been announced at a line end. */
  lemma {:induction false} CallbackLanguage(t: Kind, s: string)
    ensures var r := Run(HttpParser.Initial(t), [], s);
            var read := Read(r.log);
            && r.log == AllEvents(read.done) + DraftEvents(read.draft)
            && (exists m :: DraftEvents(read.draft) <= Events(m))
            && (forall i :: 0 <= i < |read.done| ==> OfKind(read.done[i], r.core.kind))
            && (t.Both? || r.core.kind == t)
            && (!r.end.Failed? && r.core.state.Start? ==>
                  read.draft.Idle? || (read.draft.Begun? && !r.core.kind.Request?))
  {
    hide Run, AllEvents, Events, Read;
    var r := Run(HttpParser.Initial(t), [], s);
    ReadNothing(t);
    RunGood(HttpParser.Initial(t), [], s);
    ReadSane(r.log);
    DraftBegins(Read(r.log).draft);
  }

  lemma ReadNothing(k: Kind)
    ensures Read([]) == Reader([], Idle) && Spelt([], k)
  {
  }

  /** After a message that ends the connection no callback is made, whatever follows. */
  lemma {:induction false} NothingAfterClose(c: Core, log: seq<Event>, s: string)
    requires c.state == DEAD
    ensures var r := Run(c, log, s);
            r.log == log && r.core.state == DEAD
            && (r.end.More? <==> forall i :: 0 <= i < |s| ==> s[i] == CR || s[i] == LF)
            && (r.end.More? || r.end == Failed(ClosedConnection))
    decreases |s|
  {
    if s != [] {
      var r := Byte(c, log, s[0]);
      assert r == if s[0] == CR
        || s[0] == LF then Go(c.(tally := c.tally + 1), log) else Err(c.(tally := c.tally + 1), log, ClosedConnection);
      if r.end.More? {
        NothingAfterClose(r.core, log, s[1..]);
        assert forall i :: 0 < i < |s| ==> s[i] == s[1..][i - 1];
      }
    }
  }

  // Line ends before a message.

  predicate LineEnds(s: string) { forall i :: 0 <= i < |s| ==> s[i] == CR || s[i] == LF }

  /** A parser of requests skips line ends before a message.  A parser of responses announces a message at each
      of them, and once more when the message begins. */
  lemma {:induction false} StrayLineEnds(c: Core, log: seq<Event>, s: string)
    requires LineEnds(s)
    ensures c.state == Start(StartReq) ==> Run(c, log, s) == Result(c.(tally := c.tally + |s|), log, [], More)
    ensures c.state == Start(StartRes) ==>
              var r := Run(c, log, s);
              && r.end.More? && r.rest == [] && r.log == log + Begins(|s|)
              && r.core.state == c.state && r.core.kind == c.kind && r.core.tally == c.tally + |s|
    decreases |s|
  {
    if s == [] {
      assert log + [] == log;
    } else {
      LineEndByte(c, log, s[0]);
      hide Byte;
      var r := Byte(c, log, s[0]);
      BeginsFirst(|s|);
      assert log + [MessageBegin] + Begins(|s| - 1) == log + ([MessageBegin] + Begins(|s| - 1));
      StrayLineEnds(r.core, r.log, s[1..]);
    }
  }

  lemma {:induction false} BeginsFirst(n: nat)
    requires n > 0
    ensures [MessageBegin] + Begins(n - 1) == Begins(n)
  {
    if n > 1 {
      BeginsFirst(n - 1);
      assert [MessageBegin] + (Begins(n - 2) + [MessageBegin]) == [MessageBegin] + Begins(n - 2) + [MessageBegin];
    }
  }

  lemma {:induction false} LineEndByte(c: Core, log: seq<Event>, ch: char)
    requires ch == CR || ch == LF
    ensures c.state == Start(StartReq) ==> Byte(c, log, ch) == Go(c.(tally := c.tally + 1), log)
    ensures c.state == Start(StartRes) ==>
              var c' := c.(tally := c.tally + 1, flags := NO_FLAGS, length := NO_LENGTH);
              Byte(c, log, ch) == Go(c', log + [MessageBegin])
  {
    assert Push(log, MessageBegin) == log + [MessageBegin];
  }
}
