/** The language of callbacks: what the calls made by a parser spell out. */
module HttpMessages {
  import opened HttpTypes
  import opened HttpSpec
  import opened HttpInvariant

  datatype Header = Header(name: string, value: string)

  /** What a message begins with: the URL of a request, or the phrase of a response, which may be empty.  A
      response may have been announced several times over. */
  datatype Opening = Url(url: string) | Status(again: nat, phrase: string)

  datatype Message = Message(opening: Opening, headers: seq<Header>, body: string, trailers: seq<Header>)

  function HeaderEvents(hs: seq<Header>): seq<Event> {
    if hs == [] then []
    else HeaderEvents(hs[..|hs| - 1]) + [Data(FieldData, hs[|hs| - 1].name), Data(ValueData, hs[|hs| - 1].value)]
  }

  function BodyEvents(body: string): seq<Event> { if body == [] then [] else [Data(BodyData, body)] }

  function Begins(n: nat): seq<Event> { if n == 0 then [] else Begins(n - 1) + [MessageBegin] }

  /** message_begin url, or message_begin+ status? */
  function OpeningEvents(o: Opening): seq<Event> {
    match o
    case Url(url) => [MessageBegin, Data(UrlData, url)]
    case Status(n, phrase) => Begins(n) + [MessageBegin] + if phrase == [] then [] else [Data(StatusData, phrase)]
  }

  /** The opening and (field value)* */
  function HeadEvents(m: Message): seq<Event> { OpeningEvents(m.opening) + HeaderEvents(m.headers) }

  function UpToBody(m: Message): seq<Event> {
    HeadEvents(m) + [HeadersComplete] + BodyEvents(m.body)
  }

  /** The callbacks for one message, data joined. */
  function Events(m: Message): seq<Event> {
    UpToBody(m) + HeaderEvents(m.trailers) + [MessageComplete]
  }

  function AllEvents(ms: seq<Message>): seq<Event> {
    if ms == [] then [] else AllEvents(ms[..|ms| - 1]) + Events(ms[|ms| - 1])
  }

  /** A message being read. */
  datatype Draft =
    | Idle
    | Begun(again: nat)
    | AtOpening(m: Message)
    | AtField(m: Message, name: string)
    | AtValue(m: Message)
    | AtBody(m: Message)
    | AtTrailerField(m: Message, name: string)
    | AtTrailerValue(m: Message)
    | Garbled

  function DraftEvents(d: Draft): seq<Event> {
    match d
    case Idle => []
    case Begun(n) => Begins(n) + [MessageBegin]
    case AtOpening(m) => OpeningEvents(m.opening)
    case AtField(m, name) => HeadEvents(m) + [Data(FieldData, name)]
    case AtValue(m) => HeadEvents(m)
    case AtBody(m) => UpToBody(m)
    case AtTrailerField(m, name) => UpToBody(m) + HeaderEvents(m.trailers) + [Data(FieldData, name)]
    case AtTrailerValue(m) => UpToBody(m) + HeaderEvents(m.trailers)
    case Garbled => []
  }

  datatype Reader = Reader(done: seq<Message>, draft: Draft)

  function ReaderEvents(r: Reader): seq<Event> { AllEvents(r.done) + DraftEvents(r.draft) }

  function MoreValue(hs: seq<Header>, bytes: string): seq<Header>
    requires hs != []
  {
    var last := hs[|hs| - 1];
    hs[..|hs| - 1] + [last.(value := last.value + bytes)]
  }

  /** A message of which nothing but its opening has been read. */
  function Opened(o: Opening): Message { Message(o, [], [], []) }

  /** Takes in data: callbacks on one channel may come in any number of pieces. */
  function TakeData(d: Draft, k: Channel, bytes: string): Draft {
    match k
    case UrlData =>
      if d == Begun(0) then AtOpening(Opened(Url(bytes)))
      else if d.AtOpening? && d.m.opening.Url? then AtOpening(d.m.(opening := Url(d.m.opening.url + bytes)))
      else Garbled
    case FieldData =>
      if d.Begun? then AtField(Opened(Status(d.again, [])), bytes)
      else if d.AtOpening? || d.AtValue? then AtField(d.m, bytes)
      else if d.AtField? then AtField(d.m, d.name + bytes)
      else if d.AtBody? || d.AtTrailerValue? then AtTrailerField(d.m, bytes)
      else if d.AtTrailerField? then AtTrailerField(d.m, d.name + bytes)
      else Garbled
    case ValueData =>
      if d.AtField? then AtValue(d.m.(headers := d.m.headers + [Header(d.name, bytes)]))
      else if d.AtValue? && d.m.headers != [] then AtValue(d.m.(headers := MoreValue(d.m.headers, bytes)))
      else if d.AtTrailerField? then AtTrailerValue(d.m.(trailers := d.m.trailers + [Header(d.name, bytes)]))
      else if d.AtTrailerValue?
        && d.m.trailers != [] then AtTrailerValue(d.m.(trailers := MoreValue(d.m.trailers, bytes)))
      else Garbled
    case BodyData => if d.AtBody? && bytes != [] then AtBody(d.m.(body := d.m.body + bytes)) else Garbled
    case StatusData =>
      if bytes == [] then Garbled
      else if d.Begun? then AtOpening(Opened(Status(d.again, bytes)))
      else if d.AtOpening? && d.m.opening.Status? then
        AtOpening(d.m.(opening := Status(d.m.opening.again, d.m.opening.phrase + bytes)))
      else Garbled
  }

  /** Takes in one callback. */
  function Take(r: Reader, e: Event): Reader {
    match e
    case MessageBegin =>
      r.(draft := if r.draft.Idle? then Begun(0) else if r.draft.Begun? then Begun(r.draft.again + 1) else Garbled)
    case HeadersComplete =>
      r.(draft := if r.draft.Begun? then AtBody(Opened(Status(r.draft.again, [])))
                  else if r.draft.AtOpening? || r.draft.AtValue? then AtBody(r.draft.m)
                  else Garbled)
    case MessageComplete =>
      if r.draft.AtBody? || r.draft.AtTrailerValue? then Reader(r.done + [r.draft.m], Idle)
      else r.(draft := Garbled)
    case Data(k, bytes) => r.(draft := TakeData(r.draft, k, bytes))
  }

  /** The messages a list of callbacks spells out, and the one that is still incomplete. */
  function Read(log: seq<Event>): Reader {
    if log == [] then Reader([], Idle) else Take(Read(log[..|log| - 1]), log[|log| - 1])
  }

  /** Drafts the reader can be in: nothing beyond the point reached is filled in. */
  predicate Sane(d: Draft) {
    match d
    case AtOpening(m) => m == Opened(m.opening) && (m.opening.Status? ==> m.opening.phrase != [])
    case AtField(m, _) => m.body == [] && m.trailers == []
    case AtValue(m) => m.headers != [] && m.body == [] && m.trailers == []
    case AtBody(m) => m.trailers == []
    case AtTrailerValue(m) => m.trailers != []
    case _ => true
  }

  lemma TakeSane(r: Reader, e: Event)
    requires Sane(r.draft)
    ensures Sane(Take(r, e).draft)
  {
  }

  lemma {:induction false} ReadSane(log: seq<Event>)
    ensures Sane(Read(log).draft)
    decreases |log|
  {
    if log != [] {
      ReadSane(log[..|log| - 1]);
      TakeSane(Read(log[..|log| - 1]), log[|log| - 1]);
    }
  }

  lemma {:induction false} ReadSnoc(log: seq<Event>, e: Event)
    ensures Read(log + [e]) == Take(Read(log), e)
  {
    assert (log + [e])[..|log|] == log;
  }

  lemma {:induction false} MoreTwice(hs: seq<Header>, a: string, b: string)
    requires hs != []
    ensures MoreValue(hs, a) != [] && MoreValue(MoreValue(hs, a), b) == MoreValue(hs, a + b)
  {
    var last := hs[|hs| - 1];
    assert last.value + a + b == last.value + (a + b);
    assert MoreValue(hs, a)[..|hs| - 1] == hs[..|hs| - 1];
  }

  lemma {:induction false} MoreNew(hs: seq<Header>, name: string, a: string, b: string)
    ensures MoreValue(hs + [Header(name, a)], b) == hs + [Header(name, a + b)]
  {
    assert (hs + [Header(name, a)])[..|hs|] == hs;
  }

  /** Taking data in two pieces is taking it at once. */
  lemma {:induction false} TakeTwice(r: Reader, k: Channel, a: string, b: string)
    requires !Take(Take(r, Data(k, a)), Data(k, b)).draft.Garbled?
    ensures Take(Take(r, Data(k, a)), Data(k, b)) == Take(r, Data(k, a + b))
  {
    var d := r.draft;
    match k
    case UrlData => if d.AtOpening? && d.m.opening.Url? {
      assert d.m.opening.url + a + b == d.m.opening.url + (a + b);
    }
    case FieldData => if d.AtField? || d.AtTrailerField? { assert d.name + a + b == d.name + (a + b); }
    case BodyData => if d.AtBody? { assert d.m.body + a + b == d.m.body + (a + b); }
    case ValueData => TakeValueTwice(d, a, b);
    case StatusData => if d.AtOpening? && d.m.opening.Status? {
      assert d.m.opening.phrase + a + b == d.m.opening.phrase + (a + b);
    }
  }

  lemma {:induction false} TakeValueTwice(d: Draft, a: string, b: string)
    ensures var d' := TakeData(TakeData(d, ValueData, a), ValueData, b);
            d'.Garbled? || d' == TakeData(d, ValueData, a + b)
  {
    if d.AtField? {
      MoreNew(d.m.headers, d.name, a, b);
    } else if d.AtTrailerField? {
      MoreNew(d.m.trailers, d.name, a, b);
    } else if d.AtValue? && d.m.headers != [] {
      MoreTwice(d.m.headers, a, b);
    } else if d.AtTrailerValue? && d.m.trailers != [] {
      MoreTwice(d.m.trailers, a, b);
    }
  }

  lemma GarbledStays(r: Reader, e: Event)
    requires r.draft.Garbled?
    ensures Take(r, e).draft.Garbled?
  {
  }

  /** Joining data does not change what is read. */
  lemma {:induction false} ReadPush(log: seq<Event>, e: Event)
    requires !Take(Read(log), e).draft.Garbled?
    ensures Read(Push(log, e)) == Take(Read(log), e)
  {
    hide Take;
    if e.Data? && LastSpoke(log, e.channel) {
      var n := |log| - 1;
      TakeTwice(Read(log[..n]), e.channel, log[n].bytes, e.bytes);
      ReadSnoc(log[..n], Data(e.channel, log[n].bytes + e.bytes));
    } else {
      ReadSnoc(log, e);
    }
  }

  lemma {:induction false} ReadJoin(log: seq<Event>)
    requires !Read(log).draft.Garbled?
    ensures Read(Join(log)) == Read(log)
    decreases |log|
  {
    hide Take, Push;
    if log != [] {
      var l, e := log[..|log| - 1], log[|log| - 1];
      if Read(l).draft.Garbled? {
        GarbledStays(Read(l), e);
      }
      ReadJoin(l);
      ReadPush(Join(l), e);
    }
  }

  lemma {:induction false} PushOn(y: seq<Event>, k: Channel, a: string, b: string)
    ensures Push(y + [Data(k, a)], Data(k, b)) == y + [Data(k, a + b)]
  {
    var x := y + [Data(k, a)];
    assert x[..|x| - 1] == y;
  }

  lemma PushAfter(y: seq<Event>, last: Event, e: Event)
    requires last.Data? && e.Data? ==> last.channel != e.channel
    ensures Push(y + [last], e) == y + [last] + [e]
  {
  }

  lemma {:induction false} HeadersEnd(hs: seq<Header>, h: Header)
    ensures HeaderEvents(hs + [h]) == HeaderEvents(hs) + [Data(FieldData, h.name)] + [Data(ValueData, h.value)]
  {
    assert (hs + [h])[..|hs|] == hs;
  }

  lemma HeadersLast(hs: seq<Header>)
    requires hs != []
    ensures HeaderEvents(hs) ==
            HeaderEvents(hs[..|hs| - 1]) + [Data(FieldData, hs[|hs| - 1].name)] + [Data(ValueData, hs[|hs| - 1].value)]
  {
  }

  lemma {:induction false} AllEventsSnoc(ms: seq<Message>, m: Message)
    ensures AllEvents(ms + [m]) == AllEvents(ms) + Events(m)
  {
    assert (ms + [m])[..|ms|] == ms;
  }

  lemma {:induction false} TakeOpeningEvents(r: Reader, k: Channel, bytes: string)
    requires k.UrlData? || k.StatusData?
    requires Sane(r.draft) && !Take(r, Data(k, bytes)).draft.Garbled?
    ensures ReaderEvents(Take(r, Data(k, bytes))) == Push(ReaderEvents(r), Data(k, bytes))
  {
    hide Push, AllEvents, HeaderEvents, Begins;
    var done := AllEvents(r.done);
    if r.draft.Begun? {
      var y := done + Begins(r.draft.again);
      assert y + [MessageBegin] == ReaderEvents(r);
      PushAfter(y, MessageBegin, Data(k, bytes));
      NoBegins();
    } else if k.UrlData? {
      var o := r.draft.m.opening;
      PushOn(done + [MessageBegin], UrlData, o.url, bytes);
      assert done + [MessageBegin] + [Data(UrlData, o.url)] == ReaderEvents(r);
    } else {
      var o := r.draft.m.opening;
      var y := done + Begins(o.again) + [MessageBegin];
      PushOn(y, StatusData, o.phrase, bytes);
      assert y + [Data(StatusData, o.phrase)] == ReaderEvents(r);
    }
  }

  lemma NoBegins()
    ensures Begins(0) == []
  {
  }

  lemma PushNew(x: seq<Event>, e: Event)
    requires e.Data? && x != [] ==> !(x[|x| - 1].Data? && x[|x| - 1].channel == e.channel)
    ensures Push(x, e) == x + [e]
  {
  }

  lemma {:induction false} TakeFieldEvents(r: Reader, bytes: string)
    requires Sane(r.draft) && !Take(r, Data(FieldData, bytes)).draft.Garbled?
    ensures ReaderEvents(Take(r, Data(FieldData, bytes))) == Push(ReaderEvents(r), Data(FieldData, bytes))
  {
    hide Push, AllEvents, HeaderEvents;
    var e := Data(FieldData, bytes);
    var before := ReaderEvents(r);
    var done := AllEvents(r.done);
    if r.draft.Begun? {
      BegunEvents(r);
      PushAfter(done + Begins(r.draft.again), MessageBegin, e);
      return;
    }
    var m := r.draft.m;
    if r.draft.AtField? {
      PushOn(done + HeadEvents(m), FieldData, r.draft.name, bytes);
      assert done + HeadEvents(m) + [Data(FieldData, r.draft.name)] == before;
    } else if r.draft.AtTrailerField? {
      PushOn(done + UpToBody(m) + HeaderEvents(m.trailers), FieldData, r.draft.name, bytes);
      assert done + UpToBody(m) + HeaderEvents(m.trailers) + [Data(FieldData, r.draft.name)] == before;
    } else {
      HeadersNone();
      if r.draft.AtValue? {
        HeadersLast(m.headers);
      } else if r.draft.AtTrailerValue? {
        HeadersLast(m.trailers);
      }
      PushNew(before, e);
    }
  }

  /** A message that has been announced and nothing else. */
  lemma {:induction false} BegunEvents(r: Reader)
    requires r.draft.Begun?
    ensures ReaderEvents(r) == AllEvents(r.done) + Begins(r.draft.again) + [MessageBegin]
    ensures HeadEvents(Opened(Status(r.draft.again, []))) == Begins(r.draft.again) + [MessageBegin]
  {
    hide AllEvents, Begins;
    assert AllEvents(r.done) + Begins(r.draft.again) + [MessageBegin] ==
      AllEvents(r.done) + (Begins(r.draft.again) + [MessageBegin]);
    HeadersNone();
  }

  lemma HeadersNone()
    ensures HeaderEvents([]) == []
  {
  }

  lemma {:induction false} TakeValueEvents(r: Reader, bytes: string)
    requires Sane(r.draft) && !Take(r, Data(ValueData, bytes)).draft.Garbled?
    ensures ReaderEvents(Take(r, Data(ValueData, bytes))) == Push(ReaderEvents(r), Data(ValueData, bytes))
  {
    hide Push, AllEvents, HeaderEvents;
    var e := Data(ValueData, bytes);
    var done := AllEvents(r.done);
    var m := r.draft.m;
    match r.draft
    case AtField(_, name) =>
      HeadersEnd(m.headers, Header(name, bytes));
      PushAfter(done + HeadEvents(m), Data(FieldData, name), e);
      assert done + HeadEvents(m) + [Data(FieldData, name)] == ReaderEvents(r);
    case AtTrailerField(_, name) =>
      HeadersEnd(m.trailers, Header(name, bytes));
      PushAfter(done + UpToBody(m) + HeaderEvents(m.trailers), Data(FieldData, name), e);
      assert done + UpToBody(m) + HeaderEvents(m.trailers) + [Data(FieldData, name)] == ReaderEvents(r);
    case AtValue(_) => MoreEvents(done + OpeningEvents(m.opening), m.headers, bytes);
      assert done + OpeningEvents(m.opening) + HeaderEvents(m.headers) == ReaderEvents(r);
    case AtTrailerValue(_) => MoreEvents(done + UpToBody(m), m.trailers, bytes);
      assert done + UpToBody(m) + HeaderEvents(m.trailers) == ReaderEvents(r);
  }

  lemma {:induction false} MoreEvents(y: seq<Event>, hs: seq<Header>, bytes: string)
    requires hs != []
    ensures Push(y + HeaderEvents(hs), Data(ValueData, bytes)) == y + HeaderEvents(MoreValue(hs, bytes))
  {
    hide Push, HeaderEvents;
    var init, last := hs[..|hs| - 1], hs[|hs| - 1];
    HeadersLast(hs);
    HeadersEnd(init, last.(value := last.value + bytes));
    PushOn(y + HeaderEvents(init) + [Data(FieldData, last.name)], ValueData, last.value, bytes);
    assert y + HeaderEvents(init) + [Data(FieldData, last.name)] + [Data(ValueData, last.value)] ==
      y + HeaderEvents(hs);
  }

  lemma {:induction false} TakeBodyEvents(r: Reader, bytes: string)
    requires Sane(r.draft) && !Take(r, Data(BodyData, bytes)).draft.Garbled?
    ensures ReaderEvents(Take(r, Data(BodyData, bytes))) == Push(ReaderEvents(r), Data(BodyData, bytes))
  {
    hide Push, AllEvents, HeaderEvents;
    var m := r.draft.m;
    var y := AllEvents(r.done) + HeadEvents(m);
    if m.body == [] {
      PushAfter(y, HeadersComplete, Data(BodyData, bytes));
      assert m.body + bytes == bytes;
      assert y + [HeadersComplete] == ReaderEvents(r);
    } else {
      PushOn(y + [HeadersComplete], BodyData, m.body, bytes);
      assert y + [HeadersComplete] + [Data(BodyData, m.body)] == ReaderEvents(r);
    }
  }

  /** What has been read spells the callbacks again. */
  lemma {:induction false} TakeEvents(r: Reader, e: Event)
    requires Sane(r.draft) && !Take(r, e).draft.Garbled?
    ensures ReaderEvents(Take(r, e)) == Push(ReaderEvents(r), e)
  {
    hide AllEvents, HeaderEvents;
    match e
    case MessageBegin => NoBegins();
    case HeadersComplete =>
      HeadersNone();
      if r.draft.Begun? {
        BegunEvents(r);
      }
    case MessageComplete =>
      HeadersNone();
      AllEventsSnoc(r.done, r.draft.m);
    case Data(k, bytes) =>
      match k
      case UrlData => TakeOpeningEvents(r, k, bytes);
      case FieldData => TakeFieldEvents(r, bytes);
      case ValueData => TakeValueEvents(r, bytes);
      case BodyData => TakeBodyEvents(r, bytes);
      case StatusData => TakeOpeningEvents(r, k, bytes);
  }

  /** Reading loses nothing. */
  lemma {:induction false} ReadEvents(log: seq<Event>)
    requires !Read(log).draft.Garbled?
    ensures ReaderEvents(Read(log)) == Join(log)
    decreases |log|
  {
    hide Take, Push;
    if log != [] {
      var l, e := log[..|log| - 1], log[|log| - 1];
      if Read(l).draft.Garbled? {
        GarbledStays(Read(l), e);
      }
      ReadSane(l);
      ReadEvents(l);
      TakeEvents(Read(l), e);
    }
  }
}
