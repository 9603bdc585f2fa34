/** The client of the HTTP parser puts the header table together again from the pieces in which names
    and values are reported. */
module ClientHeaders {
  import opened Common
  import opened HttpTypes
  import opened HttpSpec
  import opened HttpMessages
  import Containers

  /** RST_cstr_comparator */
  function StrCmp(a: string, b: string): int {
    if a == [] then if b == [] then 0 else -1
    else if b == [] then 1
    else if a[0] != b[0] then a[0] as int - b[0] as int
    else StrCmp(a[1..], b[1..])
  }

  lemma {:induction false} StrCmpEqual(a: string, b: string)
    ensures StrCmp(a, b) == 0 <==> a == b
    decreases |a|
  {
    if a != [] && b != [] {
      StrCmpEqual(a[1..], b[1..]);
      assert a == [a[0]] + a[1..] && b == [b[0]] + b[1..];
    }
  }

  lemma {:induction false} StrCmpEquates()
    ensures Containers.Equates(StrCmp)
  {
    forall a, b ensures StrCmp(a, b) == 0 <==> a == b { StrCmpEqual(a, b); }
  }

  type Table = seq<(string, string)>

  /** The table of a list of headers. */
  function TableOf(hs: seq<Header>): Table {
    if hs == [] then [] else Containers.Put(StrCmp, TableOf(hs[..|hs| - 1]), hs[|hs| - 1].name, hs[|hs| - 1].value)
  }

  /** The value of the first header with a name. */
  function FirstNamed(hs: seq<Header>, name: string): Option<string> {
    if hs == [] then None
    else if FirstNamed(hs[..|hs| - 1], name).Some? then FirstNamed(hs[..|hs| - 1], name)
    else if hs[|hs| - 1].name == name then Some(hs[|hs| - 1].value)
    else None
  }

  /** The table holds every name once, with the value it had first. */
  lemma {:induction false} TableKeepsFirst(hs: seq<Header>, name: string)
    ensures Containers.Lookup(StrCmp, TableOf(hs), name) == FirstNamed(hs, name)
    ensures Containers.DistinctKeys(StrCmp, TableOf(hs))
    decreases |hs|
  {
    hide StrCmp, Containers.Lookup, Containers.Put, Containers.DistinctKeys, Containers.Equates;
    if hs == [] {
      NothingFound(name);
    } else {
      var u, h := hs[..|hs| - 1], hs[|hs| - 1];
      TableKeepsFirst(u, name);
      StrCmpEquates();
      StrCmpEqual(name, h.name);
      Containers.PutLookup(StrCmp, TableOf(u), h.name, h.value, name);
    }
  }

  lemma NothingFound(name: string)
    ensures Containers.Lookup(StrCmp, [], name).None? && Containers.DistinctKeys(StrCmp, [])
  {
  }

  lemma {:induction false} TableSnoc(hs: seq<Header>, h: Header)
    ensures TableOf(hs + [h]) == Containers.Put(StrCmp, TableOf(hs), h.name, h.value)
  {
    assert (hs + [h])[..|hs|] == hs;
  }

  /** The headers whose names have been reported in full. */
  function Known(d: Draft): seq<Header> {
    match d
    case AtField(m, _) => m.headers
    case AtValue(m) => m.headers
    case AtBody(m) => m.headers
    case AtTrailerField(m, _) => m.headers + m.trailers
    case AtTrailerValue(m) => m.headers + m.trailers
    case _ => []
  }

  /** The headers and trailers of a list of messages. */
  function AllHeaders(ms: seq<Message>): seq<Header> {
    if ms == [] then [] else AllHeaders(ms[..|ms| - 1]) + (ms[|ms| - 1].headers + ms[|ms| - 1].trailers)
  }

  /** What the client has, once the callbacks have come as far as r: nothing ever empties its table. */
  predicate Assembled(r: Reader, lastWasValue: bool, field: Option<string>, value: Option<string>, table: Table) {
    var before, d, hs := AllHeaders(r.done), r.draft, Known(r.draft);
    if d.AtField? || d.AtTrailerField? then
      !lastWasValue && field == Some(d.name) && value == None && table == TableOf(before + hs)
    else if hs == [] then
      lastWasValue && field == None && value == None && table == TableOf(before)
    else
      var h := hs[|hs| - 1];
      lastWasValue && field == Some(h.name) && value == Some(h.value) && table == TableOf(before + hs[..|hs| - 1])
  }

  lemma {:induction false} KnownAfterField(d: Draft, bytes: string)
    requires Sane(d) && !TakeData(d, FieldData, bytes).Garbled?
    ensures var d' := TakeData(d, FieldData, bytes);
            && (d'.AtField? || d'.AtTrailerField?) && Known(d') == Known(d)
            && d'.name == (if d.AtField? || d.AtTrailerField? then d.name + bytes else bytes)
            && (d.AtField? || d.AtTrailerField? || d.Begun? || d.AtOpening? || d.AtValue? || d.AtBody?
               || d.AtTrailerValue?)
  {
    if d.AtBody? {
      assert d.m.headers + [] == d.m.headers;
    }
  }

  lemma HeaderAfterValue(d: Draft, bytes: string)
    requires Sane(d) && (d.AtField? || d.AtValue?)
    ensures var d', hs := TakeData(d, ValueData, bytes), Known(TakeData(d, ValueData, bytes));
            && d'.AtValue? && hs != []
            && if d.AtField? then hs[..|hs| - 1] == Known(d) && hs[|hs| - 1] == Header(d.name, bytes)
               else var before := Known(d);
                    before != [] && hs[..|hs| - 1] == before[..|before| - 1]
                    && hs[|hs| - 1] == before[|before| - 1].(value := before[|before| - 1].value + bytes)
  {
  }

  lemma {:induction false} TrailerAfterValue(d: Draft, bytes: string)
    requires Sane(d) && (d.AtTrailerField? || d.AtTrailerValue?)
    ensures var d', hs := TakeData(d, ValueData, bytes), Known(TakeData(d, ValueData, bytes));
            && d'.AtTrailerValue? && hs != []
            && if d.AtTrailerField? then hs[..|hs| - 1] == Known(d) && hs[|hs| - 1] == Header(d.name, bytes)
               else var before := Known(d);
                    before != [] && hs[..|hs| - 1] == before[..|before| - 1]
                    && hs[|hs| - 1] == before[|before| - 1].(value := before[|before| - 1].value + bytes)
  {
    var a, b := d.m.headers, d.m.trailers;
    if d.AtTrailerField? {
      assert a + (b + [Header(d.name, bytes)]) == a + b + [Header(d.name, bytes)];
    } else {
      assert (a + b)[|a + b| - 1] == b[|b| - 1];
      assert (a + b)[..|a + b| - 1] == a + b[..|b| - 1];
    }
  }

  lemma {:induction false} KnownAfterValue(d: Draft, bytes: string)
    requires Sane(d) && !TakeData(d, ValueData, bytes).Garbled?
    ensures var d', hs := TakeData(d, ValueData, bytes), Known(TakeData(d, ValueData, bytes));
            && !d'.AtField? && !d'.AtTrailerField? && hs != []
            && if d.AtField? || d.AtTrailerField? then
                 hs[..|hs| - 1] == Known(d) && hs[|hs| - 1] == Header(d.name, bytes)
               else var before := Known(d);
                    before != [] && hs[..|hs| - 1] == before[..|before| - 1]
                    && hs[|hs| - 1] == before[|before| - 1].(value := before[|before| - 1].value + bytes)
  {
    ValueComes(d, bytes);
    hide TakeData, Known, Sane;
    if d.AtField? || d.AtValue? {
      HeaderAfterValue(d, bytes);
    } else {
      TrailerAfterValue(d, bytes);
    }
  }

  lemma {:induction false} ValueComes(d: Draft, bytes: string)
    requires !TakeData(d, ValueData, bytes).Garbled?
    ensures d.AtField? || d.AtValue? || d.AtTrailerField? || d.AtTrailerValue?
  {
    hide MoreValue;
  }

  /** The header part of RST_Client. */
  class Client {
    var lastWasValue: bool
    var field: Option<string>
    var value: Option<string>
    const headers: Containers.Map<string>

    /** RST_client_init */
    constructor ()
      ensures lastWasValue && field == None && value == None && headers.Valid() && headers.Pairs() == []
      ensures fresh(headers) && fresh(headers.v) && fresh(headers.v.data) && headers.comparator == StrCmp
    {
      lastWasValue, field, value := true, None, None;
      headers := new Containers.Map<string>(StrCmp, true);
    }

    ghost predicate Valid()
      reads this, headers, headers.v, headers.v.data
    {
      headers.Valid() && headers.comparator == StrCmp && (value.Some? ==> field.Some?)
    }

    /** RST_client_parser_save_header */
    method SaveHeader()
      requires Valid()
      modifies this, headers.v, headers.v.data
      ensures Valid() && lastWasValue == old(lastWasValue)
              && (headers.v.data == old(headers.v.data) || fresh(headers.v.data))
      ensures if old(value.Some?) then
                field == None && value == None
                && headers.Pairs() == Containers.Put(StrCmp, old(headers.Pairs()), old(field).value, old(value).value)
              else field == old(field) && value == old(value) && headers.Pairs() == old(headers.Pairs())
    {
      assert (field.Some? && value.Some?) || value.None?;
      if field.Some? && value.Some? {
        headers.Insert(field.value, value.value);
        field := None;
        value := None;
      }
    }

    /** RST_client_parser_on_header_field */
    method OnHeaderField(at: string)
      requires Valid() && (!lastWasValue ==> field.Some? && value.None?)
      modifies this, headers.v, headers.v.data
      ensures Valid() && !lastWasValue && (headers.v.data == old(headers.v.data) || fresh(headers.v.data))
      ensures field == Some((if old(lastWasValue) then [] else old(field).value) + at)
      ensures value == None
      ensures headers.Pairs() ==
              if old(lastWasValue && value.Some?) then
                Containers.Put(StrCmp, old(headers.Pairs()), old(field).value, old(value).value)
              else old(headers.Pairs())
    {
      if lastWasValue {
        SaveHeader();
        field := Some([]);
      }
      field := Some(field.value + at);
      lastWasValue := false;
    }

    /** RST_client_parser_on_header_value */
    method OnHeaderValue(at: string)
      requires Valid() && (if lastWasValue then value.Some? else field.Some?)
      modifies this
      ensures Valid() && lastWasValue && field == old(field) && headers.Pairs() == old(headers.Pairs())
      ensures value == Some((if old(lastWasValue) then old(value).value else []) + at)
    {
      if !lastWasValue {
        value := Some([]);
      }
      value := Some(value.value + at);
      lastWasValue := true;
    }

    /** RST_client_parser_on_message_complete, as far as it concerns the headers. */
    method OnMessageComplete()
      requires Valid()
      modifies this, headers.v, headers.v.data
      ensures Valid() && lastWasValue == old(lastWasValue)
      ensures headers.v.data == old(headers.v.data) || fresh(headers.v.data)
      ensures if old(value.Some?) then
                field == None && value == None
                && headers.Pairs() == Containers.Put(StrCmp, old(headers.Pairs()), old(field).value, old(value).value)
              else field == old(field) && value == old(value) && headers.Pairs() == old(headers.Pairs())
    {
      SaveHeader();
    }

    ghost predicate Has(r: Reader)
      reads this, headers, headers.v, headers.v.data
    {
      Valid() && Assembled(r, lastWasValue, field, value, headers.Pairs())
    }

    /** A piece of a name. */
    method OnName(bytes: string, ghost r: Reader)
      requires Has(r) && Sane(r.draft) && !Take(r, Data(FieldData, bytes)).draft.Garbled?
      modifies this, headers.v, headers.v.data
      ensures Has(Take(r, Data(FieldData, bytes)))
      ensures headers.v.data == old(headers.v.data) || fresh(headers.v.data)
    {
      hide TableOf, Containers.Put, StrCmp, AllHeaders, TakeData, Known, Sane;
      KnownAfterField(r.draft, bytes);
      TableGrows(AllHeaders(r.done), Known(r.draft));
      assert [] + bytes == bytes;
      OnHeaderField(bytes);
    }

    /** A piece of a value. */
    method OnValue(bytes: string, ghost r: Reader)
      requires Has(r) && Sane(r.draft) && !Take(r, Data(ValueData, bytes)).draft.Garbled?
      modifies this
      ensures Has(Take(r, Data(ValueData, bytes)))
    {
      hide TableOf, Containers.Put, StrCmp, AllHeaders, TakeData, Known, Sane;
      KnownAfterValue(r.draft, bytes);
      assert [] + bytes == bytes;
      OnHeaderValue(bytes);
    }

    /** The end of a message. */
    method OnEnd(ghost r: Reader)
      requires Has(r) && Sane(r.draft) && !Take(r, MessageComplete).draft.Garbled?
      modifies this, headers.v, headers.v.data
      ensures Has(Take(r, MessageComplete))
      ensures headers.v.data == old(headers.v.data) || fresh(headers.v.data)
    {
      hide TableOf, Containers.Put, StrCmp, AllHeaders, Sane;
      WholeMessage(r);
      hide Known;
      TableGrows(AllHeaders(r.done), Known(r.draft));
      NothingKnown();
      OnMessageComplete();
    }

    /** One callback. */
    method On(e: Event, ghost r: Reader)
      requires Has(r) && Sane(r.draft) && !Take(r, e).draft.Garbled?
      modifies this, headers.v, headers.v.data
      ensures Has(Take(r, e)) && (headers.v.data == old(headers.v.data) || fresh(headers.v.data))
    {
      hide TableOf, StrCmp, Assembled, Take, Sane;
      match e {
        case Data(FieldData, bytes) => OnName(bytes, r);
        case Data(ValueData, bytes) => OnValue(bytes, r);
        case MessageComplete => OnEnd(r);
        case _ => OtherAssembled(r, e, lastWasValue, field, value, headers.Pairs());
      }
    }
  }

  lemma NothingKnown()
    ensures Known(Idle) == []
  {
  }

  /** The table of a list of headers, by its last one. */
  lemma {:induction false} TableGrows(before: seq<Header>, hs: seq<Header>)
    ensures hs == [] ==> before + hs == before
    ensures hs != [] ==>
              var h := hs[|hs| - 1];
              TableOf(before + hs) == Containers.Put(StrCmp, TableOf(before + hs[..|hs| - 1]), h.name, h.value)
  {
    hide TableOf, Containers.Put, StrCmp;
    if hs != [] {
      var u, h := hs[..|hs| - 1], hs[|hs| - 1];
      assert before + hs == before + u + [h];
      TableSnoc(before + u, h);
    }
  }

  /** Callbacks that do not concern headers. */
  lemma {:induction false} OtherAssembled(
    r: Reader, e: Event, lastWasValue: bool, field: Option<string>, value: Option<string>, table: Table)
    requires Assembled(r, lastWasValue, field, value, table) && Sane(r.draft) && !Take(r, e).draft.Garbled?
    requires !e.MessageComplete? && (e.Data? ==> !e.channel.FieldData? && !e.channel.ValueData?)
    ensures Assembled(Take(r, e), lastWasValue, field, value, table)
  {
    hide TableOf, AllHeaders;
  }

  /** What is known of a message when it is complete is all of its headers. */
  lemma {:induction false} WholeMessage(r: Reader)
    requires Sane(r.draft) && (r.draft.AtBody? || r.draft.AtTrailerValue?)
    ensures Known(r.draft) == r.draft.m.headers + r.draft.m.trailers
    ensures AllHeaders(r.done + [r.draft.m]) == AllHeaders(r.done) + Known(r.draft)
  {
    var m := r.draft.m;
    assert (r.done + [m])[..|r.done|] == r.done;
    if r.draft.AtBody? {
      assert m.headers + [] == m.headers;
    }
  }

  lemma ReadEmpty()
    ensures Read([]) == Reader([], Idle)
  {
  }

  /** What can be read could be read all along. */
  lemma {:induction false} ReadPrefix(log: seq<Event>, i: nat)
    requires i <= |log| && !Read(log).draft.Garbled?
    ensures !Read(log[..i]).draft.Garbled?
    decreases |log|
  {
    hide Take;
    if i < |log| {
      var l, e := log[..|log| - 1], log[|log| - 1];
      if Read(l).draft.Garbled? {
        GarbledStays(Read(l), e);
      }
      ReadPrefix(l, i);
      assert l[..i] == log[..i];
    } else {
      assert log[..i] == log;
    }
  }

  lemma HasIdle(
    r: Reader, lastWasValue: bool, field: Option<string>, value: Option<string>, table: Table)
    requires r.draft.Idle? && Assembled(r, lastWasValue, field, value, table)
    ensures field == None && value == None && table == TableOf(AllHeaders(r.done))
  {
  }

  lemma NothingYet()
    ensures Assembled(Reader([], Idle), true, None, None, [])
  {
  }

  /** Hands the client the callbacks of any number of messages, in whatever pieces its names and values
      come: its table is that of the header lists of all of them, trailers included. */
  method Assemble(log: seq<Event>) returns (client: Client)
    requires !Read(log).draft.Garbled?
    ensures client.Has(Read(log))
    ensures Read(log).draft.Idle? ==>
              client.headers.Pairs() == TableOf(AllHeaders(Read(log).done)) && client.field == None
                && client.value == None
  {
    hide TableOf, StrCmp, Take, Read, Known, Assembled, AllHeaders;
    client := new Client();
    ReadEmpty();
    NothingYet();
    assert log[..0] == [];
    var i := 0;
    while i < |log|
      invariant 0 <= i <= |log| && client.Has(Read(log[..i]))
      invariant fresh(client) && fresh(client.headers) && fresh(client.headers.v) && fresh(client.headers.v.data)
    {
      ReadPrefix(log, i);
      ReadPrefix(log, i + 1);
      ReadSane(log[..i]);
      assert log[..i + 1] == log[..i] + [log[i]];
      ReadSnoc(log[..i], log[i]);
      client.On(log[i], Read(log[..i]));
      i := i + 1;
    }
    assert log[..i] == log;
    if Read(log).draft.Idle? {
      HasIdle(Read(log), client.lastWasValue, client.field, client.value, client.headers.Pairs());
    }
  }

  // Any pieces of the same callbacks.

  lemma {:induction false} TakeApart(r: Reader, k: Channel, a: string, b: string)
    requires !Take(r, Data(k, a + b)).draft.Garbled? && !k.StatusData? && (k.BodyData? ==> a != [] && b != [])
    ensures var r' := Take(r, Data(k, a)); !r'.draft.Garbled? && !Take(r', Data(k, b)).draft.Garbled?
    ensures Take(Take(r, Data(k, a)), Data(k, b)) == Take(r, Data(k, a + b))
  {
    Apart(r, k, a, b);
    TakeTwice(r, k, a, b);
  }

  lemma {:induction false} Apart(r: Reader, k: Channel, a: string, b: string)
    requires !Take(r, Data(k, a + b)).draft.Garbled? && !k.StatusData? && (k.BodyData? ==> a != [] && b != [])
    ensures !Take(Take(r, Data(k, a)), Data(k, b)).draft.Garbled? && !Take(r, Data(k, a)).draft.Garbled?
  {
    hide MoreValue;
    if k.ValueData? && (r.draft.AtValue? && r.draft.m.headers != []) {
      MoreTwice(r.draft.m.headers, a, b);
    } else if k.ValueData? && r.draft.AtTrailerValue? && r.draft.m.trailers != [] {
      MoreTwice(r.draft.m.trailers, a, b);
    }
  }

  lemma {:induction false} JoinNoEmptyBody(log: seq<Event>)
    requires NoEmptyBody(log)
    ensures NoEmptyBody(Join(log))
    decreases |log|
  {
    if log != [] {
      JoinNoEmptyBody(log[..|log| - 1]);
    }
  }

  /** One more callback, joined to those before it. */
  lemma {:induction false} ReadJoined(j: seq<Event>, e: Event)
    requires !Read(Push(j, e)).draft.Garbled? && NoEmptyBody(j) && NoEmptyBody([e]) && !IsStatus(e)
    ensures !Read(j).draft.Garbled? && Read(Push(j, e)) == Take(Read(j), e)
  {
    hide Take, Read;
    if e.Data? && j != [] && j[|j| - 1].Data? && j[|j| - 1].channel == e.channel {
      var init, a := j[..|j| - 1], j[|j| - 1].bytes;
      assert [e][0] == e && j == init + [Data(e.channel, a)];
      ReadSnoc(init, Data(e.channel, a + e.bytes));
      TakeApart(Read(init), e.channel, a, e.bytes);
      ReadSnoc(init, Data(e.channel, a));
    } else {
      ReadSnoc(j, e);
      if Read(j).draft.Garbled? {
        GarbledStays(Read(j), e);
      }
    }
  }

  lemma NoEmptyInit(log: seq<Event>)
    requires NoEmptyBody(log) && log != []
    ensures NoEmptyBody(log[..|log| - 1]) && NoEmptyBody([log[|log| - 1]])
  {
  }

  predicate IsStatus(e: Event) { e.Data? && e.channel.StatusData? }

  predicate NoStatus(log: seq<Event>) { forall i :: 0 <= i < |log| ==> !IsStatus(log[i]) }

  lemma {:induction false} StatusStays(j: seq<Event>, e: Event)
    requires NoStatus(Push(j, e))
    ensures NoStatus(j) && !IsStatus(e)
  {
    var k := Push(j, e);
    assert !IsStatus(k[|k| - 1]);
    forall i | 0 <= i < |j| ensures !IsStatus(j[i]) { assert !IsStatus(k[i]); }
  }

  lemma {:induction false} HeadersNoStatus(hs: seq<Header>)
    ensures NoStatus(HeaderEvents(hs))
    decreases |hs|
  {
    if hs != [] {
      HeadersNoStatus(hs[..|hs| - 1]);
    }
  }

  /** Requests have no status. */
  lemma {:induction false} RequestsNoStatus(ms: seq<Message>)
    requires forall i :: 0 <= i < |ms| ==> ms[i].opening.Url?
    ensures NoStatus(AllEvents(ms))
    decreases |ms|
  {
    hide HeaderEvents;
    if ms != [] {
      var m := ms[|ms| - 1];
      RequestsNoStatus(ms[..|ms| - 1]);
      HeadersNoStatus(m.headers);
      HeadersNoStatus(m.trailers);
    }
  }

  /** Callbacks whose data, joined, can be read, can be read as they are. */
  lemma {:induction false} ReadPieces(log: seq<Event>)
    requires !Read(Join(log)).draft.Garbled? && NoEmptyBody(log) && NoStatus(Join(log))
    ensures Read(log) == Read(Join(log))
    decreases |log|
  {
    hide Take, Push, NoEmptyBody, NoStatus;
    if log != [] {
      var l, e := log[..|log| - 1], log[|log| - 1];
      StatusStays(Join(l), e);
      NoEmptyInit(log);
      JoinNoEmptyBody(l);
      ReadJoined(Join(l), e);
      ReadPieces(l);
    }
  }

  lemma {:induction false} ReadTwo(log: seq<Event>, name: string, value: string)
    ensures Read(log + [Data(FieldData, name), Data(ValueData, value)]) ==
            Take(Take(Read(log), Data(FieldData, name)), Data(ValueData, value))
  {
    hide Read, Take;
    ReadSnoc(log, Data(FieldData, name));
    ReadSnoc(log + [Data(FieldData, name)], Data(ValueData, value));
    assert log + [Data(FieldData, name)] + [Data(ValueData, value)] ==
      log + [Data(FieldData, name), Data(ValueData, value)];
  }

  lemma {:induction false} MoreHeader(log: seq<Event>, hs: seq<Header>)
    requires hs != []
    ensures var h := hs[|hs| - 1];
            log + HeaderEvents(hs[..|hs| - 1]) + [Data(FieldData, h.name), Data(ValueData, h.value)] ==
              log + HeaderEvents(hs)
    ensures hs == hs[..|hs| - 1] + [hs[|hs| - 1]]
  {
  }

  /** The draft of a message when its opening has been read. */
  function Started(o: Opening): Draft { if o.Status? && o.phrase == [] then Begun(o.again) else AtOpening(Opened(o)) }

  lemma {:induction false} ReadBegins(log: seq<Event>, n: nat)
    requires Read(log).draft.Idle?
    ensures Read(log + Begins(n) + [MessageBegin]) == Reader(Read(log).done, Begun(n))
  {
    hide Read;
    if n == 0 {
      assert log + Begins(0) == log;
    } else {
      ReadBegins(log, n - 1);
      assert log + Begins(n) == log + Begins(n - 1) + [MessageBegin];
    }
    ReadSnoc(log + Begins(n), MessageBegin);
  }

  lemma {:induction false} ReadOpening(log: seq<Event>, o: Opening)
    requires Read(log).draft.Idle?
    ensures Read(log + OpeningEvents(o)) == Reader(Read(log).done, Started(o))
  {
    hide Read, Begins;
    match o
    case Url(url) =>
      ReadSnoc(log, MessageBegin);
      ReadSnoc(log + [MessageBegin], Data(UrlData, url));
      assert log + [MessageBegin] + [Data(UrlData, url)] == log + OpeningEvents(o);
    case Status(n, phrase) =>
      ReadBegins(log, n);
      var begun := log + Begins(n) + [MessageBegin];
      ReadSnoc(begun, Data(StatusData, phrase));
      if phrase == [] {
        assert log + OpeningEvents(o) == begun;
      } else {
        assert log + OpeningEvents(o) == begun + [Data(StatusData, phrase)];
      }
  }

  lemma {:induction false} ReadHeaders(log: seq<Event>, m: Message, hs: seq<Header>)
    requires Read(log).draft == Started(m.opening) && m == Opened(m.opening)
    ensures Read(log + HeaderEvents(hs)) ==
            Reader(Read(log).done, if hs == [] then Started(m.opening) else AtValue(m.(headers := hs)))
    decreases |hs|
  {
    hide Read, HeaderEvents;
    if hs == [] {
      HeadersNone();
      assert log + [] == log;
    } else {
      var u, h := hs[..|hs| - 1], hs[|hs| - 1];
      ReadHeaders(log, m, u);
      ReadTwo(log + HeaderEvents(u), h.name, h.value);
      MoreHeader(log, hs);
    }
  }

  lemma {:induction false} ReadTrailers(log: seq<Event>, m: Message, hs: seq<Header>)
    requires Read(log).draft == AtBody(m) && m.trailers == []
    ensures Read(log + HeaderEvents(hs)) ==
            Reader(Read(log).done, if hs == [] then AtBody(m) else AtTrailerValue(m.(trailers := hs)))
    decreases |hs|
  {
    hide Read, HeaderEvents;
    if hs == [] {
      HeadersNone();
      assert log + [] == log;
    } else {
      var u, h := hs[..|hs| - 1], hs[|hs| - 1];
      ReadTrailers(log, m, u);
      ReadTwo(log + HeaderEvents(u), h.name, h.value);
      MoreHeader(log, hs);
    }
  }

  /** The callbacks for one more message are read as that message. */
  lemma {:induction false} EventsRead(log: seq<Event>, m: Message)
    requires Read(log).draft.Idle?
    ensures Read(log + Events(m)) == Reader(Read(log).done + [m], Idle)
  {
    hide Read, HeaderEvents, OpeningEvents;
    var m0 := Opened(m.opening);
    ReadOpening(log, m.opening);
    var start := log + OpeningEvents(m.opening);
    ReadHeaders(start, m0, m.headers);
    var head := log + HeadEvents(m);
    assert head == start + HeaderEvents(m.headers);
    ReadSnoc(head, HeadersComplete);
    var m1 := m0.(headers := m.headers);
    assert Read(head + [HeadersComplete]) == Reader(Read(log).done, AtBody(m1));
    if m.body == [] {
      assert head + [HeadersComplete] + [] == head + [HeadersComplete];
    } else {
      ReadSnoc(head + [HeadersComplete], Data(BodyData, m.body));
      assert [] + m.body == m.body;
    }
    var m2 := m1.(body := m.body);
    assert log + UpToBody(m) == head + [HeadersComplete] + BodyEvents(m.body);
    ReadTrailers(log + UpToBody(m), m2, m.trailers);
    ReadSnoc(log + UpToBody(m) + HeaderEvents(m.trailers), MessageComplete);
    assert log + Events(m) == log + UpToBody(m) + HeaderEvents(m.trailers) + [MessageComplete];
  }

  lemma {:induction false} AllEventsRead(ms: seq<Message>)
    ensures Read(AllEvents(ms)) == Reader(ms, Idle)
    decreases |ms|
  {
    hide Read, Events;
    if ms == [] {
      ReadEmpty();
    } else {
      var n := |ms| - 1;
      AllEventsRead(ms[..n]);
      EventsRead(AllEvents(ms[..n]), ms[n]);
      assert ms[..n] + [ms[n]] == ms;
    }
  }

  /** Whatever pieces the callbacks for any number of requests came in, the client's table is that of the
      headers of all of them: of a name that occurs in several, the first message's value stays. */
  method AssemblePieces(log: Callbacks, ms: seq<Message>) returns (client: Client)
    requires Join(log) == AllEvents(ms) && forall i :: 0 <= i < |ms| ==> ms[i].opening.Url?
    ensures client.Valid() && client.headers.Pairs() == TableOf(AllHeaders(ms))
    ensures client.field == None && client.value == None
  {
    hide Read, Join, AllEvents, TableOf, StrCmp, AllHeaders;
    AllEventsRead(ms);
    RequestsNoStatus(ms);
    ReadPieces(log);
    client := Assemble(log);
  }
}
