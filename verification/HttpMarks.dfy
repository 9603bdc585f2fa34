/** The mark pointers of http_parser_execute and what they stand for: data seen but not yet reported. */
module HttpMarks {
  import opened Common
  import opened HttpTypes
  import opened HttpSpec
  import opened HttpInvariant

  /** url_mark, status_mark, header_field_mark, header_value_mark and body_mark. */
  datatype Marks = Marks(
    url: Option<nat>, status: Option<nat>, field: Option<nat>, value: Option<nat>, body: Option<nat>)
  {
    function Get(k: Channel): Option<nat> {
      match k
      case UrlData => url case StatusData => status case FieldData => field case ValueData => value
      case BodyData => body
    }

    function Put(k: Channel, o: Option<nat>): Marks {
      match k
      case UrlData => this.(url := o) case StatusData => this.(status := o) case FieldData => this.(field := o)
      case ValueData => this.(value := o) case BodyData => this.(body := o)
    }

    /** MARK: non-destructive if the mark is already set. */
    function Set(k: Channel, p: nat): Marks { if Get(k).Some? then this else Put(k, Some(p)) }

    /** How many marks are set. */
    function Count(): nat {
      One(url) + One(status) + One(field) + One(value) + One(body)
    }

    static function One(o: Option<nat>): nat { if o.Some? then 1 else 0 }
  }

  const NO_MARKS := Marks(None, None, None, None, None)

  function Only(k: Channel, m: nat): Marks { NO_MARKS.Put(k, Some(m)) }

  predicate CarriesBody(s: State) {
    (s.InBody? && !s.body.MessageDone?) || (s.InChunk? && (s.chunk.ChunkData? || s.chunk.DataAlmostDone?))
  }

  /** Which marks may be set in a state, at position p of the buffer. */
  predicate MarksFit(s: State, m: Marks, p: nat) {
    match Speaking(s)
    case Some(k) => m.Get(k).Some? && m.Get(k).value <= p && m == Only(k, m.Get(k).value)
    case None =>
      m == NO_MARKS
      || (CarriesBody(s) && m.body.Some? && m.body.value < p && m == Only(BodyData, m.body.value))
  }

  lemma MarksInField(m: Marks, p: nat)
    requires MarksFit(InHeader(Field), m, p)
    ensures m.field.Some? && m.field.value <= p && m == Only(FieldData, m.field.value)
  {
  }

  lemma MarksInValue(m: Marks, p: nat)
    requires MarksFit(InHeader(Value), m, p)
    ensures m.value.Some? && m.value.value <= p && m == Only(ValueData, m.value.value)
  {
  }

  lemma BodyMarks(s: State, m: Marks, p: nat)
    requires CarriesBody(s) && m.body.Some? && m.body.value < p && m == Only(BodyData, m.body.value)
    ensures MarksFit(s, m, p)
  {
  }

  lemma NoMarks(s: State, m: Marks, p: nat)
    requires MarksFit(s, m, p) && Speaking(s).None? && !CarriesBody(s)
    ensures m == NO_MARKS
  {
  }

  /** At most one mark is ever set. */
  lemma {:induction false} OneMark(s: State, m: Marks, p: nat)
    requires MarksFit(s, m, p)
    ensures m.Count() <= 1
    ensures m == NO_MARKS || (exists k :: m.Get(k).Some? && m == Only(k, m.Get(k).value))
  {
    if Speaking(s).Some? {
      HolderOfOnly(Speaking(s).value, m.Get(Speaking(s).value).value);
    } else if m != NO_MARKS {
      HolderOfOnly(BodyData, m.body.value);
      assert m.Get(BodyData).Some?;
    }
  }

  lemma FitIsOnly(s: State, m: Marks, k: Channel, p: nat)
    requires MarksFit(s, m, p) && m.Get(k).Some?
    ensures m == Only(k, m.Get(k).value) && m.Get(k).value <= p
  {
  }

  lemma MarksStayFit(s: State, m: Marks, p: nat, q: nat)
    requires p <= q
    ensures MarksFit(s, m, p) ==> MarksFit(s, m, q)
    ensures Speaking(s).None? ==> MarksFit(s, NO_MARKS, q)
  {
  }

  /** The callbacks so far together with the data the marks are holding back. */
  function Pending(log: seq<Event>, m: Marks, data: string, p: nat): seq<Event>
    requires p <= |data|
  {
    match Holder(m)
    case None => log
    case Some((k, i)) => if i <= p then Push(log, Data(k, data[i..p])) else log
  }

  function Holder(m: Marks): Option<(Channel, nat)> {
    if m.url.Some? then Some((UrlData, m.url.value))
    else if m.status.Some? then Some((StatusData, m.status.value))
    else if m.field.Some? then Some((FieldData, m.field.value))
    else if m.value.Some? then Some((ValueData, m.value.value))
    else if m.body.Some? then Some((BodyData, m.body.value))
    else None
  }

  lemma HolderOfOnly(k: Channel, m: nat)
    ensures Holder(Only(k, m)) == Some((k, m)) && Holder(NO_MARKS) == None
    ensures Only(k, m).Get(k) == Some(m) && Only(k, m).Put(k, None) == NO_MARKS
    ensures Only(k, m).Count() == 1
  {
  }

  lemma {:induction false} PendingNone(log: seq<Event>, data: string, p: nat)
    requires p <= |data|
    ensures Pending(log, NO_MARKS, data, p) == log
  {
    HolderOfOnly(UrlData, 0);
  }

  lemma {:induction false} PushPush(log: seq<Event>, k: Channel, a: string, b: string)
    ensures Push(Push(log, Data(k, a)), Data(k, b)) == Push(log, Data(k, a + b))
  {
    if LastSpoke(log, k) {
      assert log[|log| - 1].bytes + a + b == log[|log| - 1].bytes + (a + b);
    }
  }

  lemma {:induction false} SayOn(log: seq<Event>, k: Channel, u: string, ch: char)
    ensures Say(Push(log, Data(k, u)), k, ch) == Push(log, Data(k, u + [ch]))
  {
    hide Push;
    PushPush(log, k, u, [ch]);
  }

  lemma {:induction false} PushNothing(log: seq<Event>, k: Channel)
    requires LastSpoke(log, k)
    ensures Push(log, Data(k, [])) == log
  {
    assert log[|log| - 1].bytes + [] == log[|log| - 1].bytes;
  }

  lemma {:induction false} JoinSnoc(log: seq<Event>, e: Event)
    ensures Join(log + [e]) == Push(Join(log), e)
  {
    assert (log + [e])[..|log|] == log;
  }

  /** An octet under a mark is one more octet held back. */
  lemma {:induction false} PendingGrows(log: seq<Event>, k: Channel, m: nat, data: string, p: nat)
    requires m <= p < |data|
    ensures Pending(log, Only(k, m), data, p + 1) == Say(Pending(log, Only(k, m), data, p), k, data[p])
  {
    hide Push;
    HolderOfOnly(k, m);
    PushPush(log, k, data[m..p], [data[p]]);
    assert data[m..p] + [data[p]] == data[m..p + 1];
  }

  lemma {:induction false} PendingJumps(log: seq<Event>, k: Channel, m: nat, data: string, p: nat, q: nat)
    requires m <= p <= q <= |data|
    ensures Pending(log, Only(k, m), data, q) == Push(Pending(log, Only(k, m), data, p), Data(k, data[p..q]))
  {
    hide Push;
    HolderOfOnly(k, m);
    PushPush(log, k, data[m..p], data[p..q]);
    assert data[m..p] + data[p..q] == data[m..q];
  }

  /** A mark set at an octet holds back just that octet. */
  lemma {:induction false} PendingStarts(log: seq<Event>, k: Channel, data: string, p: nat)
    requires p < |data|
    ensures Pending(log, Only(k, p), data, p + 1) == Say(log, k, data[p])
  {
    hide Push;
    HolderOfOnly(k, p);
    assert data[p..p + 1] == [data[p]];
  }

  /** The marks set on entry hold nothing back. */
  lemma {:induction false} PendingAtStart(log: seq<Event>, k: Channel, data: string)
    requires LastSpoke(log, k)
    ensures Pending(log, Only(k, 0), data, 0) == log
  {
    HolderOfOnly(k, 0);
    PushNothing(log, k);
    assert data[0..0] == [];
  }

  /** A run of body octets under the body mark, old or new. */
  lemma {:induction false} PendingBody(log: seq<Event>, s: State, m: Marks, data: string, p: nat, q: nat)
    requires CarriesBody(s) && MarksFit(s, m, p) && p < q <= |data|
    ensures Pending(log, m.Set(BodyData, p), data, q) == Push(Pending(log, m, data, p), Data(BodyData, data[p..q]))
    ensures m.Set(BodyData, p).body.Some? && m.Set(BodyData, p).body.value <= p
    ensures m.Set(BodyData, p) == Only(BodyData, m.Set(BodyData, p).body.value)
  {
    hide Push, Pending;
    PendingNone(log, data, p);
    if m == NO_MARKS {
      PendingWhole(log, BodyData, data, p, q);
    } else {
      PendingJumps(log, BodyData, m.body.value, data, p, q);
    }
  }

  lemma {:induction false} PendingWhole(log: seq<Event>, k: Channel, data: string, p: nat, q: nat)
    requires p <= q <= |data|
    ensures Pending(log, Only(k, p), data, q) == Push(log, Data(k, data[p..q]))
  {
    HolderOfOnly(k, p);
  }

  /** A state that goes with data has just had some. */
  lemma {:induction false} PendingSpoke(log: seq<Event>, s: State, m: Marks, data: string, p: nat)
    requires MarksFit(s, m, p) && p <= |data|
    ensures Spoke(s, Pending(log, m, data, p))
  {
    if Speaking(s).Some? {
      HolderOfOnly(Speaking(s).value, m.Get(Speaking(s).value).value);
    }
  }

  /** A mark set at an octet that is not part of the data reports empty data. */
  lemma {:induction false} PendingEmpty(log: seq<Event>, k: Channel, data: string, p: nat)
    requires p <= |data|
    ensures Pending(log, Only(k, p), data, p) == Push(log, Data(k, []))
  {
    HolderOfOnly(k, p);
    assert data[p..p] == [];
  }

  /** What a failing run reported, against what it had seen: the marked data is missing. */
  ghost predicate Withheld(reported: seq<Event>, seen: seq<Event>) {
    seen == reported || exists k, bytes :: seen == Push(reported, Data(k, bytes))
  }

  lemma {:induction false} PendingWithheld(log: seq<Event>, m: Marks, data: string, p: nat)
    requires p <= |data|
    ensures Withheld(log, Pending(log, m, data, p))
  {
    hide Push;
    match Holder(m)
    case None =>
    case Some((k, i)) =>
      if i <= p {
        assert Pending(log, m, data, p) == Push(log, Data(k, data[i..p]));
      }
  }
}
