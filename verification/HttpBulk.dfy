/** What the bulk moves of http_parser_execute skip over, octet by octet. */
module HttpBulk {
  import opened Common
  import opened HttpTypes
  import opened HttpChars
  import opened HttpSpec
  import opened HttpInvariant
  import opened HttpMarks

  lemma {:induction false} SayMore(log: seq<Event>, k: Channel, data: string, p: nat, q: nat)
    requires p <= q < |data|
    ensures Say(Push(log, Data(k, data[p..q])), k, data[q]) == Push(log, Data(k, data[p..q + 1]))
  {
    hide Push;
    SayOn(log, k, data[p..q], data[q]);
    assert data[p..q] + [data[q]] == data[p..q + 1];
  }

  lemma {:induction false} SayFirst(log: seq<Event>, k: Channel, data: string, p: nat)
    requires p < |data|
    ensures Say(log, k, data[p]) == Push(log, Data(k, data[p..p + 1]))
  {
    hide Push;
    assert data[p..p + 1] == [data[p]];
  }

  predicate NoLineEnd(data: string, p: nat, q: nat)
    requires q <= |data|
  {
    forall i :: p <= i < q ==> data[i] != CR && data[i] != LF
  }

  lemma {:induction false} GeneralByte(c: Core, log: seq<Event>, ch: char)
    requires c.state == InHeader(Value) && c.hstate.General? && ch != CR && ch != LF
    ensures Byte(c, log, ch) == Go(c.(tally := c.tally + 1), Say(log, ValueData, ch))
  {
    hide Push;
  }

  /** A value nobody is watching: everything up to the end of the line is data. */
  lemma {:induction false} GeneralRun(c: Core, log: seq<Event>, data: string, p: nat, q: nat)
    requires c.state == InHeader(Value) && c.hstate.General?
    requires p < q <= |data| && NoLineEnd(data, p, q)
    ensures Run(c, log, data[p..])
         == Run(c.(tally := c.tally + (q - p)), Push(log, Data(ValueData, data[p..q])), data[q..])
    decreases q
  {
    hide Byte, Push, Run;
    if p + 1 == q {
      GeneralByte(c, log, data[p]);
      RunHere(c, log, data, p);
      SayFirst(log, ValueData, data, p);
    } else {
      GeneralRun(c, log, data, p, q - 1);
      var c' := c.(tally := c.tally + (q - 1 - p));
      var log' := Push(log, Data(ValueData, data[p..q - 1]));
      GeneralByte(c', log', data[q - 1]);
      RunHere(c', log', data, q - 1);
      SayMore(log, ValueData, data, p, q - 1);
    }
  }

  lemma {:induction false} BodyStep(c: Core, log: seq<Event>, ch: char)
    requires c.state == InBody(Identity) || c.state == InChunk(ChunkData)
    requires c.length > 1
    ensures Byte(c, log, ch) == Go(c.(length := c.length - 1), Say(log, BodyData, ch))
  {
    hide Push;
  }

  /** A body or chunk that does not end before q: the octets up to q are data. */
  lemma {:induction false} BodyRun(c: Core, log: seq<Event>, data: string, p: nat, q: nat)
    requires c.state == InBody(Identity) || c.state == InChunk(ChunkData)
    requires p < q <= |data| && q - p < c.length
    ensures Run(c, log, data[p..])
         == Run(c.(length := c.length - (q - p)), Push(log, Data(BodyData, data[p..q])), data[q..])
    decreases q
  {
    hide Byte, Push, Run;
    if p + 1 == q {
      BodyStep(c, log, data[p]);
      RunHere(c, log, data, p);
      SayFirst(log, BodyData, data, p);
    } else {
      BodyRun(c, log, data, p, q - 1);
      var c' := c.(length := c.length - (q - 1 - p));
      var log' := Push(log, Data(BodyData, data[p..q - 1]));
      BodyStep(c', log', data[q - 1]);
      RunHere(c', log', data, q - 1);
      SayMore(log, BodyData, data, p, q - 1);
    }
  }

  /** The last octet of an identity body is looked at again to complete the message. */
  lemma {:induction false} LastBodyByte(c: Core, log: seq<Event>, ch: char)
    requires c.state == InBody(Identity) && c.length == 1
    ensures Byte(c, log, ch) == Byte(c.(state := InBody(MessageDone), length := 0), Say(log, BodyData, ch), ch)
  {
    hide Push;
  }

  lemma {:induction false} IdentityEnds(c: Core, log: seq<Event>, data: string, p: nat, q: nat)
    requires c.state == InBody(Identity)
    requires p < q <= |data| && q - p == c.length
    ensures Run(c, log, data[p..])
         == Run(c.(state := InBody(MessageDone), length := 0), Push(log, Data(BodyData, data[p..q])), data[q - 1..])
  {
    hide Byte, Push, Run;
    var c1, log1 := c, log;
    if p + 1 < q {
      BodyRun(c, log, data, p, q - 1);
      c1, log1 := c.(length := 1), Push(log, Data(BodyData, data[p..q - 1]));
      SayMore(log, BodyData, data, p, q - 1);
    } else {
      SayFirst(log, BodyData, data, p);
    }
    LastBodyByte(c1, log1, data[q - 1]);
    RunHere(c1, log1, data, q - 1);
    RunHere(c1.(state := InBody(MessageDone), length := 0), Say(log1, BodyData, data[q - 1]), data, q - 1);
  }

  lemma {:induction false} LastChunkByte(c: Core, log: seq<Event>, ch: char)
    requires c.state == InChunk(ChunkData) && c.length == 1
    ensures Byte(c, log, ch) == Go(c.(state := InChunk(DataAlmostDone), length := 0), Say(log, BodyData, ch))
  {
    hide Push;
  }

  lemma {:induction false} ChunkEnds(c: Core, log: seq<Event>, data: string, p: nat, q: nat)
    requires c.state == InChunk(ChunkData)
    requires p < q <= |data| && q - p == c.length
    ensures Run(c, log, data[p..])
         == Run(c.(state := InChunk(DataAlmostDone), length := 0), Push(log, Data(BodyData, data[p..q])), data[q..])
  {
    hide Byte, Push, Run;
    var c1, log1 := c, log;
    if p + 1 < q {
      BodyRun(c, log, data, p, q - 1);
      c1, log1 := c.(length := 1), Push(log, Data(BodyData, data[p..q - 1]));
      SayMore(log, BodyData, data, p, q - 1);
    } else {
      SayFirst(log, BodyData, data, p);
    }
    LastChunkByte(c1, log1, data[q - 1]);
    RunHere(c1, log1, data, q - 1);
  }

  lemma {:induction false} EofByte(c: Core, log: seq<Event>, ch: char)
    requires c.state == InBody(IdentityEof)
    ensures Byte(c, log, ch) == Go(c, Say(log, BodyData, ch))
  {
    hide Push;
  }

  /** A body that lasts until the end of the connection. */
  lemma {:induction false} EofRun(c: Core, log: seq<Event>, data: string, p: nat, q: nat)
    requires c.state == InBody(IdentityEof) && p < q <= |data|
    ensures Run(c, log, data[p..]) == Run(c, Push(log, Data(BodyData, data[p..q])), data[q..])
    decreases q
  {
    hide Byte, Push, Run;
    if p + 1 == q {
      EofByte(c, log, data[p]);
      RunHere(c, log, data, p);
      SayFirst(log, BodyData, data, p);
    } else {
      EofRun(c, log, data, p, q - 1);
      var log' := Push(log, Data(BodyData, data[p..q - 1]));
      EofByte(c, log', data[q - 1]);
      RunHere(c, log', data, q - 1);
      SayMore(log, BodyData, data, p, q - 1);
    }
  }

  lemma {:induction false} FieldOctet(c: Core, log: seq<Event>, ch: char)
    requires c.state == InHeader(Field) && Token(ch) != '\0'
    ensures var (h, i) := NextField(c.hstate, c.index, Token(ch), ch);
            Byte(c, log, ch) == Go(c.(hstate := h, index := i, tally := c.tally + 1), Say(log, FieldData, ch))
  {
    hide Push, NextField, Token;
  }

  lemma NextFieldKept(h: HState, i: nat, c: char, ch: char)
    requires IsFieldState(h)
    ensures IsFieldState(NextField(h, i, c, ch).0)
  {
  }

  lemma {:induction false} ByteInHeader(c: Core, s: HeaderState, log: seq<Event>, ch: char)
    requires c.state == InHeader(s)
    ensures Byte(c, log, ch) == HeaderByte(c.(tally := c.tally + 1), s, log, ch)
    ensures s.Field? ==> Byte(c, log, ch) == FieldByte(c.(tally := c.tally + 1), log, ch)
    ensures s.Value? ==> Byte(c, log, ch) == ValueByte(c.(tally := c.tally + 1), log, ch)
    ensures s.FieldStart? ==> Byte(c, log, ch) == BeginField(c.(tally := c.tally + 1), log, ch)
    ensures s.ValueStart? ==> Byte(c, log, ch) == BeginValue(c.(tally := c.tally + 1), log, ch)
    ensures s.HeadersAlmostDone? ==> Byte(c, log, ch) == EndHeaders(c.(tally := c.tally + 1), log, ch)
    ensures s.HeadersDone? ==> Byte(c, log, ch) == StartBody(c.(tally := c.tally + 1), log, ch)
  {
    hide BeginField, FieldByte, BeginValue, ValueByte, EndHeaders, StartBody;
  }

  /** A bare line feed is looked at again as the end of the line. */
  lemma {:induction false} ValueAtLineFeed(c: Core, log: seq<Event>)
    requires c.state == InHeader(Value)
    ensures Byte(c, log, LF) == Byte(c.(state := InHeader(AlmostDone)), log, LF)
  {
    hide BeginField, FieldByte, BeginValue, EndHeaders, StartBody;
  }

  lemma ValueInv(c: Core)
    requires Inv(c) && c.state == InHeader(Value)
    ensures IsValueState(c.hstate) && Framed(c) && (c.hstate.ContentLength? ==> c.length < NO_LENGTH)
  {
  }

  lemma AlmostDoneInv(c: Core)
    requires c.state == InHeader(AlmostDone) && Framed(c)
    requires IsValueState(c.hstate) && (c.hstate.ContentLength? ==> c.length < NO_LENGTH)
    ensures Inv(c)
  {
  }

  lemma NextLength(i: nat, ch: char)
    ensures NextValue(ContentLength, i, ch) == (ContentLength, i)
  {
  }

  /** memchr(data + p, c, limit) */
  method MemChr(data: string, p: nat, c: char, limit: nat) returns (r: Option<nat>)
    requires p + limit <= |data|
    ensures r.Some? ==> p <= r.value < p + limit && data[r.value] == c && c !in data[p..r.value]
    ensures r.None? ==> c !in data[p..p + limit]
  {
    for i := p to p + limit
      invariant c !in data[p..i]
    {
      if data[i] == c {
        return Some(i);
      }
    }
    r := None;
  }

  /** The jump over an unwatched value.  Only the next 80 KiB are searched for the end of the line. */
  method SkipValue(data: string, p: nat) returns (q: nat)
    requires p < |data| && data[p] != CR && data[p] != LF
    ensures p < q <= |data|
    ensures q < |data| ==> data[q] == CR || data[q] == LF
    ensures NoLineEnd(data, p, q)
            || (q == |data| && q - p > MAX_HEADER_SIZE && NoLineEnd(data, p, p + MAX_HEADER_SIZE))
  {
    var limit := |data| - p;
    if limit > MAX_HEADER_SIZE {
      limit := MAX_HEADER_SIZE;
    }
    var cr := MemChr(data, p, CR, limit);
    var lf := MemChr(data, p, LF, limit);
    if cr.Some? {
      q := if lf.Some? && cr.value >= lf.value then lf.value else cr.value;
    } else if lf.Some? {
      q := lf.value;
    } else {
      q := |data|;
    }
    forall i | p <= i < q && i < p + limit
      ensures data[i] != CR && data[i] != LF
    {
      var end := if cr.Some? then cr.value else p + limit;
      var end' := if lf.Some? then lf.value else p + limit;
      assert data[i] == data[p..end][i - p] && data[i] == data[p..end'][i - p];
    }
  }

  lemma {:induction false} ByteIsDispatch(c: Core, log: seq<Event>, ch: char)
    ensures ParsingHeader(c.state) ==> Byte(c, log, ch) == Dispatch(c.(tally := c.tally + 1), log, ch)
    ensures !ParsingHeader(c.state) ==> Byte(c, log, ch) == Dispatch(c, log, ch)
  {
    hide Dispatch;
  }
}
