/** multipart_parser_execute, with its mark, its lookbehind buffer and its second looks at an octet. */
module MultipartParser {
  import opened MultipartSpec

  /** The callbacks of a client.  Each answers from what has been reported so far. */
  class Client {
    const answer: seq<Event> -> bool
    var log: seq<Event>
    /** A callback has returned something other than 0 since this was last cleared. */
    ghost var refused: bool

    constructor (answer: seq<Event> -> bool)
      ensures log == [] && this.answer == answer && !refused
    {
      this.answer, log, refused := answer, [], false;
    }

    ghost function Joined(): seq<Event>
      reads this
    {
      Join(log)
    }

    method Call(e: Event) returns (ok: bool)
      modifies this
      ensures log == old(log) + [e] && ok == answer(log) && refused == (old(refused) || !ok)
      ensures Joined() == Push(old(Joined()), e)
    {
      log := log + [e];
      ok := answer(log);
      refused := refused || !ok;
      JoinSnoc(old(log), e);
    }
  }

  /** Header text between the mark and the octet at i that has not been reported. */
  function Held(s: State, buf: string, mark: nat, i: nat): string
    requires mark <= i <= |buf|
  {
    if (s.HeaderField? || s.HeaderValue?) && i < |buf| then buf[mark..i] else []
  }

  /** What will have been reported once the part data behind i has been. */
  function Seen(s: State, log: seq<Event>, buf: string, mark: nat, i: nat): seq<Event>
    requires mark <= i <= |buf|
  {
    if s.InPartData? && mark < i < |buf| then Push(log, Data(PartData, buf[mark..i])) else log
  }

  /** How the treatment of an octet ends: on to the next one, the same again, or a return. */
  datatype Turn = Next | Again | Return

  class Parser {
    const boundary: string
    const lookbehind: array<char>
    var state: State
    var index: nat

    function Fields(): Core
      reads this
    {
      Core(state, index)
    }

    /** The lookbehind buffer holds what was kept back. */
    ghost predicate Valid()
      reads this, lookbehind
    {
      && boundary != [] && lookbehind.Length == |boundary| + 9
      && (state.PartDataBoundary? ==> index < |boundary|)
      && lookbehind[..Matched(Fields())] == Delimiter(boundary)[..Matched(Fields())]
    }

    /** The callback at the end of a part has refused, so that the parser still expects the boundary to go on. */
    ghost predicate Overrun()
      reads this
    {
      state.PartDataBoundary? && index == |boundary|
    }

    /** multipart_parser_init */
    constructor (boundary: string)
      ensures boundary != [] ==> Valid()
      ensures Fields() == Core(Start, 0) && this.boundary == boundary && fresh(lookbehind)
    {
      this.boundary := boundary;
      lookbehind := new char[|boundary| + 9];
      state, index := Start, 0;
      new;
      assert lookbehind[..0] == Delimiter(boundary)[..0];
    }

    /** What the treatment of the octet at i owes. */
    twostate predicate Treated(client: Client, buf: string, i: nat, mark: nat, turn: Turn, mark': nat)
      requires mark <= i < |buf|
      reads this, lookbehind, client
    {
      var r := Octet(boundary, old(Fields()), Held(old(state), buf, mark, i),
        Seen(old(state), old(client.Joined()), buf, mark, i),
                     buf[i], i == |buf| - 1);
      && old(client.log) <= client.log
      && (client.refused ==>
            turn.Return? && old(client.log) < client.log && !client.answer(client.log)
            && Leads(client.Joined(), r.log))
      && (Valid() || (client.refused && Overrun()))
      && (turn.Next? ==>
            r.going && r.core == Fields() && Valid() && mark' <= i + 1
            && r.held == Held(state, buf, mark', i + 1) && r.log == Seen(state, client.Joined(), buf, mark', i + 1))
      && (turn.Again? ==>
            Valid() && state.InPartData? && !old(state).InPartData? && mark' == i
            && r == Octet(boundary, Fields(), [], client.Joined(), buf[i], i == |buf| - 1))
      && (turn.Return? ==> client.refused || (!r.going && r.core == Fields() && r.log == client.Joined()))
    }

    method FirstBoundaryTurn(client: Client, buf: string, i: nat, ghost mark: nat) returns (turn: Turn)
      requires Valid() && !client.refused && mark <= i < |buf| && (state.Start? || state.StartBoundary?)
      modifies this, client
      ensures Treated(client, buf, i, mark, turn, i)
    {
      hide Push, Join;
      var c := buf[i];
      if state == Start {
        index := 0;
        state := StartBoundary;
      }
      if index == |boundary| {
        if c != CR {
          return Return;
        }
        index := index + 1;
        return Next;
      } else if index == |boundary| + 1 {
        if c != LF {
          return Return;
        }
        index := 0;
        var ok := client.Call(PartDataBegin);
        if !ok {
          return Return;
        }
        state := HeaderFieldStart;
        return Next;
      }
      if index > |boundary| || c != boundary[index] {
        return Return;
      }
      index := index + 1;
      return Next;
    }

    method FieldTurn(client: Client, buf: string, i: nat, mark: nat) returns (turn: Turn, mark': nat)
      requires Valid() && !client.refused && mark <= i < |buf| && (state.HeaderFieldStart? || state.HeaderField?)
      modifies this, client
      ensures Treated(client, buf, i, mark, turn, mark')
    {
      hide Push, Join;
      var c := buf[i];
      var isLast := i == |buf| - 1;
      mark' := mark;
      if state == HeaderFieldStart {
        mark' := i;
        state := HeaderField;
      }
      assert buf[mark'..i] + [c] == buf[mark'..i + 1];
      if c == CR {
        state := HeadersAlmostDone;
        return Next, mark';
      }
      if c == '-' {
        return Next, mark';
      }
      if c == ':' {
        var ok := client.Call(Data(Field, buf[mark'..i]));
        if !ok {
          return Return, mark';
        }
        state := HeaderValueStart;
        return Next, mark';
      }
      if !IsLetter(c) {
        return Return, mark';
      }
      if isLast {
        var ok := client.Call(Data(Field, buf[mark'..i + 1]));
        if !ok {
          return Return, mark';
        }
      }
      turn := Next;
    }

    method ValueTurn(client: Client, buf: string, i: nat, mark: nat) returns (turn: Turn, mark': nat)
      requires Valid() && !client.refused && mark <= i < |buf| && (state.HeaderValueStart? || state.HeaderValue?)
      modifies this, client
      ensures Treated(client, buf, i, mark, turn, mark')
    {
      hide Push, Join;
      var c := buf[i];
      var isLast := i == |buf| - 1;
      mark' := mark;
      if state == HeaderValueStart {
        if c == ' ' {
          return Next, mark';
        }
        mark' := i;
        state := HeaderValue;
      }
      assert buf[mark'..i] + [c] == buf[mark'..i + 1];
      if c == CR {
        var ok := client.Call(Data(FieldValue, buf[mark'..i]));
        if !ok {
          LeadsPush(client.Joined(), Data(FieldValue, buf[mark'..i + 1]));
          return Return, mark';
        }
        state := HeaderValueAlmostDone;
      }
      if isLast {
        var ok := client.Call(Data(FieldValue, buf[mark'..i + 1]));
        if !ok {
          return Return, mark';
        }
      }
      turn := Next;
    }

    lemma {:induction false} MoreData(log: seq<Event>, buf: string, mark: nat, i: nat)
      requires mark <= i < |buf|
      ensures Push(Seen(InPartData, log, buf, mark, i), Data(PartData, [buf[i]])) ==
              Push(log, Data(PartData, buf[mark..i + 1]))
      ensures Push(Seen(InPartData, log, buf, mark, i), Data(PartData, [])) == Push(log, Data(PartData, buf[mark..i]))
    {
      hide Push;
      PushPush(log, PartData, buf[mark..i], [buf[i]]);
      PushPush(log, PartData, buf[mark..i], []);
      assert buf[mark..i] + [buf[i]] == buf[mark..i + 1] && buf[mark..i] + [] == buf[mark..i];
      if mark == i {
        assert buf[mark..i] == [] && buf[mark..i + 1] == [buf[i]];
      }
    }

    method DataTurn(client: Client, buf: string, i: nat, mark: nat) returns (turn: Turn, mark': nat)
      requires Valid() && !client.refused && mark <= i < |buf| && (state.PartDataStart? || state.InPartData?)
      modifies this, client, lookbehind
      ensures Treated(client, buf, i, mark, turn, mark')
    {
      hide Push, Join, Leads;
      var c := buf[i];
      var isLast := i == |buf| - 1;
      mark' := mark;
      if state == PartDataStart {
        var ok := client.Call(HeadersComplete);
        if !ok {
          DataLeads(old(Fields()), client.Joined(), BodyEnd, c);
          return Return, mark';
        }
        mark' := i;
        state := InPartData;
      }
      MoreData(client.Joined(), buf, mark', i);
      if c == CR {
        var ok := client.Call(Data(PartData, buf[mark'..i]));
        if !ok {
          LeadsPush(client.Joined(), BodyEnd);
          return Return, mark';
        }
        mark' := i;
        state := PartDataAlmostBoundary;
        lookbehind[0] := CR;
        assert lookbehind[..1] == [CR];
        return Next, mark';
      }
      if isLast {
        var ok := client.Call(Data(PartData, buf[mark'..i + 1]));
        if !ok {
          LeadsPush(client.Joined(), BodyEnd);
          return Return, mark';
        }
      }
      turn := Next;
    }

    /** After a CR in part data. */
    method ReturnTurn(client: Client, buf: string, i: nat, mark: nat) returns (turn: Turn, mark': nat)
      requires Valid() && !client.refused && mark <= i < |buf| && state.PartDataAlmostBoundary?
      modifies this, client, lookbehind
      ensures Treated(client, buf, i, mark, turn, mark')
    {
      hide Push, Join;
      var c := buf[i];
      mark' := mark;
      if c == LF {
        state := PartDataBoundary;
        lookbehind[1] := LF;
        index := 0;
        assert lookbehind[..2] == [CR, LF];
        return Next, mark';
      }
      assert lookbehind[..1] == [CR];
      var ok := client.Call(Data(PartData, lookbehind[..1]));
      if !ok {
        DataLeads(old(Fields()), client.Joined(), BodyEnd, c);
        return Return, mark';
      }
      state := InPartData;
      return Again, i;
    }

    method DelimiterTurn(client: Client, buf: string, i: nat, mark: nat) returns (turn: Turn, mark': nat)
      requires Valid() && !client.refused && mark <= i < |buf| && state.PartDataBoundary?
      modifies this, client, lookbehind
      ensures Treated(client, buf, i, mark, turn, mark')
    {
      hide Push, Join;
      var c := buf[i];
      mark' := mark;
      if boundary[index] != c {
        assert lookbehind[..2 + index] == [CR, LF] + boundary[..index];
        var ok := client.Call(Data(PartData, lookbehind[..2 + index]));
        if !ok {
          DataLeads(old(Fields()), client.Joined(), BodyEnd, c);
          return Return, mark';
        }
        state := InPartData;
        return Again, i;
      }
      lookbehind[2 + index] := c;
      assert lookbehind[..2 + index] == Delimiter(boundary)[..2 + index];
      assert lookbehind[..3 + index] == lookbehind[..2 + index] + [c] == Delimiter(boundary)[..3 + index];
      index := index + 1;
      if index == |boundary| {
        var ok := client.Call(PartDataEnded);
        if !ok {
          return Return, mark';
        }
        state := PartDataAlmostEnd;
      }
      turn := Next;
    }

    method EndTurn(client: Client, buf: string, i: nat, ghost mark: nat) returns (turn: Turn)
      requires Valid() && !client.refused && mark <= i < |buf|
      requires state.HeadersAlmostDone? || state.HeaderValueAlmostDone? || state.PartDataAlmostEnd?
               || state.PartDataFinalHyphen? || state.PartDataEnd? || state.EndState?
      modifies this, client
      ensures Treated(client, buf, i, mark, turn, i)
    {
      hide Push, Join;
      var c := buf[i];
      match state {
        case HeadersAlmostDone =>
          if c != LF {
            return Return;
          }
          state := PartDataStart;
        case HeaderValueAlmostDone =>
          if c != LF {
            return Return;
          }
          state := HeaderFieldStart;
        case PartDataAlmostEnd =>
          if c == '-' {
            state := PartDataFinalHyphen;
          } else if c == CR {
            state := PartDataEnd;
          } else {
            return Return;
          }
        case PartDataFinalHyphen =>
          if c != '-' {
            return Return;
          }
          var ok := client.Call(BodyEnd);
          if !ok {
            return Return;
          }
          state := EndState;
        case PartDataEnd =>
          if c != LF {
            return Return;
          }
          state := HeaderFieldStart;
          var ok := client.Call(PartDataBegin);
          if !ok {
            return Return;
          }
        case EndState =>
      }
      turn := Next;
    }

    /** The switch. */
    method Treat(client: Client, buf: string, i: nat, mark: nat) returns (turn: Turn, mark': nat)
      requires Valid() && !client.refused && mark <= i < |buf|
      modifies this, client, lookbehind
      ensures Treated(client, buf, i, mark, turn, mark')
    {
      hide Treated, Octet, Valid;
      mark' := i;
      if state.Start? || state.StartBoundary? {
        turn := FirstBoundaryTurn(client, buf, i, mark);
      } else if state.HeaderFieldStart? || state.HeaderField? {
        turn, mark' := FieldTurn(client, buf, i, mark);
      } else if state.HeaderValueStart? || state.HeaderValue? {
        turn, mark' := ValueTurn(client, buf, i, mark);
      } else if state.PartDataStart? || state.InPartData? {
        turn, mark' := DataTurn(client, buf, i, mark);
      } else if state.PartDataAlmostBoundary? {
        turn, mark' := ReturnTurn(client, buf, i, mark);
      } else if state.PartDataBoundary? {
        turn, mark' := DelimiterTurn(client, buf, i, mark);
      } else {
        turn := EndTurn(client, buf, i, mark);
      }
    }

    /** multipart_parser_execute.  The parser ends where the octet-by-octet meaning of the buffer
        ends, unless a callback refuses; then it returns at the octet it had got to.  Whether an earlier
        call was refused does not matter. */
    method Execute(client: Client, buf: string) returns (n: nat)
      requires Valid()
      modifies this, client, lookbehind
      ensures n <= |buf| && old(client.log) <= client.log
      ensures client.refused ==>
                n < |buf| && old(client.log) < client.log && !client.answer(client.log)
                && Leads(client.Joined(), old(Scan(boundary, Fields(), [], client.Joined(), buf, false)).log)
      ensures Valid() || (client.refused && Overrun())
      ensures var r := old(Scan(boundary, Fields(), [], client.Joined(), buf, false));
              !client.refused ==>
                r.core == Fields() && r.log == client.Joined() && r.rest == buf[n..] && (n == |buf| ==> r.held == [])
    {
      hide Octet, Join, Push, Scan, Valid, Delimiter, Leads;
      ghost var goal := Scan(boundary, Fields(), [], client.Joined(), buf, false);
      var i: nat, mark: nat := 0, 0;
      assert buf[0..] == buf;
      client.refused := false;
      while i < |buf|
        invariant mark <= i <= |buf| && Valid() && !client.refused && old(client.log) <= client.log
        invariant goal ==
                  Scan(boundary, Fields(), Held(state, buf, mark, i), Seen(state, client.Joined(), buf, mark, i),
                    buf[i..], false)
        decreases |buf| - i, if state.InPartData? then 0 else 1
      {
        ghost var c, held, log := Fields(), Held(state, buf, mark, i), Seen(state, client.Joined(), buf, mark, i);
        ScanHere(boundary, c, held, log, buf, i, false);
        var turn;
        turn, mark := Treat(client, buf, i, mark);
        ghost var r := Octet(boundary, c, held, log, buf[i], i == |buf| - 1);
        if client.refused {
          ScanLeads(boundary, r.core, r.held, r.log, buf[i + 1..], false);
          LeadsOn(client.Joined(), r.log, goal.log);
        }
        ScanHere(boundary, Fields(), [], client.Joined(), buf, i, false);
        match turn {
          case Return => return i;
          case Again =>
          case Next => i := i + 1;
        }
      }
      n := |buf|;
      assert buf[i..] == [];
      ScanNothing(boundary, Fields(), client.Joined());
    }
  }

  lemma ScanNothing(boundary: string, c: Core, log: seq<Event>)
    ensures Scan(boundary, c, [], log, [], false) == Result(c, [], log, [])
  {
  }
}
