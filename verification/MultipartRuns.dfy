/** However the input of the multipart parser is cut, it ends in the same state and has made the same
    notifications and delivered the same part data. */
module MultipartRuns {
  import opened MultipartSpec
  import opened MultipartParser
  import opened Common

  predicate IsHeaderText(e: Event) { e.Data? && !e.channel.PartData? }

  /** The log without header names and values, whose pieces do depend on how the input is cut. */
  function Visible(log: seq<Event>): seq<Event> {
    if log == [] then []
    else if IsHeaderText(log[|log| - 1]) then Visible(log[..|log| - 1])
    else Visible(log[..|log| - 1]) + [log[|log| - 1]]
  }

  predicate InData(s: State) { s.InPartData? || s.PartDataAlmostBoundary? || s.PartDataBoundary? }

  /** While part data is read, the last callback was not about a header. */
  predicate Quiet(c: Core, log: seq<Event>) { InData(c.state) ==> log != [] && !IsHeaderText(log[|log| - 1]) }

  lemma {:induction false} VisiblePush(log: seq<Event>, e: Event)
    requires e.Data? && !IsHeaderText(e) ==> log != [] && !IsHeaderText(log[|log| - 1])
    ensures Visible(Push(log, e)) == if IsHeaderText(e) then Visible(log) else Push(Visible(log), e)
    ensures !IsHeaderText(e) ==> Push(log, e) != [] && !IsHeaderText(Push(log, e)[|Push(log, e)| - 1])
  {
    if e.Data? && log != [] && log[|log| - 1].Data? && log[|log| - 1].channel == e.channel {
      var init, last := log[..|log| - 1], log[|log| - 1];
      assert (init + [Data(e.channel, last.bytes + e.bytes)])[..|init|] == init;
      assert !IsHeaderText(e) ==> (Visible(init) + [last])[..|Visible(init)|] == Visible(init);
    } else {
      assert (log + [e])[..|log|] == log;
      if !IsHeaderText(e) && log != [] && !IsHeaderText(log[|log| - 1]) {
        assert Visible(log)[|Visible(log)| - 1] == log[|log| - 1];
      }
    }
  }

  /** Two steps that differ in header text only. */
  predicate Alike(r: Step, r': Step) {
    && r.core == r'.core && r.going == r'.going && Visible(r.log) == Visible(r'.log)
    && (r.going ==> Quiet(r.core, r.log) && Quiet(r'.core, r'.log))
  }

  predicate SameSoFar(c: Core, log: seq<Event>, log': seq<Event>) {
    Visible(log) == Visible(log') && Quiet(c, log) && Quiet(c, log')
  }

  /** A notification, or header text. */
  lemma {:induction false} NotesAlike(log: seq<Event>, log': seq<Event>, e: Event)
    requires Visible(log) == Visible(log') && !e.Data?
    ensures Visible(Push(log, e)) == Visible(Push(log', e))
  {
    hide Push, Visible;
    VisiblePush(log, e);
    VisiblePush(log', e);
  }

  lemma {:induction false} TextAlike(log: seq<Event>, e: Event)
    requires IsHeaderText(e)
    ensures Visible(Push(log, e)) == Visible(log)
  {
    hide Push, Visible;
    VisiblePush(log, e);
  }

  lemma {:induction false} FirstAlike(boundary: string, c: Core, log: seq<Event>, log': seq<Event>, ch: char)
    requires Visible(log) == Visible(log') && c.state.StartBoundary?
    ensures Alike(FirstBoundary(boundary, c, log, ch), FirstBoundary(boundary, c, log', ch))
  {
    hide Push, Visible;
    NotesAlike(log, log', PartDataBegin);
  }

  lemma {:induction false} FieldAlike(
    c: Core, held: string, log: seq<Event>, last: bool, held': string, log': seq<Event>, last': bool, ch: char)
    requires Visible(log) == Visible(log') && c.state.HeaderField?
    ensures Alike(FieldOctet(c, held, log, ch, last), FieldOctet(c, held', log', ch, last'))
  {
    hide Push, Visible, IsLetter;
    TextAlike(log, Data(Field, held));
    TextAlike(log', Data(Field, held'));
    TextAlike(log, Data(Field, held + [ch]));
    TextAlike(log', Data(Field, held' + [ch]));
  }

  lemma {:induction false} ValueAlike(
    c: Core, held: string, log: seq<Event>, last: bool, held': string, log': seq<Event>, last': bool, ch: char)
    requires Visible(log) == Visible(log') && c.state.HeaderValue?
    ensures Alike(ValueOctet(c, held, log, ch, last), ValueOctet(c, held', log', ch, last'))
  {
    hide Push, Visible;
    TextAlike(log, Data(FieldValue, held));
    TextAlike(log', Data(FieldValue, held'));
    TextAlike(log, Data(FieldValue, held + [ch]));
    TextAlike(log', Data(FieldValue, held' + [ch]));
    TextAlike(Push(log, Data(FieldValue, held)), Data(FieldValue, held + [ch]));
    TextAlike(Push(log', Data(FieldValue, held')), Data(FieldValue, held' + [ch]));
  }

  lemma {:induction false} OtherAlike(
    boundary: string, c: Core, held: string, log: seq<Event>, last: bool, held': string, log': seq<Event>, last': bool,
      ch: char)
    requires Visible(log) == Visible(log')
    requires c.state.HeadersAlmostDone? || c.state.HeaderValueAlmostDone? || c.state.PartDataAlmostEnd?
             || c.state.PartDataFinalHyphen? || c.state.PartDataEnd? || c.state.EndState?
    ensures Alike(Octet(boundary, c, held, log, ch, last), Octet(boundary, c, held', log', ch, last'))
  {
    hide Push, Visible;
    NotesAlike(log, log', PartDataBegin);
    NotesAlike(log, log', BodyEnd);
  }

  lemma {:induction false} HeaderAlike(
    boundary: string, c: Core, held: string, log: seq<Event>, last: bool, held': string, log': seq<Event>, last': bool,
      ch: char)
    requires SameSoFar(c, log, log') && !InData(c.state) && !c.state.PartDataStart?
    ensures Alike(Octet(boundary, c, held, log, ch, last), Octet(boundary, c, held', log', ch, last'))
  {
    hide Visible, FirstBoundary, FieldOctet, ValueOctet, Alike;
    if c.state.Start? || c.state.StartBoundary? {
      FirstAlike(boundary, Core(StartBoundary, 0), log, log', ch);
      if c.state.StartBoundary? {
        FirstAlike(boundary, c, log, log', ch);
      }
    } else if c.state.HeaderFieldStart? || c.state.HeaderField? {
      FieldAlike(c.(state := HeaderField), [], log, last, [], log', last', ch);
      FieldAlike(c.(state := HeaderField), held, log, last, held', log', last', ch);
    } else if c.state.HeaderValueStart? || c.state.HeaderValue? {
      ValueAlike(c.(state := HeaderValue), [], log, last, [], log', last', ch);
      ValueAlike(c.(state := HeaderValue), held, log, last, held', log', last', ch);
      SkipAlike(c, log, log');
    } else {
      OtherAlike(boundary, c, held, log, last, held', log', last', ch);
    }
  }

  lemma SkipAlike(c: Core, log: seq<Event>, log': seq<Event>)
    requires SameSoFar(c, log, log')
    ensures Alike(Go(c, [], log), Go(c, [], log'))
  {
  }

  predicate OffHeader(log: seq<Event>) { log != [] && !IsHeaderText(log[|log| - 1]) }

  lemma {:induction false} DataAlike(c: Core, log: seq<Event>, log': seq<Event>, ch: char)
    requires Visible(log) == Visible(log') && OffHeader(log) && OffHeader(log')
    ensures Alike(DataOctet(c, log, ch), DataOctet(c, log', ch))
  {
    hide Push, Visible;
    VisiblePush(log, Data(PartData, []));
    VisiblePush(log', Data(PartData, []));
    VisiblePush(log, Data(PartData, [ch]));
    VisiblePush(log', Data(PartData, [ch]));
  }

  lemma {:induction false} EventAlike(log: seq<Event>, log': seq<Event>, e: Event)
    requires Visible(log) == Visible(log') && !IsHeaderText(e)
    requires e.Data? ==> OffHeader(log) && OffHeader(log')
    ensures Visible(Push(log, e)) == Visible(Push(log', e)) && OffHeader(Push(log, e)) && OffHeader(Push(log', e))
  {
    hide Push, Visible;
    VisiblePush(log, e);
    VisiblePush(log', e);
  }

  lemma {:induction false} OctetAlike(
    boundary: string, c: Core, held: string, log: seq<Event>, last: bool, held': string, log': seq<Event>, last': bool,
      ch: char)
    requires SameSoFar(c, log, log')
    ensures Alike(Octet(boundary, c, held, log, ch, last), Octet(boundary, c, held', log', ch, last'))
  {
    hide Push, Visible, DataOctet, FirstBoundary, FieldOctet, ValueOctet, Expect, Alike;
    if !InData(c.state) && !c.state.PartDataStart? {
      HeaderAlike(boundary, c, held, log, last, held', log', last', ch);
    } else if c.state.PartDataStart? {
      EventAlike(log, log', HeadersComplete);
      DataAlike(c, Push(log, HeadersComplete), Push(log', HeadersComplete), ch);
    } else if c.state.InPartData? {
      DataAlike(c, log, log', ch);
    } else {
      DelimiterAlike(boundary, c, held, log, last, held', log', last', ch);
    }
  }

  lemma {:induction false} DelimiterAlike(
    boundary: string, c: Core, held: string, log: seq<Event>, last: bool, held': string, log': seq<Event>, last': bool,
      ch: char)
    requires SameSoFar(c, log, log') && (c.state.PartDataAlmostBoundary? || c.state.PartDataBoundary?)
    ensures Alike(Octet(boundary, c, held, log, ch, last), Octet(boundary, c, held', log', ch, last'))
  {
    hide Push, Visible, DataOctet;
    EventAlike(log, log', PartDataEnded);
    var e := if c.state.PartDataAlmostBoundary? then Data(PartData, [CR])
             else Data(PartData, [CR, LF] + boundary[..if c.index <= |boundary| then c.index else |boundary|]);
    EventAlike(log, log', e);
    DataAlike(c, Push(log, e), Push(log', e), ch);
  }

  lemma {:induction false} ScanAlike(
    boundary: string, c: Core, held: string, log: seq<Event>, open: bool, held': string, log': seq<Event>, open': bool,
      s: string)
    requires SameSoFar(c, log, log')
    ensures var r, r' := Scan(boundary, c, held, log, s, open), Scan(boundary, c, held', log', s, open');
            r.core == r'.core && r.rest == r'.rest && Visible(r.log) == Visible(r'.log)
            && (r.rest == [] ==> SameSoFar(r.core, r.log, r'.log))
    decreases |s|
  {
    hide Octet, Visible;
    if s != [] {
      OctetAlike(boundary, c, held, log, !open && |s| == 1, held', log', !open' && |s| == 1, s[0]);
      var r := Octet(boundary, c, held, log, s[0], !open && |s| == 1);
      var r' := Octet(boundary, c, held', log', s[0], !open' && |s| == 1);
      if r.going {
        ScanAlike(boundary, r.core, r.held, r.log, open, r'.held, r'.log, open', s[1..]);
      }
    }
  }

  /** Cutting a buffer in two makes no difference but to header text. */
  lemma {:induction false} ScanCut(boundary: string, c: Core, log: seq<Event>, a: string, b: string)
    requires Quiet(c, log)
    ensures var whole := Scan(boundary, c, [], log, a + b, false);
            var first := Scan(boundary, c, [], log, a, false);
            var second := Scan(boundary, first.core, [], first.log, b, false);
            && (first.rest == [] ==> whole.core == second.core && whole.rest == second.rest
                                     && Visible(whole.log) == Visible(second.log) && Quiet(first.core, first.log))
            && (first.rest != [] ==> whole.core == first.core && whole.rest == first.rest + b
                                     && Visible(whole.log) == Visible(first.log))
  {
    hide Octet, Visible, Scan;
    ScanAlike(boundary, c, [], log, false, [], log, true, a);
    if b == [] {
      assert a + b == a;
      var first := Scan(boundary, c, [], log, a, false);
      ScanNothing(boundary, first.core, first.log);
      assert first.rest + [] == first.rest;
    } else {
      ScanConcat(boundary, c, [], log, a, b, false);
      var first, first' := Scan(boundary, c, [], log, a, false), Scan(boundary, c, [], log, a, true);
      if first.rest == [] {
        ScanAlike(boundary, first'.core, first'.held, first'.log, false, [], first.log, false, b);
      }
    }
  }

  /** What pieces that are handed over one after the other come to; one that is not taken in full is the last. */
  function Handed(boundary: string, c: Core, log: seq<Event>, pieces: seq<string>): Result
    decreases |pieces|
  {
    if pieces == [] then Result(c, [], log, [])
    else
      var r := Scan(boundary, c, [], log, pieces[0], false);
      if r.rest != [] then r.(rest := r.rest + Concat(pieces[1..])) else Handed(boundary, r.core, r.log, pieces[1..])
  }

  /** Split invariance: however the input is cut, the state, the octets not taken, the notifications and
      the part data are those of the whole. */
  lemma {:induction false} HandedAlike(boundary: string, c: Core, log: seq<Event>, pieces: seq<string>)
    requires Quiet(c, log)
    ensures var whole, r := Scan(boundary, c, [], log, Concat(pieces), false), Handed(boundary, c, log, pieces);
            whole.core == r.core && whole.rest == r.rest && Visible(whole.log) == Visible(r.log)
    decreases |pieces|
  {
    hide Scan, Visible, Quiet, Octet;
    if pieces == [] {
      ScanNothing(boundary, c, log);
    } else {
      ScanCut(boundary, c, log, pieces[0], Concat(pieces[1..]));
      var r := Scan(boundary, c, [], log, pieces[0], false);
      if r.rest == [] {
        HandedAlike(boundary, r.core, r.log, pieces[1..]);
      }
    }
  }

  lemma {:induction false} HandedStep(boundary: string, c: Core, log: seq<Event>, pieces: seq<string>)
    ensures pieces == [] ==> Handed(boundary, c, log, pieces) == Result(c, [], log, [])
    ensures pieces != [] ==>
              var r := Scan(boundary, c, [], log, pieces[0], false);
              Handed(boundary, c, log, pieces) ==
              if r.rest != [] then r.(rest := r.rest + Concat(pieces[1..]))
              else Handed(boundary, r.core, r.log, pieces[1..])
  {
    hide Scan;
  }

  lemma {:induction false} HandedLeads(boundary: string, c: Core, log: seq<Event>, pieces: seq<string>)
    ensures Leads(log, Handed(boundary, c, log, pieces).log)
    decreases |pieces|
  {
    hide Scan, Leads, Handed, Push;
    HandedStep(boundary, c, log, pieces);
    if pieces == [] {
      LeadsPush(log, BodyEnd);
    } else {
      var r := Scan(boundary, c, [], log, pieces[0], false);
      ScanLeads(boundary, c, [], log, pieces[0], false);
      if r.rest == [] {
        HandedLeads(boundary, r.core, r.log, pieces[1..]);
        LeadsOn(log, r.log, Handed(boundary, r.core, r.log, pieces[1..]).log);
      }
    }
  }

  /** What the pieces come to goes on from what the first of them comes to. */
  lemma {:induction false} FirstLeads(boundary: string, c: Core, log: seq<Event>, pieces: seq<string>)
    requires pieces != []
    ensures Leads(Scan(boundary, c, [], log, pieces[0], false).log, Handed(boundary, c, log, pieces).log)
  {
    hide Scan, Leads, Handed, Push;
    HandedStep(boundary, c, log, pieces);
    var r := Scan(boundary, c, [], log, pieces[0], false);
    LeadsPush(r.log, BodyEnd);
    HandedLeads(boundary, r.core, r.log, pieces[1..]);
  }

  /** Hands over the pieces one after the other, until one is not taken in full, and says how many octets
      were taken in all.  If a callback refuses, it is the last one made, and what has been reported by then is
      the beginning of what the pieces would have come to. */
  method Feed(parser: Parser, client: Client, pieces: seq<string>) returns (taken: nat)
    requires parser.Valid()
    modifies parser, client, parser.lookbehind
    ensures (forall l :: client.answer(l)) ==> !client.refused
    ensures var r := old(Handed(parser.boundary, parser.Fields(), client.Joined(), pieces));
            if client.refused then
              Leads(client.Joined(), r.log) && taken < |Concat(pieces)| && !client.answer(client.log)
            else r.core == parser.Fields() && r.log == client.Joined() && taken + |r.rest| == |Concat(pieces)|
    ensures parser.Valid() || (client.refused && parser.Overrun())
    ensures old(Quiet(parser.Fields(), client.Joined())) && !client.refused ==>
              var whole := old(Scan(parser.boundary, parser.Fields(), [], client.Joined(), Concat(pieces), false));
              whole.core == parser.Fields() && Visible(whole.log) == Visible(client.Joined())
              && taken + |whole.rest| == |Concat(pieces)|
  {
    hide Scan, Visible, Quiet, Octet, Join, Handed, Leads;
    ghost var b := parser.boundary;
    ghost var goal := Handed(b, parser.Fields(), client.Joined(), pieces);
    if Quiet(parser.Fields(), client.Joined()) {
      HandedAlike(b, parser.Fields(), client.Joined(), pieces);
    }
    var i := 0;
    taken := 0;
    client.refused := false;
    assert pieces[0..] == pieces;
    while i < |pieces|
      invariant i <= |pieces| && parser.Valid() && !client.refused
      invariant goal == Handed(b, parser.Fields(), client.Joined(), pieces[i..])
      invariant taken + |Concat(pieces[i..])| == |Concat(pieces)|
    {
      assert pieces[i..][1..] == pieces[i + 1..];
      HandedStep(b, parser.Fields(), client.Joined(), pieces[i..]);
      FirstLeads(b, parser.Fields(), client.Joined(), pieces[i..]);
      ghost var log := Scan(b, parser.Fields(), [], client.Joined(), pieces[i], false).log;
      var n := parser.Execute(client, pieces[i]);
      taken := taken + n;
      if n < |pieces[i]| {
        if client.refused {
          LeadsOn(client.Joined(), log, goal.log);
        }
        return;
      }
      i := i + 1;
    }
    HandedStep(b, parser.Fields(), client.Joined(), []);
  }
}
