/** Octets that are parsed and never counted: a header section over the limit that is accepted because the
    callback for a value pauses. */
module HttpLostOctets {
  import opened HttpTypes
  import opened HttpChars
  import opened HttpSpec
  import opened HttpInvariant
  import opened HttpBulk
  import opened HttpKeywords
  import opened HttpMessages
  import opened HttpHeaders
  import opened HttpFraming
  import opened HttpUrlWalk
  import opened HttpParser
  import opened HttpRuns
  import opened HttpRoundTrip
  import opened Common

  /** A client that pauses the parser after every piece of a value, and nowhere else. */
  function AtValues(log: seq<Event>): Verdict { if Heard(log, ValueData) then Pause else Proceed }

  /** The rest of a value that nothing is looked for in, and the CR that ends it. */
  lemma {:induction false} RestOfValue(c: Core, log: seq<Event>, v: string)
    requires c.state == InHeader(HeaderState.Value) && c.hstate.General? && v != [] && IsLineText(v)
    ensures Run(c, log, v + [CR]) ==
            Result(c.(tally := c.tally + |v| + 1, state := InHeader(AlmostDone)), Push(log, Data(ValueData, v)), [],
              More)
  {
    hide Run, Push, NextValue;
    var data, c1, log1 := v + [CR], c.(tally := c.tally + |v|), Push(log, Data(ValueData, v));
    GeneralRun(c, log, data, 0, |v|);
    assert data[0..] == data && data[0..|v|] == v && data[|v|..] == [CR];
    ReturnAfterValue(c1, log1);
    hide Byte;
    One(c1, log1, CR, c1.(tally := c1.tally + 1, state := InHeader(AlmostDone)), log1);
  }

  lemma {:induction false} ReturnAfterValue(c: Core, log: seq<Event>)
    requires c.state == InHeader(HeaderState.Value)
    ensures Byte(c, log, CR) == Go(c.(tally := c.tally + 1, state := InHeader(AlmostDone)), log)
  {
    hide NextValue, Push;
  }

  /** A value whose end is handed over as a buffer of its own is not counted if its callback pauses: all
      its octets are taken, and all of them are lost. */
  method SlipThrough(parser: Parser, app: Application, v: string)
    requires parser.errno.OK? && parser.Valid(app) && parser.nread < MAX_HEADER_SIZE
    requires parser.state == InHeader(HeaderState.Value) && parser.headerState.General?
    requires v != [] && IsLineText(v) && |v| < MAX_HEADER_SIZE && parser.Serving()
    requires forall l :: app.answer(l) == AtValues(l)
    modifies parser, app
    ensures parser.errno.OK? && parser.Valid(app) && parser.Serving()
    ensures Run(old(parser.Fields()), old(app.Joined()), v + [CR]) == Result(parser.Fields(), app.Joined(), [], More)
    ensures parser.lost == old(parser.lost) + |v| && parser.tally == old(parser.tally) + |v| + 1
  {
    hide Run, Inv, Spoke, Push, Rank, IsLineText;
    RestOfValue(parser.Fields(), app.Joined(), v);
    NoFeed(v);
    var n := parser.Execute(app, v + [CR]);
    assert n == |v| + 1 && (v + [CR])[n..] == [];
    RunEnd(parser.Fields(), app.Joined(), []);
    parser.SetPaused(false);
  }

  lemma NoFeed(v: string)
    requires IsLineText(v)
    ensures LF !in v + [CR] && forall i :: 0 <= i < |v| ==> (v + [CR])[i] != CR
  {
  }

  // A request whose header section is over the limit.

  const OPENING := "GET / HTTP/1.1\r\na: v"

  function LongRequest(v: string): Outgoing { Outgoing(Get, "/", 1, 1, [Header("a", "v" + v)], Empty) }

  /** The first octets of such a request, up to the first octet of the value. */
  lemma {:induction false} OpeningRun()
    ensures var r := Run(Initial(Request), [], OPENING);
            && r.end.More? && r.rest == [] && r.core.state == InHeader(HeaderState.Value) && r.core.hstate.General?
            && 4 <= r.core.tally <= |OPENING|
  {
    hide Run, Push, MethodString, Walk, Byte;
    var q, c := LongRequest([]), Initial(Request);
    var line := MethodString(Get) + " " + "/" + Version(1, 1);
    LineIs();
    LongIsSendable([]);
    RequestLine(c, [], q);
    var r := Run(c, [], line);
    NameA();
    FieldRun(r.core, r.log, "a");
    var c1 := r.core.(tally := r.core.tally + 1, state := InHeader(Field), hstate := General,
      index := AfterName("a").1);
    var log1 := Push(r.log, Data(FieldData, "a"));
    Then(c, [], line, r.core, r.log, "a");
    ColonAndBlanks(c1, log1, " ");
    assert [':'] + " " == ": ";
    Then(c, [], line + "a", c1, log1, ": ");
    var c2 := c1.(tally := c1.tally + 2, state := InHeader(DiscardWs));
    ValueFirst(c2, log1, 'v');
    Snoc(c, [], line + "a" + ": ", 'v', c2, log1, Byte(c2, log1, 'v').core, Byte(c2, log1, 'v').log);
    RunTall(c, [], OPENING);
  }

  lemma NameA()
    ensures AfterName("a").0 == General && IsToken("a") && AllBlank(" ") && FirstValue(General, 'v') == General
  {
  }

  lemma LineIs()
    ensures MethodString(Get) + " " + "/" + Version(1, 1) + "a" + ": " + ['v'] == OPENING
  {
  }

  lemma {:induction false} LongIsSendable(v: string)
    requires IsLineText(v)
    ensures Sendable(LongRequest(v)) && !Switches(LongRequest(v))
  {
    assert Tokens("a") == "a";
    hide Token, Walk, IsUrlText;
    UrlIsText();
    assert Effects([], NO_FLAGS) == NO_FLAGS;
    assert Effects(LongRequest(v).headers, NO_FLAGS) == NO_FLAGS;
  }

  lemma UrlIsText()
    ensures IsUrlText("/") && UrlMayEnd(Walk(UrlStart(false), "/"))
  {
  }

  lemma {:induction false} LongText(v: string)
    ensures Serialized(LongRequest(v)) == OPENING + (v + [CR]) + "\n\r\n"
  {
    var q := LongRequest(v);
    var hs := q.headers + Framing(q.body);
    assert hs == [Header("a", "v" + v)] && hs[..0] == [];
    var line := "a" + [':'] + " " + ("v" + v) + "\r\n";
    assert Lines(hs) == [] + line;
    assert HttpRoundTrip.Head(q) == MethodString(Get) + " " + "/" + Version(1, 1) + line + "\r\n";
    assert Serialized(q) == HttpRoundTrip.Head(q) + [];
    hide MethodString, Version;
    LineIs();
    var start := MethodString(Get) + " " + "/" + Version(1, 1);
    assert start + line + "\r\n" == start + "a" + ": " + ['v'] + v + "\r\n" + "\r\n";
    assert v + "\r\n" + "\r\n" == v + [CR] + "\n\r\n";
  }

  lemma {:induction false} LongIsLongest(v: string)
    requires AllSendable([LongRequest(v)])
    ensures Longest(0, [LongRequest(v)]) >= |HttpRoundTrip.Head(LongRequest(v))|
  {
    assert [LongRequest(v)][..0] == [];
    hide HttpRoundTrip.Head, Sendable;
  }

  /** The text is not to blame: a client that lets values pass has the same request refused, in whatever pieces
      it comes and wherever else its callbacks pause. */
  method Refused(v: string, pieces: seq<string>, answer: seq<Event> -> Verdict)
    returns (parser: Parser, app: Application)
    requires IsLineText(v) && |HttpRoundTrip.Head(LongRequest(v))| > MAX_HEADER_SIZE
    requires Concat(pieces) == Serialized(LongRequest(v))
    requires forall i :: 0 <= i < |pieces| ==> |pieces[i]| <= SAFE_LENGTH
    requires forall l :: answer(l).Proceed? || (answer(l).Pause? && !Heard(l, ValueData))
    ensures parser.errno.HeaderOverflow?
  {
    var q := LongRequest(v);
    LongIsSendable(v);
    assert AllSerialized([q]) == Serialized(q) by { OneSerialized(q); }
    hide IsLineText, Sendable, Switches, Serialized, Longest, AllSerialized;
    LongIsLongest(v);
    parser, app := Serve([q], pieces, answer);
  }

  lemma {:induction false} OneSerialized(q: Outgoing)
    requires AllSendable([q]) && q.major <= 9 && q.minor <= 9
    ensures AllSerialized([q]) == Serialized(q)
  {
    hide Serialized, Sendable;
    assert [q][..0] == [] && [] + Serialized(q) == Serialized(q);
  }

  lemma {:induction false} LongHasValue(v: string)
    requires |HttpRoundTrip.Head(LongRequest(v))| > MAX_HEADER_SIZE
    ensures v != []
  {
    LongText(v);
    hide HttpRoundTrip.Head;
    assert |Serialized(LongRequest(v))| == |OPENING| + |v| + 4;
  }

  /** A client that pauses at every value has a request accepted whose header section is over the limit. */
  method Accepted(v: string) returns (parser: Parser, app: Application)
    requires IsLineText(v) && |v| < MAX_HEADER_SIZE && |HttpRoundTrip.Head(LongRequest(v))| > MAX_HEADER_SIZE
    ensures parser.errno.OK? && app.Joined() == Events(Received(LongRequest(v)))
    ensures parser.state == Start(StartReq)
  {
    hide Run, Inv, IsLineText, High, Events, Spoke;
    parser := new Parser(Request);
    app := new Application(AtValues);
    InitialInv(Request);
    OpeningRun();
    ghost var r := Run(parser.Fields(), [], OPENING);
    assert OPENING + [] == OPENING && "\n\r\n" + [] == "\n\r\n";
    var left := DrivePiece(parser, app, OPENING, [], r);
    assert left + [] == left;
    RunEnd(parser.Fields(), app.Joined(), []);
    LongHasValue(v);
    SlipThrough(parser, app, v);
    ghost var goal := Run(parser.Fields(), app.Joined(), "\n\r\n");
    WholeRequest(v, parser.Fields(), app.Joined());
    left := DrivePiece(parser, app, "\n\r\n", [], goal);
    assert left + [] == left;
    RunEnd(parser.Fields(), app.Joined(), []);
  }

  /** The whole of the request, when all but its last octets have led to c. */
  lemma {:induction false} WholeRequest(v: string, c: Core, log: seq<Event>)
    requires IsLineText(v) && v != []
    requires var r := Run(Initial(Request), [], OPENING); Run(r.core, r.log, v + [CR]) == Result(c, log, [], More)
    ensures Delivered(Run(c, log, "\n\r\n"), Events(Received(LongRequest(v))), Start(StartReq))
  {
    hide Run, IsLineText, Events, Switches, Sendable;
    var c0, q := Initial(Request), LongRequest(v);
    var r := Run(c0, [], OPENING);
    OpeningRun();
    Then(c0, [], OPENING, r.core, r.log, v + [CR]);
    Then(c0, [], OPENING + (v + [CR]), c, log, "\n\r\n");
    LongText(v);
    LongIsSendable(v);
    MessageRun(c0, [], q);
    assert [] + Events(Received(q)) == Events(Received(q));
    LongPersists(v);
  }

  lemma {:induction false} LongPersists(v: string)
    ensures After(LongRequest(v)) == Start(StartReq)
  {
    assert Tokens("a") == "a";
    hide Token;
    assert Effects([], NO_FLAGS) == NO_FLAGS;
    assert Effects(LongRequest(v).headers, NO_FLAGS) == NO_FLAGS;
  }
}
