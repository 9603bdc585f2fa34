/** The client behind the parser: requests sent in any pieces end up as one header table. */
module HttpClient {
  import opened Common
  import opened HttpTypes
  import opened HttpSpec
  import opened HttpMessages
  import opened HttpRoundTrip
  import opened HttpParser
  import opened ClientHeaders

  lemma JoinedIs(app: Application)
    ensures app.Joined() == Join(app.log)
  {
  }

  lemma {:induction false} AllRequests(qs: seq<Outgoing>)
    ensures forall i :: 0 <= i < |AllReceived(qs)| ==> AllReceived(qs)[i].opening.Url?
    decreases |qs|
  {
    if qs != [] {
      AllRequests(qs[..|qs| - 1]);
    }
  }

  /** The client behind the parser: in whatever pieces the requests arrive and wherever the callbacks pause, the
      client's table is that of the headers and trailers of the requests sent, as long as the header size is not
      refused, which it is not while eight times the longest header section is below the limit.
      The client is told the callbacks once the parser has made them all.  That changes nothing: what it does at a
      callback depends on those before it only, and how it answers is left open, since `answer` is arbitrary. */
  method ServeClient(qs: seq<Outgoing>, pieces: seq<string>, answer: seq<Event> -> Verdict)
    returns (parser: Parser, client: Client)
    requires Pipelined(qs) && Concat(pieces) == AllSerialized(qs)
    requires forall i :: 0 <= i < |pieces| ==> |pieces[i]| <= SAFE_LENGTH
    requires forall l :: answer(l).Proceed? || answer(l).Pause?
    ensures parser.errno.OK? || parser.errno.HeaderOverflow?
    ensures 8 * Longest(0, qs) + 5 <= MAX_HEADER_SIZE ==> parser.errno.OK?
    ensures parser.errno.OK? ==> client.Valid() && client.headers.Pairs() == TableOf(AllHeaders(AllReceived(qs)))
  {
    hide Run, Sendable, AllSendable, Pipelined, AllSerialized, AllReceived, AllEvents, Longest, AfterAll, TableOf;
    hide AllHeaders, Join;
    var app;
    parser, app := Serve(qs, pieces, answer);
    if parser.errno.OK? {
      JoinedIs(app);
      AllRequests(qs);
      client := AssemblePieces(app.log, AllReceived(qs));
    } else {
      client := new Client();
    }
  }
}
