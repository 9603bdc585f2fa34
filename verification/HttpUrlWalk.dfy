/** The request URL: which URLs the parser accepts. */
module HttpUrlWalk {
  import opened HttpTypes
  import opened HttpChars
  import opened HttpSpec
  import opened HttpInvariant
  import opened HttpHeaders
  import opened HttpLengths
  import opened HttpMethods
  import HttpMarks

  /** The URL automaton over a string of octets. */
  function Walk(s: UrlState, url: string): UrlState {
    if url == [] then s else ParseUrlChar(Walk(s, url[..|url| - 1]), url[|url| - 1])
  }

  /** Where the automaton starts: CONNECT takes an authority. */
  function UrlStart(connect: bool): UrlState { if connect then ServerStart else SpacesBeforeUrl }

  /** A URL may be followed by the end of the request line or by the version. */
  predicate UrlMayEnd(s: UrlState) {
    s.Server? || s.ServerWithAt? || s.Path? || s.QueryStart? || s.Query? || s.FragmentStart? || s.Fragment?
  }

  predicate IsUrlText(url: string) { forall i :: 0 <= i < |url| ==> url[i] != ' ' && url[i] != CR && url[i] != LF }

  lemma {:induction false} WalkSnoc(s: UrlState, u: string, ch: char)
    ensures Walk(s, u + [ch]) == ParseUrlChar(Walk(s, u), ch)
  {
    assert (u + [ch])[..|u|] == u;
  }

  lemma {:induction false} WalkLeavesStart(s: UrlState, url: string)
    requires url != []
    ensures !Walk(s, url).SpacesBeforeUrl?
  {
    hide ParseUrlChar;
    StaysInUrl(Walk(s, url[..|url| - 1]), url[|url| - 1]);
  }

  /** An octet that does not end the URL is judged by the URL automaton alone. */
  lemma {:induction false} UrlOctet(c: Core, s: UrlState, log: seq<Event>, ch: char)
    requires c.state == InUrl(s) && ch != ' ' && ch != CR && ch != LF
    ensures var s' := ParseUrlChar(if s.SpacesBeforeUrl? then UrlStart(c.verb.Connect?) else s, ch);
            Byte(c, log, ch) ==
            if s'.UrlDead? then Err(c.(tally := c.tally + 1, state := DEAD), log, InvalidUrl)
            else Go(c.(tally := c.tally + 1, state := InUrl(s')), Say(log, UrlData, ch))
  {
    hide ParseUrlChar, Say;
  }

  /** The parser delivers a URL in full exactly when the URL automaton does not die on it. */
  lemma {:induction false} UrlRun(c: Core, log: seq<Event>, url: string)
    requires c.state == InUrl(SpacesBeforeUrl) && url != [] && IsUrlText(url)
    ensures var s, r := Walk(UrlStart(c.verb.Connect?), url), Run(c, log, url);
            if s.UrlDead? then r.end == Failed(InvalidUrl)
            else r == Result(c.(tally := c.tally + |url|, state := InUrl(s)), Push(log, Data(UrlData, url)), [], More)
    decreases |url|
  {
    hide Run, Byte, Push, Say, ParseUrlChar, Walk;
    var n := |url| - 1;
    var u, ch := url[..n], url[n];
    assert url == u + [ch];
    var start := UrlStart(c.verb.Connect?);
    WalkSnoc(start, u, ch);
    RunSnoc(c, log, u, ch);
    if n == 0 {
      WalkNothing(start);
      RunNothing(c, log);
      UrlOctet(c, SpacesBeforeUrl, log, ch);
      SayIsPush(log, UrlData, ch);
      assert url == [ch] && u == [];
    } else {
      UrlRun(c, log, u);
      var s := Walk(start, u);
      if s.UrlDead? {
        StaysDead(ch);
      } else {
        WalkLeavesStart(start, u);
        UrlOctet(c.(tally := c.tally + n, state := InUrl(s)), s, Push(log, Data(UrlData, u)), ch);
        HttpMarks.SayOn(log, UrlData, u, ch);
      }
    }
  }

  lemma WalkNothing(s: UrlState)
    ensures Walk(s, []) == s
  {
  }

  lemma StaysDead(ch: char)
    ensures ParseUrlChar(UrlDead, ch).UrlDead?
  {
  }

  /** A URL that may end here is followed by the version. */
  lemma {:induction false} UrlThenSpace(c: Core, s: UrlState, log: seq<Event>)
    requires c.state == InUrl(s) && UrlMayEnd(s)
    ensures Byte(c, log, ' ') == Go(c.(tally := c.tally + 1, state := InVersion(HttpStart)), log)
  {
    hide UrlChar;
  }
}
