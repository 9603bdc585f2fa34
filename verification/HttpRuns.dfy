/** Whole runs of the parser: however the input is cut, and wherever callbacks pause. */
module HttpRuns {
  import opened HttpTypes
  import opened HttpChars
  import opened HttpSpec
  import opened HttpInvariant
  import opened HttpMarks
  import opened HttpParser
  import opened Common

  lemma InitialInv(t: Kind)
    ensures Inv(Initial(t)) && Spoke(Initial(t).state, [])
  {
  }

  /** No message that asks for another protocol has come to its end: see Parser.Serving. */
  predicate Serves(c: Core) { c.upgrade ==> c.state == InHeader(HeadersDone) }

  // Only the end of a message that asks for another protocol ends a run early.

  lemma {:induction false} BodyExits(c: Core, log: seq<Event>, ch: char)
    ensures var r := OpenBody(c, log); r.end.Exited? ==> r.core.upgrade && r.core.state.Start?
    ensures var r := StartBody(c, log, ch); r.end.Exited? ==> r.core.upgrade && r.core.state.Start?
  {
    hide NewMessage, NeedsEof;
    NewMessageIsStart(c);
    NewMessageIsStart(Cleared(c));
  }

  lemma {:induction false} EmptyLineExits(c: Core, log: seq<Event>, ch: char)
    ensures var r := EndHeaders(c, log, ch); r.end.Exited? ==> r.core.upgrade && r.core.state.Start?
    ensures var r := BeginField(c, log, ch); r.end.Exited? ==> r.core.upgrade && r.core.state.Start?
  {
    hide StartBody, WantsUpgrade, Push, NewMessage, Token, FirstField;
    forall c1: Core, log1
      ensures var r := StartBody(c1, log1, ch); r.end.Exited? ==> r.core.upgrade && r.core.state.Start?
    {
      BodyExits(c1, log1, ch);
    }
  }

  lemma {:induction false} HeaderExits(c: Core, h: HeaderState, log: seq<Event>, ch: char)
    ensures var r := HeaderByte(c, h, log, ch); r.end.Exited? ==> r.core.upgrade && r.core.state.Start?
  {
    hide StartBody, EndHeaders, BeginField, Push, LineFlags, NextValue, NextField, FirstValue, Token, Limit;
    BodyExits(c, log, ch);
    forall c1: Core, log1
      ensures var r := EndHeaders(c1, log1, ch); r.end.Exited? ==> r.core.upgrade && r.core.state.Start?
      ensures var r := BeginField(c1, log1, ch); r.end.Exited? ==> r.core.upgrade && r.core.state.Start?
    {
      EmptyLineExits(c1, log1, ch);
    }
  }

  lemma {:induction false} LineGoesOn(c: Core, log: seq<Event>, ch: char)
    requires c.state.Start? || c.state.StatusLine? || c.state.InMethod?
    ensures !Dispatch(c, log, ch).end.Exited?
  {
    hide HeaderByte, UrlByte, VersionByte, ChunkByte, BodyByte, Push, ReviseMethod, MethodString, FirstMethod;
  }

  lemma {:induction false} RestGoesOn(c: Core, log: seq<Event>, ch: char)
    requires c.state.InUrl? || c.state.InVersion? || c.state.InChunk? || c.state.InBody?
    ensures !Dispatch(c, log, ch).end.Exited?
  {
    hide HeaderByte, StartByte, StatusByte, MethodByte, Push, NewMessage, Unhex, Limit, ParseUrlChar;
  }

  lemma {:induction false} ByteExits(c: Core, log: seq<Event>, ch: char)
    ensures var r := Byte(c, log, ch); r.end.Exited? ==> r.core.upgrade && r.core.state.Start?
  {
    if c.state.InHeader? {
      hide HeaderByte, StartByte, StatusByte, MethodByte, UrlByte, VersionByte, ChunkByte, BodyByte;
      HeaderExits(Counted(c), c.state.header, log, ch);
    } else {
      hide Dispatch;
      if c.state.Start? || c.state.StatusLine? || c.state.InMethod? {
        LineGoesOn(Counted(c), log, ch);
      } else {
        RestGoesOn(Counted(c), log, ch);
      }
    }
  }

  lemma {:induction false} RunExits(c: Core, log: seq<Event>, s: string)
    ensures var r := Run(c, log, s); r.end.Exited? ==> r.core.upgrade && r.core.state.Start?
    decreases |s|
  {
    hide Byte;
    if s != [] {
      ByteExits(c, log, s[0]);
      var r := Byte(c, log, s[0]);
      if r.end.More? {
        RunExits(r.core, r.log, s[1..]);
      }
    }
  }

  /** What a call owes its caller for one piece carries over to that piece followed by anything else. */
  lemma {:induction false} AnswersExtend(
    c0: Core, log: seq<Event>, piece: string, c: Core, errno: Errno, reported: seq<Event>, rest: string, more: string,
    lost: nat)
    requires Answers(Run(c0, log, piece), c, errno, reported, rest, lost)
    requires errno.OK? || Stopped(errno) ==> Serves(c) || Run(c0, log, piece) == Result(c, reported, rest, Exited)
    ensures var goal := Run(c0, log, piece + more);
            if errno.OK? || Stopped(errno) then
              if Serves(c) then goal == Run(c, reported, rest + more)
              else goal == Result(c, reported, rest + more, Exited)
            else if errno.HeaderOverflow? then Crowded(goal, lost)
            else goal.end == Failed(errno) && goal.core == c && Withheld(reported, goal.log)
    ensures errno.OK? && Serves(c) ==> rest == []
  {
    hide Byte, Withheld, High;
    RunMore(c0, log, piece);
    RunExits(c0, log, piece);
    RunConcat(c0, log, piece, more);
    RunConcat(c, reported, rest, more);
    RunHigh(Run(c0, log, piece).core, Run(c0, log, piece).log, more);
  }

  lemma HighWithin(c: Core, n: nat)
    ensures c.tally <= n && c.peak <= n ==> High(c) <= n
  {
  }

  lemma {:induction false} RunMore(c: Core, log: seq<Event>, s: string)
    ensures Run(c, log, s).end.More? ==> Run(c, log, s).rest == []
    decreases |s|
  {
    hide Byte;
    if s != [] && Byte(c, log, s[0]).end.More? {
      RunMore(Byte(c, log, s[0]).core, Byte(c, log, s[0]).log, s[1..]);
    }
  }

  /** Where a run that was to end as `goal` has got to, with `more` octets to come.  After the end of a message
      that asks for another protocol they are not for this parser. */
  ghost predicate Reached(goal: Result, parser: Parser, app: Application, more: string)
    reads parser, app
  {
    if parser.errno.OK? then
      if parser.Serving() then goal == Run(parser.Fields(), app.Joined(), more)
      else goal == Result(parser.Fields(), app.Joined(), more, Exited)
    else if parser.errno.HeaderOverflow? then parser.nread > MAX_HEADER_SIZE && Crowded(goal, parser.lost)
    else goal.end == Failed(parser.errno) && goal.core == parser.Fields() && Withheld(app.Joined(), goal.log)
  }

  /** All header octets have been counted, except for those that were lost, and no stretch of them that is over
      exceeded the limit by more than that. */
  ghost predicate Accounted(parser: Parser)
    reads parser
  {
    parser.nread + parser.lost >= parser.tally && parser.Capped()
  }

  /** The most octets that have been lost of one stretch. */
  ghost function MostLost(parser: Parser): nat
    reads parser
  {
    if parser.lost > parser.worst then parser.lost else parser.worst
  }

  /** The callback for a value never pauses. */
  ghost predicate LetsValuesPass(app: Application)
  {
    forall l :: Heard(l, ValueData) ==> app.answer(l).Proceed?
  }

  /** Hands over one piece, unpausing the parser and handing over the octets left whenever a callback paused.
      `left` are the octets after a message that asks for another protocol. */
  method DrivePiece(parser: Parser, app: Application, piece: string, ghost more: string, ghost goal: Result)
    returns (left: string)
    requires parser.errno.OK? && parser.Valid(app) && parser.Serving() && |piece| <= SAFE_LENGTH
    requires forall l :: app.answer(l).Proceed? || app.answer(l).Pause?
    requires goal == Run(parser.Fields(), app.Joined(), piece + more)
    modifies parser, app
    ensures parser.errno.OK? ==> parser.Valid(app) && (parser.Serving() ==> left == [])
    ensures !Stopped(parser.errno) && Reached(goal, parser, app, left + more)
    ensures parser.errno.OK? && old(Accounted(parser)) ==> Accounted(parser)
    ensures LetsValuesPass(app) ==> MostLost(parser) <= old(MostLost(parser))
    ensures parser.nread <= old(parser.nread + Rank(parser.state)) + 8 * |piece|
    ensures old(app.log) <= app.log
  {
    hide Run, Answers, Inv, Spoke, Withheld, Rank, High;
    left := piece;
    while left != [] && parser.Serving()
      invariant parser.errno.OK? && parser.Valid(app) && |left| <= SAFE_LENGTH
      invariant Reached(goal, parser, app, left + more)
      invariant old(Accounted(parser)) ==> Accounted(parser)
      invariant LetsValuesPass(app) ==> MostLost(parser) <= old(MostLost(parser))
      invariant parser.nread + Rank(parser.state) + 8 * |left| <=
                old(parser.nread + Rank(parser.state)) + 8 * |piece|
      invariant old(app.log) <= app.log
      decreases |left|, Rank(parser.state)
    {
      ghost var c, log := parser.Fields(), app.Joined();
      var n := parser.Execute(app, left);
      AnswersExtend(c, log, left, parser.Fields(), parser.errno, app.Joined(), left[n..], more, parser.lost);
      left := left[n..];
      if !parser.errno.Paused? {
        return;
      }
      parser.SetPaused(false);
    }
  }

  /** Split invariance and pause transparency.  Whatever pieces the input comes in and wherever
      callbacks pause the parser, it ends where the octet-by-octet meaning of the whole input ends; if that is
      the end of a message that asks for another protocol, exactly the octets after it are left to the caller.
      The header size is refused only if the counter exceeds the limit, and only if some stretch of
      header octets, bodies not counted, is so long that eight times its length exceeds it.  The header
      octets accepted keep to the limit except for those that were lost; and none are lost unless the
      callback for a value pauses. */
  method Drive(parser: Parser, app: Application, pieces: seq<string>) returns (left: string)
    requires parser.errno.OK? && parser.Valid(app) && parser.Serving()
    requires forall i :: 0 <= i < |pieces| ==> |pieces[i]| <= SAFE_LENGTH
    requires forall l :: app.answer(l).Proceed? || app.answer(l).Pause?
    modifies parser, app
    ensures !Stopped(parser.errno)
    ensures var goal := old(Run(parser.Fields(), app.Joined(), Concat(pieces)));
            if parser.errno.OK? then
              goal == Result(parser.Fields(), app.Joined(), left, if parser.Serving() then More else Exited)
              && (parser.Serving() ==> left == [])
            else if parser.errno.HeaderOverflow? then parser.nread > MAX_HEADER_SIZE && Crowded(goal, parser.lost)
            else goal.end == Failed(parser.errno) && goal.core == parser.Fields() && Withheld(app.Joined(), goal.log)
    ensures parser.errno.OK? && old(Accounted(parser)) ==> High(parser.Fields()) <= MAX_HEADER_SIZE + MostLost(parser)
    ensures LetsValuesPass(app) ==> MostLost(parser) <= old(MostLost(parser))
  {
    hide Run, Inv, Spoke, Withheld, Rank, High;
    ghost var goal := Run(parser.Fields(), app.Joined(), Concat(pieces));
    var i := 0;
    left := [];
    assert pieces[0..] == pieces && left + Concat(pieces) == Concat(pieces);
    while i < |pieces| && parser.errno.OK? && parser.Serving()
      invariant i <= |pieces| && !Stopped(parser.errno)
      invariant parser.errno.OK? ==> parser.Valid(app) && (parser.Serving() ==> left == [])
      invariant Reached(goal, parser, app, left + Concat(pieces[i..]))
      invariant parser.errno.OK? && old(Accounted(parser)) ==> Accounted(parser)
      invariant LetsValuesPass(app) ==> MostLost(parser) <= old(MostLost(parser))
    {
      assert pieces[i..][1..] == pieces[i + 1..];
      assert left + Concat(pieces[i..]) == pieces[i] + Concat(pieces[i + 1..]);
      left := DrivePiece(parser, app, pieces[i], Concat(pieces[i + 1..]), goal);
      i := i + 1;
    }
    left := left + Concat(pieces[i..]);
    HighWithin(parser.Fields(), MAX_HEADER_SIZE + MostLost(parser));
    RunEnd(parser.Fields(), app.Joined(), []);
  }

  /** Two parsers that get the same octets cut differently agree on everything but nread. */
  method TwoCuts(
    parser: Parser, app: Application, cut: seq<string>, parser': Parser, app': Application, cut': seq<string>)
    returns (left: string, left': string)
    requires parser != parser' && app != app'
    requires parser.errno.OK? && parser.Valid(app) && parser'.errno.OK? && parser'.Valid(app') && parser.Serving()
    requires parser.Fields() == parser'.Fields() && app.Joined() == app'.Joined() && Concat(cut) == Concat(cut')
    requires forall i :: 0 <= i < |cut| ==> |cut[i]| <= SAFE_LENGTH
    requires forall i :: 0 <= i < |cut'| ==> |cut'[i]| <= SAFE_LENGTH
    requires forall l :: app.answer(l).Proceed? || app.answer(l).Pause?
    requires forall l :: app'.answer(l).Proceed? || app'.answer(l).Pause?
    modifies parser, app, parser', app'
    ensures parser.errno.HeaderOverflow? || parser'.errno.HeaderOverflow?
            || (parser.errno == parser'.errno && parser.Fields() == parser'.Fields())
    ensures parser.errno.OK? && parser'.errno.OK? ==> app.Joined() == app'.Joined() && left == left'
    ensures !Crowded(old(Run(parser.Fields(), app.Joined(), Concat(cut))), 0) ==>
              !parser.errno.HeaderOverflow? && !parser'.errno.HeaderOverflow?
  {
    hide Run, Inv, Spoke, Withheld, High;
    left := Drive(parser, app, cut);
    left' := Drive(parser', app', cut');
  }
}
