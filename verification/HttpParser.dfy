/** http_parser_execute: the resumable parser, with its marks, re-executed octets, bulk moves and
    callbacks that may pause or fail. */
module HttpParser {
  import opened Common
  import opened HttpTypes
  import opened HttpChars
  import opened HttpSpec
  import opened HttpInvariant
  import opened HttpMarks
  import opened HttpBulk

  /** The settings and the program behind them: what it has been told, and what it answers. */
  class Application {
    const answer: seq<Event> -> Verdict
    var log: Callbacks

    constructor (answer: seq<Event> -> Verdict)
      ensures log == [] && this.answer == answer
    {
      this.answer := answer;
      log := [];
    }

    ghost function Joined(): seq<Event>
      reads this
    {
      Join(log)
    }

    method Call(e: Event) returns (v: Verdict)
      requires NoEmptyBody([e])
      modifies this
      ensures log == old(log) + [e] && v == answer(log)
      ensures Joined() == Push(old(Joined()), e)
    {
      log := log + [e];
      v := answer(log);
      JoinSnoc(old(log), e);
    }
  }

  /** How the treatment of an octet ends: on to the next octet, the same octet again, or a return
      to the caller that leaves the octet unread or read. */
  datatype Turn = Consume | Again | LeaveHere | LeaveAfter

  /** A callback failed or paused the parser. */
  predicate Stopped(e: Errno) { e.Paused? || e.CallbackFailed? }

  predicate ParseError(e: Errno) {
    !e.OK? && !Stopped(e) && !e.HeaderOverflow? && !e.InvalidEofState?
  }

  /** The error a callback's answer causes. */
  predicate Verdicts(v: Verdict, e: Event, errno: Errno) {
    match v
    case Proceed => false
    case Pause => errno.Paused?
    case ReturnOne => errno == CallbackFailed(e.Callback()) && !e.HeadersComplete?
    case Abort => errno == CallbackFailed(e.Callback())
  }

  /** The last callback was one for data of this channel. */
  predicate Heard(log: seq<Event>, k: Channel) { log != [] && log[|log| - 1].Data? && log[|log| - 1].channel == k }

  /** The result of one octet, r, against the parser it produced. */
  ghost predicate TookOne(c: Core, errno: Errno, r: Step, seen: seq<Event>, reported: seq<Event>, turn: Turn) {
    match turn
    case Consume => errno.OK? && r == Step(c, seen, More)
    case Again => false
    case LeaveHere => ParseError(errno) && r.core == c && r.end == Failed(errno) && Withheld(reported, r.log)
    case LeaveAfter =>
      r.core == c && r.log == reported
      && ((Stopped(errno) && !r.end.Failed?) || (errno.OK? && r.end.Exited?))
  }

  /** A parser that stopped early leaves exactly the octets that are still needed. */
  predicate Resumes(goal: Result, c: Core, reported: seq<Event>, rest: string) {
    goal == Run(c, reported, rest) || goal == Result(c, reported, rest, Exited)
  }

  /** Some stretch of header octets is so long that the counter may have exceeded its limit. */
  predicate Crowded(goal: Result, lost: nat) { 8 * (High(goal.core) - lost) + 5 > MAX_HEADER_SIZE }

  /** What a run that is to end as `goal` looks like after the octet at q. */
  ghost predicate OnCourse(
    c: Core, errno: Errno, reported: seq<Event>, goal: Result, data: string, q: nat, marks: Marks, turn: Turn)
    requires q < |data|
  {
    match turn
    case Consume => errno.OK? && Run(c, Pending(reported, marks, data, q + 1), data[q + 1..]) == goal
    case Again => errno.OK? && Run(c, Pending(reported, marks, data, q), data[q..]) == goal
    case LeaveHere =>
      || (Stopped(errno) && Resumes(goal, c, reported, data[q..]))
      || (ParseError(errno) && goal.core == c && goal.end == Failed(errno) && goal.rest == data[q..]
          && Withheld(reported, goal.log))
      || errno.HeaderOverflow?
    case LeaveAfter =>
      || (Stopped(errno) && Resumes(goal, c, reported, data[q + 1..]))
      || (errno.OK? && goal == Result(c, reported, data[q + 1..], Exited))
  }

  /** What http_parser_execute leaves behind for an input that means `goal`; when the header size is
      refused, nothing is promised but that some stretch of header octets is long. */
  ghost predicate Answers(
    goal: Result, c: Core, errno: Errno, reported: seq<Event>, rest: string, lost: nat)
  {
    if errno.OK? then goal == Result(c, reported, rest, goal.end) && !goal.end.Failed?
    else if Stopped(errno) then Resumes(goal, c, reported, rest)
    else if errno.HeaderOverflow? then Crowded(goal, lost)
    else goal == Result(c, goal.log, rest, Failed(errno)) && Withheld(reported, goal.log)
  }

  lemma {:induction false} StayingOnCourse(
    c: Core, errno: Errno, reported: seq<Event>, goal: Result, data: string, q: nat, marks: Marks, turn: Turn)
    requires q < |data| && OnCourse(c, errno, reported, goal, data, q, marks, turn)
    ensures turn.Consume? ==> Run(c, Pending(reported, marks, data, q + 1), data[q + 1..]) == goal
    ensures turn.Again? ==> Run(c, Pending(reported, marks, data, q), data[q..]) == goal
  {
    hide Run, Withheld;
  }

  lemma {:induction false} OverflowAnswers(goal: Result, c: Core, reported: seq<Event>, rest: string, lost: nat)
    requires Crowded(goal, lost)
    ensures Answers(goal, c, HeaderOverflow, reported, rest, lost)
  {
  }

  lemma {:induction false} LeavingAnswers(
    c: Core, errno: Errno, reported: seq<Event>, goal: Result, data: string, q: nat, marks: Marks, turn: Turn,
    lost: nat)
    requires q < |data| && OnCourse(c, errno, reported, goal, data, q, marks, turn)
    ensures turn.LeaveHere? && !errno.HeaderOverflow? ==> Answers(goal, c, errno, reported, data[q..], lost)
    ensures turn.LeaveAfter? ==> Answers(goal, c, errno, reported, data[q + 1..], lost)
  {
    hide Run, Withheld;
  }

  lemma {:induction false} EndAnswers(c: Core, errno: Errno, log: seq<Event>, goal: Result, data: string, lost: nat)
    requires goal == Run(c, log, data[|data|..]) && (errno.OK? || Stopped(errno))
    ensures Answers(goal, c, errno, log, data[|data|..], lost)
  {
    hide Byte;
  }

  lemma {:induction false} ReachedIsOnCourse(
    c: Core, reported: seq<Event>, goal: Result, data: string, q: nat, marks: Marks)
    requires q < |data| && Run(c, Pending(reported, marks, data, q + 1), data[q + 1..]) == goal
    ensures OnCourse(c, OK, reported, goal, data, q, marks, Consume)
  {
  }

  lemma {:induction false} ErrorIsOnCourse(
    c: Core, errno: Errno, reported: seq<Event>, goal: Result, data: string, q: nat, marks: Marks)
    requires q < |data| && ParseError(errno)
    ensures goal.core == c && goal.end == Failed(errno) && goal.rest == data[q..] && Withheld(reported, goal.log)
            ==> OnCourse(c, errno, reported, goal, data, q, marks, LeaveHere)
  {
  }

  lemma TookLeaves(c: Core, errno: Errno, r: Step, seen: seq<Event>, reported: seq<Event>)
    requires TookOne(c, errno, r, seen, reported, LeaveAfter)
    ensures r.core == c && r.log == reported
  {
  }

  /** The run ends with this octet. */
  lemma {:induction false} ExitHere(c: Core, log: seq<Event>, data: string, p: nat)
    requires p < |data|
    ensures var r := Byte(c, log, data[p]);
            r.end.Exited? ==> Run(c, log, data[p..]) == Result(r.core, r.log, data[p + 1..], Exited)
  {
    hide Byte, Run;
    RunHere(c, log, data, p);
  }

  /** A parser that stopped has forgotten its marks. */
  lemma {:induction false} LeftIsOnCourse(
    c: Core, errno: Errno, reported: seq<Event>, goal: Result, data: string, q: nat, marks: Marks, marks': Marks)
    requires q < |data| && OnCourse(c, errno, reported, goal, data, q, marks, LeaveHere)
    ensures OnCourse(c, errno, reported, goal, data, q, marks', LeaveHere)
  {
  }

  lemma {:induction false} OverflowIsOnCourse(
    c: Core, reported: seq<Event>, goal: Result, data: string, q: nat, marks: Marks)
    requires q < |data|
    ensures OnCourse(c, HeaderOverflow, reported, goal, data, q, marks, LeaveHere)
  {
  }

  /** The octet at q is wanted again, now or after a stop. */
  lemma {:induction false} RepeatIsOnCourse(
    c: Core, errno: Errno, reported: seq<Event>, goal: Result, data: string, q: nat, marks: Marks, turn: Turn)
    requires q < |data| && Run(c, reported, data[q..]) == goal
    requires (turn.Again? && errno.OK? && marks == NO_MARKS) || (turn.LeaveHere? && Stopped(errno))
    ensures OnCourse(c, errno, reported, goal, data, q, marks, turn)
  {
    hide Run;
    PendingNone(reported, data, q);
  }

  lemma {:induction false} TookIsOnCourse(
    c0: Core, log: seq<Event>, c: Core, errno: Errno, reported: seq<Event>, data: string, p: nat, marks: Marks,
      turn: Turn)
    requires p < |data|
    requires TookOne(c, errno, Byte(c0, log, data[p]), Pending(reported, marks, data, p + 1), reported, turn)
    ensures OnCourse(c, errno, reported, Run(c0, log, data[p..]), data, p, marks, turn)
  {
    hide Byte, Run, Pending, Withheld;
    RunHere(c0, log, data, p);
  }

  lemma {:induction false} AgainIsOnCourse(
    c0: Core, log: seq<Event>, c: Core, errno: Errno, reported: seq<Event>, data: string, p: nat, marks: Marks,
      turn: Turn)
    requires p < |data|
    requires (turn.Again? && errno.OK?)
          || (turn.LeaveHere? && Stopped(errno) && Pending(reported, marks, data, p) == reported)
    requires Byte(c0, log, data[p]) == Byte(c, Pending(reported, marks, data, p), data[p])
    ensures OnCourse(c, errno, reported, Run(c0, log, data[p..]), data, p, marks, turn)
  {
    hide Byte, Run, Pending, Withheld;
    RunHere(c0, log, data, p);
    RunHere(c, Pending(reported, marks, data, p), data, p);
  }

  /** An octet that was taken leaves a parser that satisfies the invariant. */
  lemma {:induction false} OctetLands(
    c0: Core, log: seq<Event>, data: string, p: nat, marks: Marks,
    c: Core, errno: Errno, reported: seq<Event>, marks': Marks, turn: Turn)
    requires p < |data| && Inv(c0) && MarksFit(c0.state, marks, p)
    requires var seen := Pending(log, marks, data, p);
             TookOne(c, errno, Byte(c0, seen, data[p]), Pending(reported, marks', data, p + 1), reported, turn)
    ensures OnCourse(c, errno, reported, Run(c0, Pending(log, marks, data, p), data[p..]), data, p, marks', turn)
    ensures turn.Consume? || turn.LeaveAfter? ==> Inv(c)
    ensures turn.LeaveAfter? ==> Spoke(c.state, reported)
    ensures !turn.Again? && (turn.Consume? ==> errno.OK?) && (turn.LeaveHere? ==> ParseError(errno))
    ensures turn.LeaveAfter? ==> errno.OK? || Stopped(errno)
  {
    hide Byte, Run, Pending, Withheld, OnCourse, MarksFit, Inv, Spoke;
    var seen := Pending(log, marks, data, p);
    PendingSpoke(log, c0.state, marks, data, p);
    ByteKept(c0, seen, data[p]);
    TookIsOnCourse(c0, seen, c, errno, reported, data, p, marks', turn);
  }

  /** An octet that is to be looked at again, now or by the next call. */
  lemma {:induction false} OctetRepeats(
    c0: Core, log: seq<Event>, data: string, p: nat, marks: Marks,
    c: Core, errno: Errno, reported: seq<Event>, marks': Marks, turn: Turn)
    requires p < |data| && (Settled(c.state) || c.state == InHeader(ValueStart)) && Framed(c)
    requires c.state == InHeader(ValueStart) ==>
             IsValueState(c.hstate) && (c.hstate.ContentLength? ==> c.length < NO_LENGTH)
    requires turn.Again? ==> errno.OK? && marks' == NO_MARKS
    requires turn.Again? || (turn.LeaveHere? && Stopped(errno))
    requires Byte(c0, Pending(log, marks, data, p), data[p]) == Byte(c, reported, data[p])
    ensures OnCourse(c, errno, reported, Run(c0, Pending(log, marks, data, p), data[p..]), data, p, marks', turn)
    ensures Inv(c) && Spoke(c.state, reported)
    ensures turn.Again? ==> MarksFit(c.state, marks', p)
  {
    hide Byte, Run, Pending, Withheld, OnCourse;
    var seen := Pending(log, marks, data, p);
    RunHere(c0, seen, data, p);
    RunHere(c, reported, data, p);
    RepeatIsOnCourse(c, errno, reported, Run(c0, seen, data[p..]), data, p, marks', turn);
  }

  /** The states in which an octet is left to be looked at again. */
  predicate Settled(s: State) {
    s == Start(StartReq) || s == InHeader(FieldStart) || s == InHeader(HeadersAlmostDone)
    || s == InHeader(HeadersDone) || s == InBody(MessageDone)
  }

  /** The octet after a URL. */
  lemma {:induction false} UrlEndByte(c: Core, s: UrlState, log: seq<Event>, ch: char)
    requires !s.SpacesBeforeUrl? && (ch == ' ' || ch == CR || ch == LF)
    ensures UrlByte(c, s, log, ch) ==
            if s.Schema? || s.SchemaSlash? || s.SchemaSlashSlash? || s.ServerStart? then Err(c, log, InvalidUrl)
            else if ch == ' ' then Go(c.(state := InVersion(HttpStart)), log)
            else if ch == CR then Go(c.(major := 0, minor := 9, state := InVersion(LineAlmostDone)), log)
            else Go(c.(major := 0, minor := 9, state := InHeader(FieldStart)), log)
  {
    hide UrlChar;
  }

  lemma {:induction false} StartReqByte(c: Core, log: seq<Event>, ch: char)
    requires c.state == Start(StartReq)
    ensures Dispatch(c, log, ch) == StartRequest(c, log, ch)
  {
    hide StartRequest;
  }

  /** How many more times an octet may be looked at again. */
  function Rank(s: State): nat {
    match s
    case Start(t) => if t.StartReqOrRes? then 1 else 0
    case InHeader(h) =>
      if h.ValueLws? || h.DiscardLws? then 4
      else if h.FieldStart? then 3
      else if h.HeadersAlmostDone? then 2
      else if h.HeadersDone? || h.Value? then 1
      else 0
    case InBody(b) => if b.Identity? then 1 else 0
    case _ => 0
  }

  lemma HighIsTall(c: Core)
    ensures High(c) >= c.tally
  {
  }

  /** What follows a message does not depend on the count or on where the message ended. */
  lemma SameNewMessage(c: Core, c': Core)
    requires c == c'.(tally := 0, peak := 0)
    ensures NewMessage(c) == NewMessage(c') && NeedsEof(c) == NeedsEof(c')
  {
  }

  lemma NewMessageIsStart(c: Core)
    ensures NewMessage(c).Start? && Speaking(NewMessage(c)).None? && Rank(NewMessage(c)) == 0
  {
  }

  lemma RanksInChunk(c: Core)
    ensures c.state.InChunk? ==> Rank(c.state) == 0
  {
  }

  lemma RankBound(s: State)
    ensures Rank(s) <= 4
  {
  }

  lemma FramedTally(c: Core, tally: nat)
    requires Framed(c)
    ensures Framed(c.(tally := tally, state := InHeader(DiscardWs)))
  {
  }

  lemma FramedScan(c: Core, c': Core)
    requires Framed(c) && c'.length == c.length && c'.flags == c.flags
    ensures Framed(c')
  {
  }

  /** The state http_parser_init leaves. */
  function Initial(t: Kind): Core {
    Core(t, NO_FLAGS, Start(if t.Request? then StartReq else if t.Response? then StartRes else StartReqOrRes),
         General, 0, 0, 0, 0, 0, Delete, false, 0, 0)
  }

  /** The states in which the connection may end. */
  predicate AtRest(s: State) { s.Start? && !s.start.ResOrRespH? }

  /** The marks a state starts a buffer with. */
  function EntryMarks(s: State): Marks {
    match Speaking(s)
    case None => NO_MARKS
    case Some(k) => Only(k, 0)
  }

  lemma {:induction false} EntryIsReady(s: State, log: seq<Event>, data: string)
    requires Spoke(s, log)
    ensures MarksFit(s, EntryMarks(s), 0) && Pending(log, EntryMarks(s), data, 0) == log
    ensures data[0..] == data
  {
    hide Push, Pending;
    PendingNone(log, data, 0);
    if Speaking(s).Some? {
      HolderOfOnly(Speaking(s).value, 0);
      PendingAtStart(log, Speaking(s).value, data);
    }
  }

  /** A value of more than 80 KiB without a line end. */
  lemma {:induction false} LongValue(c: Core, log: seq<Event>, data: string, p: nat)
    requires c.state == InHeader(Value) && c.hstate.General?
    requires p + MAX_HEADER_SIZE <= |data| && NoLineEnd(data, p, p + MAX_HEADER_SIZE)
    ensures High(Run(c, log, data[p..]).core) >= c.tally + MAX_HEADER_SIZE
  {
    hide Run, Push, NoLineEnd;
    var q := p + MAX_HEADER_SIZE;
    GeneralRun(c, log, data, p, q);
    var c' := c.(tally := c.tally + (q - p));
    RunHigh(c', Push(log, Data(ValueData, data[p..q])), data[q..]);
    HighIsTall(c');
  }

  class Parser {
    var kind: Kind
    var flags: Flags
    var state: State
    var headerState: HState
    var index: nat
    var nread: nat
    var contentLength: nat
    var httpMajor: nat
    var httpMinor: nat
    var statusCode: nat
    var verb: Method
    var errno: Errno
    var upgrade: bool
    ghost var tally: nat
    ghost var peak: nat
    /** How many of the octets of tally have never been counted. */
    ghost var lost: nat
    /** The most octets lost when the count was cleared. */
    ghost var worst: nat

    /** The parser's own fields. */
    function Struct(): Core
      reads this
    {
      Core(kind, flags, state, headerState, index, contentLength, httpMajor, httpMinor, statusCode, verb, upgrade, 0, 0)
    }

    ghost function Fields(): Core
      reads this
    {
      Core(kind, flags, state, headerState, index, contentLength, httpMajor, httpMinor, statusCode, verb, upgrade,
        tally, peak)
    }

    /** The result of one octet, r, is what this parser now is.  `seen` includes the data held back by
        marks, `reported` does not. */
    ghost predicate Took(r: Step, seen: seq<Event>, reported: seq<Event>, turn: Turn)
      reads this
    {
      TookOne(Fields(), errno, r, seen, reported, turn)
    }

    /** The whole run is still going to end as `goal` says. */
    ghost predicate Sound(goal: Result, app: Application, data: string, q: nat, marks: Marks, turn: Turn)
      reads this, app
    {
      q < |data| && (|data| <= SAFE_LENGTH ==> OnCourse(Fields(), errno, app.Joined(), goal, data, q, marks, turn))
    }

    /** The header counter stays within eight times the octets it stands for. */
    ghost predicate Tight()
      reads this
    {
      nread + Rank(state) <= 8 * (tally - lost) + 4
    }

    /** The same once the octet at hand has been counted. */
    ghost predicate Roomy()
      reads this
    {
      nread + Rank(state) <= 8 * (tally - lost) + if ParsingHeader(state) then 5 else 4
    }

    /** A parser that stopped was stopped by the last callback it made. */
    ghost predicate Blamed(app: Application)
      reads this, app
    {
      Stopped(errno) ==> app.log != [] && Verdicts(app.answer(app.log), app.log[|app.log| - 1], errno)
    }

    /** No message that asks for another protocol has come to its end. */
    predicate Serving()
      reads this
    {
      upgrade ==> state == InHeader(HeadersDone)
    }

    /** This call has come to the end of such a message, and n octets were taken for it. */
    ghost predicate Ended(goal: Result, app: Application, data: string, n: nat)
      requires n <= |data|
      reads this, app
    {
      |data| <= SAFE_LENGTH ==> goal == Result(Fields(), app.Joined(), data[n..], Exited)
    }

    ghost predicate Ends(goal: Result, app: Application, data: string, q: nat, turn: Turn)
      requires q < |data|
      reads this, app
    {
      turn.LeaveAfter? && Ended(goal, app, data, q + 1)
    }

    /** No stretch of header octets that is over exceeded the limit by more than has been lost of one. */
    ghost predicate Capped()
      reads this
    {
      peak <= MAX_HEADER_SIZE + worst
    }

    /** If the count has been cleared, it stood at n at most, and what was lost of it is remembered. */
    twostate predicate Tops(n: nat)
      reads this
    {
      || (peak == old(peak) && worst == old(worst))
      || ((peak <= old(peak) || peak <= n) && worst >= old(worst) && worst >= old(lost)
          && (worst == old(worst) || worst == old(lost)))
    }

    /** The last callback was one for the data of a value. */
    ghost predicate Told(app: Application)
      reads app
    {
      Heard(app.log, ValueData)
    }

    /** The only place where octets that have been parsed are never counted: a value whose callback stops
        the parser at the CR that ends it. */
    ghost predicate LosesAt(app: Application, data: string, q: nat, turn: Turn)
      requires q < |data|
      reads this, app
    {
      Stopped(errno) && Told(app) && turn.LeaveAfter? && data[q] == CR
    }

    /** How the treatment of a value from p on ends at q: past the value only if its callback lets it, with
        the octets between lost if the callback stops the parser at a CR, and with the header size refused
        only after the callback, at a LF, in the middle of a value, or if the octets are too many. */
    ghost predicate ValueLeft(
      app: Application, goal: Result, data: string, before: nat, p: nat, q: nat, turn: Turn)
      requires q < |data|
      reads this, app
    {
      var let := Told(app) && app.answer(app.log).Proceed?;
      match turn
      case Consume => let || (state == InHeader(Value) && q + 1 == |data|)
      case Again => let
      case LeaveHere =>
        let || data[q] == LF || ParseError(errno)
        || (errno.HeaderOverflow? && (goal.core.state == InHeader(Value) || |data| - p > MAX_HEADER_SIZE))
      case LeaveAfter => p <= q && LosesAt(app, data, q, turn) && lost == before + (q - p)
    }

    /** COUNT_HEADER_SIZE */
    method CountHeaderSize(v: int) returns (ok: bool)
      requires errno.OK? && 0 <= nread + v
      modifies this`nread, this`errno
      ensures nread == (old(nread) + v) % U32
      ensures ok <==> nread <= MAX_HEADER_SIZE
      ensures errno == if ok then OK else HeaderOverflow
    {
      nread := (nread + v) % U32;
      ok := nread <= MAX_HEADER_SIZE;
      if !ok {
        errno := HeaderOverflow;
      }
    }

    /** The callback part of CALLBACK_NOTIFY_ and CALLBACK_DATA_.  Returning 1 is a failure here. */
    method Callback(app: Application, e: Event) returns (go: bool)
      requires errno.OK? && !e.HeadersComplete? && NoEmptyBody([e])
      modifies this`errno, app
      ensures app.log == old(app.log) + [e] && app.Joined() == Push(old(app.Joined()), e)
      ensures go <==> errno.OK?
      ensures go <==> app.answer(app.log).Proceed?
      ensures !go ==> Stopped(errno)
      ensures Blamed(app)
    {
      var v := app.Call(e);
      match v {
        case Proceed =>
        case Pause => errno := Paused;
        case ReturnOne => errno := CallbackFailed(e.Callback());
        case Abort => errno := CallbackFailed(e.Callback());
      }
      go := errno.OK?;
    }

    /** CALLBACK_DATA_: reports the data from the mark up to `end`, if the mark is set. */
    method DataCallback(app: Application, k: Channel, data: string, marks: Marks, end: nat)
      returns (go: bool, marks': Marks)
      requires errno.OK? && end <= |data|
      requires marks.Get(k).Some? ==> marks == Only(k, marks.Get(k).value) && marks.Get(k).value <= end
      requires k.BodyData? && marks.Get(k).Some? ==> marks.Get(k).value < end
      modifies this`errno, app
      ensures marks.Get(k).Some? ==>
                app.Joined() == Pending(old(app.Joined()), marks, data, end) && LastSpoke(app.Joined(), k)
      ensures marks.Get(k).None? ==> go && marks' == marks && app.log == old(app.log)
      ensures marks == NO_MARKS ==> app.Joined() == Pending(old(app.Joined()), marks, data, end)
      ensures old(app.log) <= app.log
      ensures go <==> errno.OK?
      ensures !go ==> Stopped(errno)
      ensures go && marks.Get(k).Some? ==> marks' == NO_MARKS
      ensures Blamed(app)
      ensures marks.Get(k).Some? ==> Heard(app.log, k) && (go ==> app.answer(app.log).Proceed?)
    {
      marks' := marks;
      go := true;
      HolderOfOnly(k, 0);
      if marks.Get(k).Some? {
        var m := marks.Get(k).value;
        HolderOfOnly(k, m);
        go := Callback(app, Data(k, data[m..end]));
        if go {
          marks' := marks.Put(k, None);
        }
      }
    }

    // The cases that touch neither marks nor callbacks.

    method Want(ch: char, want: char, next: State, ghost log: seq<Event>) returns (turn: Turn)
      requires errno.OK?
      modifies this`state, this`errno
      ensures Took(Expect(old(Fields()), log, ch, want, next), log, log, turn)
      ensures !Stopped(errno)
    {
      if ch != want {
        errno := Strict;
        return LeaveHere;
      }
      state := next;
      turn := Consume;
    }

    method StatusCase(s: StatusState, ch: char, ghost log: seq<Event>) returns (turn: Turn)
      requires errno.OK? && state == StatusLine(s) && !s.ResStatusStart? && !s.ResStatus?
      modifies this`state, this`errno, this`httpMajor, this`httpMinor, this`statusCode
      ensures Took(StatusByte(old(Fields()), s, log, ch), log, log, turn)
      ensures !Stopped(errno)
      ensures errno.OK? ==> Speaking(state).None?
      ensures !state.InChunk?
    {
      turn := Consume;
      match s {
        case ResH => turn := Want(ch, 'T', StatusLine(ResHT), log);
        case ResHT => turn := Want(ch, 'T', StatusLine(ResHTT), log);
        case ResHTT => turn := Want(ch, 'P', StatusLine(ResHTTP), log);
        case ResHTTP => turn := Want(ch, '/', StatusLine(ResFirstHttpMajor), log);
        case ResFirstHttpMajor =>
          if ch < '0' || ch > '9' {
            errno := InvalidVersion;
            return LeaveHere;
          }
          httpMajor := Digit(ch);
          state := StatusLine(ResHttpMajor);
        case ResHttpMajor =>
          if ch == '.' {
            state := StatusLine(ResFirstHttpMinor);
            return;
          }
          turn := MajorCase(ch, log);
        case ResFirstHttpMinor =>
          if !IsNum(ch) {
            errno := InvalidVersion;
            return LeaveHere;
          }
          httpMinor := Digit(ch);
          state := StatusLine(ResHttpMinor);
        case ResHttpMinor =>
          if ch == ' ' {
            state := StatusLine(ResFirstStatusCode);
            return;
          }
          turn := MinorCase(ch, log);
        case ResFirstStatusCode =>
          if !IsNum(ch) {
            if ch == ' ' {
              return;
            }
            errno := InvalidStatus;
            return LeaveHere;
          }
          statusCode := Digit(ch);
          state := StatusLine(ResStatusCode);
        case ResStatusCode =>
          if !IsNum(ch) {
            if ch == ' ' {
              state := StatusLine(ResStatusStart);
            } else if ch == CR {
              state := StatusLine(ResLineAlmostDone);
            } else if ch == LF {
              state := InHeader(FieldStart);
            } else {
              errno := InvalidStatus;
              return LeaveHere;
            }
            return;
          }
          statusCode := statusCode * 10;
          statusCode := statusCode + Digit(ch);
          if statusCode > 999 {
            errno := InvalidStatus;
            return LeaveHere;
          }
        case ResLineAlmostDone => turn := Want(ch, LF, InHeader(FieldStart), log);
      }
    }

    /** A further digit of the major version number. */
    method MajorCase(ch: char, ghost log: seq<Event>) returns (turn: Turn)
      requires errno.OK?
      modifies this`errno, this`httpMajor
      ensures Took(MajorDigit(old(Fields()), log, ch), log, log, turn)
      ensures !Stopped(errno)
    {
      if !IsNum(ch) {
        errno := InvalidVersion;
        return LeaveHere;
      }
      httpMajor := httpMajor * 10;
      httpMajor := httpMajor + Digit(ch);
      if httpMajor > 999 {
        errno := InvalidVersion;
        return LeaveHere;
      }
      turn := Consume;
    }

    /** A further digit of the minor version number. */
    method MinorCase(ch: char, ghost log: seq<Event>) returns (turn: Turn)
      requires errno.OK?
      modifies this`errno, this`httpMinor
      ensures Took(MinorDigit(old(Fields()), log, ch), log, log, turn)
      ensures !Stopped(errno)
    {
      if !IsNum(ch) {
        errno := InvalidVersion;
        return LeaveHere;
      }
      httpMinor := httpMinor * 10;
      httpMinor := httpMinor + Digit(ch);
      if httpMinor > 999 {
        errno := InvalidVersion;
        return LeaveHere;
      }
      turn := Consume;
    }

    method MethodCase(ch: char, ghost log: seq<Event>) returns (turn: Turn)
      requires errno.OK? && state.InMethod? && Inv(Fields())
      modifies this`state, this`errno, this`verb, this`index
      ensures Took(MethodByte(old(Fields()), log, ch), log, log, turn)
      ensures !Stopped(errno)
      ensures errno.OK? ==> Speaking(state).None?
      ensures !state.InChunk?
    {
      if ch == '\0' {
        errno := InvalidMethod;
        return LeaveHere;
      }
      var matcher := MethodString(verb);
      assert index <= |matcher|;  // the terminator is the last octet read
      if ch == ' ' && At(matcher, index) == '\0' {
        state := InUrl(SpacesBeforeUrl);
      } else if ch == At(matcher, index) {
      } else {
        match ReviseMethod(verb, index, ch) {
          case Some(m) => verb := m;
          case None =>
            errno := InvalidMethod;
            return LeaveHere;
        }
      }
      index := Inc8(index);
      turn := Consume;
    }

    method VersionCase(s: VersionState, ch: char, ghost log: seq<Event>) returns (turn: Turn)
      requires errno.OK? && state == InVersion(s)
      modifies this`state, this`errno, this`httpMajor, this`httpMinor
      ensures Took(VersionByte(old(Fields()), s, log, ch), log, log, turn)
      ensures !Stopped(errno)
      ensures errno.OK? ==> Speaking(state).None?
      ensures !state.InChunk?
    {
      turn := Consume;
      match s {
        case HttpStart =>
          if ch == 'H' {
            state := InVersion(HttpH);
          } else if ch != ' ' {
            errno := InvalidConstant;
            return LeaveHere;
          }
        case HttpH => turn := Want(ch, 'T', InVersion(HttpHT), log);
        case HttpHT => turn := Want(ch, 'T', InVersion(HttpHTT), log);
        case HttpHTT => turn := Want(ch, 'P', InVersion(HttpHTTP), log);
        case HttpHTTP => turn := Want(ch, '/', InVersion(FirstHttpMajor), log);
        case FirstHttpMajor =>
          if ch < '1' || ch > '9' {
            errno := InvalidVersion;
            return LeaveHere;
          }
          httpMajor := Digit(ch);
          state := InVersion(HttpMajor);
        case HttpMajor =>
          if ch == '.' {
            state := InVersion(FirstHttpMinor);
            return;
          }
          turn := MajorCase(ch, log);
        case FirstHttpMinor =>
          if !IsNum(ch) {
            errno := InvalidVersion;
            return LeaveHere;
          }
          httpMinor := Digit(ch);
          state := InVersion(HttpMinor);
        case HttpMinor =>
          if ch == CR {
            state := InVersion(LineAlmostDone);
            return;
          }
          if ch == LF {
            state := InHeader(FieldStart);
            return;
          }
          turn := MinorCase(ch, log);
        case LineAlmostDone =>
          if ch != LF {
            errno := LfExpected;
            return LeaveHere;
          }
          state := InHeader(FieldStart);
      }
    }

    /** The counter starts again. */
    method ClearHeaderSize()
      modifies this`nread, this`tally, this`peak, this`lost, this`worst
      ensures nread == tally == lost == 0 && Fields() == Cleared(old(Fields()))
      ensures Tops(old(tally))
    {
      nread := 0;
      peak := High(Fields());
      worst := if lost > worst then lost else worst;
      tally, lost := 0, 0;
    }

    /** The line of a chunk size, up to its end. */
    method SizeCase(s: ChunkState, ch: char, ghost log: seq<Event>) returns (turn: Turn)
      requires errno.OK? && state == InChunk(s) && Inv(Fields()) && (s.SizeStart? || s.Size? || s.Parameters?)
      requires s.SizeStart? ==> nread == 1
      modifies this`state, this`errno, this`contentLength
      ensures Took(ChunkByte(old(Fields()), s, log, ch), log, log, turn)
      ensures errno.OK? ==> state.InChunk? && state.chunk != SizeStart
      ensures !Stopped(errno)
    {
      hide Cleared;
      turn := Consume;
      assert flags.chunked;
      match s {
        case SizeStart =>
          assert nread == 1;
          if Unhex(ch) == -1 {
            errno := InvalidChunkSize;
            return LeaveHere;
          }
          contentLength := Unhex(ch);
          state := InChunk(Size);
        case Size =>
          if ch == CR {
            state := InChunk(SizeAlmostDone);
            return;
          }
          if Unhex(ch) == -1 {
            if ch == ';' || ch == ' ' {
              state := InChunk(Parameters);
              return;
            }
            errno := InvalidChunkSize;
            return LeaveHere;
          }
          var t := contentLength * 16 % U64;
          t := (t + Unhex(ch)) % U64;
          if (NO_LENGTH - 16) / 16 < contentLength {
            errno := InvalidContentLength;
            return LeaveHere;
          }
          contentLength := t;
        case Parameters =>
          if ch == CR {
            state := InChunk(SizeAlmostDone);
          }
      }
    }

    /** The chunked coding, except for the chunk data and the octet after it. */
    method ChunkCase(s: ChunkState, ch: char, ghost log: seq<Event>) returns (turn: Turn)
      requires errno.OK? && state == InChunk(s) && Inv(Fields()) && !s.ChunkData? && !s.DataAlmostDone?
      requires s.SizeStart? ==> nread == 1
      modifies this`state, this`errno, this`contentLength, this`flags, this`nread, this`tally, this`peak, this`lost,
        this`worst
      ensures Took(ChunkByte(old(Fields()), s, log, ch), log, log, turn)
      ensures (nread == old(nread) && tally == old(tally) && lost == old(lost)) || nread == tally == lost == 0
      ensures errno.OK? && (state == InChunk(SizeStart) || s.DataDone?) ==> nread == 0
      ensures Tops(old(tally))
      ensures !Stopped(errno)
      ensures errno.OK? ==> Speaking(state).None?
    {
      hide Cleared, Unhex, Limit;
      if s.SizeAlmostDone? || s.DataDone? {
        if ch != LF {
          errno := Strict;
          return LeaveHere;
        }
        assert flags.chunked;
        ClearHeaderSize();
        if s.DataDone? {
          state := InChunk(SizeStart);
        } else if contentLength == 0 {
          flags := flags.(trailing := true);
          state := InHeader(FieldStart);
        } else {
          state := InChunk(ChunkData);
        }
        turn := Consume;
      } else {
        hide ChunkByte, TookOne, Inv;
        turn := SizeCase(s, ch, log);
      }
    }

    // The cases that call back or set marks.

    method StartReqCase(app: Application, ch: char) returns (turn: Turn)
      requires errno.OK? && state == Start(StartReq)
      modifies this`state, this`errno, this`flags, this`contentLength, this`verb, this`index, app
      ensures Took(StartRequest(old(Fields()), old(app.Joined()), ch), app.Joined(), app.Joined(), turn)
      ensures old(app.log) <= app.log
      ensures Blamed(app)
      ensures errno.OK? ==> Speaking(state).None?
      ensures !state.InChunk?
      ensures !turn.Again?
    {
      hide Push, Join, Verdicts, FirstMethod, IsAlpha;
      if ch == CR || ch == LF {
        return Consume;
      }
      flags := NO_FLAGS;
      contentLength := NO_LENGTH;
      if !IsAlpha(ch) {
        errno := InvalidMethod;
        return LeaveHere;
      }
      verb := Delete;
      index := 1;
      match FirstMethod(ch) {
        case Some(m) => verb := m;
        case None =>
          errno := InvalidMethod;
          return LeaveHere;
      }
      state := InMethod;
      turn := Notify(app, MessageBegin);
    }

    /** The octet after an 'H' that may begin a response or the method HEAD. */
    method SecondCase(ch: char, ghost log: seq<Event>) returns (turn: Turn)
      requires errno.OK? && state == Start(ResOrRespH)
      modifies this`kind, this`state, this`errno, this`verb, this`index
      ensures Took(StartByte(old(Fields()), ResOrRespH, log, ch), log, log, turn)
      ensures !Stopped(errno) && !turn.Again?
      ensures errno.OK? ==> Speaking(state).None?
      ensures !state.InChunk?
    {
      hide Push, StartRequest;
      if ch == 'T' {
        kind := Response;
        state := StatusLine(ResHT);
      } else {
        if ch != 'E' {
          errno := InvalidConstant;
          return LeaveHere;
        }
        kind := Request;
        verb := Head;
        index := 2;
        state := InMethod;
      }
      turn := Consume;
    }

    /** A parser that does not yet know whether it reads requests or responses. */
    method BothCase(app: Application, s: StartState, ch: char) returns (turn: Turn)
      requires errno.OK? && state == Start(s) && (s.StartReqOrRes? || s.ResOrRespH?)
      modifies this`kind, this`state, this`errno, this`flags, this`contentLength, this`verb, this`index, app
      ensures var r := StartByte(old(Fields()), s, old(app.Joined()), ch);
              if turn.Again? then
                errno.OK? && state == Start(StartReq) && s.StartReqOrRes? && Framed(Fields())
                && r == StartRequest(Fields(), app.Joined(), ch)
              else Took(r, app.Joined(), app.Joined(), turn)
      ensures old(app.log) <= app.log
      ensures Blamed(app)
      ensures errno.OK? ==> Speaking(state).None?
      ensures !state.InChunk?
    {
      hide Push, Join, Verdicts, StartRequest;
      turn := Consume;
      if s.ResOrRespH? {
        turn := SecondCase(ch, app.Joined());
        return;
      }
      if ch == CR || ch == LF {
        return;
      }
      flags := NO_FLAGS;
      contentLength := NO_LENGTH;
      if ch == 'H' {
        state := Start(ResOrRespH);
        turn := Notify(app, MessageBegin);
      } else {
        kind := Request;
        state := Start(StartReq);
        turn := Again;
      }
    }

    /** A connection that is over. */
    method DeadCase(ch: char, ghost log: seq<Event>) returns (turn: Turn)
      requires errno.OK? && state == DEAD
      modifies this`errno
      ensures Took(StartByte(old(Fields()), Dead, log, ch), log, log, turn)
      ensures !Stopped(errno) && !turn.Again?
    {
      hide Push, StartRequest;
      if ch == CR || ch == LF {
        return Consume;
      }
      errno := ClosedConnection;
      turn := LeaveHere;
    }

    method StartCase(app: Application, s: StartState, ch: char) returns (turn: Turn)
      requires errno.OK? && state == Start(s) && (s.Dead? || s.StartRes?)
      modifies this`state, this`errno, this`flags, this`contentLength, app
      ensures Took(StartByte(old(Fields()), s, old(app.Joined()), ch), app.Joined(), app.Joined(), turn)
      ensures old(app.log) <= app.log
      ensures Blamed(app)
      ensures errno.OK? ==> Speaking(state).None?
      ensures !state.InChunk?
      ensures !turn.Again?
    {
      hide Push, Join, Verdicts, StartRequest;
      if s.Dead? {
        turn := DeadCase(ch, app.Joined());
        return;
      }
      flags := NO_FLAGS;
      contentLength := NO_LENGTH;
      if ch == 'H' {
        state := StatusLine(ResH);
      } else if ch != CR && ch != LF {
        errno := InvalidConstant;
        return LeaveHere;
      }
      turn := Notify(app, MessageBegin);
    }

    /** CALLBACK_NOTIFY */
    method Notify(app: Application, e: Event) returns (turn: Turn)
      requires errno.OK? && !e.HeadersComplete? && NoEmptyBody([e])
      modifies this`errno, app
      ensures app.log == old(app.log) + [e] && app.Joined() == Push(old(app.Joined()), e)
      ensures (turn.Consume? && errno.OK?) || (turn.LeaveAfter? && Stopped(errno))
      ensures Blamed(app)
    {
      var go := Callback(app, e);
      turn := if go then Consume else LeaveAfter;
    }

    /** CALLBACK_DATA */
    method Report(app: Application, k: Channel, data: string, p: nat, marks: Marks) returns (turn: Turn, marks': Marks)
      requires errno.OK? && p < |data|
      requires marks.Get(k).Some? ==> marks == Only(k, marks.Get(k).value) && marks.Get(k).value <= p
      requires k.BodyData? && marks.Get(k).Some? ==> marks.Get(k).value < p
      requires marks.Get(k).None? ==> marks == NO_MARKS
      modifies this`errno, app
      ensures app.Joined() == Pending(old(app.Joined()), marks, data, p)
      ensures old(app.log) <= app.log
      ensures (turn.Consume? && errno.OK? && marks' == NO_MARKS) || (turn.LeaveAfter? && Stopped(errno))
      ensures Blamed(app)
      ensures marks.Get(k).Some? ==> Heard(app.log, k) && (turn.Consume? ==> app.answer(app.log).Proceed?)
    {
      var go;
      go, marks' := DataCallback(app, k, data, marks, p);
      turn := if go then Consume else LeaveAfter;
    }

    method StatusTextCase(app: Application, s: StatusState, data: string, p: nat, marks: Marks)
      returns (turn: Turn, marks': Marks)
      requires errno.OK? && state == StatusLine(s) && (s.ResStatusStart? || s.ResStatus?)
      requires p < |data| && MarksFit(state, marks, p)
      modifies this`state, this`errno, this`index, app
      ensures var c := old(Fields());
              var log := Pending(old(app.Joined()), marks, data, p);
              Took(StatusByte(c, s, log, data[p]), Pending(app.Joined(), marks', data, p + 1), app.Joined(), turn)
      ensures turn.Consume? ==> MarksFit(state, marks', p + 1)
      ensures old(app.log) <= app.log
      ensures Blamed(app)
      ensures !state.InChunk?
    {
      hide NoEmptyBody;
      hide Push, Say, Pending, Join, Verdicts;
      var ch := data[p];
      turn, marks' := Consume, marks;
      PendingNone(app.Joined(), data, p);
      if ch == CR || ch == LF {
        state := if ch == CR then StatusLine(ResLineAlmostDone) else InHeader(FieldStart);
        if s.ResStatus? {
          turn, marks' := Report(app, StatusData, data, p, marks);
        }
        PendingNone(app.Joined(), data, p + 1);
        return;
      }
      if s.ResStatusStart? {
        marks' := marks.Set(StatusData, p);
        state := StatusLine(ResStatus);
        index := 0;
        PendingStarts(app.Joined(), StatusData, data, p);
      } else {
        PendingGrows(app.Joined(), StatusData, marks.status.value, data, p);
      }
    }

    /** UPDATE_STATE(parse_url_char(...)) and the test that follows it. */
    method UrlStep(u: UrlState, ch: char) returns (turn: Turn)
      requires errno.OK? && state == InUrl(u)
      modifies this`state, this`errno
      ensures var u' := ParseUrlChar(u, ch);
              if u'.UrlDead? then turn.LeaveHere? && errno == InvalidUrl && state == DEAD
              else turn.Consume? && errno.OK? && state == InUrl(u')
      ensures !Stopped(errno)
    {
      var u' := ParseUrlChar(u, ch);
      if u'.UrlDead? {
        state := DEAD;
        errno := InvalidUrl;
        return LeaveHere;
      }
      state := InUrl(u');
      turn := Consume;
    }

    method UrlFirstCase(data: string, p: nat, marks: Marks, ghost log: seq<Event>)
      returns (turn: Turn, marks': Marks)
      requires errno.OK? && state == InUrl(SpacesBeforeUrl)
      requires p < |data| && marks == NO_MARKS
      modifies this`state, this`errno
      ensures Took(UrlByte(old(Fields()), SpacesBeforeUrl, log, data[p]), Pending(log, marks', data, p + 1), log, turn)
      ensures turn.Consume? ==> MarksFit(state, marks', p + 1)
      ensures !Stopped(errno)
      ensures !state.InChunk?
    {
      hide Push, Say, Pending, ParseUrlChar;
      var ch := data[p];
      turn, marks' := Consume, marks;
      PendingNone(log, data, p + 1);
      if ch == ' ' {
        return;
      }
      marks' := marks.Set(UrlData, p);
      if verb.Connect? {
        state := InUrl(ServerStart);
      }
      PendingStarts(log, UrlData, data, p);
      StaysInUrl(state.url, ch);
      turn := UrlStep(state.url, ch);
    }

    /** The octet after the URL. */
    method UrlEndCase(app: Application, s: UrlState, data: string, p: nat, marks: Marks)
      returns (turn: Turn, marks': Marks)
      requires errno.OK? && state == InUrl(s) && !s.SpacesBeforeUrl?
      requires p < |data| && MarksFit(state, marks, p) && (data[p] == ' ' || data[p] == CR || data[p] == LF)
      modifies this`state, this`errno, this`httpMajor, this`httpMinor, app
      ensures var c := old(Fields());
              var log := Pending(old(app.Joined()), marks, data, p);
              Took(UrlByte(c, s, log, data[p]), Pending(app.Joined(), marks', data, p + 1), app.Joined(), turn)
      ensures turn.Consume? ==> MarksFit(state, marks', p + 1)
      ensures old(app.log) <= app.log
      ensures Blamed(app)
      ensures !state.InChunk?
    {
      hide Push, Say, Pending, ParseUrlChar, Withheld, Join, Verdicts, UrlByte;
      UrlEndByte(Fields(), s, Pending(app.Joined(), marks, data, p), data[p]);
      var ch := data[p];
      marks' := marks;
      PendingWithheld(app.Joined(), marks, data, p);
      if s.Schema? || s.SchemaSlash? || s.SchemaSlashSlash? || s.ServerStart? {
        errno := InvalidUrl;
        return LeaveHere, marks';
      }
      if ch == ' ' {
        state := InVersion(HttpStart);
      } else {
        httpMajor := 0;
        httpMinor := 9;
        state := if ch == CR then InVersion(LineAlmostDone) else InHeader(FieldStart);
      }
      turn, marks' := Report(app, UrlData, data, p, marks);
      PendingNone(app.Joined(), data, p + 1);
    }

    method UrlCase(app: Application, s: UrlState, data: string, p: nat, marks: Marks)
      returns (turn: Turn, marks': Marks)
      requires errno.OK? && state == InUrl(s) && !s.SpacesBeforeUrl?
      requires p < |data| && MarksFit(state, marks, p)
      modifies this`state, this`errno, this`httpMajor, this`httpMinor, app
      ensures var c := old(Fields());
              var log := Pending(old(app.Joined()), marks, data, p);
              Took(UrlByte(c, s, log, data[p]), Pending(app.Joined(), marks', data, p + 1), app.Joined(), turn)
      ensures turn.Consume? ==> MarksFit(state, marks', p + 1)
      ensures old(app.log) <= app.log
      ensures Blamed(app)
      ensures !state.InChunk?
    {
      hide Push, Say, Pending, ParseUrlChar, Withheld, Join, Verdicts;
      var ch := data[p];
      turn, marks' := Consume, marks;
      StaysInUrl(s, ch);
      PendingWithheld(app.Joined(), marks, data, p);
      PendingGrows(app.Joined(), UrlData, marks.url.value, data, p);
      if ch == ' ' || ch == CR || ch == LF {
        turn, marks' := UrlEndCase(app, s, data, p, marks);
      } else {
        turn := UrlStep(s, ch);
      }
    }

    method BeginFieldCase(data: string, p: nat, marks: Marks, ghost log: seq<Event>)
      returns (turn: Turn, marks': Marks)
      requires errno.OK? && state == InHeader(FieldStart)
      requires p < |data| && marks == NO_MARKS
      modifies this`state, this`errno, this`index, this`headerState
      ensures var r := BeginField(old(Fields()), log, data[p]);
              if turn.Again? then
                errno.OK? && state == InHeader(HeadersAlmostDone) && marks' == NO_MARKS
                  && r == EndHeaders(Fields(), log, data[p])
              else Took(r, Pending(log, marks', data, p + 1), log, turn)
      ensures turn.Consume? ==> MarksFit(state, marks', p + 1)
      ensures !Stopped(errno)
      ensures !state.InChunk?
    {
      hide Push, Say, Pending, EndHeaders;
      var ch := data[p];
      turn, marks' := Consume, marks;
      PendingNone(log, data, p + 1);
      if ch == CR {
        state := InHeader(HeadersAlmostDone);
        return;
      }
      if ch == LF {
        state := InHeader(HeadersAlmostDone);
        return Again, marks';
      }
      var c := Token(ch);
      if c == '\0' {
        errno := InvalidHeaderToken;
        return LeaveHere, marks';
      }
      marks' := marks.Set(FieldData, p);
      index := 0;
      state := InHeader(Field);
      headerState := FirstField(c);
      PendingStarts(log, FieldData, data, p);
    }

    method BeginValueCase(data: string, p: nat, marks: Marks, ghost log: seq<Event>)
      returns (turn: Turn, marks': Marks)
      requires errno.OK? && state.InHeader?
      requires p < |data| && marks == NO_MARKS
      modifies this`state, this`errno, this`index, this`headerState, this`flags, this`contentLength
      ensures Took(BeginValue(old(Fields()), log, data[p]), Pending(log, marks', data, p + 1), log, turn)
      ensures turn.Consume? ==> MarksFit(state, marks', p + 1)
      ensures !Stopped(errno)
      ensures !state.InChunk?
    {
      hide Push, Say, Pending;
      var ch := data[p];
      marks' := marks.Set(ValueData, p);
      state := InHeader(Value);
      index := 0;
      match headerState {
        case Upgrade => flags := flags.(upgrade := true);
        case ContentLength =>
          if !IsNum(ch) {
            errno := InvalidContentLength;
            return LeaveHere, marks';
          }
          contentLength := Digit(ch);
        case _ =>
      }
      headerState := FirstValue(headerState, ch);
      turn := Consume;
      PendingStarts(log, ValueData, data, p);
    }

    /** The states between the colon and the value. */

    method DiscardCase(app: Application, s: HeaderState, data: string, p: nat, marks: Marks)
      returns (turn: Turn, marks': Marks)
      requires errno.OK? && state == InHeader(s) && (s.DiscardWs? || s.DiscardWsAlmostDone? || s.DiscardLws?)
      requires p < |data| && marks == NO_MARKS
      modifies this`state, this`errno, this`index, this`headerState, this`flags, this`contentLength, app
      ensures var r := HeaderByte(old(Fields()), s, old(app.Joined()), data[p]);
              if turn.Again? || (turn.LeaveHere? && Stopped(errno)) then
                s.DiscardLws? && (turn.Again? ==> errno.OK? && marks' == NO_MARKS)
                && state == InHeader(FieldStart) && flags == LineFlags(old(headerState), old(flags))
                && contentLength == old(contentLength) && r == BeginField(Fields(), app.Joined(), data[p])
              else Took(r, Pending(app.Joined(), marks', data, p + 1), app.Joined(), turn)
      ensures turn.Consume? ==> MarksFit(state, marks', p + 1)
      ensures old(app.log) <= app.log
      ensures Blamed(app)
      ensures !state.InChunk?
    {
      hide NoEmptyBody;
      hide Push, Say, Pending, Join, Verdicts, BeginField, BeginValue, Withheld;
      var ch := data[p];
      turn, marks' := Consume, marks;
      PendingNone(app.Joined(), data, p + 1);
      PendingWithheld(app.Joined(), marks, data, p + 1);
      if s.DiscardWs? {
        if ch == ' ' || ch == '\t' {
          return;
        }
        if ch == CR {
          state := InHeader(DiscardWsAlmostDone);
          return;
        }
        if ch == LF {
          state := InHeader(DiscardLws);
          return;
        }
        turn, marks' := BeginValueCase(data, p, marks, app.Joined());
      } else if s.DiscardWsAlmostDone? {
        turn := Want(ch, LF, InHeader(DiscardLws), app.Joined());
      } else if ch == ' ' || ch == '\t' {
        state := InHeader(DiscardWs);
      } else {
        flags := LineFlags(headerState, flags);
        marks' := marks.Set(ValueData, p);
        state := InHeader(FieldStart);
        PendingEmpty(app.Joined(), ValueData, data, p);
        var go;
        go, marks' := DataCallback(app, ValueData, data, marks', p);
        turn := if go then Again else LeaveHere;
      }
    }

    /** The states after the end of a value. */
    method LineEndCase(s: HeaderState, ch: char, ghost log: seq<Event>) returns (turn: Turn)
      requires errno.OK? && state == InHeader(s) && (s.AlmostDone? || s.ValueLws?)
      modifies this`state, this`errno, this`flags
      ensures var r := HeaderByte(old(Fields()), s, log, ch);
              if turn.Again? then
                errno.OK? && s.ValueLws?
                && if IsBlank(ch) then
                     state == InHeader(ValueStart) && flags == old(flags) && r == BeginValue(Fields(), log, ch)
                   else
                     state == InHeader(FieldStart) && flags == LineFlags(old(headerState), old(flags))
                     && r == BeginField(Fields(), log, ch)
              else Took(r, log, log, turn)
      ensures !Stopped(errno)
      ensures errno.OK? ==> Speaking(state).None?
      ensures !state.InChunk?
    {
      hide BeginField, Say;
      if s.AlmostDone? {
        turn := Want(ch, LF, InHeader(ValueLws), log);
      } else if ch == ' ' || ch == '\t' {
        state := InHeader(ValueStart);
        turn := Again;
      } else {
        flags := LineFlags(headerState, flags);
        state := InHeader(FieldStart);
        turn := Again;
      }
    }

    /** The headers_complete callback, whose answer 1 has a meaning of its own. */
    method HeadersCompleteCase(app: Application) returns (turn: Turn)
      requires errno.OK? && state == InHeader(HeadersDone)
      modifies this`errno, app
      ensures app.Joined() == Push(old(app.Joined()), HeadersComplete)
      ensures (turn.Again? && errno.OK?) || (turn.LeaveHere? && Stopped(errno))
      ensures old(app.log) <= app.log
      ensures Blamed(app)
    {
      hide Push, Join;
      var v := app.Call(HeadersComplete);
      match v {
        case Proceed =>
        case ReturnOne =>  // parser->flags |= F_SKIPBODY: bit 6 of a 6-bit field
        case Pause => errno := Paused;
        case Abort =>
          errno := CallbackFailed(OnHeadersComplete);
          return LeaveHere;
      }
      turn := if errno.OK? then Again else LeaveHere;
    }

    method EndHeadersCase(app: Application, ch: char) returns (turn: Turn)
      requires errno.OK? && state == InHeader(HeadersAlmostDone)
      modifies this`state, this`errno, this`upgrade, app
      ensures var r := EndHeaders(old(Fields()), old(app.Joined()), ch);
              if turn.Again? || (turn.LeaveHere? && Stopped(errno)) then
                (turn.Again? ==> errno.OK?) && state == InHeader(HeadersDone)
                  && r == StartBody(Fields(), app.Joined(), ch)
              else Took(r, app.Joined(), app.Joined(), turn)
      ensures errno.OK? || Stopped(errno) ==> state == InHeader(HeadersDone) || upgrade == old(upgrade)
      ensures old(app.log) <= app.log
      ensures Blamed(app)
      ensures errno.OK? ==> Speaking(state).None?
      ensures !state.InChunk?
    {
      hide Push, Join, StartBody, Verdicts;
      if ch != LF {
        errno := Strict;
        return LeaveHere;
      }
      if flags.trailing {
        state := NewMessage(Struct());
        turn := Notify(app, MessageComplete);
        return;
      }
      state := InHeader(HeadersDone);
      upgrade := (flags.upgrade && flags.connectionUpgrade) || verb.Connect?;
      turn := HeadersCompleteCase(app);
    }

    /** The framing decision, with the counter cleared. */
    method OpenBodyCase(app: Application) returns (turn: Turn)
      requires errno.OK? && state == InHeader(HeadersDone)
      modifies this`state, this`errno, app
      ensures Took(OpenBody(old(Fields()), old(app.Joined())), app.Joined(), app.Joined(), turn)
      ensures upgrade ==> turn.LeaveAfter? && OpenBody(old(Fields()), old(app.Joined())).end.Exited?
      ensures old(app.log) <= app.log
      ensures Blamed(app)
      ensures errno.OK? ==> Speaking(state).None?
    {
      hide Push, Join, Verdicts, NewMessage, NeedsEof;
      SameNewMessage(Struct(), Fields());
      NewMessageIsStart(Struct());
      turn := Consume;
      if upgrade {
        state := NewMessage(Struct());
        turn := Notify(app, MessageComplete);
        return LeaveAfter;
      }
      if flags.chunked {
        state := InChunk(SizeStart);
      } else if contentLength == 0 {
        state := NewMessage(Struct());
        turn := Notify(app, MessageComplete);
      } else if contentLength != NO_LENGTH {
        state := InBody(Identity);
      } else if kind.Request? || !NeedsEof(Struct()) {
        state := NewMessage(Struct());
        turn := Notify(app, MessageComplete);
      } else {
        state := InBody(IdentityEof);
      }
    }

    method StartBodyCase(app: Application, ch: char) returns (turn: Turn)
      requires errno.OK? && state == InHeader(HeadersDone)
      modifies this`state, this`errno, this`nread, this`tally, this`peak, this`lost, this`worst, app
      ensures Took(StartBody(old(Fields()), old(app.Joined()), ch), app.Joined(), app.Joined(), turn)
      ensures (nread == old(nread) && tally == old(tally) && lost == old(lost) && turn.LeaveHere?)
              || nread == tally == lost == 0
      ensures upgrade ==> turn.LeaveAfter? || ParseError(errno)
      ensures upgrade && turn.LeaveAfter? ==> StartBody(old(Fields()), old(app.Joined()), ch).end.Exited?
      ensures old(app.log) <= app.log
      ensures Tops(old(tally))
      ensures Blamed(app)
      ensures errno.OK? ==> Speaking(state).None?
    {
      hide Push, Join, Verdicts, OpenBody, Cleared;
      if ch != LF {
        errno := Strict;
        return LeaveHere;
      }
      ClearHeaderSize();
      turn := OpenBodyCase(app);
    }

    method MessageDoneCase(app: Application, ch: char) returns (turn: Turn)
      requires errno.OK? && state == InBody(MessageDone)
      modifies this`state, this`errno, app
      ensures Took(BodyByte(old(Fields()), MessageDone, old(app.Joined()), ch), app.Joined(), app.Joined(), turn)
      ensures turn.Consume? || (turn.LeaveAfter? && Stopped(errno))
      ensures state.Start? && Rank(state) == 0
      ensures old(app.log) <= app.log
      ensures Blamed(app)
    {
      hide Push, Join, Verdicts;
      state := NewMessage(Struct());
      turn := Notify(app, MessageComplete);
    }

    method DataAlmostDoneCase(app: Application, data: string, p: nat, marks: Marks)
      returns (turn: Turn, marks': Marks)
      requires errno.OK? && state == InChunk(DataAlmostDone) && Inv(Fields())
      requires p < |data| && MarksFit(state, marks, p)
      modifies this`state, this`errno, app
      ensures var c := old(Fields());
              var log := Pending(old(app.Joined()), marks, data, p);
              Took(ChunkByte(c, DataAlmostDone, log, data[p]), Pending(app.Joined(), marks', data, p + 1), app.Joined(),
                turn)
      ensures turn.Consume? ==> MarksFit(state, marks', p + 1)
      ensures old(app.log) <= app.log
      ensures Blamed(app)
      ensures if errno.OK? || Stopped(errno) then state == InChunk(DataDone) else state != InChunk(SizeStart)
    {
      hide Push, Pending, Join, Verdicts, Withheld;
      assert flags.chunked;
      assert contentLength == 0;
      marks' := marks;
      PendingWithheld(app.Joined(), marks, data, p);
      if data[p] != CR {
        errno := Strict;
        return LeaveHere, marks';
      }
      state := InChunk(DataDone);
      turn, marks' := Report(app, BodyData, data, p, marks);
      PendingNone(app.Joined(), data, p + 1);
    }

    // The cases that take many octets at once.

    /** The loop over the octets of a field name. */
    method FieldScan(data: string, p: nat, ghost m: nat, ghost log: seq<Event>, ghost goal: Result) returns (q: nat)
      requires state == InHeader(Field) && IsFieldState(headerState) && m <= p < |data|
      requires |data| <= SAFE_LENGTH ==> Run(Fields(), Pending(log, Only(FieldData, m), data, p), data[p..]) == goal
      modifies this`index, this`headerState, this`tally
      ensures p <= q <= |data| && IsFieldState(headerState) && tally == old(tally) + (q - p)
      ensures q < |data| ==> Token(data[q]) == '\0'
      ensures |data| <= SAFE_LENGTH ==> Run(Fields(), Pending(log, Only(FieldData, m), data, q), data[q..]) == goal
    {
      hide Push, Say, Pending, Run, Byte, Token, NextField;
      q := p;
      while q < |data| && Token(data[q]) != '\0'
        invariant p <= q <= |data| && IsFieldState(headerState) && tally == old(tally) + (q - p)
        invariant |data| <= SAFE_LENGTH ==> Run(Fields(), Pending(log, Only(FieldData, m), data, q), data[q..]) == goal
      {
        var ch := data[q];
        var c := Token(ch);
        assert IsFieldState(headerState);  // no other header_state is known here
        FieldOctet(Fields(), Pending(log, Only(FieldData, m), data, q), ch);
        RunHere(Fields(), Pending(log, Only(FieldData, m), data, q), data, q);
        PendingGrows(log, FieldData, m, data, q);
        NextFieldKept(headerState, index, c, ch);
        var (h, i) := NextField(headerState, index, c, ch);
        headerState, index := h, i;
        tally := tally + 1;
        q := q + 1;
      }
    }

    method FieldEndCase(app: Application, data: string, p: nat, marks: Marks)
      returns (turn: Turn, marks': Marks)
      requires errno.OK? && state == InHeader(Field)
      requires p < |data| && Token(data[p]) == '\0' && MarksFit(state, marks, p)
      modifies this`state, this`errno, app
      ensures var c := old(Fields());
              var log := Pending(old(app.Joined()), marks, data, p);
              Took(FieldByte(c, log, data[p]), Pending(app.Joined(), marks', data, p + 1), app.Joined(), turn)
      ensures turn.Consume? ==> MarksFit(state, marks', p + 1)
      ensures turn.Consume? || Stopped(errno) ==> state == InHeader(DiscardWs)
      ensures !turn.Again? && (turn.LeaveHere? ==> !Stopped(errno)) && !errno.HeaderOverflow?
      ensures old(app.log) <= app.log
      ensures Blamed(app)
      ensures errno.OK? <==> turn.Consume?
    {
      hide Push, Say, Pending, Join, Verdicts, Token, NextField, Withheld;
      marks' := marks;
      PendingWithheld(app.Joined(), marks, data, p);
      if data[p] == ':' {
        state := InHeader(DiscardWs);
        turn, marks' := Report(app, FieldData, data, p, marks);
        PendingNone(app.Joined(), data, p + 1);
        return;
      }
      errno := InvalidHeaderToken;
      turn := LeaveHere;
    }

    /** The octet after a name, once the name has been counted. */
    method FieldColonCase(app: Application, data: string, q: nat, marks: Marks, ghost goal: Result)
      returns (turn: Turn, marks': Marks)
      requires errno.OK? && state == InHeader(Field) && IsFieldState(headerState) && Framed(Fields())
      requires q < |data| && Token(data[q]) == '\0' && MarksFit(state, marks, q)
      requires |data| <= SAFE_LENGTH ==> Run(Fields(), Pending(app.Joined(), marks, data, q), data[q..]) == goal
      modifies this`state, this`errno, this`tally, app
      ensures Sound(goal, app, data, q, marks', turn) && !turn.Again? && tally == old(tally) + 1
      ensures turn.Consume? ==> MarksFit(state, marks', q + 1)
      ensures turn.Consume? || Stopped(errno) ==> Inv(Fields()) && state == InHeader(DiscardWs)
      ensures turn.LeaveHere? ==> !Stopped(errno)
      ensures !errno.HeaderOverflow?
      ensures old(app.log) <= app.log
      ensures Blamed(app)
      ensures errno.OK? <==> turn.Consume?
    {
      hide Push, Say, Pending, Join, Verdicts, Run, Byte, Token, NextField, Withheld, Inv, OnCourse, MarksFit;
      hide FieldByte, TookOne, Framed, IsFieldState;
      ghost var c, log := Fields(), app.Joined();
      tally := tally + 1;
      ByteInHeader(c, Field, Pending(log, marks, data, q), data[q]);
      FramedTally(c, tally);
      FieldInvBack(c.(tally := tally, state := InHeader(DiscardWs)));
      turn, marks' := FieldEndCase(app, data, q, marks);
      TookIsOnCourse(c, Pending(log, marks, data, q), Fields(), errno, app.Joined(), data, q, marks', turn);
    }

    /** The name up to q is counted. */
    method FieldCount(app: Application, data: string, p: nat, q: nat, marks: Marks, ghost goal: Result)
      returns (ok: bool)
      requires errno.OK? && p <= q <= |data| && 1 <= nread <= MAX_HEADER_SIZE && 0 < |data|
      requires |data| <= SAFE_LENGTH ==> Run(Fields(), Pending(app.Joined(), marks, data, q), data[q..]) == goal
      modifies this`errno, this`nread
      ensures ok <==> errno.OK?
      ensures errno.OK? || errno.HeaderOverflow?
      ensures errno.HeaderOverflow? <==> nread > MAX_HEADER_SIZE
      ensures nread <= old(nread) + (q - p)
      ensures |data| <= SAFE_LENGTH ==> nread == old(nread) + (q - p)
      ensures |data| <= SAFE_LENGTH ==> High(goal.core) >= tally
      ensures !ok ==> Sound(goal, app, data, if q == |data| then q - 1 else q, marks, LeaveHere)
      ensures ok && q == |data| ==> Sound(goal, app, data, q - 1, marks, Consume)
    {
      hide Push, Pending, Join, Run, Withheld, ParseError;
      if |data| <= SAFE_LENGTH {
        RunHigh(Fields(), Pending(app.Joined(), marks, data, q), data[q..]);
        HighIsTall(Fields());
      }
      ok := CountHeaderSize(q - p);
    }

    method FieldCase(app: Application, data: string, p: nat, marks: Marks, ghost goal: Result)
      returns (q: nat, turn: Turn, marks': Marks)
      requires errno.OK? && state == InHeader(Field) && Inv(Fields()) && 1 <= nread <= MAX_HEADER_SIZE
      requires p < |data| && MarksFit(state, marks, p)
      requires |data| <= SAFE_LENGTH ==> Run(Fields(), Pending(app.Joined(), marks, data, p), data[p..]) == goal
      modifies this`state, this`errno, this`index, this`headerState, this`nread, this`tally, app
      ensures p <= q && Sound(goal, app, data, q, marks', turn) && !turn.Again?
      ensures turn.Consume? ==> MarksFit(state, marks', q + 1)
      ensures turn.Consume? || Stopped(errno) ==>
                Inv(Fields()) && (state == InHeader(Field) || state == InHeader(DiscardWs))
      ensures Stopped(errno) ==> state == InHeader(DiscardWs)
      ensures turn.Consume? || Stopped(errno) ==>
                |data| <= SAFE_LENGTH && old(nread + lost > tally) ==> nread + lost >= tally
      ensures turn.LeaveHere? ==> !Stopped(errno)
      ensures errno.HeaderOverflow? <==> nread > MAX_HEADER_SIZE
      ensures old(Roomy()) && (errno.OK? || Stopped(errno)) ==> Tight()
      ensures old(Roomy()) && errno.HeaderOverflow? && |data| <= SAFE_LENGTH ==> Crowded(goal, lost)
      ensures nread <= old(nread) + 2 * (q - p) + 1
      ensures turn.Again? || Stopped(errno) ==> nread <= old(nread) + 2 * (q - p)
      ensures old(app.log) <= app.log
      ensures Blamed(app)
      ensures errno.OK? <==> turn.Consume?
    {
      hide NoEmptyBody;
      hide Push, Pending, Join, Verdicts, Run, Token, Withheld, Inv, OnCourse, MarksFit, Framed, IsFieldState;
      hide ParseError, High;
      ghost var log := app.Joined();
      marks' := marks;
      FieldInv(Fields());
      ghost var c := Fields();
      MarksInField(marks, p);
      q := FieldScan(data, p, marks.field.value, log, goal);
      MarksStayFit(state, marks, p, q);
      FramedScan(c, Fields());
      FieldInvBack(Fields());
      var ok := FieldCount(app, data, p, q, marks, goal);
      if !ok {
        turn, q := LeaveHere, if q == |data| then q - 1 else q;
      } else if q == |data| {
        turn, q := Consume, q - 1;
      } else {
        turn, marks' := FieldColonCase(app, data, q, marks, goal);
      }
    }

    /** One octet of a value that is being watched. */
    method ValueOctet(ch: char, ghost log: seq<Event>) returns (ok: bool)
      requires errno.OK? && state == InHeader(Value) && Inv(Fields()) && ch != CR && ch != LF
      modifies this`errno, this`index, this`headerState, this`flags, this`contentLength
      ensures ok <==> errno.OK?
      ensures ok ==> ValueByte(old(Fields()), log, ch) == Go(Fields(), Say(log, ValueData, ch))
      ensures !ok ==> errno == InvalidContentLength && ValueByte(old(Fields()), log, ch) == Err(Fields(), log, errno)
    {
      hide Push, Say, NextValue, Inv;
      ok := true;
      ValueInv(Fields());
      NextLength(index, ch);
      assert !headerState.Connection? && !headerState.TransferEncoding?;  // "Shouldn't get here."
      if headerState.ContentLength? {
        if ch == ' ' {
          return;
        }
        if !IsNum(ch) {
          errno := InvalidContentLength;
          return false;
        }
        var t := contentLength * 10 % U64;
        t := (t + Digit(ch)) % U64;
        if (NO_LENGTH - 10) / 10 < contentLength {
          errno := InvalidContentLength;
          return false;
        }
        contentLength := t;
        return;
      }
      if ch == ',' {
        flags := ConnectionFlags(headerState, flags);
      }
      var (h, i) := NextValue(headerState, index, ch);
      headerState, index := h, i;
    }

    /** The jump over a value that is not being watched.  `skipped` says that it may have passed the end of the line. */
    method ValueJump(data: string, p: nat, ghost m: nat, ghost log: seq<Event>, ghost goal: Result)
      returns (q: nat, ghost skipped: bool)
      requires state == InHeader(Value) && Inv(Fields()) && headerState.General?
      requires m <= p < |data| && data[p] != CR && data[p] != LF
      requires |data| <= SAFE_LENGTH ==> Run(Fields(), Pending(log, Only(ValueData, m), data, p), data[p..]) == goal
      modifies this`tally
      ensures p < q <= |data| && tally == old(tally) + (q - p) && Inv(Fields())
      ensures skipped ==> q == |data| && q - p > MAX_HEADER_SIZE
      ensures skipped && |data| <= SAFE_LENGTH ==> High(goal.core) >= old(tally) + MAX_HEADER_SIZE
      ensures |data| <= SAFE_LENGTH && !skipped ==>
                Run(Fields(), Pending(log, Only(ValueData, m), data, q), data[q..]) == goal
    {
      hide Push, Pending, Run, Byte, Inv, NoLineEnd, Spoke;
      ghost var c, seen := Fields(), Pending(log, Only(ValueData, m), data, p);
      q := SkipValue(data, p);
      skipped := !NoLineEnd(data, p, q);
      if skipped {
        LongValue(c, seen, data, p);
      } else {
        GeneralRun(c, seen, data, p, q);
        PendingJumps(log, ValueData, m, data, p, q);
      }
      tally := tally + (q - p);
      TallyInv(c, tally);
    }

    /** One octet of a value that is being watched, under its mark. */
    method ValueWatch(data: string, p: nat, ghost m: nat, ghost log: seq<Event>, ghost goal: Result) returns (ok: bool)
      requires errno.OK? && state == InHeader(Value) && Inv(Fields())
      requires m <= p < |data| && data[p] != CR && data[p] != LF
      requires |data| <= SAFE_LENGTH ==> Run(Fields(), Pending(log, Only(ValueData, m), data, p), data[p..]) == goal
      modifies this`errno, this`index, this`headerState, this`flags, this`contentLength, this`tally
      ensures ok <==> errno.OK?
      ensures ok ==> Inv(Fields()) && tally == old(tally) + 1
      ensures ok && |data| <= SAFE_LENGTH ==>
                Run(Fields(), Pending(log, Only(ValueData, m), data, p + 1), data[p + 1..]) == goal
      ensures !ok ==> errno == InvalidContentLength
      ensures |data| <= SAFE_LENGTH && !ok ==>
                goal.core == Fields() && goal.rest == data[p..] && goal.end == Failed(errno)
                && goal.log == Pending(log, Only(ValueData, m), data, p)
    {
      hide Push, Say, Pending, Run, Byte, Inv, Spoke, ValueByte;
      ghost var c, seen := Fields(), Pending(log, Only(ValueData, m), data, p);
      ByteInHeader(c, Value, seen, data[p]);
      RunHere(c, seen, data, p);
      PendingGrows(log, ValueData, m, data, p);
      tally := tally + 1;
      TallyInv(c, tally);
      ValueKept(Fields(), seen, data[p]);
      ok := ValueOctet(data[p], seen);
    }

    /** The loop over the octets of a value.  `skipped` says that the jump may have passed the end of the line. */
    method ValueScan(data: string, p: nat, ghost m: nat, ghost log: seq<Event>, ghost goal: Result)
      returns (q: nat, ghost skipped: bool)
      requires errno.OK? && state == InHeader(Value) && Inv(Fields()) && m <= p < |data|
      requires |data| <= SAFE_LENGTH ==> Run(Fields(), Pending(log, Only(ValueData, m), data, p), data[p..]) == goal
      modifies this`errno, this`index, this`headerState, this`flags, this`contentLength, this`tally
      ensures p <= q <= |data| && (errno.OK? ==> tally == old(tally) + (q - p))
      ensures errno.OK? ==> Inv(Fields()) && (q < |data| ==> data[q] == CR || data[q] == LF)
      ensures skipped ==> errno.OK? && q == |data| && q - p > MAX_HEADER_SIZE
      ensures skipped && |data| <= SAFE_LENGTH ==> High(goal.core) >= old(tally) + MAX_HEADER_SIZE
      ensures |data| <= SAFE_LENGTH && errno.OK? && !skipped ==>
                Run(Fields(), Pending(log, Only(ValueData, m), data, q), data[q..]) == goal
      ensures !errno.OK? ==> errno == InvalidContentLength && q < |data|
      ensures |data| <= SAFE_LENGTH && !errno.OK? ==>
                goal.core == Fields() && goal.rest == data[q..] && goal.end == Failed(errno)
                && goal.log == Pending(log, Only(ValueData, m), data, q)
    {
      hide Push, Say, Pending, Run, Byte, Inv, NoLineEnd, Spoke, ValueByte;
      q, skipped := p, false;
      while q < |data|
        invariant p <= q <= |data| && tally == old(tally) + (q - p) && errno.OK? && Inv(Fields())
        invariant skipped ==> q == |data| && q - p > MAX_HEADER_SIZE
        invariant skipped && |data| <= SAFE_LENGTH ==> High(goal.core) >= old(tally) + MAX_HEADER_SIZE
        invariant |data| <= SAFE_LENGTH && !skipped ==>
                    Run(Fields(), Pending(log, Only(ValueData, m), data, q), data[q..]) == goal
      {
        var ch := data[q];
        if ch == CR || ch == LF {
          return;
        }
        if headerState.General? {
          q, skipped := ValueJump(data, q, m, log, goal);
        } else {
          var ok := ValueWatch(data, q, m, log, goal);
          if !ok {
            return;
          }
          q := q + 1;
        }
      }
    }

    /** The carriage return after a value. */
    method ValueCrOctet(app: Application, data: string, p: nat, marks: Marks) returns (turn: Turn, marks': Marks)
      requires errno.OK? && state == InHeader(Value)
      requires p < |data| && data[p] == CR && MarksFit(state, marks, p)
      modifies this`state, this`errno, app
      ensures var c := old(Fields());
              var log := Pending(old(app.Joined()), marks, data, p);
              Took(ValueByte(c, log, data[p]), Pending(app.Joined(), marks', data, p + 1), app.Joined(), turn)
      ensures (turn.Consume? && errno.OK? && MarksFit(state, marks', p + 1)) || (turn.LeaveAfter? && Stopped(errno))
      ensures state == InHeader(AlmostDone)
      ensures old(app.log) <= app.log
      ensures Blamed(app)
      ensures Told(app) && (turn.Consume? ==> app.answer(app.log).Proceed?)
    {
      hide Push, Say, Pending, Join, NextValue, Withheld, Verdicts;
      state := InHeader(AlmostDone);
      turn, marks' := Report(app, ValueData, data, p, marks);
      PendingNone(app.Joined(), data, p + 1);
    }

    /** The same for the whole run. */
    method ValueCrReport(app: Application, data: string, p: nat, marks: Marks, ghost goal: Result)
      returns (turn: Turn, marks': Marks)
      requires errno.OK? && state == InHeader(Value) && Inv(Fields())
      requires p < |data| && data[p] == CR && MarksFit(state, marks, p)
      requires |data| <= SAFE_LENGTH ==> Run(Fields(), Pending(app.Joined(), marks, data, p), data[p..]) == goal
      modifies this`state, this`errno, this`tally, app
      ensures (turn.Consume? && errno.OK? && MarksFit(state, marks', p + 1)) || (turn.LeaveAfter? && Stopped(errno))
      ensures Sound(goal, app, data, p, marks', turn) && Inv(Fields())
      ensures tally == old(tally) + 1 && state == InHeader(AlmostDone)
      ensures old(app.log) <= app.log
      ensures Blamed(app)
      ensures Told(app) && (turn.Consume? ==> app.answer(app.log).Proceed?)
    {
      hide Push, Say, Pending, Join, Run, Byte, ValueByte, Withheld, OnCourse, MarksFit, Inv, Verdicts, TookOne;
      hide Heard;
      ghost var c, seen := Fields(), Pending(app.Joined(), marks, data, p);
      ValueInv(c);
      AlmostDoneInv(c.(state := InHeader(AlmostDone), tally := tally + 1));
      ByteInHeader(c, Value, seen, data[p]);
      tally := tally + 1;
      turn, marks' := ValueCrOctet(app, data, p, marks);
      TookIsOnCourse(c, seen, Fields(), errno, app.Joined(), data, p, marks', turn);
    }

    /** A value that its callback has let pass is counted. */
    method ValueCrCount(app: Application, data: string, start: nat, p: nat, marks: Marks, ghost goal: Result)
      returns (turn: Turn)
      requires errno.OK? && start <= p < |data| && nread <= MAX_HEADER_SIZE && Sound(goal, app, data, p, marks, Consume)
      modifies this`errno, this`nread
      ensures Sound(goal, app, data, p, marks, turn)
      ensures (turn.Consume? && errno.OK?) || (turn.LeaveHere? && errno.HeaderOverflow?)
      ensures errno.HeaderOverflow? <==> nread > MAX_HEADER_SIZE
      ensures nread <= old(nread) + (p - start)
      ensures turn.Consume? && |data| <= SAFE_LENGTH ==> nread == old(nread) + (p - start)
      ensures errno.HeaderOverflow? && |data| <= SAFE_LENGTH ==> High(goal.core) >= tally
    {
      hide Push, Pending, Join, Run, Withheld, ParseError;
      turn := Consume;
      var ok := CountHeaderSize(p - start);
      if !ok {
        if |data| <= SAFE_LENGTH {
          StayingOnCourse(Fields(), OK, app.Joined(), goal, data, p, marks, Consume);
          RunHigh(Fields(), Pending(app.Joined(), marks, data, p + 1), data[p + 1..]);
          HighIsTall(Fields());
        }
        turn := LeaveHere;
        OverflowIsOnCourse(Fields(), app.Joined(), goal, data, p, marks);
      }
    }

    method ValueCrCase(app: Application, data: string, start: nat, p: nat, marks: Marks, ghost goal: Result)
      returns (turn: Turn, marks': Marks)
      requires errno.OK? && state == InHeader(Value) && Inv(Fields()) && 1 <= nread <= MAX_HEADER_SIZE
      requires start <= p < |data| && data[p] == CR && MarksFit(state, marks, p)
      requires |data| <= SAFE_LENGTH ==> Run(Fields(), Pending(app.Joined(), marks, data, p), data[p..]) == goal
      modifies this`state, this`errno, this`nread, this`tally, this`lost, app
      ensures !turn.Again? && Sound(goal, app, data, p, marks', turn)
      ensures turn.Consume? ==> MarksFit(state, marks', p + 1)
      ensures tally == old(tally) + 1
      ensures turn.Consume? || Stopped(errno) ==> Inv(Fields()) && state == InHeader(AlmostDone)
      ensures turn.Consume? && |data| <= SAFE_LENGTH ==> nread == old(nread) + (p - start)
      ensures turn.LeaveHere? ==> errno.HeaderOverflow?
      ensures errno.OK? <==> turn.Consume?
      ensures errno.HeaderOverflow? <==> nread > MAX_HEADER_SIZE
      ensures !Stopped(errno) ==> lost == old(lost) && nread <= old(nread) + (p - start)
      ensures Stopped(errno) ==> turn.LeaveAfter? && lost == old(lost) + (p - start) && nread == old(nread)
      ensures turn.LeaveAfter? ==> Stopped(errno)
      ensures Told(app)
      ensures !Stopped(errno) ==> app.answer(app.log).Proceed? && Told(app)
      ensures errno.HeaderOverflow? && |data| <= SAFE_LENGTH ==> High(goal.core) >= tally
      ensures old(app.log) <= app.log
      ensures Blamed(app)
    {
      hide Push, Say, Pending, Join, Run, Byte, Withheld, OnCourse, MarksFit, Inv, Verdicts, TookOne;
      hide High, Heard, ParseError, Speaking;
      turn, marks' := ValueCrReport(app, data, p, marks, goal);
      if turn.Consume? {
        turn := ValueCrCount(app, data, start, p, marks', goal);
      } else {
        lost := lost + (p - start);
      }
    }

    /** The value before a line feed is reported, and the line feed is looked at again. */
    method ValueLfReport(app: Application, data: string, p: nat, marks: Marks, ghost c: Core, ghost goal: Result)
      returns (turn: Turn, marks': Marks)
      requires errno.OK? && state == InHeader(AlmostDone) && p < |data| && MarksFit(InHeader(Value), marks, p)
      requires var seen := Pending(app.Joined(), marks, data, p);
               Byte(c, seen, data[p]) == Byte(Fields(), seen, data[p])
               && (|data| <= SAFE_LENGTH ==> Run(c, seen, data[p..]) == goal)
      modifies this`errno, app
      ensures (turn.Again? && errno.OK? && marks' == NO_MARKS) || (turn.LeaveHere? && Stopped(errno))
      ensures Sound(goal, app, data, p, marks', turn)
      ensures old(app.log) <= app.log
      ensures Blamed(app)
      ensures Told(app) && (turn.Again? ==> app.answer(app.log).Proceed?)
    {
      hide Push, Pending, Join, Verdicts, Run, Byte, OnCourse, MarksFit;
      ghost var seen := Pending(app.Joined(), marks, data, p);
      MarksInValue(marks, p);
      var go;
      go, marks' := DataCallback(app, ValueData, data, marks, p);
      turn := if go then Again else LeaveHere;
      PendingNone(app.Joined(), data, p);
      AgainIsOnCourse(c, seen, Fields(), errno, app.Joined(), data, p, NO_MARKS, turn);
      if !go && |data| <= SAFE_LENGTH {
        LeftIsOnCourse(Fields(), errno, app.Joined(), goal, data, p, NO_MARKS, marks');
      }
    }

    /** The line feed after a value: it is looked at again. */
    method ValueLfCase(app: Application, data: string, start: nat, p: nat, marks: Marks, ghost goal: Result)
      returns (turn: Turn, marks': Marks)
      requires errno.OK? && state == InHeader(Value) && Inv(Fields()) && 1 <= nread <= MAX_HEADER_SIZE
      requires start <= p < |data| && data[p] == LF && MarksFit(state, marks, p)
      requires |data| <= SAFE_LENGTH ==> Run(Fields(), Pending(app.Joined(), marks, data, p), data[p..]) == goal
      modifies this`state, this`errno, this`nread, app
      ensures turn.Again? || turn.LeaveHere?
      ensures Sound(goal, app, data, p, marks', turn)
      ensures turn.Again? || Stopped(errno) ==> Inv(Fields()) && state == InHeader(AlmostDone)
      ensures turn.Again? ==> marks' == NO_MARKS && errno.OK?
      ensures (turn.Again? || Stopped(errno)) && |data| <= SAFE_LENGTH ==> nread >= old(nread) + (p - start) - 1
      ensures errno.HeaderOverflow? <==> nread > MAX_HEADER_SIZE
      ensures nread <= old(nread) + 2 * (p - start)
      ensures errno.HeaderOverflow? && |data| <= SAFE_LENGTH ==> High(goal.core) >= tally
      ensures old(app.log) <= app.log
      ensures Blamed(app)
      ensures errno.OK? <==> turn.Again?
      ensures turn.Again? ==> Told(app) && app.answer(app.log).Proceed?
    {
      hide Push, Pending, Join, Verdicts, Run, Byte, Inv, OnCourse, MarksFit, High;
      marks' := marks;
      ghost var c, seen := Fields(), Pending(app.Joined(), marks, data, p);
      ValueInv(c);
      state := InHeader(AlmostDone);
      turn := LeaveHere;
      AlmostDoneInv(Fields());
      ValueAtLineFeed(c, seen);
      if |data| <= SAFE_LENGTH {
        RunHigh(c, seen, data[p..]);
        HighIsTall(c);
      }
      var ok := CountHeaderSize(p - start);
      if !ok {
        OverflowIsOnCourse(Fields(), app.Joined(), goal, data, p, marks');
        return;
      }
      turn, marks' := ValueLfReport(app, data, p, marks, c, goal);
      if turn.LeaveHere? {
        return;
      }
      ok := CountHeaderSize(p - 1 - start);
      if !ok {
        turn := LeaveHere;
        OverflowIsOnCourse(Fields(), app.Joined(), goal, data, p, marks');
      }
    }

    /** The end of the buffer in the middle of a value. */
    method ValueEndCase(
      app: Application, data: string, p: nat, marks: Marks, ghost skipped: bool, ghost before: nat, ghost goal: Result)
      returns (turn: Turn)
      requires errno.OK? && p < |data| && 1 <= nread <= MAX_HEADER_SIZE
      requires |data| <= SAFE_LENGTH && !skipped ==>
                 Run(Fields(), Pending(app.Joined(), marks, data, |data|), data[|data|..]) == goal
      requires skipped ==> |data| - p > MAX_HEADER_SIZE
      requires skipped && |data| <= SAFE_LENGTH ==> High(goal.core) >= before + MAX_HEADER_SIZE
      modifies this`errno, this`nread
      ensures Sound(goal, app, data, |data| - 1, marks, turn)
      ensures (turn.Consume? && errno.OK?) || (turn.LeaveHere? && errno.HeaderOverflow?)
      ensures errno.HeaderOverflow? <==> nread > MAX_HEADER_SIZE
      ensures nread <= old(nread) + (|data| - p)
      ensures |data| <= SAFE_LENGTH ==> nread == old(nread) + (|data| - p)
      ensures errno.HeaderOverflow? && |data| <= SAFE_LENGTH ==>
                High(goal.core) >= tally || High(goal.core) >= before + MAX_HEADER_SIZE
      ensures errno.HeaderOverflow? && |data| <= SAFE_LENGTH ==>
                goal.core.state == state || |data| - p > MAX_HEADER_SIZE
    {
      hide Push, Pending, Join, Run, Withheld, ParseError;
      if |data| <= SAFE_LENGTH && !skipped {
        RunHigh(Fields(), Pending(app.Joined(), marks, data, |data|), data[|data|..]);
        HighIsTall(Fields());
        RunEnd(Fields(), Pending(app.Joined(), marks, data, |data|), data[|data|..]);
      }
      var ok := CountHeaderSize(|data| - p);
      turn := if ok then Consume else LeaveHere;
    }

    /** The end of the line after a value. */
    method ValueLineCase(app: Application, data: string, start: nat, p: nat, marks: Marks, ghost goal: Result)
      returns (turn: Turn, marks': Marks)
      requires errno.OK? && state == InHeader(Value) && Inv(Fields()) && 1 <= nread <= MAX_HEADER_SIZE
      requires start <= p < |data| && (data[p] == CR || data[p] == LF) && MarksFit(state, marks, p)
      requires |data| <= SAFE_LENGTH ==> Run(Fields(), Pending(app.Joined(), marks, data, p), data[p..]) == goal
      modifies this`state, this`errno, this`nread, this`tally, this`lost, app
      ensures Sound(goal, app, data, p, marks', turn)
      ensures turn.Consume? ==> MarksFit(state, marks', p + 1)
      ensures turn.Again? ==> MarksFit(state, marks', p)
      ensures turn.Consume? || turn.Again? || Stopped(errno) ==> Inv(Fields()) && state == InHeader(AlmostDone)
      ensures old(tally) <= tally <= old(tally) + 1
      ensures (errno.OK? || Stopped(errno)) && |data| <= SAFE_LENGTH ==>
                nread + lost - tally >= old(nread + lost - tally) + (p - start) - 1
      ensures lost == old(lost) || LosesAt(app, data, p, turn)
      ensures ValueLeft(app, goal, data, old(lost), start, p, turn)
      ensures errno.HeaderOverflow? <==> nread > MAX_HEADER_SIZE
      ensures nread + 8 * lost <= old(nread + 8 * lost) + 8 * (p - start)
      ensures errno.HeaderOverflow? && |data| <= SAFE_LENGTH ==> High(goal.core) >= tally
      ensures nread <= old(nread) + 2 * (p - start)
      ensures old(app.log) <= app.log
      ensures Blamed(app)
      ensures errno.OK? <==> turn.Consume? || turn.Again?
    {
      hide Push, Pending, Join, Verdicts, Run, Inv, OnCourse, High;
      if data[p] == CR {
        turn, marks' := ValueCrCase(app, data, start, p, marks, goal);
      } else {
        turn, marks' := ValueLfCase(app, data, start, p, marks, goal);
      }
    }

    /** The end of the line or of the buffer after the octets of a value from p to q. */
    method ValueFinish(
      app: Application, data: string, p: nat, q: nat, marks: Marks, ghost skipped: bool, ghost before: nat,
      ghost goal: Result)
      returns (r: nat, turn: Turn, marks': Marks)
      requires errno.OK? && state == InHeader(Value) && Inv(Fields()) && 1 <= nread <= MAX_HEADER_SIZE
      requires p < |data| && p <= q <= |data| && tally == before + (q - p) && MarksFit(state, marks, q)
      requires q < |data| ==> data[q] == CR || data[q] == LF
      requires skipped ==> q == |data| && |data| - p > MAX_HEADER_SIZE
      requires skipped && |data| <= SAFE_LENGTH ==> High(goal.core) >= before + MAX_HEADER_SIZE
      requires |data| <= SAFE_LENGTH && !skipped ==>
                 Run(Fields(), Pending(app.Joined(), marks, data, q), data[q..]) == goal
      modifies this`state, this`errno, this`nread, this`tally, this`lost, app
      ensures p <= r && Sound(goal, app, data, r, marks', turn)
      ensures turn.Consume? ==> MarksFit(state, marks', r + 1)
      ensures turn.Again? ==> MarksFit(state, marks', r)
      ensures turn.Consume? || turn.Again? || Stopped(errno) ==>
                Inv(Fields()) && (state == InHeader(AlmostDone) || (turn.Consume? && state == InHeader(Value)))
      ensures (errno.OK? || Stopped(errno)) && |data| <= SAFE_LENGTH && old(nread + lost) > before ==>
                nread + lost >= tally
      ensures lost == old(lost) || LosesAt(app, data, r, turn)
      ensures |data| <= SAFE_LENGTH ==> ValueLeft(app, goal, data, old(lost), p, r, turn)
      ensures errno.HeaderOverflow? <==> nread > MAX_HEADER_SIZE
      ensures old(nread) + 1 <= 8 * (before - old(lost)) + 5 && (errno.OK? || Stopped(errno)) ==> Tight()
      ensures old(nread) + 1 <= 8 * (before - old(lost)) + 5 && errno.HeaderOverflow? && |data| <= SAFE_LENGTH ==>
                Crowded(goal, lost)
      ensures nread <= old(nread) + 2 * (r - p) + 1
      ensures turn.Again? || Stopped(errno) ==> nread <= old(nread) + 2 * (r - p)
      ensures old(app.log) <= app.log
      ensures Blamed(app)
      ensures errno.OK? <==> turn.Consume? || turn.Again?
    {
      hide Push, Say, Pending, Join, Verdicts, Run, Byte, NextValue, Withheld, Inv, OnCourse, MarksFit, ValueByte;
      hide TookOne, High;
      hide Heard, IsValueState, Speaking, Spoke, NoEmptyBody, LosesAt, Framed;
      r, marks' := q, marks;
      if q == |data| {
        turn := ValueEndCase(app, data, p, marks, skipped, before, goal);
        r := q - 1;
      } else {
        turn, marks' := ValueLineCase(app, data, p, q, marks, goal);
      }
    }

    method ValueCase(app: Application, data: string, p: nat, marks: Marks, ghost goal: Result)
      returns (q: nat, turn: Turn, marks': Marks)
      requires errno.OK? && state == InHeader(Value) && Inv(Fields()) && 1 <= nread <= MAX_HEADER_SIZE
      requires p < |data| && MarksFit(state, marks, p)
      requires |data| <= SAFE_LENGTH ==> Run(Fields(), Pending(app.Joined(), marks, data, p), data[p..]) == goal
      modifies this`state, this`errno, this`index, this`headerState, this`flags, this`contentLength,
               this`nread, this`tally, this`lost, app
      ensures p <= q && Sound(goal, app, data, q, marks', turn)
      ensures turn.Consume? ==> MarksFit(state, marks', q + 1)
      ensures turn.Again? ==> MarksFit(state, marks', q)
      ensures turn.Consume? || turn.Again? || Stopped(errno) ==>
                Inv(Fields()) && (state == InHeader(AlmostDone) || (turn.Consume? && state == InHeader(Value)))
      ensures (errno.OK? || Stopped(errno)) && |data| <= SAFE_LENGTH && old(nread + lost > tally) ==>
                nread + lost >= tally
      ensures lost == old(lost) || LosesAt(app, data, q, turn)
      ensures |data| <= SAFE_LENGTH ==> ValueLeft(app, goal, data, old(lost), p, q, turn)
      ensures errno.HeaderOverflow? <==> nread > MAX_HEADER_SIZE
      ensures old(Roomy()) && (errno.OK? || Stopped(errno)) ==> Tight()
      ensures old(Roomy()) && errno.HeaderOverflow? && |data| <= SAFE_LENGTH ==> Crowded(goal, lost)
      ensures nread <= old(nread) + 2 * (q - p) + 1
      ensures turn.Again? || Stopped(errno) ==> nread <= old(nread) + 2 * (q - p)
      ensures old(app.log) <= app.log
      ensures Blamed(app)
      ensures errno.OK? <==> turn.Consume? || turn.Again?
    {
      hide Push, Say, Pending, Join, Verdicts, Run, Byte, NextValue, Withheld, Inv, OnCourse, MarksFit, ValueByte;
      hide TookOne, High;
      hide Heard, IsValueState, Speaking, Spoke, NoEmptyBody, LosesAt, Framed;
      ghost var log := app.Joined();
      marks' := marks;
      MarksInValue(marks, p);
      ghost var skipped;
      ghost var before := tally;
      q, skipped := ValueScan(data, p, marks.value.value, log, goal);
      MarksStayFit(InHeader(Value), marks, p, q);
      if errno.OK? {
        q, turn, marks' := ValueFinish(app, data, p, q, marks, skipped, before, goal);
      } else {
        turn := LeaveHere;
        PendingWithheld(log, marks, data, q);
        ErrorIsOnCourse(Fields(), errno, log, goal, data, q, marks');
      }
    }

    method IdentityCase(app: Application, data: string, p: nat, marks: Marks, ghost goal: Result)
      returns (q: nat, turn: Turn, marks': Marks)
      requires errno.OK? && state == InBody(Identity) && Inv(Fields())
      requires p < |data| && MarksFit(state, marks, p)
      requires |data| <= SAFE_LENGTH ==> Run(Fields(), Pending(app.Joined(), marks, data, p), data[p..]) == goal
      modifies this`state, this`errno, this`contentLength, app
      ensures p <= q && Sound(goal, app, data, q, marks', turn) && !turn.LeaveAfter?
      ensures turn.Consume? ==> MarksFit(state, marks', q + 1) && Inv(Fields())
      ensures turn.Again? ==> marks' == NO_MARKS
      ensures turn.Again? || turn.LeaveHere? ==> Inv(Fields()) && state == InBody(MessageDone)
      ensures turn.LeaveHere? ==> Stopped(errno)
      ensures old(app.log) <= app.log
      ensures Blamed(app)
      ensures errno.OK? <==> turn.Consume? || turn.Again?
      ensures state.InBody?
    {
      hide Push, Pending, Join, Verdicts, Run, OnCourse, MarksFit;
      ghost var c, seen := Fields(), Pending(app.Joined(), marks, data, p);
      assert contentLength != 0 && contentLength != NO_LENGTH;
      var toRead := if contentLength < |data| - p then contentLength else |data| - p;
      marks' := marks.Set(BodyData, p);
      PendingBody(app.Joined(), state, marks, data, p, p + toRead);
      contentLength := contentLength - toRead;
      q := p + (toRead - 1);
      turn := Consume;
      if contentLength == 0 {
        state := InBody(MessageDone);
        IdentityEnds(c, seen, data, p, q + 1);
        var go;
        go, marks' := DataCallback(app, BodyData, data, marks', q + 1);
        turn := if go then Again else LeaveHere;
        PendingNone(app.Joined(), data, q);
        if |data| <= SAFE_LENGTH {
          RepeatIsOnCourse(Fields(), errno, app.Joined(), goal, data, q, marks', turn);
        }
        return;
      }
      BodyRun(c, seen, data, p, q + 1);
      BodyMarks(state, marks', q + 1);
      if |data| <= SAFE_LENGTH {
        ReachedIsOnCourse(Fields(), app.Joined(), goal, data, q, marks');
      }
    }

    method EofCase(app: Application, data: string, p: nat, marks: Marks, ghost goal: Result)
      returns (q: nat, marks': Marks)
      requires errno.OK? && state == InBody(IdentityEof) && Inv(Fields())
      requires p < |data| && MarksFit(state, marks, p)
      requires |data| <= SAFE_LENGTH ==> Run(Fields(), Pending(app.Joined(), marks, data, p), data[p..]) == goal
      ensures p <= q && Sound(goal, app, data, q, marks', Consume)
      ensures MarksFit(state, marks', q + 1)
    {
      hide Push, Pending, Join, Verdicts, Run, OnCourse, MarksFit;
      marks' := marks.Set(BodyData, p);
      q := |data| - 1;
      PendingBody(app.Joined(), state, marks, data, p, q + 1);
      EofRun(Fields(), Pending(app.Joined(), marks, data, p), data, p, q + 1);
      BodyMarks(state, marks', q + 1);
      if |data| <= SAFE_LENGTH {
        ReachedIsOnCourse(Fields(), app.Joined(), goal, data, q, marks');
      }
    }

    method ChunkDataCase(app: Application, data: string, p: nat, marks: Marks, ghost goal: Result)
      returns (q: nat, marks': Marks)
      requires errno.OK? && state == InChunk(ChunkData) && Inv(Fields())
      requires p < |data| && MarksFit(state, marks, p)
      requires |data| <= SAFE_LENGTH ==> Run(Fields(), Pending(app.Joined(), marks, data, p), data[p..]) == goal
      modifies this`state, this`contentLength
      ensures p <= q && Sound(goal, app, data, q, marks', Consume)
      ensures MarksFit(state, marks', q + 1) && Inv(Fields()) && state.InChunk? && !state.chunk.SizeStart?
    {
      hide Push, Pending, Join, Verdicts, Run, OnCourse, MarksFit;
      ghost var c, seen := Fields(), Pending(app.Joined(), marks, data, p);
      var toRead := if contentLength < |data| - p then contentLength else |data| - p;
      assert flags.chunked;
      assert contentLength != 0 && contentLength != NO_LENGTH;
      marks' := marks.Set(BodyData, p);
      PendingBody(app.Joined(), state, marks, data, p, p + toRead);
      contentLength := contentLength - toRead;
      q := p + (toRead - 1);
      if contentLength == 0 {
        state := InChunk(DataAlmostDone);
        ChunkEnds(c, seen, data, p, q + 1);
      } else {
        BodyRun(c, seen, data, p, q + 1);
      }
      BodyMarks(state, marks', q + 1);
      if |data| <= SAFE_LENGTH {
        ReachedIsOnCourse(Fields(), app.Joined(), goal, data, q, marks');
      }
    }

    // The switch.

    /** The top of the loop, after the octet has been counted. */
    ghost predicate Ready(goal: Result, app: Application, data: string, p: nat, marks: Marks)
      reads this, app
    {
      && errno.OK? && p < |data| && Inv(Fields()) && MarksFit(state, marks, p) && nread <= MAX_HEADER_SIZE
      && (ParsingHeader(state) ==> 1 <= nread)
      && (state == InChunk(SizeStart) ==> nread == 1)
      && (|data| <= SAFE_LENGTH ==> Run(Fields(), Pending(app.Joined(), marks, data, p), data[p..]) == goal)
    }

    /** Where a turn may leave the parser. */
    ghost predicate Landed(goal: Result, app: Application, data: string, q: nat, marks: Marks, turn: Turn)
      reads this, app
    {
      && Sound(goal, app, data, q, marks, turn)
      && (errno.HeaderOverflow? <==> nread > MAX_HEADER_SIZE)
      && (turn.Consume? || turn.Again? ==> errno.OK?) && (turn.LeaveHere? ==> !errno.OK?)
      && (turn.Consume? ==> MarksFit(state, marks, q + 1))
      && (turn.Again? ==> MarksFit(state, marks, q))
      && (errno.OK? || Stopped(errno) ==> Inv(Fields()) && (state == InChunk(SizeStart) ==> nread == 0))
      && (turn.LeaveHere? || turn.LeaveAfter? ==> Quiet(app))
    }

    /** A parser that returned early between two callbacks. */
    ghost predicate Quiet(app: Application)
      reads this, app
    {
      errno.OK? || Stopped(errno) ==> Spoke(state, app.Joined())
    }

    method StatusTurn(app: Application, data: string, p: nat, marks: Marks, ghost goal: Result)
      returns (turn: Turn, marks': Marks)
      requires Ready(goal, app, data, p, marks) && state.StatusLine?
      modifies this, app
      ensures Landed(goal, app, data, p, marks', turn) && !turn.Again? && (turn.LeaveHere? ==> !Stopped(errno))
      ensures (errno.OK? || Stopped(errno)) && old(nread + lost > tally) ==> nread + lost >= tally
      ensures lost == old(lost)
      ensures nread <= old(nread)
      ensures old(Roomy()) && (errno.OK? || Stopped(errno)) ==> Tight()
      ensures upgrade == old(upgrade)
      ensures old(app.log) <= app.log
      ensures peak == old(peak) && worst == old(worst)
      ensures Blamed(app)
    {
      hide Push, Say, Pending, Join, Verdicts, Run, Byte, Inv, OnCourse, MarksFit, StatusByte, Withheld, Spoke, TookOne;
      ghost var c, log, seen := Fields(), app.Joined(), Pending(app.Joined(), marks, data, p);
      var s := state.status;
      tally := tally + 1;
      ByteIsDispatch(c, seen, data[p]);
      if s.ResStatusStart? || s.ResStatus? {
        turn, marks' := StatusTextCase(app, s, data, p, marks);
      } else {
        NoMarks(state, marks, p);
        PendingNone(app.Joined(), data, p);
        PendingNone(app.Joined(), data, p + 1);
        marks' := marks;
        turn := StatusCase(s, data[p], app.Joined());
        MarksStayFit(state, marks', p, p + 1);
      }
      OctetLands(c, log, data, p, marks, Fields(), errno, app.Joined(), marks', turn);
    }

    /** An octet between messages, against its meaning. */
    method StartOctet(app: Application, s: StartState, ch: char) returns (turn: Turn)
      requires errno.OK? && state == Start(s)
      modifies this`kind, this`state, this`errno, this`flags, this`contentLength, this`verb, this`index, this`tally, app
      ensures var r := Byte(old(Fields()), old(app.Joined()), ch);
              if turn.Again? then
                errno.OK? && state == Start(StartReq) && s.StartReqOrRes? && Framed(Fields()) && tally == old(tally)
                && r == Byte(Fields(), app.Joined(), ch)
              else Took(r, app.Joined(), app.Joined(), turn) && tally == old(tally) + 1
      ensures old(app.log) <= app.log
      ensures Blamed(app)
      ensures errno.OK? ==> Speaking(state).None?
      ensures !state.InChunk?
    {
      hide Push, Join, Verdicts, Byte, StartByte, StartRequest, TookOne, Speaking;
      ByteIsDispatch(Fields(), app.Joined(), ch);
      tally := tally + 1;
      if s.StartReq? {
        StartReqByte(Fields(), app.Joined(), ch);
        turn := StartReqCase(app, ch);
      } else if s.StartReqOrRes? || s.ResOrRespH? {
        turn := BothCase(app, s, ch);
      } else {
        turn := StartCase(app, s, ch);
      }
      if turn.Again? {
        StartReqByte(Fields(), app.Joined(), ch);
        tally := tally - 1;
        ByteIsDispatch(Fields(), app.Joined(), ch);
      }
    }

    method StartTurn(app: Application, data: string, p: nat, marks: Marks, ghost goal: Result)
      returns (turn: Turn, marks': Marks)
      requires Ready(goal, app, data, p, marks) && state.Start?
      modifies this, app
      ensures Landed(goal, app, data, p, marks', turn) && (turn.LeaveHere? ==> !Stopped(errno))
      ensures turn.Again? ==> Rank(state) < old(Rank(state))
      ensures (errno.OK? || Stopped(errno)) && old(nread + lost > tally) ==> nread + lost >= tally
      ensures lost == old(lost)
      ensures nread <= old(nread)
      ensures old(Roomy()) && (errno.OK? || Stopped(errno)) ==> Tight()
      ensures upgrade == old(upgrade)
      ensures old(app.log) <= app.log
      ensures peak == old(peak) && worst == old(worst)
      ensures Blamed(app)
    {
      hide Push, Pending, Join, Verdicts, Run, Byte, Inv, OnCourse, MarksFit, Withheld, Spoke, TookOne;
      ghost var c, log := Fields(), app.Joined();
      marks' := marks;
      NoMarks(state, marks, p);
      PendingNone(log, data, p);
      turn := StartOctet(app, state.start, data[p]);
      PendingNone(app.Joined(), data, p + 1);
      if turn.Again? {
        OctetRepeats(c, log, data, p, marks, Fields(), errno, app.Joined(), marks', turn);
      } else {
        OctetLands(c, log, data, p, marks, Fields(), errno, app.Joined(), marks', turn);
      }
      MarksStayFit(state, marks', p, p + 1);
    }

    method LineTurn(app: Application, data: string, p: nat, marks: Marks, ghost goal: Result)
      returns (turn: Turn, marks': Marks)
      requires Ready(goal, app, data, p, marks) && (state.InMethod? || state.InVersion?)
      modifies this, app
      ensures Landed(goal, app, data, p, marks', turn) && !turn.Again? && (turn.LeaveHere? ==> !Stopped(errno))
      ensures (errno.OK? || Stopped(errno)) && old(nread + lost > tally) ==> nread + lost >= tally
      ensures lost == old(lost)
      ensures nread <= old(nread)
      ensures old(Roomy()) && (errno.OK? || Stopped(errno)) ==> Tight()
      ensures upgrade == old(upgrade)
      ensures old(app.log) <= app.log
      ensures peak == old(peak) && worst == old(worst)
      ensures Blamed(app)
    {
      hide Push, Say, Pending, Join, Verdicts, Run, Byte, Inv, OnCourse, MarksFit, MethodByte, VersionByte, Withheld;
      hide Spoke, TookOne;
      ghost var c, log, seen := Fields(), app.Joined(), Pending(app.Joined(), marks, data, p);
      marks' := marks;
      NoMarks(state, marks, p);
      PendingNone(log, data, p);
      PendingNone(log, data, p + 1);
      ByteIsDispatch(c, seen, data[p]);
      TallyInv(c, tally + 1);
      tally := tally + 1;
      match state {
        case InMethod => turn := MethodCase(data[p], log);
        case InVersion(s) => turn := VersionCase(s, data[p], log);
      }
      OctetLands(c, log, data, p, marks, Fields(), errno, app.Joined(), marks', turn);
      MarksStayFit(state, marks', p, p + 1);
    }

    method UrlTurn(app: Application, data: string, p: nat, marks: Marks, ghost goal: Result)
      returns (turn: Turn, marks': Marks)
      requires Ready(goal, app, data, p, marks) && state.InUrl?
      modifies this, app
      ensures Landed(goal, app, data, p, marks', turn) && !turn.Again? && (turn.LeaveHere? ==> !Stopped(errno))
      ensures (errno.OK? || Stopped(errno)) && old(nread + lost > tally) ==> nread + lost >= tally
      ensures lost == old(lost)
      ensures nread <= old(nread)
      ensures old(Roomy()) && (errno.OK? || Stopped(errno)) ==> Tight()
      ensures upgrade == old(upgrade)
      ensures old(app.log) <= app.log
      ensures peak == old(peak) && worst == old(worst)
      ensures Blamed(app)
    {
      hide Push, Say, Pending, Join, Verdicts, Run, Byte, Inv, OnCourse, MarksFit, UrlByte, Withheld, Spoke, TookOne;
      ghost var c, log, seen := Fields(), app.Joined(), Pending(app.Joined(), marks, data, p);
      ByteIsDispatch(c, seen, data[p]);
      tally := tally + 1;
      var s := state.url;
      if s.SpacesBeforeUrl? {
        NoMarks(state, marks, p);
        PendingNone(log, data, p);
        turn, marks' := UrlFirstCase(data, p, marks, log);
      } else {
        turn, marks' := UrlCase(app, s, data, p, marks);
      }
      OctetLands(c, log, data, p, marks, Fields(), errno, app.Joined(), marks', turn);
    }

    /** The first octet of a line, against its meaning. */
    method FieldStartOctet(data: string, p: nat, marks: Marks, ghost log: seq<Event>)
      returns (turn: Turn, marks': Marks)
      requires errno.OK? && state == InHeader(FieldStart) && p < |data| && marks == NO_MARKS
      modifies this`state, this`errno, this`index, this`headerState, this`tally
      ensures var r := Byte(old(Fields()), log, data[p]);
              if turn.Again? then
                errno.OK? && state == InHeader(HeadersAlmostDone) && marks' == NO_MARKS && tally == old(tally)
                && r == Byte(Fields(), log, data[p])
              else Took(r, Pending(log, marks', data, p + 1), log, turn) && tally == old(tally) + 1
      ensures turn.Consume? ==> MarksFit(state, marks', p + 1)
      ensures !Stopped(errno)
      ensures !state.InChunk?
    {
      hide Push, Say, Pending, Byte, MarksFit, HeaderByte, BeginField, EndHeaders, TookOne;
      tally := tally + 1;
      ByteInHeader(old(Fields()), FieldStart, log, data[p]);
      turn, marks' := BeginFieldCase(data, p, marks, log);
      if turn.Again? {
        tally := tally - 1;
        ByteInHeader(Fields(), HeadersAlmostDone, log, data[p]);
      }
    }

    method FieldStartTurn(app: Application, data: string, p: nat, marks: Marks, ghost goal: Result)
      returns (turn: Turn, marks': Marks)
      requires Ready(goal, app, data, p, marks) && state == InHeader(FieldStart)
      modifies this, app
      ensures Landed(goal, app, data, p, marks', turn)
      ensures turn.Again? || (turn.LeaveHere? && Stopped(errno)) ==> Rank(state) < old(Rank(state))
      ensures (errno.OK? || Stopped(errno)) && old(nread + lost > tally) ==> nread + lost >= tally
      ensures lost == old(lost)
      ensures nread <= old(nread)
      ensures old(Roomy()) && (errno.OK? || Stopped(errno)) ==> Tight()
      ensures upgrade == old(upgrade)
      ensures old(app.log) <= app.log
      ensures peak == old(peak) && worst == old(worst)
      ensures Blamed(app)
    {
      hide Push, Say, Pending, Join, Verdicts, Run, Byte, Inv, OnCourse, MarksFit, Withheld, Spoke, TookOne;
      ghost var c, log := Fields(), app.Joined();
      marks' := marks;
      NoMarks(state, marks, p);
      PendingNone(log, data, p);
      InvFramed(c);
      turn, marks' := FieldStartOctet(data, p, marks, log);
      if turn.Again? {
        OctetRepeats(c, log, data, p, marks, Fields(), errno, log, marks', turn);
      } else {
        OctetLands(c, log, data, p, marks, Fields(), errno, log, marks', turn);
      }
    }

    method ValueStartTurn(app: Application, data: string, p: nat, marks: Marks, ghost goal: Result)
      returns (turn: Turn, marks': Marks)
      requires Ready(goal, app, data, p, marks) && state == InHeader(ValueStart)
      modifies this, app
      ensures Landed(goal, app, data, p, marks', turn)
      ensures !turn.Again? && !Stopped(errno)
      ensures (errno.OK? || Stopped(errno)) && old(nread + lost > tally) ==> nread + lost >= tally
      ensures lost == old(lost)
      ensures nread <= old(nread)
      ensures old(Roomy()) && (errno.OK? || Stopped(errno)) ==> Tight()
      ensures upgrade == old(upgrade)
      ensures old(app.log) <= app.log
      ensures peak == old(peak) && worst == old(worst)
      ensures Blamed(app)
    {
      hide Push, Say, Pending, Join, Verdicts, Run, Byte, Inv, OnCourse, MarksFit, Withheld, Spoke, BeginValue, TookOne;
      hide HeaderByte;
      ghost var c, log, seen := Fields(), app.Joined(), Pending(app.Joined(), marks, data, p);
      marks' := marks;
      NoMarks(state, marks, p);
      PendingNone(log, data, p);
      tally := tally + 1;
      ByteInHeader(c, ValueStart, seen, data[p]);
      turn, marks' := BeginValueCase(data, p, marks, log);
      OctetLands(c, log, data, p, marks, Fields(), errno, log, marks', turn);
    }

    /** An octet before a value, against its meaning. */
    method DiscardOctet(app: Application, s: HeaderState, data: string, p: nat, marks: Marks)
      returns (turn: Turn, marks': Marks)
      requires errno.OK? && state == InHeader(s) && (s.DiscardWs? || s.DiscardWsAlmostDone? || s.DiscardLws?)
      requires p < |data| && marks == NO_MARKS
      modifies this`state, this`errno, this`index, this`headerState, this`flags, this`contentLength, this`tally, app
      ensures var r := Byte(old(Fields()), old(app.Joined()), data[p]);
              if turn.Again? || (turn.LeaveHere? && Stopped(errno)) then
                s.DiscardLws? && (turn.Again? ==> errno.OK? && marks' == NO_MARKS)
                && state == InHeader(FieldStart) && flags == LineFlags(old(headerState), old(flags))
                && contentLength == old(contentLength) && tally == old(tally)
                   && r == Byte(Fields(), app.Joined(), data[p])
              else Took(r, Pending(app.Joined(), marks', data, p + 1), app.Joined(), turn) && tally == old(tally) + 1
      ensures turn.Consume? ==> MarksFit(state, marks', p + 1)
      ensures old(app.log) <= app.log
      ensures Blamed(app)
      ensures !state.InChunk?
    {
      hide Push, Say, Pending, Join, Verdicts, Byte, MarksFit, HeaderByte, BeginField, LineFlags, TookOne;
      tally := tally + 1;
      ByteInHeader(old(Fields()), s, app.Joined(), data[p]);
      turn, marks' := DiscardCase(app, s, data, p, marks);
      if turn.Again? || (turn.LeaveHere? && Stopped(errno)) {
        tally := tally - 1;
        ByteInHeader(Fields(), FieldStart, app.Joined(), data[p]);
      }
    }

    method DiscardTurn(app: Application, data: string, p: nat, marks: Marks, ghost goal: Result)
      returns (turn: Turn, marks': Marks)
      requires Ready(goal, app, data, p, marks)
               && (state == InHeader(DiscardWs) || state == InHeader(DiscardWsAlmostDone)
                  || state == InHeader(DiscardLws))
      modifies this, app
      ensures Landed(goal, app, data, p, marks', turn)
      ensures turn.Again? || (turn.LeaveHere? && Stopped(errno)) ==> Rank(state) < old(Rank(state))
      ensures (errno.OK? || Stopped(errno)) && old(nread + lost > tally) ==> nread + lost >= tally
      ensures lost == old(lost)
      ensures nread <= old(nread)
      ensures old(Roomy()) && (errno.OK? || Stopped(errno)) ==> Tight()
      ensures upgrade == old(upgrade)
      ensures old(app.log) <= app.log
      ensures peak == old(peak) && worst == old(worst)
      ensures Blamed(app)
    {
      hide Push, Say, Pending, Join, Verdicts, Run, Byte, Inv, OnCourse, MarksFit, Withheld, Spoke, LineFlags, TookOne;
      ghost var c, log := Fields(), app.Joined();
      var s := state.header;
      NoMarks(state, marks, p);
      PendingNone(log, data, p);
      InvFramed(c);
      LineFramed(c);
      turn, marks' := DiscardOctet(app, s, data, p, marks);
      if turn.Again? || (turn.LeaveHere? && Stopped(errno)) {
        OctetRepeats(c, log, data, p, marks, Fields(), errno, app.Joined(), marks', turn);
      } else {
        OctetLands(c, log, data, p, marks, Fields(), errno, app.Joined(), marks', turn);
      }
    }

    /** The octet after the end of a value, against its meaning. */
    method LineEndOctet(s: HeaderState, ch: char, ghost log: seq<Event>) returns (turn: Turn)
      requires errno.OK? && state == InHeader(s) && (s.AlmostDone? || s.ValueLws?)
      modifies this`state, this`errno, this`flags, this`tally
      ensures var r := Byte(old(Fields()), log, ch);
              if turn.Again? then
                errno.OK? && s.ValueLws? && tally == old(tally) && r == Byte(Fields(), log, ch)
                && ((state == InHeader(ValueStart) && flags == old(flags))
                    || (state == InHeader(FieldStart) && flags == LineFlags(old(headerState), old(flags))))
              else Took(r, log, log, turn) && tally == old(tally) + 1
      ensures !Stopped(errno)
      ensures errno.OK? ==> Speaking(state).None?
      ensures !state.InChunk?
    {
      hide Push, Byte, HeaderByte, BeginField, BeginValue, LineFlags, TookOne, Speaking;
      tally := tally + 1;
      ByteInHeader(old(Fields()), s, log, ch);
      turn := LineEndCase(s, ch, log);
      if turn.Again? {
        tally := tally - 1;
        ByteInHeader(Fields(), state.header, log, ch);
      }
    }

    method LineEndTurn(app: Application, data: string, p: nat, marks: Marks, ghost goal: Result)
      returns (turn: Turn, marks': Marks)
      requires Ready(goal, app, data, p, marks) && (state == InHeader(AlmostDone) || state == InHeader(ValueLws))
      modifies this, app
      ensures Landed(goal, app, data, p, marks', turn)
      ensures turn.Again? || (turn.LeaveHere? && Stopped(errno)) ==> Rank(state) < old(Rank(state))
      ensures (errno.OK? || Stopped(errno)) && old(nread + lost > tally) ==> nread + lost >= tally
      ensures lost == old(lost)
      ensures nread <= old(nread)
      ensures old(Roomy()) && (errno.OK? || Stopped(errno)) ==> Tight()
      ensures upgrade == old(upgrade)
      ensures old(app.log) <= app.log
      ensures peak == old(peak) && worst == old(worst)
      ensures Blamed(app)
    {
      hide Push, Say, Pending, Join, Verdicts, Run, Byte, Inv, OnCourse, MarksFit, Withheld, Spoke, LineFlags, TookOne;
      ghost var c, log := Fields(), app.Joined();
      var s := state.header;
      marks' := marks;
      NoMarks(state, marks, p);
      PendingNone(log, data, p);
      PendingNone(log, data, p + 1);
      LineInv(c);
      LineFramed(c);
      turn := LineEndOctet(s, data[p], log);
      if turn.Again? {
        OctetRepeats(c, log, data, p, marks, Fields(), errno, log, marks', turn);
      } else {
        OctetLands(c, log, data, p, marks, Fields(), errno, log, marks', turn);
        MarksStayFit(state, marks', p, p + 1);
      }
    }

    /** The octet of the empty line, against its meaning. */
    method EndHeadersOctet(app: Application, ch: char) returns (turn: Turn)
      requires errno.OK? && state == InHeader(HeadersAlmostDone)
      modifies this`state, this`errno, this`upgrade, this`tally, app
      ensures var r := Byte(old(Fields()), old(app.Joined()), ch);
              if turn.Again? || (turn.LeaveHere? && Stopped(errno)) then
                (turn.Again? ==> errno.OK?) && state == InHeader(HeadersDone) && tally == old(tally)
                && r == Byte(Fields(), app.Joined(), ch)
              else Took(r, app.Joined(), app.Joined(), turn) && tally == old(tally) + 1
      ensures errno.OK? || Stopped(errno) ==> state == InHeader(HeadersDone) || upgrade == old(upgrade)
      ensures old(app.log) <= app.log
      ensures Blamed(app)
      ensures errno.OK? ==> Speaking(state).None?
      ensures !state.InChunk?
    {
      hide Push, Join, Verdicts, Byte, EndHeaders, StartBody, TookOne, HeaderByte, Speaking;
      tally := tally + 1;
      ByteInHeader(old(Fields()), HeadersAlmostDone, app.Joined(), ch);
      turn := EndHeadersCase(app, ch);
      if turn.Again? || (turn.LeaveHere? && Stopped(errno)) {
        tally := tally - 1;
        ByteInHeader(Fields(), HeadersDone, app.Joined(), ch);
      }
    }

    method EndHeadersTurn(app: Application, data: string, p: nat, marks: Marks, ghost goal: Result)
      returns (turn: Turn, marks': Marks)
      requires Ready(goal, app, data, p, marks) && state == InHeader(HeadersAlmostDone)
      modifies this, app
      ensures Landed(goal, app, data, p, marks', turn)
      ensures turn.Again? || (turn.LeaveHere? && Stopped(errno)) ==> Rank(state) < old(Rank(state))
      ensures (errno.OK? || Stopped(errno)) && old(nread + lost > tally) ==> nread + lost >= tally
      ensures lost == old(lost)
      ensures nread <= old(nread)
      ensures old(Roomy()) && (errno.OK? || Stopped(errno)) ==> Tight()
      ensures (errno.OK? || Stopped(errno)) && !old(upgrade) ==> Serving()
      ensures old(app.log) <= app.log
      ensures peak == old(peak) && worst == old(worst)
      ensures Blamed(app)
    {
      hide Push, Pending, Join, Verdicts, Run, Byte, Inv, OnCourse, MarksFit, Withheld, Spoke, TookOne;
      ghost var c, log := Fields(), app.Joined();
      marks' := marks;
      NoMarks(state, marks, p);
      PendingNone(log, data, p);
      InvFramed(c);
      turn := EndHeadersOctet(app, data[p]);
      PendingNone(app.Joined(), data, p + 1);
      if turn.Again? || (turn.LeaveHere? && Stopped(errno)) {
        OctetRepeats(c, log, data, p, marks, Fields(), errno, app.Joined(), marks', turn);
      } else {
        OctetLands(c, log, data, p, marks, Fields(), errno, app.Joined(), marks', turn);
        MarksStayFit(state, marks', p, p + 1);
      }
    }

    method StartBodyTurn(app: Application, data: string, p: nat, marks: Marks, ghost goal: Result)
      returns (turn: Turn, marks': Marks)
      requires Ready(goal, app, data, p, marks) && state == InHeader(HeadersDone)
      modifies this, app
      ensures Landed(goal, app, data, p, marks', turn)
      ensures !turn.Again? && (turn.LeaveHere? ==> !Stopped(errno))
      ensures (errno.OK? || Stopped(errno)) && old(nread + lost > tally) ==> nread + lost >= tally
      ensures lost == old(lost) || lost == 0
      ensures nread <= old(nread)
      ensures old(Roomy()) && (errno.OK? || Stopped(errno)) ==> Tight()
      ensures errno.OK? || Stopped(errno) ==> Serving() || Ends(goal, app, data, p, turn)
      ensures old(app.log) <= app.log
      ensures Tops(old(tally) + 1)
      ensures Blamed(app)
    {
      hide Push, Say, Pending, Join, Verdicts, Run, Byte, Inv, OnCourse, MarksFit, Withheld, Spoke, StartBody, TookOne;
      hide HeaderByte;
      ghost var c, log, seen := Fields(), app.Joined(), Pending(app.Joined(), marks, data, p);
      marks' := marks;
      NoMarks(state, marks, p);
      PendingNone(log, data, p);
      tally := tally + 1;
      ByteInHeader(c, HeadersDone, seen, data[p]);
      turn := StartBodyCase(app, data[p]);
      PendingNone(app.Joined(), data, p + 1);
      if upgrade && turn.LeaveAfter? {
        ExitHere(c, seen, data, p);
        TookLeaves(Fields(), errno, Byte(c, seen, data[p]), Pending(app.Joined(), marks', data, p + 1), app.Joined());
      }
      OctetLands(c, log, data, p, marks, Fields(), errno, app.Joined(), marks', turn);
      MarksStayFit(state, marks', p, p + 1);
    }

    /** An octet of a chunk other than its data, against its meaning. */
    method ChunkOctet(s: ChunkState, ch: char, ghost log: seq<Event>) returns (turn: Turn)
      requires errno.OK? && state == InChunk(s) && Inv(Fields()) && !s.ChunkData? && !s.DataAlmostDone?
      requires s.SizeStart? ==> nread == 1
      modifies this`state, this`errno, this`contentLength, this`flags, this`nread, this`tally, this`peak, this`lost,
        this`worst
      ensures Took(Byte(old(Fields()), log, ch), log, log, turn)
      ensures (nread == old(nread) && tally == old(Counted(Fields()).tally) && lost == old(lost))
              || nread == tally == lost == 0
      ensures errno.OK? && (state == InChunk(SizeStart) || s.DataDone?) ==> nread == 0
      ensures Tops(old(Counted(Fields()).tally))
      ensures !Stopped(errno)
      ensures errno.OK? ==> Speaking(state).None?
    {
      hide Byte, Inv, ChunkByte, TookOne, Speaking;
      ghost var c := Fields();
      ByteIsDispatch(c, log, ch);
      TallyInv(c, tally + 1);
      if ParsingHeader(state) {
        tally := tally + 1;
      }
      turn := ChunkCase(s, ch, log);
    }

    method ChunkTurn(app: Application, data: string, p: nat, marks: Marks, ghost goal: Result)
      returns (q: nat, turn: Turn, marks': Marks)
      requires Ready(goal, app, data, p, marks) && state.InChunk?
      modifies this, app
      ensures p <= q && Landed(goal, app, data, q, marks', turn)
      ensures turn.Again? || (turn.LeaveHere? && Stopped(errno)) ==> q > p || Rank(state) < old(Rank(state))
      ensures (errno.OK? || Stopped(errno)) && |data| <= SAFE_LENGTH && old(nread + lost >= Counted(Fields()).tally) ==>
                nread + lost >= tally
      ensures lost == old(lost) || lost == 0
      ensures nread <= old(nread)
      ensures old(Roomy()) && (errno.OK? || Stopped(errno)) ==> Tight()
      ensures upgrade == old(upgrade)
      ensures old(app.log) <= app.log
      ensures Tops(old(Counted(Fields()).tally))
      ensures Blamed(app)
    {
      if state.chunk.ChunkData? {
        hide Push, Say, Pending, Join, Verdicts, Run, Byte, Inv, OnCourse, MarksFit, Withheld, Spoke;
        q, marks' := ChunkDataCase(app, data, p, marks, goal);
        turn := Consume;
      } else {
        q := p;
        turn, marks' := ChunkOctetTurn(app, data, p, marks, goal);
      }
    }

    method ChunkOctetTurn(app: Application, data: string, p: nat, marks: Marks, ghost goal: Result)
      returns (turn: Turn, marks': Marks)
      requires Ready(goal, app, data, p, marks) && state.InChunk? && !state.chunk.ChunkData?
      modifies this, app
      ensures Landed(goal, app, data, p, marks', turn)
      ensures !turn.Again? && (turn.LeaveHere? ==> !Stopped(errno))
      ensures (errno.OK? || Stopped(errno)) && |data| <= SAFE_LENGTH && old(nread + lost >= Counted(Fields()).tally) ==>
                nread + lost >= tally
      ensures lost == old(lost) || lost == 0
      ensures nread <= old(nread)
      ensures old(Roomy()) && (errno.OK? || Stopped(errno)) ==> Tight()
      ensures upgrade == old(upgrade)
      ensures old(app.log) <= app.log
      ensures Tops(old(Counted(Fields()).tally))
      ensures Blamed(app)
    {
      hide Push, Pending, Join, Verdicts, Run, Byte, Inv, OnCourse, MarksFit, Withheld, ChunkByte, Spoke, TookOne;
      ghost var c, log := Fields(), app.Joined();
      var s := state.chunk;
      hide Rank;
      RanksInChunk(c);
      if s.DataAlmostDone? {
        ByteIsDispatch(c, Pending(log, marks, data, p), data[p]);
        turn, marks' := DataAlmostDoneCase(app, data, p, marks);
      } else {
        marks' := marks;
        NoMarks(state, marks, p);
        PendingNone(log, data, p);
        PendingNone(log, data, p + 1);
        turn := ChunkOctet(s, data[p], log);
        MarksStayFit(state, marks', p, p + 1);
      }
      RankBound(state);
      RanksInChunk(Fields());
      OctetLands(c, log, data, p, marks, Fields(), errno, app.Joined(), marks', turn);
    }

    method BodyTurn(app: Application, data: string, p: nat, marks: Marks, ghost goal: Result)
      returns (q: nat, turn: Turn, marks': Marks)
      requires Ready(goal, app, data, p, marks) && state.InBody?
      modifies this, app
      ensures p <= q && Landed(goal, app, data, q, marks', turn)
      ensures turn.Again? || (turn.LeaveHere? && Stopped(errno)) ==> q > p || Rank(state) < old(Rank(state))
      ensures (errno.OK? || Stopped(errno)) && |data| <= SAFE_LENGTH && old(nread + lost >= Counted(Fields()).tally) ==>
                nread + lost >= tally
      ensures lost == old(lost) || lost == 0
      ensures nread <= old(nread)
      ensures old(Roomy()) && (errno.OK? || Stopped(errno)) ==> Tight()
      ensures upgrade == old(upgrade)
      ensures old(app.log) <= app.log
      ensures peak == old(peak) && worst == old(worst)
      ensures Blamed(app)
    {
      hide Push, Say, Pending, Join, Verdicts, Run, Byte, Inv, OnCourse, MarksFit, Withheld, LastSpoke, BodyByte;
      hide Complete, TookOne;
      ghost var c, log, seen := Fields(), app.Joined(), Pending(app.Joined(), marks, data, p);
      match state.body {
        case Identity =>
          q, turn, marks' := IdentityCase(app, data, p, marks, goal);
          MarksStayFit(state, marks', q, q);
        case IdentityEof =>
          q, marks' := EofCase(app, data, p, marks, goal);
          turn := Consume;
        case MessageDone =>
          q, marks' := p, marks;
          NoMarks(state, marks, p);
          PendingNone(log, data, p);
          ByteIsDispatch(c, seen, data[p]);
          turn := MessageDoneCase(app, data[p]);
          PendingNone(app.Joined(), data, p + 1);
          OctetLands(c, log, data, p, marks, Fields(), errno, app.Joined(), marks', turn);
          MarksStayFit(state, marks', p, p + 1);
      }
    }

    /** The header states around names and values. */
    method AroundTurn(app: Application, data: string, p: nat, marks: Marks, ghost goal: Result)
      returns (turn: Turn, marks': Marks)
      requires Ready(goal, app, data, p, marks) && state.InHeader? && !state.header.Field? && !state.header.Value?
      modifies this, app
      ensures Landed(goal, app, data, p, marks', turn)
      ensures turn.Again? || (turn.LeaveHere? && Stopped(errno)) ==> Rank(state) < old(Rank(state))
      ensures (errno.OK? || Stopped(errno)) && old(nread + lost > tally) ==> nread + lost >= tally
      ensures lost == old(lost) || lost == 0
      ensures nread <= old(nread)
      ensures old(Roomy()) && (errno.OK? || Stopped(errno)) ==> Tight()
      ensures (errno.OK? || Stopped(errno)) && old(Serving()) ==> Serving() || Ends(goal, app, data, p, turn)
      ensures old(app.log) <= app.log
      ensures Tops(old(tally) + 1)
      ensures Blamed(app)
    {
      hide Push, Say, Pending, Join, Verdicts, Run, Byte, Inv, OnCourse, MarksFit, Withheld, LastSpoke, Ends;
      var s := state.header;
      if s.FieldStart? {
        turn, marks' := FieldStartTurn(app, data, p, marks, goal);
      } else if s.ValueStart? {
        turn, marks' := ValueStartTurn(app, data, p, marks, goal);
      } else if s.DiscardWs? || s.DiscardWsAlmostDone? || s.DiscardLws? {
        turn, marks' := DiscardTurn(app, data, p, marks, goal);
      } else if s.AlmostDone? || s.ValueLws? {
        turn, marks' := LineEndTurn(app, data, p, marks, goal);
      } else if s.HeadersAlmostDone? {
        turn, marks' := EndHeadersTurn(app, data, p, marks, goal);
      } else {
        turn, marks' := StartBodyTurn(app, data, p, marks, goal);
      }
    }

    method HeaderTurn(app: Application, data: string, p: nat, marks: Marks, ghost goal: Result)
      returns (q: nat, turn: Turn, marks': Marks)
      requires Ready(goal, app, data, p, marks) && state.InHeader?
      modifies this, app
      ensures p <= q && Landed(goal, app, data, q, marks', turn)
      ensures turn.Again? || (turn.LeaveHere? && Stopped(errno)) ==> q > p || Rank(state) < old(Rank(state))
      ensures (errno.OK? || Stopped(errno)) && |data| <= SAFE_LENGTH && old(nread + lost >= Counted(Fields()).tally) ==>
                nread + lost >= tally
      ensures lost == old(lost) || lost == 0 || LosesAt(app, data, q, turn)
      ensures old(state) == InHeader(Value) && |data| <= SAFE_LENGTH ==>
              ValueLeft(app, goal, data, old(lost), p, q, turn)
      ensures old(Roomy()) && (errno.OK? || Stopped(errno)) ==> Tight()
      ensures old(Roomy()) && errno.HeaderOverflow? && |data| <= SAFE_LENGTH ==> Crowded(goal, lost)
      ensures nread <= old(nread) + 2 * (q - p) + 1
      ensures turn.Again? || Stopped(errno) ==> nread <= old(nread) + 2 * (q - p)
      ensures (errno.OK? || Stopped(errno)) && old(Serving()) ==> Serving() || Ends(goal, app, data, q, turn)
      ensures old(app.log) <= app.log
      ensures Tops(old(Counted(Fields()).tally))
      ensures Blamed(app)
    {
      hide LosesAt, ValueLeft, Ends;
      hide Push, Say, Pending, Join, Verdicts, Run, Byte, Inv, OnCourse, MarksFit, Withheld, LastSpoke;
      var s := state.header;
      if s.Field? {
        q, turn, marks' := FieldCase(app, data, p, marks, goal);
      } else if s.Value? {
        q, turn, marks' := ValueCase(app, data, p, marks, goal);
      } else {
        q := p;
        turn, marks' := AroundTurn(app, data, p, marks, goal);
      }
    }

    method Switch(app: Application, data: string, p: nat, marks: Marks, ghost goal: Result)
      returns (q: nat, turn: Turn, marks': Marks)
      requires Ready(goal, app, data, p, marks)
      modifies this, app
      ensures p <= q && Landed(goal, app, data, q, marks', turn)
      ensures turn.Again? || (turn.LeaveHere? && Stopped(errno)) ==> q > p || Rank(state) < old(Rank(state))
      ensures (errno.OK? || Stopped(errno)) && |data| <= SAFE_LENGTH && old(nread + lost >= Counted(Fields()).tally) ==>
                nread + lost >= tally
      ensures lost == old(lost) || lost == 0 || LosesAt(app, data, q, turn)
      ensures old(state) == InHeader(Value) && |data| <= SAFE_LENGTH ==>
              ValueLeft(app, goal, data, old(lost), p, q, turn)
      ensures old(Roomy()) && (errno.OK? || Stopped(errno)) ==> Tight()
      ensures old(Roomy()) && errno.HeaderOverflow? && |data| <= SAFE_LENGTH ==> Crowded(goal, lost)
      ensures nread <= old(nread) + 2 * (q - p) + 1
      ensures turn.Again? || Stopped(errno) ==> nread <= old(nread) + 2 * (q - p)
      ensures (errno.OK? || Stopped(errno)) && old(Serving()) ==> Serving() || Ends(goal, app, data, q, turn)
      ensures old(app.log) <= app.log
      ensures Tops(old(Counted(Fields()).tally))
      ensures Blamed(app)
    {
      hide Push, Say, Pending, Join, Verdicts, Run, Byte, Inv, OnCourse, MarksFit, Withheld, Spoke;
      q := p;
      match state {
        case Start(_) => turn, marks' := StartTurn(app, data, p, marks, goal);
        case StatusLine(_) => turn, marks' := StatusTurn(app, data, p, marks, goal);
        case InMethod => turn, marks' := LineTurn(app, data, p, marks, goal);
        case InUrl(_) => turn, marks' := UrlTurn(app, data, p, marks, goal);
        case InVersion(_) => turn, marks' := LineTurn(app, data, p, marks, goal);
        case InHeader(_) => q, turn, marks' := HeaderTurn(app, data, p, marks, goal);
        case InChunk(_) => q, turn, marks' := ChunkTurn(app, data, p, marks, goal);
        case InBody(_) => q, turn, marks' := BodyTurn(app, data, p, marks, goal);
      }
    }

    // The function itself.

    /** A parser that may be given more input, with everything it has seen reported. */
    ghost predicate Valid(app: Application)
      reads this, app
    {
      && Inv(Fields()) && Spoke(state, app.Joined()) && nread <= MAX_HEADER_SIZE
      && (state == InChunk(SizeStart) ==> nread == 0) && Tight()
    }

    /** What http_parser_execute owes its caller for a nonempty buffer: `goal` is what the whole of
        the buffer means, n the number of octets reported as parsed. */
    ghost predicate Returned(goal: Result, app: Application, data: string, n: nat)
      reads this, app
    {
      && n <= |data|
      && (errno.OK? || Stopped(errno) ==> Valid(app)) && (errno.HeaderOverflow? <==> nread > MAX_HEADER_SIZE)
      && (|data| <= SAFE_LENGTH ==> Answers(goal, Fields(), errno, app.Joined(), data[n..], lost))
    }

    /** A call that lost octets: it was stopped by a callback for a value, at the CR that ends it. */
    ghost predicate LosesBefore(app: Application, data: string, n: nat)
      requires n <= |data|
      reads this, app
    {
      Stopped(errno) && Told(app) && n > 0 && data[n - 1] == CR
    }

    /** A buffer without LF for a client that never lets the parser go on from a value. */
    ghost predicate Barred(app: Application, data: string, p: nat)
      reads app
    {
      && LF !in data && |data| - p <= MAX_HEADER_SIZE && |data| <= SAFE_LENGTH
      && forall l :: Heard(l, ValueData) ==> !app.answer(l).Proceed?
    }

    /** http_parser_init */
    constructor (t: Kind)
      ensures errno.OK? && nread == tally == lost == worst == 0
      ensures Fields() == Initial(t)
    {
      kind, flags, headerState, index, nread, contentLength := t, NO_FLAGS, General, 0, 0, 0;
      httpMajor, httpMinor, statusCode, verb, upgrade := 0, 0, 0, Delete, false;
      state := Start(if t.Request? then StartReq else if t.Response? then StartRes else StartReqOrRes);
      errno := OK;
      tally, peak, lost, worst := 0, 0, 0, 0;
    }

    /** http_parser_pause; the assertion that the parser has not failed is the precondition. */
    method SetPaused(paused: bool)
      requires errno.OK? || errno.Paused?
      modifies this`errno
      ensures errno == if paused then Paused else OK
    {
      errno := if paused then Paused else OK;
    }

    /** Reports the data of a mark left over at the end of the buffer, if it is this channel's. */
    method FlushOne(app: Application, k: Channel, data: string, marks: Marks) returns (go: bool, marks': Marks)
      requires errno.OK? && (MarksFit(state, marks, |data|) || marks == NO_MARKS)
      modifies this`errno, app
      ensures go <==> errno.OK?
      ensures if go then Pending(app.Joined(), marks', data, |data|) == Pending(old(app.Joined()), marks, data, |data|)
              else Stopped(errno) && app.Joined() == Pending(old(app.Joined()), marks, data, |data|)
      ensures go ==> marks' == (if marks.Get(k).Some? then NO_MARKS else marks)
      ensures go && marks.Get(k).None? ==> app.log == old(app.log)
      ensures old(app.log) <= app.log
      ensures Blamed(app)
    {
      hide Push, Pending, Join, Verdicts;
      if marks.Get(k).Some? {
        FitIsOnly(state, marks, k, |data|);
      }
      go, marks' := DataCallback(app, k, data, marks, |data|);
      PendingNone(app.Joined(), data, |data|);
    }

    /** The callbacks for marks left over at the end of the buffer. */
    method Flush(app: Application, data: string, marks: Marks) returns (n: nat)
      requires errno.OK? && MarksFit(state, marks, |data|)
      modifies this`errno, app
      ensures n == |data| && (errno.OK? || Stopped(errno))
      ensures app.Joined() == Pending(old(app.Joined()), marks, data, |data|)
      ensures old(app.log) <= app.log
      ensures Blamed(app)
    {
      hide Push, Pending, Join, Verdicts, MarksFit;
      n := |data|;
      OneMark(state, marks, |data|);
      MarksStayFit(state, marks, |data|, |data|);
      var go, m := FlushOne(app, FieldData, data, marks);
      if !go {
        return;
      }
      go, m := FlushOne(app, ValueData, data, m);
      if !go {
        return;
      }
      go, m := FlushOne(app, UrlData, data, m);
      if !go {
        return;
      }
      go, m := FlushOne(app, BodyData, data, m);
      if !go {
        return;
      }
      go, m := FlushOne(app, StatusData, data, m);
      PendingNone(app.Joined(), data, |data|);
    }

    method AtEof(app: Application) returns (n: nat)
      requires errno.OK?
      modifies this`errno, app
      ensures state == InBody(IdentityEof) ==>
                n == 0 && app.log == old(app.log) + [MessageComplete] && (errno.OK? || Stopped(errno))
      ensures AtRest(state) ==> n == 0 && unchanged(app) && errno.OK?
      ensures state != InBody(IdentityEof) && !AtRest(state) ==> n == 1 && unchanged(app) && errno == InvalidEofState
      ensures Blamed(app)
    {
      if state == InBody(IdentityEof) {
        var _ := Callback(app, MessageComplete);
        return 0;
      }
      if AtRest(state) {
        return 0;
      }
      errno := InvalidEofState;
      n := 1;
    }

    method CountOctet() returns (ok: bool)
      requires errno.OK? && nread <= MAX_HEADER_SIZE
      modifies this`nread, this`errno
      ensures ok <==> errno.OK?
      ensures if ok then nread <= MAX_HEADER_SIZE else errno.HeaderOverflow? && nread > MAX_HEADER_SIZE
      ensures ok ==> nread == old(nread) + if ParsingHeader(state) then 1 else 0
      ensures nread <= old(nread) + 1
    {
      ok := true;
      if ParsingHeader(state) {
        ok := CountHeaderSize(1);
      }
    }

    lemma {:induction false} ValueBarred(
      app: Application, goal: Result, data: string, before: nat, p: nat, q: nat, marks: Marks, turn: Turn)
      requires q < |data| && Barred(app, data, p) && goal.core.state != InHeader(Value)
      requires ValueLeft(app, goal, data, before, p, q, turn) && Sound(goal, app, data, q, marks, turn)
      ensures !turn.Consume? && !turn.Again?
      ensures ParseError(errno) || (p <= q && LosesAt(app, data, q, turn) && lost == before + (q - p))
    {
      hide Run, Pending, Withheld;
      if turn.Consume? && q + 1 == |data| {
        RunEnd(Fields(), Pending(app.Joined(), marks, data, q + 1), data[q + 1..]);
      }
    }

    /** The octet at p, which has been counted, is treated. */
    method TreatOctet(app: Application, data: string, p: nat, marks: Marks, ghost goal: Result)
      returns (next: nat, on: bool, marks': Marks)
      requires Ready(goal, app, data, p, marks) && Roomy()
      modifies this, app
      ensures p <= next <= |data|
      ensures on ==> errno.OK? && Inv(Fields()) && MarksFit(state, marks', next) && nread <= MAX_HEADER_SIZE
                     && (state == InChunk(SizeStart) ==> nread == 0) && Tight()
      ensures on && |data| <= SAFE_LENGTH ==>
              Run(Fields(), Pending(app.Joined(), marks', data, next), data[next..]) == goal
      ensures !on ==> Returned(goal, app, data, next)
      ensures on || Stopped(errno) ==> next > p || Rank(state) < old(Rank(state))
      ensures (errno.OK? || Stopped(errno)) && |data| <= SAFE_LENGTH && old(nread + lost >= Counted(Fields()).tally) ==>
                nread + lost >= tally
      ensures lost == old(lost) || lost == 0 || LosesBefore(app, data, next)
      ensures old(state) == InHeader(Value) && goal.core.state != InHeader(Value) && Barred(app, data, p) ==>
                !on && (ParseError(errno)
                        || (LosesBefore(app, data, next) && next > p && lost == old(lost) + (next - 1 - p)))
      ensures errno.OK? || Stopped(errno) ==>
                nread + Rank(state) + 1 <= old(nread + Rank(state)) + 8 * (next - p)
      ensures nread + 1 <= old(nread + Rank(state)) + 8 * (|data| - p)
      ensures (errno.OK? || Stopped(errno)) && old(Serving()) ==> Serving() || (!on && Ended(goal, app, data, next))
      ensures Tops(old(Counted(Fields()).tally))
      ensures old(app.log) <= app.log
      ensures Blamed(app)
    {
      hide Push, Pending, Join, Verdicts, Run, Inv, OnCourse, MarksFit, Answers, Spoke, Rank, ParseError, Tops;
      var turn;
      next, turn, marks' := Switch(app, data, p, marks, goal);
      if old(state) == InHeader(Value) && Barred(app, data, p) && goal.core.state != InHeader(Value) {
        ValueBarred(app, goal, data, old(lost), p, next, marks', turn);
      }
      RankBound(state);
      if |data| <= SAFE_LENGTH {
        StayingOnCourse(Fields(), errno, app.Joined(), goal, data, next, marks', turn);
        LeavingAnswers(Fields(), errno, app.Joined(), goal, data, next, marks', turn, lost);
        if errno.HeaderOverflow? {
          OverflowAnswers(goal, Fields(), app.Joined(), data[next..], lost);
        }
      }
      on := turn.Consume? || turn.Again?;
      if turn.Consume? || turn.LeaveAfter? {
        next := next + 1;
      }
    }

    /** The body of the loop: the octet at p is counted and treated. */
    method Iterate(app: Application, data: string, p: nat, marks: Marks, ghost goal: Result)
      returns (next: nat, on: bool, marks': Marks)
      requires p < |data| && errno.OK? && Inv(Fields()) && MarksFit(state, marks, p) && nread <= MAX_HEADER_SIZE
      requires (state == InChunk(SizeStart) ==> nread == 0) && Tight()
      requires |data| <= SAFE_LENGTH ==> Run(Fields(), Pending(app.Joined(), marks, data, p), data[p..]) == goal
      modifies this, app
      ensures p <= next <= |data|
      ensures on ==> errno.OK? && Inv(Fields()) && MarksFit(state, marks', next) && nread <= MAX_HEADER_SIZE
                     && (state == InChunk(SizeStart) ==> nread == 0) && Tight()
      ensures on && |data| <= SAFE_LENGTH ==>
              Run(Fields(), Pending(app.Joined(), marks', data, next), data[next..]) == goal
      ensures !on ==> Returned(goal, app, data, next)
      ensures on || Stopped(errno) ==> next > p || Rank(state) < old(Rank(state))
      ensures (errno.OK? || Stopped(errno)) && |data| <= SAFE_LENGTH && old(nread + lost >= tally) ==>
                nread + lost >= tally
      ensures lost == old(lost) || lost == 0 || LosesBefore(app, data, next)
      ensures old(state) == InHeader(Value) && old(nread) < MAX_HEADER_SIZE && goal.core.state != InHeader(Value)
              && Barred(app, data, p) ==>
                !on && (ParseError(errno)
                        || (LosesBefore(app, data, next) && next > p && lost == old(lost) + (next - 1 - p)))
      ensures errno.OK? || Stopped(errno) ==>
                nread + Rank(state) <= old(nread + Rank(state)) + 8 * (next - p)
      ensures nread <= old(nread + Rank(state)) + 8 * (|data| - p)
      ensures (errno.OK? || Stopped(errno)) && old(Serving()) ==> Serving() || (!on && Ended(goal, app, data, next))
      ensures old(app.log) <= app.log
      ensures (errno.OK? || Stopped(errno)) && |data| <= SAFE_LENGTH && old(nread + lost >= tally && Capped()) ==>
              Capped()
      ensures worst >= old(worst) && (worst == old(worst) || worst <= old(lost))
      ensures Blamed(app)
    {
      hide Push, Pending, Join, Verdicts, Run, Inv, OnCourse, MarksFit, Answers, Spoke, Rank, ParseError;
      var ok := CountOctet();
      if !ok {
        if |data| <= SAFE_LENGTH {
          RunHigh(Fields(), Pending(app.Joined(), marks, data, p), data[p..]);
          OverflowAnswers(goal, Fields(), app.Joined(), data[p..], lost);
        }
        return p, false, marks;
      }
      next, on, marks' := TreatOctet(app, data, p, marks, goal);
    }

    /** The part of http_parser_execute that has octets to parse. */
    method Parse(app: Application, data: string, ghost goal: Result) returns (n: nat)
      requires Valid(app) && errno.OK? && data != []
      requires goal == Run(Fields(), app.Joined(), data)
      modifies this, app
      ensures Returned(goal, app, data, n)
      ensures Stopped(errno) ==> n > 0 || Rank(state) < old(Rank(state))
      ensures (errno.OK? || Stopped(errno)) && |data| <= SAFE_LENGTH && old(nread + lost >= tally) ==>
                nread + lost >= tally
      ensures lost <= old(lost) || LosesBefore(app, data, n)
      ensures old(state) == InHeader(Value) && old(nread) < MAX_HEADER_SIZE && goal.core.state != InHeader(Value)
              && Barred(app, data, 0) ==>
                ParseError(errno) || (LosesBefore(app, data, n) && lost == old(lost) + (n - 1))
      ensures errno.OK? || Stopped(errno) ==> nread + Rank(state) <= old(nread + Rank(state)) + 8 * n
      ensures nread <= old(nread + Rank(state)) + 8 * |data|
      ensures (errno.OK? || Stopped(errno)) && old(Serving()) ==> Serving() || Ended(goal, app, data, n)
      ensures old(app.log) <= app.log
      ensures (errno.OK? || Stopped(errno)) && |data| <= SAFE_LENGTH && old(nread + lost >= tally && Capped()) ==>
              Capped()
      ensures worst >= old(worst) && (worst == old(worst) || worst <= old(lost))
      ensures Blamed(app)
    {
      hide Push, Pending, Join, Verdicts, Run, Inv, MarksFit, Answers, Spoke, EntryMarks, Rank;
      var marks := EntryMarks(state);
      EntryIsReady(state, app.Joined(), data);
      var p: nat := 0;
      while p < |data|
        invariant p <= |data| && errno.OK? && Inv(Fields()) && MarksFit(state, marks, p) && nread <= MAX_HEADER_SIZE
        invariant (state == InChunk(SizeStart) ==> nread == 0) && Tight()
        invariant |data| <= SAFE_LENGTH ==> Run(Fields(), Pending(app.Joined(), marks, data, p), data[p..]) == goal
        invariant p > 0 || Rank(state) <= old(Rank(state))
        invariant |data| <= SAFE_LENGTH && old(nread + lost >= tally) ==> nread + lost >= tally
        invariant lost <= old(lost)
        invariant old(state) == InHeader(Value) && old(nread) < MAX_HEADER_SIZE && goal.core.state != InHeader(Value)
                  && Barred(app, data, 0) ==>
                    p == 0 && state == old(state) && nread == old(nread) && lost == old(lost)
        invariant nread + Rank(state) <= old(nread + Rank(state)) + 8 * p
        invariant old(Serving()) ==> Serving()
        invariant |data| <= SAFE_LENGTH && old(nread + lost >= tally && Capped()) ==> Capped()
        invariant worst >= old(worst) && (worst == old(worst) || worst <= old(lost))
        invariant old(app.log) <= app.log
        decreases |data| - p, Rank(state)
      {
        var on;
        p, on, marks := Iterate(app, data, p, marks, goal);
        if !on {
          return p;
        }
      }
      OneMark(state, marks, p);
      assert marks.Count() <= 1;
      PendingSpoke(app.Joined(), state, marks, data, p);
      n := Flush(app, data, marks);
      if |data| <= SAFE_LENGTH {
        EndAnswers(Fields(), errno, app.Joined(), goal, data, lost);
      }
    }

    method Execute(app: Application, data: string) returns (n: nat)
      requires errno.OK? ==> Valid(app)
      modifies this, app
      ensures old(app.log) <= app.log
      ensures !old(errno).OK? ==> n == 0 && unchanged(this) && unchanged(app)
      ensures old(errno).OK? && data != [] ==> Returned(Run(old(Fields()), old(app.Joined()), data), app, data, n)
      ensures old(errno).OK? && data != [] && Stopped(errno) ==> n > 0 || Rank(state) < old(Rank(state))
      ensures old(errno).OK? && data != [] && (errno.OK? || Stopped(errno)) && |data| <= SAFE_LENGTH ==>
                old(nread + lost >= tally) ==> nread + lost >= tally
      ensures old(errno).OK? && data != [] ==> lost <= old(lost) || LosesBefore(app, data, n)
      ensures old(errno).OK? && data != [] && old(state) == InHeader(Value) && old(nread) < MAX_HEADER_SIZE ==>
                Run(old(Fields()), old(app.Joined()), data).core.state != InHeader(Value) && Barred(app, data, 0) ==>
                  ParseError(errno) || (LosesBefore(app, data, n) && lost == old(lost) + (n - 1))
      ensures old(errno).OK? && data != [] && (errno.OK? || Stopped(errno)) ==>
                nread + Rank(state) <= old(nread + Rank(state)) + 8 * n
      ensures old(errno).OK? && data != [] ==> nread <= old(nread + Rank(state)) + 8 * |data|
      ensures old(errno).OK? && data != [] && (errno.OK? || Stopped(errno)) && old(Serving()) ==>
                Serving() || Ended(Run(old(Fields()), old(app.Joined()), data), app, data, n)
      ensures old(errno).OK? && data != [] && (errno.OK? || Stopped(errno)) && |data| <= SAFE_LENGTH ==>
                old(nread + lost >= tally && Capped()) ==> Capped()
      ensures worst >= old(worst) && (worst == old(worst) || worst <= old(lost))
      ensures old(errno).OK? ==> Blamed(app)
      ensures old(errno).OK? && data == [] ==> Fields() == old(Fields())
      ensures old(errno).OK? && data == [] && state == InBody(IdentityEof) ==>
                n == 0 && app.log == old(app.log) + [MessageComplete] && (errno.OK? || Stopped(errno))
      ensures old(errno).OK? && data == [] && AtRest(state) ==> n == 0 && unchanged(app) && errno.OK?
      ensures old(errno).OK? && data == [] && state != InBody(IdentityEof) && !AtRest(state) ==>
                n == 1 && unchanged(app) && errno == InvalidEofState
    {
      hide Push, Join, Verdicts, Run, Inv, Answers, Spoke, Rank;
      if !errno.OK? {
        return 0;
      }
      if |data| == 0 {
        n := AtEof(app);
        return;
      }
      n := Parse(app, data, Run(Fields(), app.Joined(), data));
    }
  }
}
