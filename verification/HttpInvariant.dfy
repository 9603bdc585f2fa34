/** What holds of every parser that has not failed, whatever it has read. */
module HttpInvariant {
  import opened Common
  import opened HttpTypes
  import opened HttpChars
  import opened HttpSpec

  predicate ReadingField(s: HeaderState) {
    s.Field? || s.DiscardWs? || s.DiscardWsAlmostDone? || s.DiscardLws?
  }

  predicate ReadingValue(s: HeaderState) {
    s.ValueStart? || s.Value? || s.AlmostDone? || s.ValueLws?
  }

  predicate Framed(c: Core) {
    c.length <= NO_LENGTH && (c.flags.trailing ==> c.flags.chunked)
  }

  predicate Inv(c: Core) {
    && Framed(c)
    && match c.state
       case InMethod => 1 <= c.index <= |MethodString(c.verb)|
       case InUrl(s) => !s.UrlDead?
       case InHeader(s) =>
         && (ReadingField(s) ==> IsFieldState(c.hstate))
         && (ReadingValue(s) ==> IsValueState(c.hstate))
         && (ReadingValue(s) && c.hstate.ContentLength? ==> c.length < NO_LENGTH)
       case InChunk(s) =>
         && c.flags.chunked
         && (s.SizeStart? || c.length < NO_LENGTH)
         && (s.ChunkData? ==> 0 < c.length)
         && (s.DataAlmostDone? || s.DataDone? ==> c.length == 0)
       case InBody(s) => s.Identity? ==> 0 < c.length < NO_LENGTH
       case _ => true
  }

  /** The data channel of a state that is entered only with data on that channel. */
  function Speaking(s: State): Option<Channel> {
    match s
    case InUrl(u) => if u.SpacesBeforeUrl? then None else Some(UrlData)
    case StatusLine(t) => if t.ResStatus? then Some(StatusData) else None
    case InHeader(h) => if h.Field? then Some(FieldData) else if h.Value? then Some(ValueData) else None
    case _ => None
  }

  predicate LastSpoke(log: seq<Event>, channel: Channel) {
    log != [] && log[|log| - 1].Data? && log[|log| - 1].channel == channel
  }

  lemma FieldInv(c: Core)
    requires Inv(c) && c.state == InHeader(Field)
    ensures IsFieldState(c.hstate) && Framed(c)
  {
  }

  lemma FieldInvBack(c: Core)
    requires Framed(c) && IsFieldState(c.hstate) && (c.state == InHeader(Field) || c.state == InHeader(DiscardWs))
    ensures Inv(c)
  {
  }

  /** In such a state the last callback was on that channel. */
  predicate Spoke(s: State, log: seq<Event>) {
    Speaking(s).Some? ==> LastSpoke(log, Speaking(s).value)
  }

  predicate Kept(r: Step) {
    !r.end.Failed? ==> Inv(r.core) && Spoke(r.core.state, r.log)
  }

  lemma SaySpoke(log: seq<Event>, channel: Channel, ch: char)
    ensures LastSpoke(Say(log, channel, ch), channel)
  {
  }

  lemma {:induction false} StartKept(c: Core, s: StartState, log: seq<Event>, ch: char)
    requires Inv(c) && c.state == Start(s)
    ensures Kept(StartByte(c, s, log, ch))
  {
    hide Push, LastSpoke;
  }

  lemma {:induction false} StatusKept(c: Core, s: StatusState, log: seq<Event>, ch: char)
    requires Inv(c) && c.state == StatusLine(s) && Spoke(c.state, log)
    ensures Kept(StatusByte(c, s, log, ch))
  {
    hide Say, LastSpoke;
    SaySpoke(log, StatusData, ch);
  }

  lemma {:induction false} ReviseFits(m: Method, i: nat, ch: char)
    requires i < |MethodString(m)| || ch != '\0'
    requires i <= |MethodString(m)| && ReviseMethod(m, i, ch).Some?
    ensures i + 1 <= |MethodString(ReviseMethod(m, i, ch).value)| <= 255
  {
  }

  lemma MethodShort(m: Method)
    ensures |MethodString(m)| <= 255
  {
  }

  lemma {:induction false} MethodKept(c: Core, log: seq<Event>, ch: char)
    requires Inv(c) && c.state.InMethod?
    ensures Kept(MethodByte(c, log, ch))
  {
    hide ReviseMethod, LastSpoke, MethodString;
    MethodShort(c.verb);
    if ch != '\0' && ReviseMethod(c.verb, c.index, ch).Some? {
      ReviseFits(c.verb, c.index, ch);
    }
  }

  lemma {:induction false} UrlKept(c: Core, s: UrlState, log: seq<Event>, ch: char)
    requires Inv(c) && c.state == InUrl(s) && Spoke(c.state, log)
    ensures Kept(UrlByte(c, s, log, ch))
  {
    hide Say, LastSpoke, IsUserInfoChar, IsUrlChar, IsAlpha;
    SaySpoke(log, UrlData, ch);
    StaysInUrl(s, ch);
    StaysInUrl(ServerStart, ch);
  }

  lemma StaysInUrl(s: UrlState, ch: char)
    ensures !ParseUrlChar(s, ch).SpacesBeforeUrl?
  {
  }

  lemma {:induction false} VersionKept(c: Core, s: VersionState, log: seq<Event>, ch: char)
    requires Inv(c) && c.state == InVersion(s)
    ensures Kept(VersionByte(c, s, log, ch))
  {
    hide LastSpoke;
  }

  lemma {:induction false} StartBodyKept(c: Core, log: seq<Event>, ch: char)
    requires Framed(c)
    ensures Kept(StartBody(c, log, ch))
  {
    hide Push, LastSpoke;
  }

  lemma {:induction false} EndHeadersKept(c: Core, log: seq<Event>, ch: char)
    requires Framed(c)
    ensures Kept(EndHeaders(c, log, ch))
  {
    hide Push, LastSpoke, StartBody, WantsUpgrade;
    StartBodyKept(c.(state := InHeader(HeadersDone), upgrade := WantsUpgrade(c)), Push(log, HeadersComplete), ch);
  }

  lemma {:induction false} BeginFieldKept(c: Core, log: seq<Event>, ch: char)
    requires Framed(c)
    ensures Kept(BeginField(c, log, ch))
  {
    hide Say, LastSpoke, EndHeaders, Token;
    SaySpoke(log, FieldData, ch);
    EndHeadersKept(c.(state := InHeader(HeadersAlmostDone)), log, ch);
  }

  lemma {:induction false} FieldKept(c: Core, log: seq<Event>, ch: char)
    requires Inv(c) && c.state == InHeader(Field)
    ensures Kept(FieldByte(c, log, ch))
  {
    hide Say, LastSpoke, Token;
    SaySpoke(log, FieldData, ch);
  }

  lemma {:induction false} BeginValueKept(c: Core, log: seq<Event>, ch: char)
    requires Framed(c) && (IsFieldState(c.hstate) || IsValueState(c.hstate))
    ensures Kept(BeginValue(c, log, ch))
  {
    hide Say, LastSpoke;
    SaySpoke(log, ValueData, ch);
  }

  lemma NextValueKept(h: HState, i: nat, ch: char)
    requires IsValueState(h)
    ensures IsValueState(NextValue(h, i, ch).0)
    ensures NextValue(h, i, ch).0.ContentLength? ==> h.ContentLength?
  {
  }

  /** A length that passed the overflow test takes one more digit without reaching the sentinel. */
  lemma LimitIsSafe(base: nat, n: nat, digit: nat)
    requires base == 10 || base == 16
    requires n <= Limit(base) && digit < base
    ensures n * base + digit < NO_LENGTH
  {
  }

  lemma FlagsKept(h: HState, f: Flags)
    ensures ConnectionFlags(h, f).chunked == f.chunked && ConnectionFlags(h, f).trailing == f.trailing
  {
  }

  lemma {:induction false} ValueKept(c: Core, log: seq<Event>, ch: char)
    requires Inv(c) && c.state == InHeader(Value)
    ensures Kept(ValueByte(c, log, ch))
  {
    hide Say, LastSpoke, NextValue, Limit, Lower, ConnectionFlags, IsValueState;
    SaySpoke(log, ValueData, ch);
    NextValueKept(c.hstate, c.index, ch);
    FlagsKept(c.hstate, c.flags);
    if c.hstate.ContentLength? && IsNum(ch) && c.length <= Limit(10) {
      LimitIsSafe(10, c.length, Digit(ch));
    }
  }

  lemma {:induction false} HeaderKept(c: Core, s: HeaderState, log: seq<Event>, ch: char)
    requires Inv(c) && c.state == InHeader(s) && Spoke(c.state, log)
    ensures Kept(HeaderByte(c, s, log, ch))
  {
    hide Push, LastSpoke, BeginField, FieldByte, BeginValue, ValueByte, EndHeaders, StartBody, LineFlags;
    match s
    case FieldStart => BeginFieldKept(c, log, ch);
    case Field => FieldKept(c, log, ch);
    case DiscardWs => BeginValueKept(c, log, ch);
    case DiscardLws => LineKept(c, Push(log, Data(ValueData, [])), ch);
    case ValueStart => BeginValueKept(c, log, ch);
    case Value => ValueKept(c, log, ch);
    case ValueLws => BeginValueKept(c, log, ch); LineKept(c, log, ch);
    case HeadersAlmostDone => EndHeadersKept(c, log, ch);
    case HeadersDone => StartBodyKept(c, log, ch);
    case _ =>
  }

  lemma {:induction false} LineKept(c: Core, log: seq<Event>, ch: char)
    requires Framed(c)
    ensures Kept(BeginField(c.(state := InHeader(FieldStart), flags := LineFlags(c.hstate, c.flags)), log, ch))
  {
    hide BeginField, Kept;
    BeginFieldKept(c.(state := InHeader(FieldStart), flags := LineFlags(c.hstate, c.flags)), log, ch);
  }

  lemma {:induction false} ChunkKept(c: Core, s: ChunkState, log: seq<Event>, ch: char)
    requires Inv(c) && c.state == InChunk(s)
    ensures Kept(ChunkByte(c, s, log, ch))
  {
    hide Push, LastSpoke, Limit, Unhex;
    if s.Size? && 0 <= Unhex(ch) && c.length <= Limit(16) {
      LimitIsSafe(16, c.length, Unhex(ch));
    }
  }

  lemma {:induction false} BodyKept(c: Core, s: BodyState, log: seq<Event>, ch: char)
    requires Inv(c) && c.state == InBody(s)
    ensures Kept(BodyByte(c, s, log, ch))
  {
    hide Push, LastSpoke;
  }

  lemma InvFramed(c: Core)
    requires Inv(c)
    ensures Framed(c)
  {
  }

  lemma LineFramed(c: Core)
    requires Framed(c)
    ensures Framed(c.(flags := LineFlags(c.hstate, c.flags)))
  {
  }

  lemma LineInv(c: Core)
    requires Inv(c) && (c.state == InHeader(AlmostDone) || c.state == InHeader(ValueLws))
    ensures Framed(c) && IsValueState(c.hstate) && (c.hstate.ContentLength? ==> c.length < NO_LENGTH)
  {
  }

  lemma TallyInv(c: Core, tally: nat)
    requires Inv(c)
    ensures Inv(c.(tally := tally))
  {
  }

  lemma CountedInv(c: Core)
    requires Inv(c)
    ensures Inv(Counted(c)) && Counted(c).state == c.state
  {
  }

  lemma {:induction false} ByteKept(c: Core, log: seq<Event>, ch: char)
    requires Inv(c) && Spoke(c.state, log)
    ensures Kept(Byte(c, log, ch))
  {
    hide Inv, Spoke, Kept, Counted, StartByte, StatusByte, MethodByte, UrlByte, VersionByte, HeaderByte, ChunkByte;
    hide BodyByte;
    CountedInv(c);
    var c' := Counted(c);
    match c'.state
    case Start(s) => StartKept(c', s, log, ch);
    case StatusLine(s) => StatusKept(c', s, log, ch);
    case InMethod => MethodKept(c', log, ch);
    case InUrl(s) => UrlKept(c', s, log, ch);
    case InVersion(s) => VersionKept(c', s, log, ch);
    case InHeader(s) => HeaderKept(c', s, log, ch);
    case InChunk(s) => ChunkKept(c', s, log, ch);
    case InBody(s) => BodyKept(c', s, log, ch);
  }

  /** The invariant holds after any input that does not fail. */
  lemma {:induction false} RunKept(c: Core, log: seq<Event>, s: string)
    requires Inv(c) && Spoke(c.state, log)
    ensures var r := Run(c, log, s); !r.end.Failed? ==> Inv(r.core) && Spoke(r.core.state, r.log)
    decreases |s|
  {
    hide Inv, Spoke, Byte;
    if s != [] {
      ByteKept(c, log, s[0]);
      var r := Byte(c, log, s[0]);
      if r.end.More? {
        RunKept(r.core, r.log, s[1..]);
      }
    }
  }
}
