/** Header names and values: when cutting the input of the multipart parser changes them. */
module MultipartHeaderText {
  import opened MultipartSpec
  import opened MultipartParser
  import opened MultipartRuns
  import opened Common

  /** One octet at the end of a buffer, or before its end. */
  lemma {:induction false} OneOctet(boundary: string, c: Core, held: string, log: seq<Event>, ch: char, open: bool)
    ensures Scan(boundary, c, held, log, [ch], open) ==
            var r := Octet(boundary, c, held, log, ch, !open);
            Result(r.core, r.held, r.log, if r.going then [] else [ch])
  {
    hide Octet;
    assert [ch][1..] == [];
  }

  lemma {:induction false} TwoOctets(boundary: string, c: Core, log: seq<Event>, ch: char, ch': char)
    ensures var r := Octet(boundary, c, [], log, ch, false);
            r.going ==>
              Scan(boundary, c, [], log, [ch, ch'], false) == Scan(boundary, r.core, r.held, r.log, [ch'], false)
  {
    hide Octet;
    assert [ch, ch'][1..] == [ch'];
  }

  lemma {:induction false} ThreeOctets(boundary: string, c: Core, log: seq<Event>, ch: char, ch': char, ch'': char)
    ensures var r := Octet(boundary, c, [], log, ch, false);
            var r' := Octet(boundary, r.core, r.held, r.log, ch', false);
            r.going && r'.going ==>
              Scan(boundary, c, [], log, [ch, ch', ch''], false) ==
                Scan(boundary, r'.core, r'.held, r'.log, [ch''], false)
  {
    hide Octet;
    assert [ch, ch', ch''][1..] == [ch', ch''] && [ch', ch''][1..] == [ch''];
  }

  lemma {:induction false} TwoPieces(boundary: string, c: Core, log: seq<Event>, a: string, b: string)
    ensures var r := Scan(boundary, c, [], log, a, false);
            var r' := Scan(boundary, r.core, [], r.log, b, false);
            r.rest == [] && r'.rest == [] ==> Handed(boundary, c, log, [a, b]).log == r'.log
  {
    hide Scan;
    assert [a, b][1..] == [b] && [b][1..] == [];
    var r := Scan(boundary, c, [], log, a, false);
    var r' := Scan(boundary, r.core, [], r.log, b, false);
    HandedStep(boundary, c, log, [a, b]);
    HandedStep(boundary, r.core, r.log, [b]);
    HandedStep(boundary, r'.core, r'.log, []);
  }

  // Cuts that do change them.

  /** A name that is cut after a '-' loses what has been read of it. */
  lemma {:induction false} HyphenLosesText(boundary: string)
    ensures var c := Core(HeaderFieldStart, 0);
            && Handed(boundary, c, [], ["a-", ":"]).log == [Data(Field, [])]
            && Scan(boundary, c, [], [], "a-:", false).log == [Data(Field, "a-")]
  {
    var c, d := Core(HeaderFieldStart, 0), Core(HeaderField, 0);
    assert [] + ['a'] == "a" && "a" + ['-'] == "a-";
    hide Scan;
    TwoOctets(boundary, c, [], 'a', '-');
    OneOctet(boundary, d, "a", [], '-', false);
    OneOctet(boundary, d, [], [], ':', false);
    TwoPieces(boundary, c, [], "a-", ":");
    ThreeOctets(boundary, c, [], 'a', '-', ':');
    OneOctet(boundary, d, "a-", [], ':', false);
  }

  /** A value that is cut after the CR that ends it is reported once more, with the CR. */
  lemma {:induction false} ReturnRepeatsValue(boundary: string)
    ensures var c := Core(HeaderValueStart, 0);
            && Handed(boundary, c, [], ["v\r", "\n"]).log == [Data(FieldValue, "vv\r")]
            && Scan(boundary, c, [], [], "v\r\n", false).log == [Data(FieldValue, "v")]
  {
    var c, d, e := Core(HeaderValueStart, 0), Core(HeaderValue, 0), Core(HeaderValueAlmostDone, 0);
    assert [] + ['v'] == "v" && "v" + [CR] == "v\r" && "v" + "v\r" == "vv\r";
    hide Scan;
    TwoOctets(boundary, c, [], 'v', CR);
    OneOctet(boundary, d, "v", [], CR, false);
    OneOctet(boundary, e, [], [Data(FieldValue, "vv\r")], LF, false);
    TwoPieces(boundary, c, [], "v\r", "\n");
    ThreeOctets(boundary, c, [], 'v', CR, LF);
    OneOctet(boundary, e, [], [Data(FieldValue, "v")], LF, false);
  }

  /** A name that never reaches its colon is reported only if it is cut. */
  lemma {:induction false} CutReportsName(boundary: string)
    ensures var c := Core(HeaderFieldStart, 0);
            && Handed(boundary, c, [], ["a", "\r\n"]).log == [Data(Field, "a")]
            && Scan(boundary, c, [], [], "a\r\n", false).log == []
  {
    var c, d, e := Core(HeaderFieldStart, 0), Core(HeaderField, 0), Core(HeadersAlmostDone, 0);
    assert [] + ['a'] == "a";
    hide Scan;
    OneOctet(boundary, c, [], [], 'a', false);
    TwoOctets(boundary, d, [Data(Field, "a")], CR, LF);
    OneOctet(boundary, e, [], [Data(Field, "a")], LF, false);
    TwoPieces(boundary, c, [], "a", "\r\n");
    ThreeOctets(boundary, c, [], 'a', CR, LF);
    OneOctet(boundary, e, [], [], LF, false);
  }

  /** A value that ends with the CR that ends the input is reported twice, unless it is cut before the CR. */
  lemma {:induction false} CutKeepsValue(boundary: string)
    ensures var c := Core(HeaderValueStart, 0);
            && Handed(boundary, c, [], ["v", "\r"]).log == [Data(FieldValue, "v\r")]
            && Scan(boundary, c, [], [], "v\r", false).log == [Data(FieldValue, "vv\r")]
  {
    var c, d := Core(HeaderValueStart, 0), Core(HeaderValue, 0);
    assert [] + ['v'] == "v" && "v" + [CR] == "v\r" && "v" + "v\r" == "vv\r";
    assert [] + [CR] == [CR] && "v" + [] == "v";
    hide Scan;
    OneOctet(boundary, c, [], [], 'v', false);
    OneOctet(boundary, d, [], [Data(FieldValue, "v")], CR, false);
    TwoPieces(boundary, c, [], "v", "\r");
    TwoOctets(boundary, c, [], 'v', CR);
    OneOctet(boundary, d, "v", [], CR, false);
  }

  // The state does not depend on the cuts.

  lemma {:induction false} TextCore(
    c: Core, held: string, log: seq<Event>, last: bool, held': string, log': seq<Event>, last': bool, ch: char)
    ensures var r, r' := FieldOctet(c, held, log, ch, last), FieldOctet(c, held', log', ch, last');
            r.core == r'.core && r.going == r'.going
    ensures var r, r' := ValueOctet(c, held, log, ch, last), ValueOctet(c, held', log', ch, last');
            r.core == r'.core && r.going == r'.going
  {
    hide Push, IsLetter;
  }

  lemma {:induction false} BoundaryCore(boundary: string, c: Core, log: seq<Event>, log': seq<Event>, ch: char)
    ensures var r, r' := FirstBoundary(boundary, c, log, ch), FirstBoundary(boundary, c, log', ch);
            r.core == r'.core && r.going == r'.going
    ensures var r, r' := BoundaryOctet(boundary, c, log, ch), BoundaryOctet(boundary, c, log', ch);
            r.core == r'.core && r.going == r'.going
  {
    hide Push;
  }

  predicate InText(s: State) { s.HeaderFieldStart? || s.HeaderField? || s.HeaderValueStart? || s.HeaderValue? }

  lemma {:induction false} OffTextCore(
    boundary: string, c: Core, held: string, log: seq<Event>, last: bool, held': string, log': seq<Event>, last': bool,
      ch: char)
    requires !InText(c.state)
    ensures var r, r' := Octet(boundary, c, held, log, ch, last), Octet(boundary, c, held', log', ch, last');
            r.core == r'.core && r.going == r'.going
  {
    hide Push, FieldOctet, ValueOctet, FirstBoundary, BoundaryOctet;
    BoundaryCore(boundary, c, log, log', ch);
    BoundaryCore(boundary, Core(StartBoundary, 0), log, log', ch);
  }

  lemma {:induction false} OctetCore(
    boundary: string, c: Core, held: string, log: seq<Event>, last: bool, held': string, log': seq<Event>, last': bool,
      ch: char)
    ensures var r, r' := Octet(boundary, c, held, log, ch, last), Octet(boundary, c, held', log', ch, last');
            r.core == r'.core && r.going == r'.going
  {
    if InText(c.state) {
      hide Push, FieldOctet, ValueOctet, FirstBoundary, BoundaryOctet, DataOctet;
      TextCore(c.(state := HeaderField), [], log, last, [], log', last', ch);
      TextCore(c, held, log, last, held', log', last', ch);
      TextCore(c.(state := HeaderValue), [], log, last, [], log', last', ch);
    } else {
      hide Octet;
      OffTextCore(boundary, c, held, log, last, held', log', last', ch);
    }
  }

  lemma {:induction false} ScanCore(
    boundary: string, c: Core, held: string, log: seq<Event>, open: bool, held': string, log': seq<Event>, open': bool,
      s: string)
    ensures var r, r' := Scan(boundary, c, held, log, s, open), Scan(boundary, c, held', log', s, open');
            r.core == r'.core && r.rest == r'.rest
    decreases |s|
  {
    hide Octet;
    if s != [] {
      OctetCore(boundary, c, held, log, !open && |s| == 1, held', log', !open' && |s| == 1, s[0]);
      var r := Octet(boundary, c, held, log, s[0], !open && |s| == 1);
      var r' := Octet(boundary, c, held', log', s[0], !open' && |s| == 1);
      if r.going {
        ScanCore(boundary, r.core, r.held, r.log, open, r'.held, r'.log, open', s[1..]);
      }
    }
  }

  /** Where a stretch of input leads. */
  function CoreAfter(boundary: string, c: Core, s: string): Core { Scan(boundary, c, [], [], s, true).core }

  predicate Taken(boundary: string, c: Core, s: string) { Scan(boundary, c, [], [], s, true).rest == [] }

  lemma {:induction false} CoreOf(boundary: string, c: Core, held: string, log: seq<Event>, s: string, open: bool)
    ensures var r := Scan(boundary, c, held, log, s, open);
            r.core == CoreAfter(boundary, c, s) && (r.rest == [] <==> Taken(boundary, c, s))
  {
    hide Scan;
    ScanCore(boundary, c, held, log, open, [], [], true, s);
  }

  lemma {:induction false} CoreThen(boundary: string, c: Core, a: string, b: string)
    ensures Taken(boundary, c, a) ==>
              CoreAfter(boundary, c, a + b) == CoreAfter(boundary, CoreAfter(boundary, c, a), b)
              && (Taken(boundary, c, a + b) <==> Taken(boundary, CoreAfter(boundary, c, a), b))
    ensures Taken(boundary, c, a + b) ==> Taken(boundary, c, a)
  {
    hide Scan;
    var r := Scan(boundary, c, [], [], a, true);
    if b == [] {
      assert a + b == a;
      TakesNothing(boundary, r.core);
    } else {
      ScanConcat(boundary, c, [], [], a, b, true);
      CoreOf(boundary, r.core, r.held, r.log, b, true);
    }
  }

  lemma TakesNothing(boundary: string, c: Core)
    ensures CoreAfter(boundary, c, []) == c && Taken(boundary, c, [])
  {
  }

  // Input in which every name reaches its colon.

  predicate Tidy(boundary: string, c: Core, s: string) {
    Taken(boundary, c, s) && forall k :: 0 <= k < |s| && CoreAfter(boundary, c, s[..k]).state.HeaderField? ==>
      s[k] != CR
  }

  lemma {:induction false} TidyThen(boundary: string, c: Core, a: string, b: string)
    requires Tidy(boundary, c, a) && Tidy(boundary, CoreAfter(boundary, c, a), b)
    ensures Tidy(boundary, c, a + b)
  {
    hide CoreAfter, Taken;
    CoreThen(boundary, c, a, b);
    forall k | 0 <= k < |a + b| && CoreAfter(boundary, c, (a + b)[..k]).state.HeaderField?
      ensures (a + b)[k] != CR
    {
      if k < |a| {
        assert (a + b)[..k] == a[..k];
      } else {
        var j := k - |a|;
        assert (a + b)[..k] == a + b[..j];
        CoreThen(boundary, c, a, b[..j]);
      }
    }
  }

  lemma {:induction false} TidySuffix(boundary: string, c: Core, a: string, b: string)
    requires Tidy(boundary, c, a + b)
    ensures Tidy(boundary, c, a) && Tidy(boundary, CoreAfter(boundary, c, a), b)
  {
    hide CoreAfter, Taken;
    CoreThen(boundary, c, a, b);
    forall k | 0 <= k < |a| && CoreAfter(boundary, c, a[..k]).state.HeaderField?
      ensures a[k] != CR
    {
      assert (a + b)[..k] == a[..k] && (a + b)[k] == a[k];
    }
    forall j | 0 <= j < |b| && CoreAfter(boundary, CoreAfter(boundary, c, a), b[..j]).state.HeaderField?
      ensures b[j] != CR
    {
      var k := |a| + j;
      assert (a + b)[..k] == a + b[..j] && (a + b)[k] == b[j];
      CoreThen(boundary, c, a, b[..j]);
    }
  }

  /** Without CR there is nothing that could end a name early. */
  lemma {:induction false} TidyPlain(boundary: string, c: Core, s: string)
    requires Taken(boundary, c, s) && CR !in s
    ensures Tidy(boundary, c, s)
  {
    hide CoreAfter, Taken;
    assert forall k :: 0 <= k < |s| ==> s[k] in s;
  }

  lemma {:induction false} TidyLineEnd(boundary: string, c: Core)
    requires Taken(boundary, c, "\r\n") && !c.state.HeaderField?
    ensures Tidy(boundary, c, "\r\n")
  {
    TakesNothing(boundary, c);
    hide CoreAfter, Taken;
    assert "\r\n"[..0] == [];
  }

  // What is still to come decides what becomes of header text.

  /** A name of which some has been read is going to be reported: s, which comes next, reaches a colon, or ends
      with a letter before anything else than letters and hyphens has come. */
  predicate WillReport(s: string) {
    s != []
    && (s[0] == ':'
        || (IsLetter(s[0]) && |s| == 1)
        || ((IsLetter(s[0]) || s[0] == '-') && |s| > 1 && WillReport(s[1..])))
  }

  /** A value of which some has been read is going to end with the CR that is the last octet of s. */
  predicate Doubled(s: string) {
    s != [] && if s[0] == CR then |s| == 1 else Doubled(s[1..])
  }

  /** A buffer may not end after the octet ch, which has led to the state s, with `rest` to come: after the CR
      that ends a value; in a name, after a '-' if the name is going to be reported, and after a letter if it is
      not; and in a value that is going to end with the last octet of all. */
  predicate BadCut(s: State, ch: char, rest: string) {
    rest != []
    && (s.HeaderValueAlmostDone?
        || (s.HeaderField? && (WillReport(rest) <==> ch == '-'))
        || (s.HeaderValue? && Doubled(rest)))
  }

  /** The log with the header text that is held back. */
  function Shown(c: Core, held: string, log: seq<Event>): seq<Event> {
    if c.state.HeaderField? then Push(log, Data(Field, held))
    else if c.state.HeaderValue? then Push(log, Data(FieldValue, held))
    else log
  }

  /** Nothing has been lost or repeated so far, and nothing will be. */
  predicate Even(c: Core, held: string, log: seq<Event>, held': string, log': seq<Event>, rest: string) {
    if c.state.HeaderField? && WillReport(rest) then Shown(c, held, log) == Shown(c, held', log')
    else if c.state.HeaderValue? && Doubled(rest) then log == log' && held == held'
    else if c.state.HeaderValue? && rest != [] then Shown(c, held, log) == Shown(c, held', log')
    else log == log'
  }

  /** The two logs end in data on one channel, and only in how much they end. */
  predicate Shorter(x: seq<Event>, y: seq<Event>, k: Channel) {
    x != [] && |x| == |y|
    && var n := |x| - 1;
       x[..n] == y[..n] && x[n].Data? && y[n].Data? && x[n].channel == y[n].channel == k && |x[n].bytes| < |y[n].bytes|
  }

  /** The second log has a name at its end that the first does not have. */
  predicate Extra(x: seq<Event>, y: seq<Event>) {
    || (|y| == |x| + 1 && y[..|x|] == x && y[|x|].Data? && y[|x|].channel == Field)
    || Shorter(x, y, Field)
  }

  /** The channel on which data may be reported next, with no other callback before it. */
  function NextChannel(s: State): Option<Channel> {
    match s
    case HeaderFieldStart => Some(Field)
    case HeaderField => Some(Field)
    case HeaderValueAlmostDone => Some(Field)
    case HeaderValueStart => Some(FieldValue)
    case HeaderValue => Some(FieldValue)
    case InPartData => Some(PartData)
    case PartDataAlmostBoundary => Some(PartData)
    case PartDataBoundary => Some(PartData)
    case _ => None
  }

  /** How many callbacks at the beginning of a joined log nothing can be added to any more. */
  function Settled(next: Option<Channel>, log: seq<Event>): nat {
    if log != [] && log[|log| - 1].Data? && next == Some(log[|log| - 1].channel) then |log| - 1 else |log|
  }

  /** The logs differ in something that is not going to change. */
  ghost predicate Diverged(c: Core, log: seq<Event>, log': seq<Event>) {
    exists i: nat :: i < Settled(NextChannel(c.state), log) && i < Settled(NextChannel(c.state), log')
      && log[i] != log'[i]
  }

  /** Something has been lost or repeated, and it will never be made good. */
  ghost predicate Off(c: Core, held: string, log: seq<Event>, held': string, log': seq<Event>, rest: string) {
    || Diverged(c, log, log')
    || (rest == [] && log != log')
    || (c.state.HeaderField? && WillReport(rest) && Shorter(Shown(c, held', log'), Shown(c, held, log), Field))
    || (c.state.HeaderField? && !WillReport(rest) && Extra(log, log'))
    || ((c.state.HeadersAlmostDone? || c.state.PartDataStart?) && Extra(log, log'))
    || (c.state.HeaderValue? && Doubled(rest) && Shown(c, held, log) == Shown(c, held', log') && |held'| < |held|)
  }

  // The end of a log.

  lemma ShorterDiffers(x: seq<Event>, y: seq<Event>, k: Channel)
    ensures Shorter(x, y, k) ==> x != y
    ensures Extra(x, y) ==> x != y
  {
  }

  lemma ShorterPush(x: seq<Event>, y: seq<Event>, k: Channel, a: string, b: string)
    requires (Shorter(x, y, k) && |a| <= |b|) || (x == y && |a| < |b|)
    ensures Shorter(Push(x, Data(k, a)), Push(y, Data(k, b)), k)
  {
  }

  /** What a log says on channel k at its end, and what it says before. */
  function Tail(log: seq<Event>, k: Channel): string {
    if log != [] && log[|log| - 1].Data? && log[|log| - 1].channel == k then log[|log| - 1].bytes else []
  }

  function Before(log: seq<Event>, k: Channel): seq<Event> {
    if log != [] && log[|log| - 1].Data? && log[|log| - 1].channel == k then log[..|log| - 1] else log
  }

  lemma {:induction false} PushIs(log: seq<Event>, k: Channel, a: string)
    ensures Push(log, Data(k, a)) == Before(log, k) + [Data(k, Tail(log, k) + a)]
  {
    assert [] + a == a;
  }

  lemma {:induction false} ShorterIs(x: seq<Event>, y: seq<Event>, k: Channel, l: seq<Event>, v: string, w: string)
    requires x == l + [Data(k, v)]
    ensures Shorter(x, y, k) ==> y == Before(y, k) + [Data(k, Tail(y, k))] && Before(y, k) == l && |v| < |Tail(y, k)|
    ensures y == l + [Data(k, w)] && |v| < |w| ==> Shorter(x, y, k)
  {
    assert x[..|x| - 1] == l;
  }

  /** Text that is lost makes a log shorter. */
  lemma {:induction false} ShorterDrop(x: seq<Event>, y: seq<Event>, k: Channel, a: string, b: string)
    requires Shorter(Push(x, Data(k, a)), y, k) || Push(x, Data(k, a)) == y
    ensures b != [] ==> Shorter(Push(x, Data(k, [])), Push(y, Data(k, b)), k)
  {
    hide Push, Shorter;
    PushIs(x, k, a);
    PushIs(x, k, []);
    PushIs(y, k, b);
    var l, v := Before(x, k), Tail(x, k);
    ShorterIs(Push(x, Data(k, a)), y, k, l, v + a, []);
    ShorterIs(Push(x, Data(k, [])), Push(y, Data(k, b)), k, l, v + [], Tail(y, k) + b);
  }

  lemma ExtraPush(x: seq<Event>, y: seq<Event>, a: string)
    requires (x == y || Extra(x, y)) && a != []
    ensures Extra(x, Push(y, Data(Field, a)))
  {
  }

  /** A callback does not touch what is settled. */
  lemma PushSettled(log: seq<Event>, e: Event, next: Option<Channel>, next': Option<Channel>)
    requires e.Data? ==> next == Some(e.channel)
    ensures var f := Settled(next, log); f <= Settled(next', Push(log, e)) && Push(log, e)[..f] == log[..f]
  {
  }

  /** A step leaves what is settled as it is. */
  predicate Settles(c: Core, log: seq<Event>, r: Step) {
    r.going ==>
      var f := Settled(NextChannel(c.state), log);
      f <= Settled(NextChannel(r.core.state), r.log) && r.log[..f] == log[..f]
  }

  lemma {:induction false} TextSettles(c: Core, held: string, log: seq<Event>, ch: char, last: bool)
    ensures c.state.HeaderField? ==> Settles(c, log, FieldOctet(c, held, log, ch, last))
    ensures c.state.HeaderValue? ==> Settles(c, log, ValueOctet(c, held, log, ch, last))
  {
    hide Push, IsLetter;
    PushSettled(log, Data(Field, held), Some(Field), Some(FieldValue));
    PushSettled(log, Data(Field, held + [ch]), Some(Field), Some(Field));
    PushSettled(log, Data(FieldValue, held + [ch]), Some(FieldValue), Some(FieldValue));
    PushSettled(log, Data(FieldValue, held), Some(FieldValue), Some(FieldValue));
    PushSettled(log, Data(FieldValue, held), Some(FieldValue), Some(Field));
    PushSettled(Push(log, Data(FieldValue, held)), Data(FieldValue, held + [ch]), Some(FieldValue), Some(Field));
  }

  lemma {:induction false} DataSettles(c: Core, log: seq<Event>, ch: char)
    ensures var r := DataOctet(c, log, ch);
            var f := Settled(Some(PartData), log);
            f <= Settled(NextChannel(r.core.state), r.log) && r.log[..f] == log[..f]
  {
    hide Push;
    PushSettled(log, Data(PartData, []), Some(PartData), Some(PartData));
    PushSettled(log, Data(PartData, [ch]), Some(PartData), Some(PartData));
  }

  lemma {:induction false} BoundarySettles(boundary: string, c: Core, log: seq<Event>, ch: char)
    ensures c.state.StartBoundary? ==> Settles(c, log, FirstBoundary(boundary, c, log, ch))
    ensures c.state.PartDataBoundary? ==> Settles(c, log, BoundaryOctet(boundary, c, log, ch))
  {
    hide Push, DataOctet;
    PushSettled(log, PartDataBegin, None, Some(Field));
    PushSettled(log, PartDataEnded, Some(PartData), None);
    var back := Data(PartData, [CR, LF] + boundary[..if c.index <= |boundary| then c.index else |boundary|]);
    PushSettled(log, back, Some(PartData), Some(PartData));
    DataSettles(c, Push(log, back), ch);
  }

  lemma {:induction false} DataStartSettles(
    boundary: string, c: Core, held: string, log: seq<Event>, ch: char, last: bool)
    requires c.state.PartDataStart? || c.state.InPartData? || c.state.PartDataAlmostBoundary?
    ensures Settles(c, log, Octet(boundary, c, held, log, ch, last))
  {
    hide Push, DataOctet;
    PushSettled(log, HeadersComplete, None, Some(PartData));
    PushSettled(log, Data(PartData, [CR]), Some(PartData), Some(PartData));
    DataSettles(c, log, ch);
    DataSettles(c, Push(log, HeadersComplete), ch);
    DataSettles(c, Push(log, Data(PartData, [CR])), ch);
  }

  lemma {:induction false} RestSettles(boundary: string, c: Core, held: string, log: seq<Event>, ch: char, last: bool)
    requires c.state.HeadersAlmostDone? || c.state.HeaderValueAlmostDone? || c.state.PartDataAlmostEnd?
             || c.state.PartDataFinalHyphen? || c.state.PartDataEnd? || c.state.EndState?
    ensures Settles(c, log, Octet(boundary, c, held, log, ch, last))
  {
    hide Push;
    PushSettled(log, PartDataBegin, None, Some(Field));
    PushSettled(log, BodyEnd, None, None);
  }

  lemma {:induction false} OctetSettles(boundary: string, c: Core, held: string, log: seq<Event>, ch: char, last: bool)
    ensures Settles(c, log, Octet(boundary, c, held, log, ch, last))
  {
    if InText(c.state) {
      hide Push, FieldOctet, ValueOctet, Settled;
      TextSettles(c.(state := HeaderField), if c.state.HeaderField? then held else [], log, ch, last);
      TextSettles(c.(state := HeaderValue), if c.state.HeaderValue? then held else [], log, ch, last);
    } else if c.state.Start? || c.state.StartBoundary? || c.state.PartDataBoundary? {
      hide Push, FirstBoundary, BoundaryOctet, Settled;
      BoundarySettles(boundary, c, log, ch);
      BoundarySettles(boundary, Core(StartBoundary, 0), log, ch);
    } else if c.state.PartDataStart? || c.state.InPartData? || c.state.PartDataAlmostBoundary? {
      hide Octet, Settles;
      DataStartSettles(boundary, c, held, log, ch, last);
    } else {
      hide Octet, Settles;
      RestSettles(boundary, c, held, log, ch, last);
    }
  }

  lemma {:induction false} SettledAt(c: Core, log: seq<Event>, r: Step, i: nat)
    requires Settles(c, log, r) && i < Settled(NextChannel(c.state), log) && (!r.going ==> r.log == log)
    ensures i < |log| && i < |r.log| && r.log[i] == log[i]
    ensures r.going ==> i < Settled(NextChannel(r.core.state), r.log)
  {
    SettledBound(NextChannel(c.state), log);
    SettledBound(NextChannel(r.core.state), r.log);
    hide Settled, NextChannel;
    if r.going {
      var f := Settled(NextChannel(c.state), log);
      assert r.log[..f][i] == log[..f][i];
    }
  }

  lemma {:induction false} StaysDiverged(
    boundary: string, c: Core, held: string, log: seq<Event>, held': string, log': seq<Event>, ch: char, l: bool,
      l': bool)
    requires Diverged(c, log, log')
    ensures var r, r' := Octet(boundary, c, held, log, ch, l), Octet(boundary, c, held', log', ch, l');
            if r.going then Diverged(r.core, r.log, r'.log) else r.log != r'.log
  {
    hide Settled, NextChannel, Settles, Octet;
    var r, r' := Octet(boundary, c, held, log, ch, l), Octet(boundary, c, held', log', ch, l');
    OctetCore(boundary, c, held, log, l, held', log', l', ch);
    OctetSettles(boundary, c, held, log, ch, l);
    OctetSettles(boundary, c, held', log', ch, l');
    RefusalKeeps(boundary, c, held, log, ch, l);
    RefusalKeeps(boundary, c, held', log', ch, l');
    SettledBound(NextChannel(c.state), log);
    SettledBound(NextChannel(c.state), log');
    var i: nat :| i < Settled(NextChannel(c.state), log) && i < Settled(NextChannel(c.state), log')
      && log[i] != log'[i];
    SettledAt(c, log, r, i);
    SettledAt(c, log', r', i);
    assert r.log[i] != r'.log[i];
  }

  lemma SettledBound(next: Option<Channel>, log: seq<Event>)
    ensures Settled(next, log) <= |log|
  {
  }

  /** An octet that is refused is not reported. */
  lemma {:induction false} RefusalKeeps(boundary: string, c: Core, held: string, log: seq<Event>, ch: char, last: bool)
    ensures var r := Octet(boundary, c, held, log, ch, last); !r.going ==> r.log == log
  {
    hide Push, IsLetter;
  }

  // One octet, in a name.

  lemma {:induction false} ReportStep(ch: char, rest: string)
    ensures var s := [ch] + rest;
            WillReport(s) <==> ch == ':' || (IsLetter(ch) && rest == [])
                               || ((IsLetter(ch) || ch == '-') && rest != [] && WillReport(rest))
  {
    assert ([ch] + rest)[1..] == rest;
  }

  lemma {:induction false} DoubledStep(ch: char, rest: string)
    ensures Doubled([ch] + rest) <==> if ch == CR then rest == [] else Doubled(rest)
  {
    assert ([ch] + rest)[1..] == rest;
  }

  /** What follows an octet, for two logs; l and l' say whether their buffers end after it. */
  ghost predicate Follows(
    r: Step, r': Step, ch: char, rest: string, l': bool, even: bool)
  {
    if !r.going then r.log == r'.log <==> even
    else if even && !(l' && BadCut(r.core.state, ch, rest)) then Even(r.core, r.held, r.log, r'.held, r'.log, rest)
    else Off(r.core, r.held, r.log, r'.held, r'.log, rest)
  }

  lemma {:induction false} NameEven(
    c: Core, held: string, log: seq<Event>, held': string, log': seq<Event>, ch: char, rest: string, l': bool)
    requires c.state.HeaderField? && Even(c, held, log, held', log', [ch] + rest) && (rest == [] ==> l')
    ensures Follows(FieldOctet(c, held, log, ch, rest == []), FieldOctet(c, held', log', ch, l'), ch, rest, l', true)
  {
    ReportStep(ch, rest);
    hide Push, IsLetter, WillReport, Doubled, Diverged, Shorter, Extra;
    assert !IsLetter('-') && !IsLetter(':') && !IsLetter(CR) by { NotLetters(); }
    PushPush(log, Field, held, [ch]);
    PushPush(log', Field, held', [ch]);
    PushPush(log', Field, held' + [ch], []);
    assert held' + [ch] + [] == held' + [ch];
    if IsLetter(ch) && l' && rest != [] && !WillReport(rest) {
      ExtraPush(log, log', held' + [ch]);
    }
    if ch == '-' && l' && rest != [] && WillReport(rest) {
      ShorterDrop(log', Push(log, Data(Field, held)), Field, held', [ch]);
    }
  }

  lemma NotLetters()
    ensures !IsLetter('-') && !IsLetter(':') && !IsLetter(CR)
  {
  }

  /** A name that has lost text reaches its colon. */
  lemma {:induction false} ShortColon(
    c: Core, held: string, log: seq<Event>, held': string, log': seq<Event>, ch: char, rest: string, l': bool)
    requires c.state.HeaderField? && WillReport([ch] + rest) && (rest == [] ==> l')
    requires Shorter(Shown(c, held', log'), Shown(c, held, log), Field)
    requires ch == ':'
    ensures Follows(FieldOctet(c, held, log, ch, rest == []), FieldOctet(c, held', log', ch, l'), ch, rest, l', false)
  {
    hide Push, IsLetter, WillReport, Doubled, Diverged, Shorter, Extra, Even;
    var x, y := Push(log', Data(Field, held')), Push(log, Data(Field, held));
    ShorterDiverges(c.(state := HeaderValueStart), x, y);
  }

  /** A name that has lost text goes on. */
  lemma {:induction false} ShortLetter(
    c: Core, held: string, log: seq<Event>, held': string, log': seq<Event>, ch: char, rest: string, l': bool)
    requires c.state.HeaderField? && WillReport([ch] + rest) && (rest == [] ==> l')
    requires Shorter(Shown(c, held', log'), Shown(c, held, log), Field)
    requires IsLetter(ch)
    ensures Follows(FieldOctet(c, held, log, ch, rest == []), FieldOctet(c, held', log', ch, l'), ch, rest, l', false)
  {
    hide Push, IsLetter, WillReport, Doubled, Diverged, Shorter, Extra, Even;
    ReportStep(ch, rest);
    var x, y := Push(log', Data(Field, held')), Push(log, Data(Field, held));
    assert !IsLetter('-') && !IsLetter(':') && !IsLetter(CR) by { NotLetters(); }
    ShorterPush(x, y, Field, [ch], [ch]);
    PushPush(log, Field, held, [ch]);
    PushPush(log', Field, held', [ch]);
    PushPush(log', Field, held' + [ch], []);
    assert held' + [ch] + [] == held' + [ch];
    ShorterDiffers(Push(x, Data(Field, [ch])), Push(y, Data(Field, [ch])), Field);
  }

  lemma {:induction false} ShortHyphen(
    c: Core, held: string, log: seq<Event>, held': string, log': seq<Event>, ch: char, rest: string, l': bool)
    requires c.state.HeaderField? && WillReport([ch] + rest) && (rest == [] ==> l')
    requires Shorter(Shown(c, held', log'), Shown(c, held, log), Field)
    requires ch == '-'
    ensures Follows(FieldOctet(c, held, log, ch, rest == []), FieldOctet(c, held', log', ch, l'), ch, rest, l', false)
  {
    hide Push, IsLetter, WillReport, Doubled, Diverged, Shorter, Extra, Even;
    ReportStep(ch, rest);
    var x, y := Push(log', Data(Field, held')), Push(log, Data(Field, held));
    assert !IsLetter('-') by { NotLetters(); }
    ShorterPush(x, y, Field, [ch], [ch]);
    ShorterDrop(log', y, Field, held', [ch]);
    PushPush(log, Field, held, [ch]);
    PushPush(log', Field, held', [ch]);
  }

  lemma {:induction false} NameShort(
    c: Core, held: string, log: seq<Event>, held': string, log': seq<Event>, ch: char, rest: string, l': bool)
    requires c.state.HeaderField? && WillReport([ch] + rest) && (rest == [] ==> l')
    requires Shorter(Shown(c, held', log'), Shown(c, held, log), Field)
    ensures Follows(FieldOctet(c, held, log, ch, rest == []), FieldOctet(c, held', log', ch, l'), ch, rest, l', false)
  {
    ReportStep(ch, rest);
    hide FieldOctet, Shown, Shorter, IsLetter, WillReport, Follows;
    if ch == ':' {
      ShortColon(c, held, log, held', log', ch, rest, l');
    } else if ch == '-' {
      ShortHyphen(c, held, log, held', log', ch, rest, l');
    } else {
      ShortLetter(c, held, log, held', log', ch, rest, l');
    }
  }

  lemma {:induction false} ShorterDiverges(c: Core, x: seq<Event>, y: seq<Event>)
    requires Shorter(x, y, Field) && NextChannel(c.state) != Some(Field)
    ensures Diverged(c, y, x)
  {
    var n: nat := |x| - 1;
    assert n < Settled(NextChannel(c.state), x) && n < Settled(NextChannel(c.state), y) && y[n] != x[n];
  }

  lemma {:induction false} NameExtra(
    c: Core, held: string, log: seq<Event>, held': string, log': seq<Event>, ch: char, rest: string, l': bool)
    requires c.state.HeaderField? && !WillReport([ch] + rest) && (rest == [] ==> l') && Extra(log, log')
    ensures Follows(FieldOctet(c, held, log, ch, rest == []), FieldOctet(c, held', log', ch, l'), ch, rest, l', false)
  {
    ReportStep(ch, rest);
    hide Push, IsLetter, WillReport, Doubled, Diverged, Shorter, Extra;
    assert !IsLetter('-') && !IsLetter(':') && !IsLetter(CR) by { NotLetters(); }
    ShorterDiffers(log, log', Field);
    ExtraPush(log, log', held' + [ch]);
    ShorterDiffers(log, Push(log', Data(Field, held' + [ch])), Field);
  }

  // One octet, in a value.

  lemma {:induction false} ValueEven(
    c: Core, held: string, log: seq<Event>, held': string, log': seq<Event>, ch: char, rest: string, l': bool)
    requires c.state.HeaderValue? && Even(c, held, log, held', log', [ch] + rest) && (rest == [] ==> l')
    ensures Follows(ValueOctet(c, held, log, ch, rest == []), ValueOctet(c, held', log', ch, l'), ch, rest, l', true)
  {
    DoubledStep(ch, rest);
    hide Push, WillReport, Doubled, Diverged, Shorter, Extra;
    PushPush(log, FieldValue, held, [ch]);
    PushPush(log', FieldValue, held', [ch]);
    PushPush(log', FieldValue, held' + [ch], []);
    assert held' + [ch] + [] == held' + [ch];
    if ch == CR && l' && rest != [] {
      var x := Push(log, Data(FieldValue, held));
      RepeatDiverges(c.(state := HeaderValueAlmostDone), log, held, held' + [ch]);
    }
  }

  /** A value reported once more is a difference that stays. */
  lemma {:induction false} RepeatDiverges(c: Core, log: seq<Event>, held: string, more: string)
    requires c.state.HeaderValueAlmostDone? && more != []
    ensures var x := Push(log, Data(FieldValue, held)); Diverged(c, x, Push(x, Data(FieldValue, more)))
  {
    var x := Push(log, Data(FieldValue, held));
    var y := Push(x, Data(FieldValue, more));
    var n: nat := |x| - 1;
    assert |y| == |x| && |y[n].bytes| > |x[n].bytes|;
    assert n < Settled(NextChannel(c.state), x) && n < Settled(NextChannel(c.state), y) && x[n] != y[n];
  }

  lemma {:induction false} ValueThin(
    c: Core, held: string, log: seq<Event>, held': string, log': seq<Event>, ch: char, rest: string, l': bool)
    requires c.state.HeaderValue? && Doubled([ch] + rest) && (rest == [] ==> l')
    requires Shown(c, held, log) == Shown(c, held', log') && |held'| < |held|
    ensures Follows(ValueOctet(c, held, log, ch, rest == []), ValueOctet(c, held', log', ch, l'), ch, rest, l', false)
  {
    DoubledStep(ch, rest);
    assert rest == [] ==> !Doubled(rest);
    hide Push, WillReport, Doubled, Diverged, Shorter, Extra;
    PushPush(log, FieldValue, held, [ch]);
    PushPush(log', FieldValue, held', [ch]);
    PushPush(log', FieldValue, held' + [ch], []);
    assert held' + [ch] + [] == held' + [ch];
    if ch == CR {
      var x := Push(log, Data(FieldValue, held));
      ShorterPush(x, x, FieldValue, held' + [ch], held + [ch]);
      ShorterDiffers(Push(x, Data(FieldValue, held' + [ch])), Push(x, Data(FieldValue, held + [ch])), FieldValue);
    }
  }

  // One octet, anywhere.

  /** The other states neither look at what is held nor care whether the buffer ends. */
  lemma {:induction false} OtherSame(
    boundary: string, c: Core, held: string, log: seq<Event>, held': string, ch: char, l: bool, l': bool)
    requires !InText(c.state)
    ensures var r, r' := Octet(boundary, c, held, log, ch, l), Octet(boundary, c, held', log, ch, l');
            r == r' && !r.core.state.HeaderField? && !r.core.state.HeaderValue?
            && (r.going ==> !r.core.state.HeaderValueAlmostDone?)
  {
    hide Push;
  }

  lemma EvenStart(c: Core, log: seq<Event>, rest: string)
    ensures Even(c, [], log, [], log, rest)
  {
  }

  /** The octets of header text. */
  lemma {:induction false} TextOctet(boundary: string, c: Core, held: string, log: seq<Event>, ch: char, last: bool)
    ensures var r := Octet(boundary, c, held, log, ch, last);
            match c.state
            case HeaderFieldStart => r == FieldOctet(c.(state := HeaderField), [], log, ch, last)
            case HeaderField => r == FieldOctet(c, held, log, ch, last)
            case HeaderValueStart =>
              r == if ch == ' ' then Go(c, [], log) else ValueOctet(c.(state := HeaderValue), [], log, ch, last)
            case HeaderValue => r == ValueOctet(c, held, log, ch, last)
            case _ => true
  {
    hide FieldOctet, ValueOctet;
  }

  /** A blank before a value. */
  lemma BlankEven(c: Core, log: seq<Event>, ch: char, rest: string, l': bool)
    requires c.state.HeaderValueStart?
    ensures Follows(Go(c, [], log), Go(c, [], log), ch, rest, l', true)
  {
  }

  lemma {:induction false} OctetEven(
    boundary: string, c: Core, held: string, log: seq<Event>, held': string, log': seq<Event>, ch: char, rest: string,
    l': bool)
    requires Even(c, held, log, held', log', [ch] + rest) && (rest == [] ==> l')
    ensures Follows(Octet(boundary, c, held, log, ch, rest == []), Octet(boundary, c, held', log', ch, l'), ch, rest,
                    l', true)
  {
    TextOctet(boundary, c, held, log, ch, rest == []);
    TextOctet(boundary, c, held', log', ch, l');
    hide Octet, FieldOctet, ValueOctet, WillReport, Doubled, Shown;
    if c.state.HeaderField? {
      hide Follows, Even;
      NameEven(c, held, log, held', log', ch, rest, l');
    } else if c.state.HeaderValue? {
      hide Follows, Even;
      ValueEven(c, held, log, held', log', ch, rest, l');
    } else {
      assert log == log';
      if c.state.HeaderFieldStart? {
        hide Follows, Even;
        EvenStart(c.(state := HeaderField), log, [ch] + rest);
        NameEven(c.(state := HeaderField), [], log, [], log, ch, rest, l');
      } else if c.state.HeaderValueStart? {
        hide Follows, Even;
        if ch == ' ' {
          BlankEven(c, log, ch, rest, l');
        } else {
          EvenStart(c.(state := HeaderValue), log, [ch] + rest);
          ValueEven(c.(state := HeaderValue), [], log, [], log, ch, rest, l');
        }
      } else {
        OtherSame(boundary, c, held, log, held', ch, rest == [], l');
      }
    }
  }

  lemma {:induction false} DataOff(
    boundary: string, c: Core, held: string, log: seq<Event>, held': string, log': seq<Event>, ch: char, rest: string,
    l': bool)
    requires (c.state.HeadersAlmostDone? || c.state.PartDataStart?) && Extra(log, log')
    ensures Follows(Octet(boundary, c, held, log, ch, rest == []), Octet(boundary, c, held', log', ch, l'), ch, rest,
                    l', false)
  {
    if c.state.PartDataStart? {
      hide Follows;
      PartBegins(c, log, log', ch);
      hide Octet, DataOctet, Diverged;
      PartBeginsIs(boundary, c, held, log, ch, rest == []);
      PartBeginsIs(boundary, c, held', log', ch, l');
      DivergedFollows(boundary, c, held, log, held', log', ch, rest, l');
    } else {
      ShorterDiffers(log, log', Field);
      hide Extra, Diverged;
    }
  }

  lemma PartBeginsIs(boundary: string, c: Core, held: string, log: seq<Event>, ch: char, last: bool)
    requires c.state.PartDataStart?
    ensures Octet(boundary, c, held, log, ch, last) == DataOctet(c, Push(log, HeadersComplete), ch)
  {
  }

  lemma {:induction false} DivergedFollows(
    boundary: string, c: Core, held: string, log: seq<Event>, held': string, log': seq<Event>, ch: char, rest: string,
    l': bool)
    requires var r, r' := Octet(boundary, c, held, log, ch, rest == []), Octet(boundary, c, held', log', ch, l');
             if r.going then Diverged(r.core, r.log, r'.log) else r.log != r'.log
    ensures Follows(Octet(boundary, c, held, log, ch, rest == []), Octet(boundary, c, held', log', ch, l'), ch, rest,
                    l', false)
  {
    hide Octet, Diverged;
  }

  /** Where part data begins, a name too many is a difference that stays. */
  lemma {:induction false} PartBegins(c: Core, log: seq<Event>, log': seq<Event>, ch: char)
    requires c.state.PartDataStart? && Extra(log, log')
    ensures var r, r' := DataOctet(c, Push(log, HeadersComplete), ch), DataOctet(c, Push(log', HeadersComplete), ch);
            r.going && Diverged(r.core, r.log, r'.log)
  {
    var r, r' := DataOctet(c, Push(log, HeadersComplete), ch), DataOctet(c, Push(log', HeadersComplete), ch);
    var d := if ch == CR then Data(PartData, []) else Data(PartData, [ch]);
    assert r.log == log + [HeadersComplete] + [d] && r'.log == log' + [HeadersComplete] + [d];
    var i: nat := if |log'| == |log| + 1 then |log| else |log| - 1;
    var next := NextChannel(r.core.state);
    assert i < Settled(next, r.log) && i < Settled(next, r'.log) && r.log[i] != r'.log[i];
  }

  lemma {:induction false} OctetOff(
    boundary: string, c: Core, held: string, log: seq<Event>, held': string, log': seq<Event>, ch: char, rest: string,
    l': bool)
    requires Off(c, held, log, held', log', [ch] + rest) && (rest == [] ==> l')
    ensures Follows(Octet(boundary, c, held, log, ch, rest == []), Octet(boundary, c, held', log', ch, l'), ch, rest,
                    l', false)
  {
    TextOctet(boundary, c, held, log, ch, rest == []);
    TextOctet(boundary, c, held', log', ch, l');
    hide Octet, FieldOctet, ValueOctet, WillReport, Doubled;
    if Diverged(c, log, log') {
      hide Octet, Diverged, Off, Follows;
      StaysDiverged(boundary, c, held, log, held', log', ch, rest == [], l');
      DivergedFollows(boundary, c, held, log, held', log', ch, rest, l');
    } else if c.state.HeaderField? {
      hide FieldOctet, Follows, Diverged, Shown, Extra, Shorter;
      if WillReport([ch] + rest) {
        NameShort(c, held, log, held', log', ch, rest, l');
      } else {
        NameExtra(c, held, log, held', log', ch, rest, l');
      }
    } else if c.state.HeaderValue? {
      hide ValueOctet, Follows, Diverged, Shown, Extra, Shorter;
      ValueThin(c, held, log, held', log', ch, rest, l');
    } else {
      hide Octet, Follows, Diverged, Extra, Shorter;
      DataOff(boundary, c, held, log, held', log', ch, rest, l');
    }
  }

  /** At the end of a buffer nothing is held. */
  lemma {:induction false} NothingHeld(boundary: string, c: Core, held: string, log: seq<Event>, ch: char)
    ensures Octet(boundary, c, held, log, ch, true).held == []
  {
    hide Push, IsLetter;
  }

  // One buffer.

  /** What the octets of s leave of two runs, with `more` to come in the first before its buffer ends. */
  ghost predicate Ran(r: Result, r': Result, s: string, more: string, even: bool)
    requires s != []
  {
    && r.core == r'.core && r.rest == r'.rest
    && if r.rest != [] then r.log == r'.log <==> even
       else r'.held == []
            && if even && !BadCut(r.core.state, s[|s| - 1], more) then Even(r.core, r.held, r.log, [], r'.log, more)
               else Off(r.core, r.held, r.log, [], r'.log, more)
  }

  lemma {:induction false} BufferRuns(
    boundary: string, c: Core, held: string, log: seq<Event>, held': string, log': seq<Event>, s: string, more: string,
    even: bool)
    requires s != []
    requires if even then Even(c, held, log, held', log', s + more) else Off(c, held, log, held', log', s + more)
    ensures Ran(Scan(boundary, c, held, log, s, more != []), Scan(boundary, c, held', log', s, false), s, more, even)
    decreases |s|
  {
    hide Octet, Even, Off, BadCut;
    var ch, rest := s[0], s[1..] + more;
    assert s + more == [ch] + rest;
    if even {
      OctetEven(boundary, c, held, log, held', log', ch, rest, |s| == 1);
    } else {
      OctetOff(boundary, c, held, log, held', log', ch, rest, |s| == 1);
    }
    OctetCore(boundary, c, held, log, rest == [], held', log', |s| == 1, ch);
    var r, r' := Octet(boundary, c, held, log, ch, rest == []), Octet(boundary, c, held', log', ch, |s| == 1);
    assert (more == [] && |s| == 1) == (rest == []);
    if |s| == 1 {
      NothingHeld(boundary, c, held', log', ch);
      assert s[1..] == [] && rest == more;
    } else if r.going {
      BufferRuns(boundary, r.core, r.held, r.log, r'.held, r'.log, s[1..], more, even);
    }
  }

  // Any number of buffers.

  /** No buffer ends where it may not. */
  predicate Clean(boundary: string, c: Core, pieces: seq<string>)
    decreases |pieces|
  {
    pieces == []
    || var s, c' := pieces[0], CoreAfter(boundary, c, pieces[0]);
       Taken(boundary, c, s) ==>
         (s != [] ==> !BadCut(c'.state, s[|s| - 1], Concat(pieces[1..]))) && Clean(boundary, c', pieces[1..])
  }

  /** The rest of a buffer after s. */
  lemma {:induction false} ScanOn(boundary: string, c: Core, held: string, log: seq<Event>, s: string, more: string)
    ensures var r := Scan(boundary, c, held, log, s, more != []);
            Scan(boundary, c, held, log, s + more, false) ==
            if r.rest == [] then Scan(boundary, r.core, r.held, r.log, more, false) else r.(rest := r.rest + more)
  {
    hide Octet;
    var r := Scan(boundary, c, held, log, s, more != []);
    if more == [] {
      assert s + more == s && r.rest + more == r.rest;
    } else {
      ScanConcat(boundary, c, held, log, s, more, false);
    }
  }

  lemma {:induction false} PiecesRun(
    boundary: string, c: Core, held: string, log: seq<Event>, log': seq<Event>, pieces: seq<string>, even: bool)
    requires var s := Concat(pieces);
             if even then Even(c, held, log, [], log', s) else Off(c, held, log, [], log', s)
    ensures Handed(boundary, c, log', pieces).log == Scan(boundary, c, held, log, Concat(pieces), false).log
            <==> even && Clean(boundary, c, pieces)
    decreases |pieces|
  {
    hide Scan, Even, Off, BadCut, CoreAfter, Taken, Handed;
    HandedStep(boundary, c, log', pieces);
    if pieces == [] {
      NothingLeft(boundary, c, held, log, log');
    } else {
      var s, more := pieces[0], Concat(pieces[1..]);
      ScanOn(boundary, c, held, log, s, more);
      var r, r' := Scan(boundary, c, held, log, s, more != []), Scan(boundary, c, [], log', s, false);
      CoreOf(boundary, c, held, log, s, more != []);
      if s == [] {
        ScanEmpty(boundary, c, held, log, more != []);
        ScanNothing(boundary, c, log');
        assert s + more == more;
        PiecesRun(boundary, c, held, log, log', pieces[1..], even);
      } else {
        BufferRuns(boundary, c, held, log, [], log', s, more, even);
        if r.rest == [] {
          PiecesRun(boundary, r.core, r.held, r.log, r'.log, pieces[1..],
                    even && !BadCut(r.core.state, s[|s| - 1], more));
        }
      }
    }
  }

  lemma ScanEmpty(boundary: string, c: Core, held: string, log: seq<Event>, open: bool)
    ensures Scan(boundary, c, held, log, [], open) == Result(c, held, log, [])
  {
  }

  lemma {:induction false} NothingLeft(boundary: string, c: Core, held: string, log: seq<Event>, log': seq<Event>)
    ensures Scan(boundary, c, held, log, [], false).log == log
    ensures Even(c, held, log, [], log', []) ==> log == log'
    ensures Off(c, held, log, [], log', []) ==> log != log'
  {
    ShorterDiffers(log, log', Field);
    SettledBound(NextChannel(c.state), log);
    SettledBound(NextChannel(c.state), log');
    hide Push, Extra, Shorter, Settled;
  }

  /** For every input from every state: handed over in pieces it is reported as it is in one buffer if and only
      if no piece ends where it may not. */
  lemma {:induction false} CutsExact(boundary: string, c: Core, log: seq<Event>, pieces: seq<string>)
    ensures Handed(boundary, c, log, pieces).log == Scan(boundary, c, [], log, Concat(pieces), false).log
            <==> Clean(boundary, c, pieces)
  {
    hide Scan, Clean, Handed, Even;
    EvenStart(c, log, Concat(pieces));
    PiecesRun(boundary, c, [], log, log, pieces, true);
  }

  // Input in which every name reaches its colon.

  /** Where such input may not be cut: after a '-' inside a name and after the CR that ends a value. */
  predicate PlainlyBad(s: State, ch: char) { s.HeaderValueAlmostDone? || (s.HeaderField? && ch == '-') }

  predicate PlainlyClean(boundary: string, c: Core, pieces: seq<string>)
    decreases |pieces|
  {
    pieces == []
    || var s, c' := pieces[0], CoreAfter(boundary, c, pieces[0]);
       (s != [] ==> !PlainlyBad(c'.state, s[|s| - 1])) && PlainlyClean(boundary, c', pieces[1..])
  }

  /** Not inside header text. */
  predicate Outside(s: State) { !s.HeaderField? && !s.HeaderValue? && !s.HeaderValueAlmostDone? }

  /** One octet of input of which all is taken. */
  lemma {:induction false} TidyHead(boundary: string, c: Core, ch: char, s: string)
    requires Tidy(boundary, c, [ch] + s)
    ensures var r := Octet(boundary, c, [], [], ch, false);
            r.going && Tidy(boundary, r.core, s)
            && CoreAfter(boundary, c, [ch] + s) == CoreAfter(boundary, r.core, s)
            && (c.state.HeaderField? ==> ch != CR)
  {
    hide Octet, Scan;
    TidySuffix(boundary, c, [ch], s);
    CoreThen(boundary, c, [ch], s);
    OneOctet(boundary, c, [], [], ch, true);
    TakesNothing(boundary, c);
    assert ([ch] + s)[..0] == [] && ([ch] + s)[0] == ch;
  }

  lemma {:induction false} NameReported(boundary: string, c: Core, s: string)
    requires c.state.HeaderField? && Tidy(boundary, c, s) && Outside(CoreAfter(boundary, c, s).state)
    ensures WillReport(s)
    decreases |s|
  {
    TakesNothing(boundary, c);
    hide Scan, Tidy, CoreAfter, Taken;
    if s != [] {
      var ch, rest := s[0], s[1..];
      assert s == [ch] + rest;
      TidyHead(boundary, c, ch, rest);
      if ch != ':' {
        NameReported(boundary, Octet(boundary, c, [], [], ch, false).core, rest);
      }
    }
  }

  lemma {:induction false} ValueEndsInside(boundary: string, c: Core, s: string)
    requires c.state.HeaderValue? && Tidy(boundary, c, s) && Outside(CoreAfter(boundary, c, s).state)
    ensures !Doubled(s)
    decreases |s|
  {
    hide Scan, Tidy, CoreAfter, Taken;
    if s != [] {
      var ch, rest := s[0], s[1..];
      assert s == [ch] + rest;
      TidyHead(boundary, c, ch, rest);
      var c' := Octet(boundary, c, [], [], ch, false).core;
      if ch == CR {
        TakesNothing(boundary, c');
      } else {
        ValueEndsInside(boundary, c', rest);
      }
    }
  }

  /** There the exact condition is the plain one. */
  lemma {:induction false} PlainCuts(boundary: string, c: Core, pieces: seq<string>)
    requires Tidy(boundary, c, Concat(pieces)) && Outside(CoreAfter(boundary, c, Concat(pieces)).state)
    ensures Clean(boundary, c, pieces) <==> PlainlyClean(boundary, c, pieces)
    decreases |pieces|
  {
    hide Scan, Tidy, CoreAfter, Taken, WillReport, Doubled;
    if pieces != [] {
      var s, more := pieces[0], Concat(pieces[1..]);
      TidySuffix(boundary, c, s, more);
      CoreThen(boundary, c, s, more);
      TidyTaken(boundary, c, s);
      var c' := CoreAfter(boundary, c, s);
      TakesNothing(boundary, c');
      PlainCuts(boundary, c', pieces[1..]);
      if c'.state.HeaderField? {
        NameReported(boundary, c', more);
      } else if c'.state.HeaderValue? {
        ValueEndsInside(boundary, c', more);
      }
    }
  }

  lemma {:induction false} TidyTaken(boundary: string, c: Core, s: string)
    requires Tidy(boundary, c, s)
    ensures Taken(boundary, c, s)
  {
    hide Taken, CoreAfter;
  }
}
