/** The streaming search for the delimiter: when it finds the first one. */
module MultipartSearch {
  import opened MultipartSpec

  /** s ends with d. */
  predicate EndsWith(s: string, d: string) { |d| <= |s| && s[|s| - |d|..] == d }

  /** No delimiter ends before the end of s. */
  predicate NoneBefore(s: string, d: string) { forall k :: 0 <= k < |s| ==> !EndsWith(s[..k], d) }

  predicate InSearch(boundary: string, c: Core) {
    c.state.InPartData? || c.state.PartDataAlmostBoundary? || (c.state.PartDataBoundary? && c.index < |boundary|)
  }

  /** How many octets of the delimiter have been seen after one more octet. */
  function NextMatched(d: string, w: nat, ch: char): nat
    requires w < |d|
  {
    if ch == d[w] then w + 1 else if ch == CR then 1 else 0
  }

  lemma {:induction false} PushOn(y: seq<Event>, k: Channel, a: string, b: string)
    ensures Push(y + [Data(k, a)], Data(k, b)) == y + [Data(k, a + b)]
  {
    var x := y + [Data(k, a)];
    assert x[..|x| - 1] == y;
  }

  /** One octet while part data is read: what is known not to belong to a delimiter is delivered. */
  lemma {:induction false} SearchOctet(
    boundary: string, c: Core, held: string, y: seq<Event>, data: string, ch: char, last: bool)
    requires boundary != [] && InSearch(boundary, c)
    ensures var d, w := Delimiter(boundary), Matched(c);
            var r := Octet(boundary, c, held, y + [Data(PartData, data)], ch, last);
            && w < |d| && r.going && r.held == []
            && if ch == d[w] && w + 1 == |d| then r.core.state.PartDataAlmostEnd?
               && r.log == y + [Data(PartData, data)] + [PartDataEnded]
               else InSearch(boundary, r.core) && Matched(r.core) == NextMatched(d, w, ch)
                    && r.log == y
                       + [Data(PartData, if ch == d[w] then data else if ch == CR then data + d[..w]
                         else data + d[..w] + [ch])]
  {
    hide Push;
    var w := Matched(c);
    var d := Delimiter(boundary);
    var log := y + [Data(PartData, data)];
    assert d == [CR, LF] + boundary;
    assert d[..0] == [] && data + [] == data && d[..1] == [CR];
    PushOn(y, PartData, data, []);
    PushOn(y, PartData, data, [ch]);
    PushOn(y, PartData, data, d[..w]);
    PushOn(y, PartData, data + d[..w], []);
    PushOn(y, PartData, data + d[..w], [ch]);
    assert data + d[..w] + [] == data + d[..w];
    if c.state.PartDataBoundary? {
      assert d[..w] == [CR, LF] + boundary[..c.index];
      assert Push(log, PartDataEnded) == log + [PartDataEnded] by { Ends(log); }
    }
  }

  lemma Ends(log: seq<Event>)
    ensures Push(log, PartDataEnded) == log + [PartDataEnded]
  {
  }

  /** Every CR in a delimiter but the first begins a repetition of the delimiter. */
  predicate Rigid(d: string) { forall j :: 1 <= j < |d| && d[j] == CR ==> d[j..] <= d }

  predicate IsDelimiter(d: string) { 3 <= |d| && d[0] == CR && d[1] == LF }

  /** The longest end of s that begins a delimiter is w octets long. */
  predicate Tracks(d: string, s: string, w: nat) {
    && w < |d| && w <= |s| && s[|s| - w..] == d[..w]
    && (forall m :: w < m < |d| && m <= |s| ==> s[|s| - m..] != d[..m])
  }

  lemma {:induction false} SuffixSnoc(s: string, ch: char, d: string, m: nat)
    requires 1 <= m <= |d| && m <= |s| + 1
    ensures (s + [ch])[|s| + 1 - m..] == d[..m] <==> s[|s| + 1 - m..] == d[..m - 1] && ch == d[m - 1]
  {
    var t := (s + [ch])[|s| + 1 - m..];
    assert t == s[|s| + 1 - m..] + [ch];
    assert d[..m] == d[..m - 1] + [d[m - 1]];
    assert t[..m - 1] == s[|s| + 1 - m..];
    assert d[..m][..m - 1] == d[..m - 1];
    assert t[m - 1] == ch && d[..m][m - 1] == d[m - 1];
  }

  /** What a delimiter may look like after one more octet: the octet that was expected, or a new CR. */
  lemma {:induction false} OnlyExtends(d: string, s: string, w: nat, ch: char, m: nat)
    requires IsDelimiter(d) && Rigid(d) && Tracks(d, s, w)
    requires 1 <= m <= |d| && m <= |s| + 1 && (s + [ch])[|s| + 1 - m..] == d[..m]
    ensures m <= w + 1 && (ch == d[w] || (m == 1 && ch == CR))
  {
    SuffixSnoc(s, ch, d, m);
    if 1 < m <= w {
      var j := w + 1 - m;
      assert s[|s| - w..][j..] == s[|s| + 1 - m..];
      assert d[..w][j..] == d[..m - 1];
      assert d[j] == d[..w][j..][0] == CR;
      assert d[j..][m - 1] == d[w];
    }
  }

  lemma {:induction false} SuffixNext(s: string, ch: char, d: string, w: nat)
    requires w < |d| && w <= |s| && s[|s| - w..] == d[..w]
    ensures (s + [ch])[|s| - w..] == d[..w + 1] <==> ch == d[w]
  {
    SuffixSnoc(s, ch, d, w + 1);
  }

  lemma {:induction false} EndsNext(d: string, s: string, w: nat, ch: char)
    requires IsDelimiter(d) && Rigid(d) && Tracks(d, s, w)
    ensures EndsWith(s + [ch], d) <==> ch == d[w] && w + 1 == |d|
  {
    hide Rigid;
    assert d[..|d|] == d;
    if EndsWith(s + [ch], d) {
      OnlyExtends(d, s, w, ch, |d|);
    }
    SuffixNext(s, ch, d, w);
  }

  lemma {:induction false} TracksMatch(d: string, s: string, w: nat, ch: char)
    requires IsDelimiter(d) && Rigid(d) && Tracks(d, s, w) && ch == d[w] && w + 1 < |d|
    ensures Tracks(d, s + [ch], w + 1)
  {
    hide Rigid;
    SuffixNext(s, ch, d, w);
    forall m | w + 1 < m < |d| && m <= |s| + 1
      ensures (s + [ch])[|s| + 1 - m..] != d[..m]
    {
      if (s + [ch])[|s| + 1 - m..] == d[..m] {
        OnlyExtends(d, s, w, ch, m);
      }
    }
  }

  lemma {:induction false} TracksMiss(d: string, s: string, w: nat, ch: char)
    requires IsDelimiter(d) && Rigid(d) && Tracks(d, s, w) && ch != d[w]
    ensures Tracks(d, s + [ch], if ch == CR then 1 else 0)
  {
    hide Rigid;
    var t := s + [ch];
    assert d[..1] == [CR] && d[..0] == [] && t[|t| - 1..] == [ch] && t[|t|..] == [];
    forall m | (if ch == CR then 1 else 0) < m < |d| && m <= |t|
      ensures t[|t| - m..] != d[..m]
    {
      if t[|t| - m..] == d[..m] {
        OnlyExtends(d, s, w, ch, m);
      }
    }
  }

  lemma {:induction false} TrackNext(d: string, s: string, w: nat, ch: char)
    requires IsDelimiter(d) && Rigid(d) && Tracks(d, s, w)
    ensures EndsWith(s + [ch], d) <==> ch == d[w] && w + 1 == |d|
    ensures !EndsWith(s + [ch], d) ==> Tracks(d, s + [ch], NextMatched(d, w, ch))
  {
    TracksBound(d, s, w);
    hide Rigid, Tracks, EndsWith, IsDelimiter;
    EndsNext(d, s, w, ch);
    if ch != d[w] {
      TracksMiss(d, s, w, ch);
    } else if w + 1 < |d| {
      TracksMatch(d, s, w, ch);
    }
  }

  lemma {:induction false} ScanSnoc(
    boundary: string, c: Core, held: string, log: seq<Event>, s: string, ch: char, open: bool)
    ensures var r := Scan(boundary, c, held, log, s, true);
            r.rest == [] ==>
              Scan(boundary, c, held, log, s + [ch], open) ==
              var r' := Octet(boundary, r.core, r.held, r.log, ch, !open);
              Result(r'.core, r'.held, r'.log, if r'.going then [] else [ch])
  {
    hide Octet;
    ScanConcat(boundary, c, held, log, s, [ch], open);
    var r := Scan(boundary, c, held, log, s, true);
    assert [ch][1..] == [];
  }

  /** What a part's data has come to after s: everything but the beginning of a delimiter is delivered;
      when a delimiter has ended, everything before it is, and so is the end of the part. */
  predicate Searched(boundary: string, log: seq<Event>, s: string, r: Result) {
    var d := Delimiter(boundary);
    && r.rest == [] && r.held == []
    && if EndsWith(s, d) then
         r.core.state.PartDataAlmostEnd?
         && r.log == log + [HeadersComplete] + [Data(PartData, s[..|s| - |d|])] + [PartDataEnded]
       else
         InSearch(boundary, r.core) && Tracks(d, s, Matched(r.core))
         && r.log == log + [HeadersComplete] + [Data(PartData, s[..|s| - Matched(r.core)])]
  }

  lemma {:induction false} FirstSearched(boundary: string, c: Core, log: seq<Event>, ch: char, open: bool)
    requires boundary != [] && c.state.PartDataStart?
    ensures Searched(boundary, log, [ch], Scan(boundary, c, [], log, [ch], open))
  {
    var d := Delimiter(boundary);
    var r := Octet(boundary, c, [], log, ch, !open);
    assert [ch][1..] == [];
    assert Scan(boundary, c, [], log, [ch], open) == Result(r.core, r.held, r.log, []);
    var y := log + [HeadersComplete];
    assert Push(log, HeadersComplete) == y;
    assert d[..1] == [CR] && d[..0] == [] && [ch][1..] == [] && [ch][0..] == [ch] && [ch][..0] == []
      && [ch][..1] == [ch];
  }

  /** The search finds the first delimiter, however far away it is, if its delimiter is rigid; a
      boundary without CR makes it so. */
  lemma {:induction false} SearchFinds(boundary: string, c: Core, log: seq<Event>, s: string, open: bool)
    requires boundary != [] && Rigid(Delimiter(boundary)) && c.state.PartDataStart?
    requires s != [] && NoneBefore(s, Delimiter(boundary))
    ensures Searched(boundary, log, s, Scan(boundary, c, [], log, s, open))
    decreases |s|
  {
    hide Scan, Octet, EndsWith, Tracks, Rigid, InSearch;
    var d := Delimiter(boundary);
    var n := |s| - 1;
    var u, ch := s[..n], s[n];
    assert s == u + [ch];
    if n == 0 {
      assert s == [ch];
      FirstSearched(boundary, c, log, ch, open);
    } else {
      assert !EndsWith(s[..n], d);
      forall k | 0 <= k < n ensures !EndsWith(u[..k], d) { assert u[..k] == s[..k]; }
      SearchFinds(boundary, c, log, u, true);
      ScanSnoc(boundary, c, [], log, u, ch, open);
      SearchedStep(boundary, log, u, Scan(boundary, c, [], log, u, true), ch, !open);
    }
  }

  lemma {:induction false} SearchedStep(boundary: string, log: seq<Event>, u: string, r: Result, ch: char, last: bool)
    requires boundary != [] && Rigid(Delimiter(boundary)) && Searched(boundary, log, u, r)
    requires !EndsWith(u, Delimiter(boundary))
    ensures var r' := Octet(boundary, r.core, r.held, r.log, ch, last);
            r'.going && Searched(boundary, log, u + [ch], Result(r'.core, r'.held, r'.log, []))
  {
    hide Octet, EndsWith, Tracks, Rigid, InSearch, NextMatched;
    var d, w, n := Delimiter(boundary), Matched(r.core), |u|;
    TracksBound(d, u, w);
    DelimiterShape(boundary);
    TrackNext(d, u, w, ch);
    SearchOctet(boundary, r.core, [], log + [HeadersComplete], u[..n - w], ch, last);
    SearchedNext(d, u, w, ch);
    NextMatchedIs(d, w, ch);
    hide Delimiter, Matched;
  }

  lemma NextMatchedIs(d: string, w: nat, ch: char)
    requires w < |d|
    ensures NextMatched(d, w, ch) == if ch == d[w] then w + 1 else if ch == CR then 1 else 0
  {
  }

  lemma TracksBound(d: string, s: string, w: nat)
    requires Tracks(d, s, w)
    ensures w < |d| && w <= |s|
  {
  }

  lemma {:induction false} SearchedNext(d: string, u: string, w: nat, ch: char)
    requires Tracks(d, u, w)
    ensures var n := |u|;
            var s := u + [ch];
            && (ch == d[w] ==> s[..n - w] == u[..n - w])
            && (ch != d[w] ==> u[..n - w] + d[..w] == u == s[..n] && u[..n - w] + d[..w] + [ch] == s == s[..n + 1])
  {
    assert u == u[..|u| - w] + u[|u| - w..];
  }

  lemma {:induction false} DelimiterShape(boundary: string)
    requires boundary != []
    ensures IsDelimiter(Delimiter(boundary))
    ensures CR !in boundary ==> Rigid(Delimiter(boundary))
  {
    var d := Delimiter(boundary);
    assert forall j :: 2 <= j < |d| ==> d[j] == boundary[j - 2] && d[j] in boundary;
  }

  // A delimiter that is not rigid is missed.

  /** d repeats itself from j on for m octets, and no further. */
  predicate Breaks(d: string, j: nat, m: nat) {
    1 <= j && 1 <= m && j + m < |d| && d[j..j + m] == d[..m] && d[j + m] != d[m]
  }

  lemma {:induction false} FirstBreak(d: string, j: nat, k: nat) returns (m: nat)
    requires 1 <= j && 1 <= k && j + k <= |d| && d[j..j + k] == d[..k] && !(d[j..] <= d)
    ensures Breaks(d, j, m)
    decreases |d| - k
  {
    assert d[j..][..k] == d[..k];
    if d[j + k] != d[k] {
      m := k;
    } else {
      assert d[j..j + (k + 1)] == d[j..j + k] + [d[j + k]] && d[..k + 1] == d[..k] + [d[k]];
      m := FirstBreak(d, j, k + 1);
    }
  }

  /** The first place where a CR does not begin a repetition. */
  lemma {:induction false} LeastBreak(d: string, i: nat) returns (j: nat, m: nat)
    requires IsDelimiter(d) && 1 <= i < |d| && d[i] == CR && !(d[i..] <= d)
    ensures Breaks(d, j, m) && forall k :: 1 <= k < j && d[k] == CR ==> d[k..] <= d
    decreases i
  {
    if k :| 1 <= k < i && d[k] == CR && !(d[k..] <= d) {
      j, m := LeastBreak(d, k);
    } else {
      j := i;
      assert d[i..i + 1] == [CR] == d[..1];
      m := FirstBreak(d, i, 1);
    }
  }

  /** A text in which the search goes past the delimiter. */
  function Misleading(d: string, j: nat, m: nat): string
    requires Breaks(d, j, m)
  {
    d[..j + m] + d[m..]
  }

  lemma {:induction false} MisleadingEnds(d: string, j: nat, m: nat)
    requires IsDelimiter(d) && Breaks(d, j, m)
    ensures var t := Misleading(d, j, m);
            EndsWith(t, d) && |t| == j + |d| && t[j + m] == d[m] && t[..j + m] == d[..j + m]
  {
    var t := Misleading(d, j, m);
    assert t[j..] == d[j..j + m] + d[m..];
    assert d == d[..m] + d[m..];
  }

  /** No delimiter stands before the one at j. */
  lemma {:induction false} Mismatch(d: string, j: nat, m: nat, i: nat) returns (x: nat)
    requires IsDelimiter(d) && Breaks(d, j, m) && i < j
    requires forall k :: 1 <= k < j && d[k] == CR ==> d[k..] <= d
    ensures x < |d| && Misleading(d, j, m)[i + x] != d[x]
  {
    var t := Misleading(d, j, m);
    MisleadingEnds(d, j, m);
    x := j + m - i;
    if i > 0 {
      assert t[..j + m][i] == d[..j + m][i];
      if d[i] == CR {
        assert d[i..][x] == d[j + m];
      } else {
        x := 0;
      }
    }
  }

  lemma {:induction false} MisleadingFirst(d: string, j: nat, m: nat, k: nat)
    requires IsDelimiter(d) && Breaks(d, j, m) && k < |Misleading(d, j, m)|
    requires forall i :: 1 <= i < j && d[i] == CR ==> d[i..] <= d
    ensures !EndsWith(Misleading(d, j, m)[..k], d)
  {
    hide Misleading;
    var t := Misleading(d, j, m);
    MisleadingEnds(d, j, m);
    if k >= |d| {
      var x := Mismatch(d, j, m, k - |d|);
      assert t[..k][k - |d|..][x] == t[k - |d| + x];
    }
  }

  lemma {:induction false} SlowOctet(boundary: string, c: Core, held: string, log: seq<Event>, ch: char, last: bool)
    requires boundary != [] && InSearch(boundary, c)
    ensures var d, r := Delimiter(boundary), Octet(boundary, c, held, log, ch, last);
            && Matched(c) < |d|
            && (Matched(c) + 1 < |d| || ch != d[Matched(c)] ==>
                  r.going && InSearch(boundary, r.core) && Matched(r.core) == NextMatched(d, Matched(c), ch))
  {
    hide Push;
    assert Delimiter(boundary) == [CR, LF] + boundary;
  }

  /** A delimiter takes as many octets as it is long. */
  lemma {:induction false} Slow(boundary: string, c: Core, held: string, log: seq<Event>, s: string, open: bool)
    requires boundary != [] && InSearch(boundary, c) && Matched(c) + |s| < |Delimiter(boundary)|
    ensures InSearch(boundary, Scan(boundary, c, held, log, s, open).core)
    decreases |s|
  {
    hide Octet, InSearch, Matched;
    if s != [] {
      SlowOctet(boundary, c, held, log, s[0], !open && |s| == 1);
      var r := Octet(boundary, c, held, log, s[0], !open && |s| == 1);
      Slow(boundary, r.core, r.held, r.log, s[1..], open);
    }
  }

  lemma {:induction false} Follows(boundary: string, c: Core, log: seq<Event>, w: nat)
    requires boundary != [] && c.state.PartDataStart? && 1 <= w < |Delimiter(boundary)|
    ensures var r := Scan(boundary, c, [], log, Delimiter(boundary)[..w], true);
            r.rest == [] && InSearch(boundary, r.core) && Matched(r.core) == w
    decreases w
  {
    hide Octet, InSearch, Matched, Tracks, EndsWith;
    var d := Delimiter(boundary);
    if w == 1 {
      assert d[..1] == [CR];
      FirstSearched(boundary, c, log, CR, true);
      FirstCr(boundary, log, Scan(boundary, c, [], log, [CR], true));
    } else {
      Follows(boundary, c, log, w - 1);
      assert d[..w] == d[..w - 1] + [d[w - 1]];
      ScanSnoc(boundary, c, [], log, d[..w - 1], d[w - 1], true);
      var r := Scan(boundary, c, [], log, d[..w - 1], true);
      SlowOctet(boundary, r.core, r.held, r.log, d[w - 1], false);
    }
  }

  lemma {:induction false} FirstCr(boundary: string, log: seq<Event>, r: Result)
    requires boundary != [] && Searched(boundary, log, [CR], r)
    ensures r.rest == [] && InSearch(boundary, r.core) && Matched(r.core) == 1
  {
    var d := Delimiter(boundary);
    assert d[..1] == [CR] && [CR][1 - 1..] == [CR];
  }

  lemma {:induction false} Missed(boundary: string, c: Core, log: seq<Event>, j: nat, m: nat)
    requires boundary != [] && c.state.PartDataStart? && Breaks(Delimiter(boundary), j, m)
    ensures var t := Misleading(Delimiter(boundary), j, m);
            !Scan(boundary, c, [], log, t, false).core.state.PartDataAlmostEnd?
  {
    hide Octet, Scan, Matched;
    var d := Delimiter(boundary);
    var u, v := d[..j + m], d[m + 1..];
    assert d[m..] == [d[m]] + v;
    assert Misleading(d, j, m) == u + ([d[m]] + v);
    ScanConcat(boundary, c, [], log, u, [d[m]] + v, false);
    Follows(boundary, c, log, j + m);
    var r := Scan(boundary, c, [], log, u, true);
    ScanHere(boundary, r.core, r.held, r.log, [d[m]] + v, 0, false);
    assert ([d[m]] + v)[0..] == [d[m]] + v && ([d[m]] + v)[1..] == v;
    var last := |v| == 0;
    SlowOctet(boundary, r.core, r.held, r.log, d[m], last);
    var r' := Octet(boundary, r.core, r.held, r.log, d[m], last);
    Slow(boundary, r'.core, r'.held, r'.log, v, false);
  }

  /** Exactly when the search works: for every input in which a delimiter ends only at the end, the
      parser recognises it there and has delivered what is before it, if and only if every CR in the
      delimiter begins a repetition of the delimiter.  A boundary without CR is enough for that. */
  lemma {:induction false} SearchExact(boundary: string)
    requires boundary != []
    ensures var d := Delimiter(boundary);
            Rigid(d) <==>
            forall s :: EndsWith(s, d) && NoneBefore(s, d) ==>
              Searched(boundary, [], s, Scan(boundary, Core(PartDataStart, 0), [], [], s, false))
    ensures CR !in boundary ==> Rigid(Delimiter(boundary))
  {
    hide Scan, NoneBefore, Searched, EndsWith;
    var d, c := Delimiter(boundary), Core(PartDataStart, 0);
    DelimiterShape(boundary);
    if Rigid(d) {
      forall s | EndsWith(s, d) && NoneBefore(s, d)
        ensures Searched(boundary, [], s, Scan(boundary, c, [], [], s, false))
      {
        EndsNonempty(s, d);
        SearchFinds(boundary, c, [], s, false);
      }
    } else {
      var i :| 1 <= i < |d| && d[i] == CR && !(d[i..] <= d);
      var j, m := LeastBreak(d, i);
      var t := Misleading(d, j, m);
      MisleadingEnds(d, j, m);
      forall k | 0 <= k < |t| ensures !EndsWith(t[..k], d) { MisleadingFirst(d, j, m, k); }
      NoneBeforeMeans(t, d);
      Missed(boundary, c, [], j, m);
      SearchedMeans(boundary, t, Scan(boundary, c, [], [], t, false));
    }
  }

  lemma EndsNonempty(s: string, d: string)
    requires EndsWith(s, d) && d != []
    ensures s != []
  {
  }

  lemma NoneBeforeMeans(s: string, d: string)
    requires forall k :: 0 <= k < |s| ==> !EndsWith(s[..k], d)
    ensures NoneBefore(s, d)
  {
  }

  lemma SearchedMeans(boundary: string, s: string, r: Result)
    requires EndsWith(s, Delimiter(boundary)) && !r.core.state.PartDataAlmostEnd?
    ensures !Searched(boundary, [], s, r)
  {
  }
}
