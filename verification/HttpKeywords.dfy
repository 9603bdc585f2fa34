/** The header name and value automata: which headers they recognise. */
module HttpKeywords {
  import opened HttpTypes
  import opened HttpChars

  function Lowered(s: string): (w: string)
    ensures |w| == |s|
  {
    seq(|s|, i requires 0 <= i < |s| => Lower(s[i]))
  }

  predicate IsToken(s: string) { forall i :: 0 <= i < |s| ==> Token(s[i]) != '\0' }

  /** header_state and index after a field name. */
  function AfterName(name: string): (HState, nat)
    requires name != []
  {
    var n := |name| - 1;
    if n == 0 then (FirstField(Token(name[0])), 0)
    else
      var (h, i) := AfterName(name[..n]);
      NextField(h, i, Token(name[n]), name[n])
  }

  /** What header_state stands for: the keyword that w is, or the keyword that w begins. */
  function Meaning(w: string): HState {
    if w == CONNECTION || w == PROXY_CONNECTION then Connection
    else if w == CONTENT_LENGTH then ContentLength
    else if w == TRANSFER_ENCODING then TransferEncoding
    else if w == UPGRADE then Upgrade
    else if w == "c" then HC
    else if w == "co" then HCO
    else if w == "con" then HCON
    else if w <= CONNECTION then MatchingConnection
    else if w <= PROXY_CONNECTION then MatchingProxyConnection
    else if w <= CONTENT_LENGTH then MatchingContentLength
    else if w <= TRANSFER_ENCODING then MatchingTransferEncoding
    else if w <= UPGRADE then MatchingUpgrade
    else General
  }

  lemma {:induction false} PrefixSnoc(w: string, c: char, k: string)
    ensures w + [c] <= k <==> w <= k && |w| < |k| && k[|w|] == c
  {
    if w <= k && |w| < |k| && k[|w|] == c {
      assert k[..|w| + 1] == w + [c];
    }
    if w + [c] <= k {
      assert (w + [c])[..|w|] == w;
      assert k[..|w|] == (w + [c])[..|w|];
      assert k[|w|] == (w + [c])[|w|];
    }
  }

  lemma {:induction false} AdvanceMeans(
    k: string, w: string, c: char, matching: HState, matched: HState, otherwise: HState)
    requires 2 <= |k| < 255 && w <= k && 1 <= |w| < |k|
    ensures Advance(k, Inc8(|w| - 1), c, matching, matched, otherwise) ==
            if w + [c] == k then matched else if w + [c] <= k then matching else otherwise
  {
    PrefixSnoc(w, c, k);
    assert Inc8(|w| - 1) == |w|;
  }

  /** Two different keywords share no prefix but those of "con". */
  lemma Apart(w: string)
    requires w != []
    ensures w <= PROXY_CONNECTION ==> w[0] == 'p'
    ensures w <= TRANSFER_ENCODING ==> w[0] == 't'
    ensures w <= UPGRADE ==> w[0] == 'u'
    ensures w <= CONNECTION ==> w[0] == 'c' && (|w| > 3 ==> w[3] == 'n')
    ensures w <= CONTENT_LENGTH ==> w[0] == 'c' && (|w| > 3 ==> w[3] == 't')
    ensures w[0] == 'c' && (w <= CONNECTION || w <= CONTENT_LENGTH) && |w| <= 3 ==> w == "c" || w == "co" || w == "con"
  {
  }

  lemma {:induction false} NextMeansShort(w: string, c: char, ch: char)
    requires w == "c" || w == "co" || w == "con"
    ensures NextField(Meaning(w), |w| - 1, c, ch).0 == Meaning(w + [c])
  {
    hide Advance;
    PrefixSnoc(w, c, CONNECTION);
    PrefixSnoc(w, c, CONTENT_LENGTH);
    Apart(w + [c]);
  }

  lemma {:induction false} NextMeansLong(w: string, c: char, ch: char)
    requires c != '\0' && ch != ' ' && |w| > 3 && w[0] == 'c' && (w <= CONNECTION || w <= CONTENT_LENGTH)
    ensures NextField(Meaning(w), |w| - 1, c, ch).0 == Meaning(w + [c])
  {
    hide Advance;
    Apart(w);
    Apart(w + [c]);
    PrefixSnoc(w, c, CONNECTION);
    PrefixSnoc(w, c, CONTENT_LENGTH);
    if w <= CONNECTION && |w| < |CONNECTION| {
      AdvanceMeans(CONNECTION, w, c, MatchingConnection, Connection, General);
    }
    if w <= CONTENT_LENGTH && |w| < |CONTENT_LENGTH| {
      AdvanceMeans(CONTENT_LENGTH, w, c, MatchingContentLength, ContentLength, General);
    }
  }

  lemma {:induction false} NextMeansLost(w: string, c: char, ch: char)
    requires w != [] && w[0] == 'c' && !(w <= CONNECTION) && !(w <= CONTENT_LENGTH)
    ensures NextField(Meaning(w), |w| - 1, c, ch).0 == Meaning(w + [c])
  {
    hide Advance;
    Apart(w);
    Apart(w + [c]);
    PrefixSnoc(w, c, CONNECTION);
    PrefixSnoc(w, c, CONTENT_LENGTH);
  }

  lemma {:induction false} NextMeansC(w: string, c: char, ch: char)
    requires w != [] && c != '\0' && ch != ' ' && w[0] == 'c'
    ensures NextField(Meaning(w), |w| - 1, c, ch).0 == Meaning(w + [c])
  {
    hide Meaning, NextField;
    if !(w <= CONNECTION) && !(w <= CONTENT_LENGTH) {
      NextMeansLost(w, c, ch);
    } else if |w| > 3 {
      NextMeansLong(w, c, ch);
    } else {
      Apart(w);
      NextMeansShort(w, c, ch);
    }
  }

  lemma {:induction false} NextMeansOther(w: string, c: char, ch: char)
    requires w != [] && c != '\0' && ch != ' ' && w[0] != 'c'
    ensures NextField(Meaning(w), |w| - 1, c, ch).0 == Meaning(w + [c])
  {
    hide Advance;
    Apart(w);
    Apart(w + [c]);
    PrefixSnoc(w, c, PROXY_CONNECTION);
    PrefixSnoc(w, c, TRANSFER_ENCODING);
    PrefixSnoc(w, c, UPGRADE);
    if w <= PROXY_CONNECTION && |w| < |PROXY_CONNECTION| {
      AdvanceMeans(PROXY_CONNECTION, w, c, MatchingProxyConnection, Connection, General);
    }
    if w <= TRANSFER_ENCODING && |w| < |TRANSFER_ENCODING| {
      AdvanceMeans(TRANSFER_ENCODING, w, c, MatchingTransferEncoding, TransferEncoding, General);
    }
    if w <= UPGRADE && |w| < |UPGRADE| {
      AdvanceMeans(UPGRADE, w, c, MatchingUpgrade, Upgrade, General);
    }
  }

  /** The token form of a name: lower case. */
  function Tokens(name: string): (w: string)
    ensures |w| == |name| && forall i :: 0 <= i < |name| ==> w[i] == Token(name[i])
  {
    seq(|name|, i requires 0 <= i < |name| => Token(name[i]))
  }

  predicate Counting(h: HState) {
    h.HC? || h.HCO? || h.HCON? || h.MatchingConnection? || h.MatchingProxyConnection? || h.MatchingContentLength?
    || h.MatchingTransferEncoding? || h.MatchingUpgrade?
  }

  lemma CountingIndex(h: HState, i: nat, c: char, ch: char)
    requires i < 254 && Counting(h)
    ensures NextField(h, i, c, ch).1 == i + 1
  {
  }

  lemma ShortWhileCounting(w: string)
    ensures Counting(Meaning(w)) ==> |w| < 17
    ensures IsFieldState(Meaning(w))
  {
  }

  lemma {:induction false} NameMeans(name: string)
    requires name != [] && IsToken(name)
    ensures AfterName(name).0 == Meaning(Tokens(name))
    ensures Counting(AfterName(name).0) ==> AfterName(name).1 == |name| - 1
    decreases |name|
  {
    hide Meaning, NextField;
    var n := |name| - 1;
    var c := Token(name[n]);
    if n == 0 {
      FirstMeans(Token(name[0]));
      assert Tokens(name) == [Token(name[0])];
    } else {
      var w := Tokens(name[..n]);
      NameMeans(name[..n]);
      assert Tokens(name) == w + [c];
      ShortWhileCounting(w);
      var (h, i) := AfterName(name[..n]);
      NextMeans(w, c, name[n]);
      if Counting(h) {
        CountingIndex(h, i, c, name[n]);
      } else {
        IndexIdle(h, i, n - 1, c, name[n]);
      }
    }
  }

  lemma {:induction false} NextMeans(w: string, c: char, ch: char)
    requires w != [] && c != '\0' && ch != ' '
    ensures NextField(Meaning(w), |w| - 1, c, ch).0 == Meaning(w + [c])
  {
    hide Meaning, NextField;
    if w[0] == 'c' {
      NextMeansC(w, c, ch);
    } else {
      NextMeansOther(w, c, ch);
    }
  }

  lemma FirstMeans(c: char)
    requires c != '\0'
    ensures FirstField(c) == Meaning([c])
  {
  }

  /** A matcher that is not running ignores the index. */
  lemma IndexIdle(h: HState, i: nat, j: nat, c: char, ch: char)
    requires !Counting(h) && IsFieldState(h)
    ensures NextField(h, i, c, ch).0 == NextField(h, j, c, ch).0 && !Counting(NextField(h, i, c, ch).0)
  {
  }

  /** The headers the parser acts on are exactly the five names it knows, in any case. */
  lemma {:induction false} NamesRecognised(name: string)
    requires name != [] && IsToken(name)
    ensures var h := AfterName(name).0;
            var w := Tokens(name);
            && (h.Connection? <==> w == "connection" || w == "proxy-connection")
            && (h.ContentLength? <==> w == "content-length")
            && (h.TransferEncoding? <==> w == "transfer-encoding")
            && (h.Upgrade? <==> w == "upgrade")
  {
    NameMeans(name);
  }

  // Values.

  predicate AllSpaces(s: string) { forall i :: 0 <= i < |s| ==> s[i] == ' ' }

  /** The value is the keyword in any case, followed by nothing but spaces. */
  predicate Spells(v: string, k: string) {
    |k| <= |v| && Lowered(v[..|k|]) == k && AllSpaces(v[|k|..])
  }

  /** The value is a proper beginning of the keyword. */
  predicate Begins(v: string, k: string) { |v| < |k| && Lowered(v) <= k }

  /** What a matcher for k has made of a value. */
  function Watch(k: string, matching: HState, matched: HState, otherwise: HState, v: string): HState {
    if Begins(v, k) then matching else if Spells(v, k) then matched else otherwise
  }

  lemma LoweredSnoc(v: string, ch: char)
    ensures Lowered(v + [ch]) == Lowered(v) + [Lower(ch)]
  {
  }

  lemma {:induction false} SpellsExactly(k: string, v: string)
    requires |v| <= |k|
    ensures Spells(v, k) <==> Lowered(v) == k
  {
    if |v| == |k| {
      assert v[..|k|] == v && v[|k|..] == [];
    }
  }

  lemma {:induction false} WatchShort(k: string, matching: HState, matched: HState, otherwise: HState, v: string)
    requires 1 <= |v| <= |k|
    ensures Watch(k, matching, matched, otherwise, v) ==
            if Lowered(v) == k then matched else if Lowered(v) <= k then matching else otherwise
  {
    hide Lowered;
    SpellsExactly(k, v);
    PrefixOfSameLength(Lowered(v), k);
  }

  lemma PrefixOfSameLength(w: string, k: string)
    requires |w| <= |k|
    ensures w <= k && |w| == |k| ==> w == k
    ensures w == k ==> w <= k
  {
  }

  lemma {:induction false} WatchBegins(k: string, matching: HState, matched: HState, otherwise: HState, v: string)
    requires Begins(v, k)
    ensures Watch(k, matching, matched, otherwise, v) == matching && |v| < |k| && Lowered(v) <= k
  {
    hide Lowered;
  }

  lemma {:induction false} WatchMatching(
    k: string, matching: HState, matched: HState, otherwise: HState, v: string, ch: char)
    requires 2 <= |k| < 255 && v != [] && Begins(v, k)
    ensures Watch(k, matching, matched, otherwise, v) == matching && |v| < |k|
    ensures Watch(k, matching, matched, otherwise, v + [ch]) ==
            Advance(k, Inc8(|v| - 1), Lower(ch), matching, matched, otherwise)
  {
    WatchBegins(k, matching, matched, otherwise, v);
    hide Begins, Watch, Lower, Lowered, Advance, Inc8;
    LoweredSnoc(v, ch);
    AdvanceMeans(k, Lowered(v), Lower(ch), matching, matched, otherwise);
    WatchShort(k, matching, matched, otherwise, v + [ch]);
  }

  lemma {:induction false} SpellsMore(k: string, v: string, ch: char)
    requires Spells(v, k)
    ensures Spells(v + [ch], k) <==> ch == ' '
  {
    assert (v + [ch])[..|k|] == v[..|k|];
    assert (v + [ch])[|k|..] == v[|k|..] + [ch];
    assert (v[|k|..] + [ch])[|v| - |k|] == ch;
  }

  lemma {:induction false} WatchMatched(
    k: string, matching: HState, matched: HState, otherwise: HState, v: string, ch: char)
    requires Spells(v, k)
    ensures Watch(k, matching, matched, otherwise, v) == matched
    ensures Watch(k, matching, matched, otherwise, v + [ch]) == if ch != ' ' then otherwise else matched
  {
    hide Spells, Begins;
    SpellsMore(k, v, ch);
    SpellsIsLong(k, v);
    SpellsIsLong(k, v + [ch]);
    BeginsIsShort(k, v);
    BeginsIsShort(k, v + [ch]);
  }

  lemma {:induction false} SpellsNever(k: string, v: string, ch: char)
    requires !Spells(v, k) && !Begins(v, k)
    ensures !Spells(v + [ch], k) && !Begins(v + [ch], k)
  {
    hide Lower, Lowered;
    LoweredSnoc(v, ch);
    PrefixSnoc(Lowered(v), Lower(ch), k);
    if Spells(v + [ch], k) {
      if |k| <= |v| {
        assert (v + [ch])[..|k|] == v[..|k|];
        forall i | 0 <= i < |v| - |k| ensures v[|k|..][i] == ' ' {
          assert (v + [ch])[|k|..][i] == v[|k|..][i];
        }
      } else {
        SpellsExactly(k, v + [ch]);
      }
    }
  }

  lemma {:induction false} WatchLost(
    k: string, matching: HState, matched: HState, otherwise: HState, v: string, ch: char)
    requires !Spells(v, k) && !Begins(v, k)
    ensures Watch(k, matching, matched, otherwise, v) == otherwise
    ensures Watch(k, matching, matched, otherwise, v + [ch]) == otherwise
  {
    hide Spells, Begins;
    SpellsNever(k, v, ch);
  }

  /** header_state, index and flags after a value that contains no line end. */
  function AfterValue(h: HState, v: string, f: Flags): (HState, nat, Flags)
    requires v != []
  {
    var n := |v| - 1;
    if n == 0 then (FirstValue(h, v[0]), 0, f)
    else
      var (h', i, g) := AfterValue(h, v[..n], f);
      var (h'', j) := NextValue(h', i, v[n]);
      (h'', j, if v[n] == ',' then ConnectionFlags(h', g) else g)
  }

  /** header_states in which a comma means nothing. */
  predicate Commaless(h: HState) { h.General? || h.MatchingChunked? || h.Chunked? }

  lemma CommalessNext(h: HState, i: nat, ch: char, f: Flags)
    requires Commaless(h)
    ensures Commaless(NextValue(h, i, ch).0) && ConnectionFlags(h, f) == f
    ensures h.General? ==> NextValue(h, i, ch) == (h, i)
  {
  }

  lemma {:induction false} CommalessValue(h: HState, v: string, f: Flags)
    requires v != [] && Commaless(FirstValue(h, v[0]))
    ensures var (h', _, g) := AfterValue(h, v, f); Commaless(h') && g == f
    ensures FirstValue(h, v[0]).General? ==> AfterValue(h, v, f).0.General?
    decreases |v|
  {
    hide NextValue, FirstValue, ConnectionFlags;
    var n := |v| - 1;
    if n > 0 {
      CommalessValue(h, v[..n], f);
      var (h', i, g) := AfterValue(h, v[..n], f);
      CommalessNext(h', i, v[n], g);
    }
  }

  lemma {:induction false} WatchOne(k: string, matching: HState, matched: HState, otherwise: HState, v: string)
    requires 2 <= |k| && |v| == 1
    ensures Watch(k, matching, matched, otherwise, v) == if Lower(v[0]) == k[0] then matching else otherwise
  {
    assert Lowered(v) == [Lower(v[0])];
  }

  lemma SpellsIsLong(k: string, v: string)
    ensures Spells(v, k) ==> |v| >= |k|
  {
  }

  lemma BeginsIsShort(k: string, v: string)
    ensures Begins(v, k) ==> |v| < |k|
  {
  }

  lemma IndexCounts(i: nat)
    requires i < 255
    ensures Inc8(i) == i + 1
  {
  }

  /** The four keyword matchers that run over values. */
  predicate Matcher(k: string, matching: HState, matched: HState, otherwise: HState) {
    || (k == CHUNKED && matching == MatchingChunked && matched == Chunked && otherwise == General)
    || (k == KEEP_ALIVE && matching == MatchingKeepAlive && matched == KeepAlive && otherwise == MatchingToken)
    || (k == CLOSE && matching == MatchingClose && matched == Close && otherwise == MatchingToken)
    || (k == UPGRADE && matching == MatchingConnectionUpgrade && matched == ConnectionUpgrade
       && otherwise == MatchingToken)
  }

  lemma {:induction false} MatcherSteps(
    k: string, matching: HState, matched: HState, otherwise: HState, i: nat, ch: char)
    requires Matcher(k, matching, matched, otherwise)
    ensures 2 <= |k| < 255 && matching != matched && matched != otherwise && otherwise != matching
    ensures NextValue(matching, i, ch) == (Advance(k, Inc8(i), Lower(ch), matching, matched, otherwise), Inc8(i))
    ensures ch != ',' || k == CHUNKED ==> NextValue(matched, i, ch).0 == if ch != ' ' then otherwise else matched
    ensures ch != ',' || k == CHUNKED ==> NextValue(otherwise, i, ch).0 == otherwise
    ensures ch == ',' && k != CHUNKED ==>
              NextValue(matched, i, ch) == (MatchingTokenStart, 0)
                && NextValue(otherwise, i, ch) == (MatchingTokenStart, 0)
  {
    hide Advance, Lower;
  }

  /** header_state and index follow the matcher. */
  predicate Follows(k: string, matching: HState, matched: HState, otherwise: HState, v: string, h: HState, i: nat) {
    h == Watch(k, matching, matched, otherwise, v) && (h == matching ==> i + 1 == |v|)
  }

  lemma {:induction false} FollowsMatching(
    k: string, matching: HState, matched: HState, otherwise: HState, v: string, h: HState, i: nat, ch: char)
    requires Matcher(k, matching, matched, otherwise) && v != []
    requires Follows(k, matching, matched, otherwise, v, h, i) && Begins(v, k)
    ensures var (h', j) := NextValue(h, i, ch); Follows(k, matching, matched, otherwise, v + [ch], h', j)
  {
    hide Watch, Begins, Spells, Advance, Inc8, NextValue, Matcher;
    MatcherSteps(k, matching, matched, otherwise, i, ch);
    WatchMatching(k, matching, matched, otherwise, v, ch);
    IndexCounts(|v| - 1);
  }

  lemma {:induction false} FollowsMatched(
    k: string, matching: HState, matched: HState, otherwise: HState, v: string, h: HState, i: nat, ch: char)
    requires Matcher(k, matching, matched, otherwise) && v != [] && (ch != ',' || k == CHUNKED)
    requires Follows(k, matching, matched, otherwise, v, h, i) && Spells(v, k)
    ensures var (h', j) := NextValue(h, i, ch); Follows(k, matching, matched, otherwise, v + [ch], h', j)
  {
    hide Watch, Begins, Spells, Advance, Inc8, NextValue, Matcher;
    MatcherSteps(k, matching, matched, otherwise, i, ch);
    WatchMatched(k, matching, matched, otherwise, v, ch);
  }

  lemma {:induction false} FollowsLost(
    k: string, matching: HState, matched: HState, otherwise: HState, v: string, h: HState, i: nat, ch: char)
    requires Matcher(k, matching, matched, otherwise) && v != [] && (ch != ',' || k == CHUNKED)
    requires Follows(k, matching, matched, otherwise, v, h, i) && !Begins(v, k) && !Spells(v, k)
    ensures var (h', j) := NextValue(h, i, ch); Follows(k, matching, matched, otherwise, v + [ch], h', j)
  {
    hide Watch, Begins, Spells, Advance, Inc8, NextValue, Matcher;
    MatcherSteps(k, matching, matched, otherwise, i, ch);
    WatchLost(k, matching, matched, otherwise, v, ch);
  }

  lemma {:induction false} ChunkedMeans(v: string, f: Flags)
    requires v != []
    ensures var (h, i, _) := AfterValue(TransferEncoding, v, f);
            Follows(CHUNKED, MatchingChunked, Chunked, General, v, h, i)
    decreases |v|
  {
    hide Watch, Begins, Spells, NextValue, FirstValue, Lower;
    var n := |v| - 1;
    MatcherSteps(CHUNKED, MatchingChunked, Chunked, General, 0, 'x');
    if n == 0 {
      ChunkedFirst(v[0]);
      WatchOne(CHUNKED, MatchingChunked, Chunked, General, v);
    } else {
      var u, ch := v[..n], v[n];
      assert v == u + [ch];
      ChunkedMeans(u, f);
      var (h, i, _) := AfterValue(TransferEncoding, u, f);
      if Begins(u, CHUNKED) {
        FollowsMatching(CHUNKED, MatchingChunked, Chunked, General, u, h, i, ch);
      } else if Spells(u, CHUNKED) {
        FollowsMatched(CHUNKED, MatchingChunked, Chunked, General, u, h, i, ch);
      } else {
        FollowsLost(CHUNKED, MatchingChunked, Chunked, General, u, h, i, ch);
      }
    }
  }

  lemma ChunkedFirst(ch: char)
    ensures FirstValue(TransferEncoding, ch) == if Lower(ch) == CHUNKED[0] then MatchingChunked else General
  {
  }

  lemma {:induction false} WatchEnds(k: string, matching: HState, matched: HState, otherwise: HState, v: string)
    requires matching != matched && matched != otherwise
    ensures Watch(k, matching, matched, otherwise, v) == matched <==> Spells(v, k)
  {
    hide Spells, Begins;
    SpellsIsLong(k, v);
    BeginsIsShort(k, v);
  }

  /** An unfolded Transfer-Encoding value is taken as chunked exactly when it spells "chunked". */
  lemma {:induction false} ChunkedRecognised(v: string, f: Flags)
    requires v != []
    ensures var (h, _, g) := AfterValue(TransferEncoding, v, f);
            (h.Chunked? <==> Spells(v, "chunked")) && !h.KeepAlive? && !h.Close? && !h.ConnectionUpgrade? && g == f
  {
    hide Spells, Watch, AfterValue, FirstValue;
    ChunkedFirst(v[0]);
    CommalessValue(TransferEncoding, v, f);
    ChunkedMeans(v, f);
    WatchEnds(CHUNKED, MatchingChunked, Chunked, General, v);
    WatchRange(CHUNKED, MatchingChunked, Chunked, General, v);
  }

  lemma {:induction false} WatchRange(k: string, matching: HState, matched: HState, otherwise: HState, v: string)
    ensures var h := Watch(k, matching, matched, otherwise, v); h == matching || h == matched || h == otherwise
  {
    hide Spells, Begins;
  }
}
