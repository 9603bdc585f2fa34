/** Connection headers: which of the options listed in a value the automaton recognises. */
module HttpOptions {
  import opened HttpTypes
  import opened HttpChars
  import opened HttpKeywords

  /** Octets that begin an option, or nothing: a comma after them does not end a list element. */
  predicate Unfinished(u: string) {
    Begins(u, "keep-alive") || Begins(u, "close") || Begins(u, "upgrade")
  }

  /** The flags once the option that u spells, if any, has been noted. */
  function WithOption(u: string, f: Flags): Flags {
    f.(keepAlive := f.keepAlive || Spells(u, "keep-alive"), close := f.close || Spells(u, "close"),
       connectionUpgrade := f.connectionUpgrade || Spells(u, "upgrade"))
  }

  /** Where the reading of a list has got to: inside an element, or no longer reading at all. */
  datatype Listing = Element(text: string, flags: Flags) | Abandoned(flags: Flags)

  /** A list is read element by element.  Every element but the first has to begin with a token octet
      right after the comma; one that does not ends the reading. */
  function Listed(v: string, f: Flags): Listing {
    if v == [] then Element([], f)
    else
      var ch := v[|v| - 1];
      match Listed(v[..|v| - 1], f)
      case Abandoned(g) => Abandoned(g)
      case Element(u, g) =>
        if ch == ',' && !Unfinished(u) then Element([], WithOption(u, g))
        else if u == [] && |v| > 1 && Token(Lower(ch)) == '\0' then Abandoned(g)
        else Element(u + [ch], g)
  }

  /** The flags that a Connection value stands for. */
  function ListedOptions(v: string, f: Flags): Flags {
    match Listed(v, f)
    case Element(u, g) => WithOption(u, g)
    case Abandoned(g) => g
  }

  /** The matcher that the first octet of an element starts. */
  function Sought(ch: char): string {
    if Lower(ch) == 'k' then KEEP_ALIVE else if Lower(ch) == 'u' then UPGRADE else CLOSE
  }

  function Matching(k: string): HState {
    if k == KEEP_ALIVE then MatchingKeepAlive else if k == UPGRADE then MatchingConnectionUpgrade else MatchingClose
  }

  function Matched(k: string): HState {
    if k == KEEP_ALIVE then KeepAlive else if k == UPGRADE then ConnectionUpgrade else Close
  }

  /** header_state follows the element u. */
  predicate Tracks(u: string, h: HState, i: nat)
    requires u != []
  {
    var k := Sought(u[0]);
    Follows(k, Matching(k), Matched(k), MatchingToken, u, h, i)
  }

  predicate Keeps(l: Listing, h: HState, i: nat, f: Flags) {
    && f == l.flags
    && match l
       case Element(u, _) => if u == [] then h.MatchingTokenStart? && i == 0 else Tracks(u, h, i)
       case Abandoned(_) => h.General?
  }

  lemma SoughtMatches(ch: char)
    ensures var k := Sought(ch); Matcher(k, Matching(k), Matched(k), MatchingToken) && 2 <= |k|
    ensures var k := Sought(ch);
            FirstValue(Connection, ch) == if Lower(ch) == k[0] then Matching(k) else MatchingToken
  {
  }

  lemma {:induction false} TrackFirst(ch: char)
    ensures Tracks([ch], FirstValue(Connection, ch), 0)
  {
    hide Watch, FirstValue, Lower, Matcher;
    var k := Sought(ch);
    SoughtMatches(ch);
    MatcherSteps(k, Matching(k), Matched(k), MatchingToken, 0, ch);
    WatchOne(k, Matching(k), Matched(k), MatchingToken, [ch]);
  }

  lemma TrackAgain(ch: char)
    ensures NextValue(MatchingTokenStart, 0, ch) ==
            if Token(Lower(ch)) != '\0' then (FirstValue(Connection, ch), 0) else (General, 0)
  {
  }

  lemma {:induction false} BeginsStarts(u: string, k: string)
    requires u != [] && Begins(u, k)
    ensures k != [] && Lower(u[0]) == k[0]
  {
    hide Lower;
    assert Lowered(u)[0] == Lower(u[0]);
  }

  lemma {:induction false} UnfinishedSought(u: string)
    requires u != []
    ensures Unfinished(u) <==> Begins(u, Sought(u[0]))
  {
    hide Begins, Lower;
    if Begins(u, "keep-alive") {
      BeginsStarts(u, "keep-alive");
    }
    if Begins(u, "close") {
      BeginsStarts(u, "close");
    }
    if Begins(u, "upgrade") {
      BeginsStarts(u, "upgrade");
    }
  }

  /** One more octet of an element. */
  lemma {:induction false} TrackOn(u: string, h: HState, i: nat, ch: char)
    requires u != [] && Tracks(u, h, i) && (ch != ',' || Unfinished(u))
    ensures var (h', j) := NextValue(h, i, ch); Tracks(u + [ch], h', j)
  {
    hide Follows, Begins, Spells, NextValue, Matcher, Unfinished, Matching, Matched;
    UnfinishedSought(u);
    SoughtMatches(u[0]);
    var k := Sought(u[0]);
    if Begins(u, k) {
      FollowsMatching(k, Matching(k), Matched(k), MatchingToken, u, h, i, ch);
    } else if Spells(u, k) {
      FollowsMatched(k, Matching(k), Matched(k), MatchingToken, u, h, i, ch);
    } else {
      FollowsLost(k, Matching(k), Matched(k), MatchingToken, u, h, i, ch);
    }
  }

  lemma {:induction false} OnlyStart(k: string, u: string)
    requires k != [] && u != []
    ensures Spells(u, k) ==> Lower(u[0]) == k[0]
  {
    hide Lower;
    if Spells(u, k) {
      assert Lowered(u[..|k|])[0] == Lower(u[0]);
    }
  }

  lemma {:induction false} OnlySought(u: string)
    requires u != []
    ensures Spells(u, "keep-alive") ==> Sought(u[0]) == KEEP_ALIVE
    ensures Spells(u, "close") ==> Sought(u[0]) == CLOSE
    ensures Spells(u, "upgrade") ==> Sought(u[0]) == UPGRADE
  {
    hide Spells, Lower;
    OnlyStart("keep-alive", u);
    OnlyStart("close", u);
    OnlyStart("upgrade", u);
  }

  /** What the end of an element does. */
  lemma {:induction false} TrackEnd(u: string, h: HState, i: nat, g: Flags)
    requires u != [] && Tracks(u, h, i)
    ensures ConnectionFlags(h, g) == WithOption(u, g) && LineFlags(h, g) == WithOption(u, g)
    ensures !Unfinished(u) ==> NextValue(h, i, ',') == (MatchingTokenStart, 0)
    ensures Unfinished(u) ==> WithOption(u, g) == g
  {
    hide Spells, Begins, NextValue, Matcher, Unfinished;
    var k := Sought(u[0]);
    UnfinishedSought(u);
    SoughtMatches(u[0]);
    OnlySought(u);
    MatcherSteps(k, Matching(k), Matched(k), MatchingToken, i, ',');
    WatchEnds(k, Matching(k), Matched(k), MatchingToken, u);
    SpellsIsLong(k, u);
    BeginsIsShort(k, u);
  }

  /** header_state at any point of a Connection value is what the list read so far makes of it. */
  lemma {:induction false} ListFollowed(v: string, f: Flags)
    requires v != []
    ensures var (h, i, g) := AfterValue(Connection, v, f); Keeps(Listed(v, f), h, i, g)
    decreases |v|
  {
    hide Tracks, NextValue, FirstValue, ConnectionFlags, WithOption, Unfinished, Token, Lower;
    var n := |v| - 1;
    var ch := v[n];
    if n == 0 {
      NothingUnfinished();
      assert v == [ch] && [] + [ch] == [ch];
      TrackFirst(ch);
    } else {
      ListFollowed(v[..n], f);
      var (h, i, g) := AfterValue(Connection, v[..n], f);
      match Listed(v[..n], f)
      case Abandoned(_) => StaysGeneral(i, ch, g);
      case Element(u, _) =>
        if u == [] {
          NothingUnfinished();
          TrackAgain(ch);
          TrackFirst(ch);
          StartFlags(g);
          assert [] + [ch] == [ch];
        } else {
          TrackEnd(u, h, i, g);
          if ch != ',' || Unfinished(u) {
            TrackOn(u, h, i, ch);
          }
        }
    }
  }

  lemma {:induction false} NothingUnfinished()
    ensures Unfinished("")
  {
    assert Lowered("") == "";
  }

  lemma StaysGeneral(i: nat, ch: char, g: Flags)
    ensures NextValue(General, i, ch) == (General, i) && ConnectionFlags(General, g) == g
  {
  }

  lemma StartFlags(g: Flags)
    ensures ConnectionFlags(MatchingTokenStart, g) == g
  {
  }

  lemma {:induction false} ListedKeeps(v: string, f: Flags)
    ensures var g := Listed(v, f).flags; g.chunked == f.chunked && g.trailing == f.trailing && g.upgrade == f.upgrade
    decreases |v|
  {
    hide Unfinished, Spells, Token, Lower;
    if v != [] {
      ListedKeeps(v[..|v| - 1], f);
    }
  }

  /** A Connection header does not touch the other flags. */
  lemma {:induction false} OptionsKeep(v: string, f: Flags)
    ensures var g := ListedOptions(v, f); g.chunked == f.chunked && g.trailing == f.trailing && g.upgrade == f.upgrade
  {
    hide Listed, Spells;
    ListedKeeps(v, f);
  }

  lemma NothingSpells(f: Flags)
    ensures WithOption("", f) == f
  {
  }

  /** A Connection value sets exactly the options listed in it. */
  lemma {:induction false} OptionsRecognised(v: string, f: Flags)
    requires v != []
    ensures var (h, _, g) := AfterValue(Connection, v, f); LineFlags(h, g) == ListedOptions(v, f)
  {
    hide Listed, AfterValue, Tracks, WithOption;
    ListFollowed(v, f);
    var (h, i, g) := AfterValue(Connection, v, f);
    match Listed(v, f)
    case Abandoned(_) =>
    case Element(u, _) =>
      if u == [] {
        NothingSpells(g);
      } else {
        TrackEnd(u, h, i, g);
      }
  }

  // Lists as they are written.

  function CommaJoined(es: seq<string>): string {
    if |es| == 0 then [] else if |es| == 1 then es[0] else CommaJoined(es[..|es| - 1]) + [','] + es[|es| - 1]
  }

  /** The flags once all of the elements have been noted. */
  function AllOptions(es: seq<string>, f: Flags): Flags {
    if es == [] then f else WithOption(es[|es| - 1], AllOptions(es[..|es| - 1], f))
  }

  predicate StartsToken(e: string) { e != [] && Token(Lower(e[0])) != '\0' }

  predicate ElementOk(e: string) { ',' !in e && !Unfinished(e) && StartsToken(e) }

  predicate AllOk(es: seq<string>) { forall i :: 0 <= i < |es| ==> ElementOk(es[i]) }

  lemma {:induction false} ElementRead(v: string, e: string, f: Flags)
    requires Listed(v, f) == Element([], Listed(v, f).flags) && e != [] && ',' !in e
    requires v == [] || StartsToken(e)
    ensures Listed(v + e, f) == Element(e, Listed(v, f).flags)
    decreases |e|
  {
    hide WithOption, Unfinished, Token, Lower;
    var n := |e| - 1;
    var ch := e[n];
    assert (v + e)[..|v + e| - 1] == v + e[..n];
    if n == 0 {
      assert v + e[..n] == v && [] + [ch] == e;
    } else {
      ElementRead(v, e[..n], f);
      assert e[..n] + [ch] == e;
    }
  }

  /** A value without commas is one option. */
  lemma {:induction false} OneOption(v: string, f: Flags)
    requires ',' !in v
    ensures ListedOptions(v, f) == WithOption(v, f)
  {
    hide WithOption, Listed;
    ListedNothing(f);
    if v != [] {
      ElementRead([], v, f);
      assert [] + v == v;
    }
  }

  lemma {:induction false} ListReadTo(es: seq<string>, f: Flags)
    requires es != [] && AllOk(es)
    ensures Listed(CommaJoined(es), f) == Element(es[|es| - 1], AllOptions(es[..|es| - 1], f))
    ensures CommaJoined(es) != []
    decreases |es|
  {
    hide Listed, WithOption, Unfinished, Token, Lower;
    var n := |es| - 1;
    assert ElementOk(es[n]);
    if n == 0 {
      ListedNothing(f);
      ElementRead([], es[0], f);
      assert [] + es[0] == es[0];
    } else {
      ListReadTo(es[..n], f);
      CommaRead(es[..n], f);
      ElementRead(CommaJoined(es[..n]) + [','], es[n], f);
    }
  }

  lemma ListedNothing(f: Flags)
    ensures Listed([], f) == Element([], f)
  {
  }

  lemma {:induction false} CommaRead(es: seq<string>, f: Flags)
    requires es != [] && AllOk(es)
    requires Listed(CommaJoined(es), f) == Element(es[|es| - 1], AllOptions(es[..|es| - 1], f))
    ensures Listed(CommaJoined(es) + [','], f) == Element([], AllOptions(es, f))
  {
    hide WithOption, Unfinished, StartsToken;
    assert ElementOk(es[|es| - 1]);
    assert (CommaJoined(es) + [','])[..|CommaJoined(es)|] == CommaJoined(es);
  }

  /** Of elements joined by bare commas every one is noticed. */
  lemma {:induction false} ListRead(es: seq<string>, f: Flags)
    requires es != [] && AllOk(es)
    ensures ListedOptions(CommaJoined(es), f) == AllOptions(es, f)
  {
    hide Listed, WithOption, CommaJoined;
    ListReadTo(es, f);
  }

  lemma {:induction false} StaysAbandoned(v: string, w: string, f: Flags)
    requires Listed(v, f).Abandoned?
    ensures Listed(v + w, f) == Listed(v, f)
    decreases |w|
  {
    hide WithOption, Unfinished, Token, Lower;
    if w == [] {
      assert v + w == v;
    } else {
      StaysAbandoned(v, w[..|w| - 1], f);
      assert (v + w)[..|v + w| - 1] == v + w[..|w| - 1];
    }
  }

  /** From an element on that does not begin with a token octet right after the comma, nothing is noticed. */
  lemma {:induction false} ListStops(es: seq<string>, rest: string, f: Flags)
    requires es != [] && AllOk(es) && rest != [] && !StartsToken(rest)
    ensures ListedOptions(CommaJoined(es) + [','] + rest, f) == AllOptions(es, f)
  {
    hide WithOption, CommaJoined, Token, Lower;
    ListReadTo(es, f);
    CommaRead(es, f);
    NothingUnfinished();
    var v := CommaJoined(es) + [','];
    var w := v + [rest[0]];
    assert w[..|w| - 1] == v;
    StaysAbandoned(w, rest[1..], f);
    assert v + rest == w + rest[1..];
  }

  /** A list written with a space after the comma loses what follows it. */
  lemma {:induction false} SpaceAfterComma()
    ensures ListedOptions("keep-alive, close", NO_FLAGS) == NO_FLAGS.(keepAlive := true)
    ensures ListedOptions("keep-alive,close", NO_FLAGS) == NO_FLAGS.(keepAlive := true, close := true)
  {
    SpellingsOk();
    hide Token, Lower, Unfinished, Spells;
    assert "keep-alive" + [','] == "keep-alive," && "keep-alive," + " close" == "keep-alive, close";
    assert "keep-alive," + "close" == "keep-alive,close";
    assert ["keep-alive", "close"][..1] == ["keep-alive"];
    ListStops(["keep-alive"], " close", NO_FLAGS);
    ListRead(["keep-alive", "close"], NO_FLAGS);
  }

  lemma {:induction false} SpellingsOk()
    ensures ElementOk("keep-alive") && ElementOk("close") && !StartsToken(" close")
    ensures WithOption("keep-alive", NO_FLAGS) == NO_FLAGS.(keepAlive := true)
    ensures WithOption("close", NO_FLAGS.(keepAlive := true)) == NO_FLAGS.(keepAlive := true, close := true)
  {
    assert Lowered("keep-alive") == "keep-alive" && Lowered("close") == "close";
    SpellsExactly("keep-alive", "keep-alive");
    SpellsExactly("close", "close");
    SpellsIsLong("keep-alive", "close");
    SpellsIsLong("upgrade", "close");
    OnlySought("keep-alive");
    OnlySought("close");
  }
}
