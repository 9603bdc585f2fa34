/** http_parser_parse_url: the second reading of a URL, which splits it into its parts. */
module HttpUrlSplit {
  import opened Common
  import opened HttpTypes
  import opened HttpChars
  import opened HttpUrlWalk
  import opened HttpLengths
  import opened HttpSpec

  /** The parts of a URL: enum http_parser_url_fields. */
  datatype Part = SchemaPart | HostPart | PortPart | PathPart | QueryPart | FragmentPart | UserInfoPart

  datatype Range = Range(off: nat, len: nat)

  datatype HostState =
    | HostDead | UserInfoStart | InUserInfo | HostStart | V6Start | InHost | InV6 | V6End | PortStart | InPort

  /** http_parse_host_char */
  function ParseHostChar(s: HostState, c: char): HostState {
    match s
    case UserInfoStart => UserInfoChar(c)
    case InUserInfo => UserInfoChar(c)
    case HostStart => if c == '[' then V6Start else if IsHostChar(c) then InHost else HostDead
    case InHost => if IsHostChar(c) then InHost else if c == ':' then PortStart else HostDead
    case V6End => if c == ':' then PortStart else HostDead
    case InV6 => if c == ']' then V6End else V6Char(c)
    case V6Start => V6Char(c)
    case PortStart => if IsNum(c) then InPort else HostDead
    case InPort => if IsNum(c) then InPort else HostDead
    case HostDead => HostDead
  }

  function UserInfoChar(c: char): HostState {
    if c == '@' then HostStart else if IsUserInfoChar(c) then InUserInfo else HostDead
  }

  function V6Char(c: char): HostState { if IsHex(c) || c == ':' || c == '.' then InV6 else HostDead }

  /** The part that an octet which leads to s belongs to; delimiters belong to none. */
  function PartOf(s: UrlState): Option<Part> {
    match s
    case Schema => Some(SchemaPart)
    case Server => Some(HostPart)
    case ServerWithAt => Some(HostPart)
    case Path => Some(PathPart)
    case Query => Some(QueryPart)
    case Fragment => Some(FragmentPart)
    case _ => None
  }

  function HostPartOf(s: HostState): Option<Part> {
    match s
    case InUserInfo => Some(UserInfoPart)
    case InHost => Some(HostPart)
    case InV6 => Some(HostPart)
    case InPort => Some(PortPart)
    case _ => None
  }

  /** The parts the octets of a URL belong to in the first pass, in which user information, host and
      port are one part. */
  function Parts(s: UrlState, url: string): (ps: seq<Option<Part>>)
    ensures |ps| == |url|
  {
    if url == [] then [] else Parts(s, url[..|url| - 1]) + [PartOf(Walk(s, url))]
  }

  /** The host automaton over a string of octets. */
  function HostWalk(s: HostState, host: string): HostState {
    if host == [] then s else ParseHostChar(HostWalk(s, host[..|host| - 1]), host[|host| - 1])
  }

  function HostParts(s: HostState, host: string): (ps: seq<Option<Part>>)
    ensures |ps| == |host|
  {
    if host == [] then [] else HostParts(s, host[..|host| - 1]) + [HostPartOf(HostWalk(s, host))]
  }

  /** How far along a URL a state is: the automaton only moves on. */
  function Depth(s: UrlState): nat {
    match s
    case SpacesBeforeUrl => 0
    case Schema => 1
    case SchemaSlash => 2
    case SchemaSlashSlash => 3
    case ServerStart => 4
    case Server => 5
    case ServerWithAt => 5
    case Path => 6
    case QueryStart => 7
    case Query => 8
    case FragmentStart => 9
    case Fragment => 10
    case UrlDead => 11
  }

  function PartDepth(f: Part): nat {
    match f
    case SchemaPart => 1 case HostPart => 5 case PathPart => 6 case QueryPart => 8 case FragmentPart => 10
    case PortPart => 12 case UserInfoPart => 12
  }

  lemma MovesOn(s: UrlState, c: char)
    ensures Depth(s) <= Depth(ParseUrlChar(s, c))
    ensures PartOf(s).Some? ==> PartDepth(PartOf(s).value) == Depth(s)
    ensures forall f :: PartDepth(f) == Depth(s) ==> PartOf(s) == Some(f)
  {
  }

  /** An octet that belongs to no part is a delimiter. */
  lemma Delimiter(s: UrlState, c: char)
    requires PartOf(ParseUrlChar(s, c)).None? && !ParseUrlChar(s, c).UrlDead?
    ensures c == ':' || c == '/' || c == '?' || c == '#'
  {
  }

  function HostDepth(s: HostState): nat {
    match s
    case UserInfoStart => 0
    case InUserInfo => 1
    case HostStart => 2
    case V6Start => 3
    case InHost => 4
    case InV6 => 4
    case V6End => 5
    case PortStart => 6
    case InPort => 7
    case HostDead => 8
  }

  function HostPartDepth(f: Part): nat {
    match f
    case UserInfoPart => 1 case HostPart => 4 case PortPart => 7
    case _ => 9
  }

  lemma HostMovesOn(s: HostState, c: char)
    ensures var s' := ParseHostChar(s, c);
            HostDepth(s) <= HostDepth(s') && (HostDepth(s) == HostDepth(s') && HostPartOf(s').Some? ==> s == s')
    ensures HostPartOf(s).Some? ==> HostPartDepth(HostPartOf(s).value) == HostDepth(s)
    ensures forall f :: HostPartDepth(f) == HostDepth(s) ==> HostPartOf(s) == Some(f)
  {
  }

  lemma HostDelimiter(s: HostState, c: char)
    requires HostPartOf(ParseHostChar(s, c)).None? && !ParseHostChar(s, c).HostDead?
    ensures c == ':' || c == '@' || c == '[' || c == ']'
  {
  }

  /** Where f occurs in ps, for parts that occur in one stretch. */
  function RangeIn(ps: seq<Option<Part>>, f: Part): (r: Range)
    ensures r.off + r.len <= |ps|
  {
    if ps == [] then Range(0, 0)
    else
      var n := |ps| - 1;
      var r := RangeIn(ps[..n], f);
      if ps[n] != Some(f) then r else if r.len == 0 then Range(n, 1) else Range(r.off, n + 1 - r.off)
  }

  /** r is exactly where ps, which starts at offset base, says f. */
  predicate Exact(r: Range, ps: seq<Option<Part>>, base: nat, f: Part) {
    && base <= r.off && r.off + r.len <= base + |ps| && r.len > 0
    && (forall i :: 0 <= i < |ps| ==> (ps[i] == Some(f) <==> r.off <= base + i < r.off + r.len))
    && RangeIn(ps, f) == Range(r.off - base, r.len)
  }

  lemma {:induction false} ExactSkips(r: Range, ps: seq<Option<Part>>, base: nat, f: Part, p: Option<Part>)
    requires Exact(r, ps, base, f) && p != Some(f)
    ensures Exact(r, ps + [p], base, f)
  {
    assert (ps + [p])[..|ps|] == ps;
    assert forall i :: 0 <= i < |ps| ==> (ps + [p])[i] == ps[i];
  }

  lemma {:induction false} ExactGrows(r: Range, ps: seq<Option<Part>>, base: nat, f: Part)
    requires Exact(r, ps, base, f) && r.off + r.len == base + |ps|
    ensures Exact(r.(len := r.len + 1), ps + [Some(f)], base, f)
  {
    assert (ps + [Some(f)])[..|ps|] == ps;
    assert forall i :: 0 <= i < |ps| ==> (ps + [Some(f)])[i] == ps[i];
  }

  lemma {:induction false} Nowhere(ps: seq<Option<Part>>, f: Part)
    requires Some(f) !in ps
    ensures RangeIn(ps, f).len == 0
    decreases |ps|
  {
    if ps != [] {
      Nowhere(ps[..|ps| - 1], f);
    }
  }

  lemma {:induction false} ExactStarts(ps: seq<Option<Part>>, base: nat, f: Part)
    requires Some(f) !in ps
    ensures Exact(Range(base + |ps|, 1), ps + [Some(f)], base, f)
  {
    Nowhere(ps, f);
    assert (ps + [Some(f)])[..|ps|] == ps;
    assert forall i :: 0 <= i < |ps| ==> (ps + [Some(f)])[i] == ps[i];
  }

  /** What a pass that has got as deep as `depth` knows of part f, which is at depth d. */
  predicate PartMarked(seen: bool, r: Range, ps: seq<Option<Part>>, base: nat, d: nat, depth: nat, f: Part) {
    && (seen <==> Some(f) in ps)
    && (seen ==> Exact(r, ps, base, f) && d <= depth)
    && (seen && d == depth ==> r.off + r.len == base + |ps|)
  }

  lemma InSnoc(ps: seq<Option<Part>>, p: Option<Part>, f: Part)
    ensures Some(f) in ps + [p] <==> Some(f) in ps || p == Some(f)
  {
  }

  lemma {:induction false} PartSkipped(
    seen: bool, r: Range, ps: seq<Option<Part>>, base: nat, d: nat, depth: nat, f: Part, p: Option<Part>, depth': nat)
    requires PartMarked(seen, r, ps, base, d, depth, f) && p != Some(f) && depth <= depth' && d != depth'
    ensures PartMarked(seen, r, ps + [p], base, d, depth', f)
  {
    hide Exact;
    InSnoc(ps, p, f);
    if seen {
      ExactSkips(r, ps, base, f, p);
    }
  }

  lemma {:induction false} PartGrown(r: Range, ps: seq<Option<Part>>, base: nat, d: nat, f: Part)
    requires PartMarked(true, r, ps, base, d, d, f)
    ensures PartMarked(true, r.(len := r.len + 1), ps + [Some(f)], base, d, d, f)
  {
    InSnoc(ps, Some(f), f);
    ExactGrows(r, ps, base, f);
    hide Exact;
  }

  lemma {:induction false} PartStarted(r: Range, ps: seq<Option<Part>>, base: nat, d: nat, depth: nat, f: Part)
    requires PartMarked(false, r, ps, base, d, depth, f)
    ensures PartMarked(true, Range(base + |ps|, 1), ps + [Some(f)], base, d, d, f)
  {
    hide Exact;
    InSnoc(ps, Some(f), f);
    ExactStarts(ps, base, f);
  }

  // The first pass.

  /** The first pass has got to state s after the octets whose parts are ps. */
  predicate Marked(
    fieldSet: set<Part>, data: map<Part, Range>, ps: seq<Option<Part>>, s: UrlState, last: Option<Part>) {
    && (forall f :: f in data)
    && (forall f :: PartMarked(f in fieldSet, data[f], ps, 0, PartDepth(f), Depth(s), f))
    && (last.Some? ==> last.value in fieldSet)
    && (PartOf(s).Some? ==> last == PartOf(s))
  }

  lemma {:induction false} MarkedSkips(
    fieldSet: set<Part>, data: map<Part, Range>, ps: seq<Option<Part>>, s: UrlState, last: Option<Part>, s': UrlState)
    requires Marked(fieldSet, data, ps, s, last) && PartOf(s').None? && Depth(s) <= Depth(s')
    ensures Marked(fieldSet, data, ps + [None], s', last)
  {
    hide PartMarked;
    MovesOn(s', 'x');
    forall f ensures PartMarked(f in fieldSet, data[f], ps + [None], 0, PartDepth(f), Depth(s'), f) {
      PartSkipped(f in fieldSet, data[f], ps, 0, PartDepth(f), Depth(s), f, None, Depth(s'));
    }
  }

  lemma {:induction false} MarkedGrows(
    fieldSet: set<Part>, data: map<Part, Range>, ps: seq<Option<Part>>, s: UrlState, s': UrlState, f: Part)
    requires Marked(fieldSet, data, ps, s, Some(f)) && PartOf(s') == Some(f) && Depth(s) <= Depth(s')
    ensures Marked(fieldSet, data[f := data[f].(len := data[f].len + 1)], ps + [Some(f)], s', Some(f))
  {
    hide Exact;
    assert PartMarked(f in fieldSet, data[f], ps, 0, PartDepth(f), Depth(s), f);
    MovesOn(s', 'x');
    assert PartDepth(f) == Depth(s) == Depth(s');
    hide PartMarked;
    var data' := data[f := data[f].(len := data[f].len + 1)];
    forall g ensures PartMarked(g in fieldSet, data'[g], ps + [Some(f)], 0, PartDepth(g), Depth(s'), g) {
      if g == f {
        PartGrown(data[f], ps, 0, PartDepth(f), f);
      } else {
        PartSkipped(g in fieldSet, data[g], ps, 0, PartDepth(g), Depth(s), g, Some(f), Depth(s'));
      }
    }
  }

  lemma {:induction false} MarkedStarts(
    fieldSet: set<Part>, data: map<Part, Range>, ps: seq<Option<Part>>, s: UrlState, last: Option<Part>, s': UrlState,
      f: Part)
    requires Marked(fieldSet, data, ps, s, last) && PartOf(s') == Some(f) && Depth(s) <= Depth(s') && last != Some(f)
    ensures Marked(fieldSet + {f}, data[f := Range(|ps|, 1)], ps + [Some(f)], s', Some(f))
  {
    hide Exact;
    MovesOn(s, 'x');
    MovesOn(s', 'x');
    assert PartMarked(f in fieldSet, data[f], ps, 0, PartDepth(f), Depth(s), f);
    assert f !in fieldSet;
    hide PartMarked;
    var data' := data[f := Range(|ps|, 1)];
    forall g ensures PartMarked(g in fieldSet + {f}, data'[g], ps + [Some(f)], 0, PartDepth(g), Depth(s'), g) {
      if g == f {
        PartStarted(data[f], ps, 0, PartDepth(f), Depth(s), f);
      } else {
        PartSkipped(g in fieldSet, data[g], ps, 0, PartDepth(g), Depth(s), g, Some(f), Depth(s'));
      }
    }
  }

  // The second pass, over the octets of the host.

  predicate IsHostPart(f: Part) { f.UserInfoPart? || f.HostPart? || f.PortPart? }

  /** The host is known by its length, the other two parts by the set. */
  predicate Seen(fieldSet: set<Part>, data: map<Part, Range>, f: Part)
    requires f in data
  {
    if f.HostPart? then data[f].len > 0 else f in fieldSet
  }

  predicate HostMarked(fieldSet: set<Part>, data: map<Part, Range>, ps: seq<Option<Part>>, base: nat, s: HostState) {
    && (forall f :: f in data)
    && (forall f :: IsHostPart(f) ==>
       PartMarked(Seen(fieldSet, data, f), data[f], ps, base, HostPartDepth(f), HostDepth(s), f))
  }

  lemma {:induction false} HostSkips(
    fieldSet: set<Part>, data: map<Part, Range>, ps: seq<Option<Part>>, base: nat, s: HostState, s': HostState)
    requires HostMarked(fieldSet, data, ps, base, s) && HostPartOf(s').None? && HostDepth(s) <= HostDepth(s')
    ensures HostMarked(fieldSet, data, ps + [None], base, s')
  {
    hide PartMarked;
    HostMovesOn(s', 'x');
    forall f | IsHostPart(f)
      ensures PartMarked(Seen(fieldSet, data, f), data[f], ps + [None], base, HostPartDepth(f), HostDepth(s'), f)
    {
      PartSkipped(Seen(fieldSet, data, f), data[f], ps, base, HostPartDepth(f), HostDepth(s), f, None, HostDepth(s'));
    }
  }

  lemma {:induction false} HostGrows(
    fieldSet: set<Part>, data: map<Part, Range>, ps: seq<Option<Part>>, base: nat, s: HostState, f: Part)
    requires HostMarked(fieldSet, data, ps, base, s) && HostPartOf(s) == Some(f) && Some(f) in ps
    ensures HostMarked(fieldSet, data[f := data[f].(len := data[f].len + 1)], ps + [Some(f)], base, s)
  {
    hide Exact;
    HostMovesOn(s, 'x');
    assert PartMarked(Seen(fieldSet, data, f), data[f], ps, base, HostPartDepth(f), HostDepth(s), f);
    hide PartMarked;
    var data' := data[f := data[f].(len := data[f].len + 1)];
    forall g | IsHostPart(g)
      ensures PartMarked(Seen(fieldSet, data', g), data'[g], ps + [Some(f)], base, HostPartDepth(g), HostDepth(s), g)
    {
      if g == f {
        PartGrown(data[f], ps, base, HostPartDepth(f), f);
      } else {
        PartSkipped(Seen(fieldSet, data, g), data[g], ps, base, HostPartDepth(g), HostDepth(s), g, Some(f),
          HostDepth(s));
      }
    }
  }

  lemma {:induction false} HostStarts(
    fieldSet: set<Part>, data: map<Part, Range>, ps: seq<Option<Part>>, base: nat, s: HostState, s': HostState, f: Part)
    requires HostMarked(fieldSet, data, ps, base, s) && HostPartOf(s') == Some(f) && HostDepth(s) < HostDepth(s')
    ensures HostMarked(fieldSet + {f}, data[f := Range(base + |ps|, 1)], ps + [Some(f)], base, s')
  {
    hide Exact;
    HostMovesOn(s', 'x');
    assert PartMarked(Seen(fieldSet, data, f), data[f], ps, base, HostPartDepth(f), HostDepth(s), f);
    hide PartMarked;
    var data' := data[f := Range(base + |ps|, 1)];
    forall g | IsHostPart(g)
      ensures PartMarked(Seen(fieldSet + {f}, data', g), data'[g], ps + [Some(f)], base, HostPartDepth(g),
              HostDepth(s'), g)
    {
      if g == f {
        PartStarted(data[f], ps, base, HostPartDepth(f), HostDepth(s), f);
      } else {
        PartSkipped(Seen(fieldSet, data, g), data[g], ps, base, HostPartDepth(g), HostDepth(s), g, Some(f),
          HostDepth(s'));
      }
    }
  }

  // What the parts of a URL are.

  /** A server part with an '@' in it has user information. */
  predicate SawAt(s: UrlState, url: string) {
    url != [] && (SawAt(s, url[..|url| - 1]) || Walk(s, url).ServerWithAt?)
  }

  function HostBegin(at: bool): HostState { if at then UserInfoStart else HostStart }

  predicate HostMayEnd(s: HostState) { s.InHost? || s.V6End? || s.InPort? }

  function Text(url: string, r: Range): string
    requires r.off + r.len <= |url|
  {
    url[r.off..r.off + r.len]
  }

  /** The octets that user information, host and port share. */
  function HostText(start: UrlState, url: string): string { Text(url, RangeIn(Parts(start, url), HostPart)) }

  /** The part that each octet of a URL belongs to. */
  function AllParts(start: UrlState, url: string): (ps: seq<Option<Part>>)
    ensures |ps| == |url|
  {
    var ps := Parts(start, url);
    var r := RangeIn(ps, HostPart);
    ps[..r.off] + HostParts(HostBegin(SawAt(start, url)), Text(url, r)) + ps[r.off + r.len..]
  }

  predicate NeedsHost(start: UrlState, url: string) {
    Some(SchemaPart) in Parts(start, url) || Some(HostPart) in Parts(start, url)
  }

  /** A schema and no host: the one case in which http_parser_parse_url reads what its caller left in the result. */
  predicate Hostless(start: UrlState, url: string) {
    Some(SchemaPart) in Parts(start, url) && Some(HostPart) !in Parts(start, url)
  }

  /** The URLs that http_parser_parse_url accepts. */
  predicate Acceptable(url: string, connect: bool) {
    var start := UrlStart(connect);
    var ps := AllParts(start, url);
    && !Walk(start, url).UrlDead?
    && (NeedsHost(start, url) ==> HostMayEnd(HostWalk(HostBegin(SawAt(start, url)), HostText(start, url))))
    && (connect ==> forall f :: Some(f) in ps <==> f.HostPart? || f.PortPart?)
    && (Some(PortPart) in ps ==> Number(10, Text(url, RangeIn(ps, PortPart))) <= 0xFFFF)
  }

  lemma {:induction false} WalkDies(s: UrlState, url: string, i: nat)
    requires i <= |url| && !Walk(s, url).UrlDead?
    ensures !Walk(s, url[..i]).UrlDead?
    decreases |url|
  {
    if i < |url| {
      WalkDies(s, url[..|url| - 1], i);
      assert url[..|url| - 1][..i] == url[..i];
    } else {
      assert url[..i] == url;
    }
  }

  lemma {:induction false} PartsAt(s: UrlState, url: string, i: nat)
    requires i < |url|
    ensures Parts(s, url)[i] == PartOf(Walk(s, url[..i + 1]))
    decreases |url|
  {
    if i < |url| - 1 {
      PartsAt(s, url[..|url| - 1], i);
      assert url[..|url| - 1][..i + 1] == url[..i + 1];
    } else {
      assert url[..i + 1] == url;
    }
  }

  lemma {:induction false} WalkStep(s: UrlState, url: string, i: nat)
    requires i < |url|
    ensures Walk(s, url[..i + 1]) == ParseUrlChar(Walk(s, url[..i]), url[i])
    ensures Parts(s, url[..i + 1]) == Parts(s, url[..i]) + [PartOf(Walk(s, url[..i + 1]))]
    ensures SawAt(s, url[..i + 1]) == (SawAt(s, url[..i]) || Walk(s, url[..i + 1]).ServerWithAt?)
  {
    hide ParseUrlChar, PartOf;
    assert url[..i + 1][..i] == url[..i];
  }

  lemma {:induction false} HostWalkStep(s: HostState, host: string, i: nat)
    requires i < |host|
    ensures HostWalk(s, host[..i + 1]) == ParseHostChar(HostWalk(s, host[..i]), host[i])
    ensures HostParts(s, host[..i + 1]) == HostParts(s, host[..i]) + [HostPartOf(HostWalk(s, host[..i + 1]))]
  {
    hide ParseHostChar, HostPartOf;
    assert host[..i + 1][..i] == host[..i];
  }

  lemma {:induction false} HostWalkDies(s: HostState, host: string, i: nat)
    requires i <= |host| && !HostWalk(s, host).HostDead?
    ensures !HostWalk(s, host[..i]).HostDead?
    decreases |host|
  {
    if i < |host| {
      HostWalkDies(s, host[..|host| - 1], i);
      assert host[..|host| - 1][..i] == host[..i];
    } else {
      assert host[..i] == host;
    }
  }

  lemma {:induction false} HostPartsAt(s: HostState, host: string, i: nat)
    requires i < |host|
    ensures HostParts(s, host)[i] == HostPartOf(HostWalk(s, host[..i + 1]))
    decreases |host|
  {
    if i < |host| - 1 {
      HostPartsAt(s, host[..|host| - 1], i);
      assert host[..|host| - 1][..i + 1] == host[..i + 1];
    } else {
      assert host[..i + 1] == host;
    }
  }

  predicate PastHost(s: HostState) { s.InHost? || s.InV6? || s.V6End? || s.PortStart? || s.InPort? }

  /** Nothing after the host is reached without a host. */
  lemma {:induction false} HostBefore(at: bool, host: string)
    requires PastHost(HostWalk(HostBegin(at), host))
    ensures Some(HostPart) in HostParts(HostBegin(at), host)
    decreases |host|
  {
    if host != [] {
      var n := |host| - 1;
      var s, s' := HostWalk(HostBegin(at), host[..n]), HostWalk(HostBegin(at), host);
      if s'.InHost? || s'.InV6? {
        assert HostParts(HostBegin(at), host)[n] == Some(HostPart);
      } else {
        assert PastHost(s);
        HostBefore(at, host[..n]);
      }
    }
  }

  /** The server part ends at the end of the URL or before '/' or '?'. */
  lemma {:induction false} AfterHost(start: UrlState, url: string, r: Range)
    requires Exact(r, Parts(start, url), 0, HostPart) && !Walk(start, url).UrlDead? && r.off + r.len < |url|
    ensures url[r.off + r.len] == '/' || url[r.off + r.len] == '?'
  {
    hide ParseUrlChar, Parts, Walk;
    var e := r.off + r.len;
    PartsAt(start, url, e - 1);
    PartsAt(start, url, e);
    WalkStep(start, url, e);
    WalkDies(start, url, e + 1);
    ServerLeft(Walk(start, url[..e]), url[e]);
  }

  lemma ServerLeft(s: UrlState, c: char)
    requires PartOf(s) == Some(HostPart) && PartOf(ParseUrlChar(s, c)) != Some(HostPart) && !ParseUrlChar(s, c).UrlDead?
    ensures c == '/' || c == '?'
  {
  }

  /** The ranges are exactly what ps says. */
  predicate Split(ps: seq<Option<Part>>, fieldSet: set<Part>, data: map<Part, Range>) {
    forall f :: (f in fieldSet <==> Some(f) in ps) && (f in fieldSet ==> f in data && Exact(data[f], ps, 0, f))
  }

  /** What the first pass knows is what the URL is split into, if there is no host. */
  lemma {:induction false} SplitWithoutHost(
    start: UrlState, url: string, fieldSet: set<Part>, data: map<Part, Range>, last: Option<Part>)
    requires Marked(fieldSet, data, Parts(start, url), Walk(start, url), last) && HostPart !in fieldSet
    ensures AllParts(start, url) == Parts(start, url) && Split(AllParts(start, url), fieldSet, data)
  {
    hide Exact, Walk;
    var ps := Parts(start, url);
    assert PartMarked(false, data[HostPart], ps, 0, 5, Depth(Walk(start, url)), HostPart);
    Nowhere(ps, HostPart);
    assert AllParts(start, url) == ps;
    forall f ensures (f in fieldSet <==> Some(f) in ps) && (f in fieldSet ==> Exact(data[f], ps, 0, f)) {
      assert PartMarked(f in fieldSet, data[f], ps, 0, PartDepth(f), Depth(Walk(start, url)), f);
    }
  }

  /** The smallest range is the only exact one. */
  lemma {:induction false} ExactIsRange(r: Range, ps: seq<Option<Part>>, f: Part)
    requires r.len > 0 && r.off + r.len <= |ps|
    requires forall i :: 0 <= i < |ps| ==> (ps[i] == Some(f) <==> r.off <= i < r.off + r.len)
    ensures RangeIn(ps, f) == r
    decreases |ps|
  {
    var n := |ps| - 1;
    if r.off + r.len <= n {
      ExactIsRange(r, ps[..n], f);
    } else if r.len == 1 {
      Nowhere(ps[..n], f);
    } else {
      ExactIsRange(Range(r.off, r.len - 1), ps[..n], f);
    }
  }

  /** A part that the second pass leaves alone. */
  lemma {:induction false} OutsideHost(ps: seq<Option<Part>>, host: Range, hs: seq<Option<Part>>, f: Part, r: Range)
    requires Exact(host, ps, 0, HostPart) && |hs| == host.len && Exact(r, ps, 0, f) && f != HostPart
    requires Some(f) !in hs
    ensures Exact(r, ps[..host.off] + hs + ps[host.off + host.len..], 0, f)
  {
    var all := ps[..host.off] + hs + ps[host.off + host.len..];
    forall i | 0 <= i < |all|
      ensures all[i] == Some(f) <==> r.off <= i < r.off + r.len
    {
      if host.off <= i < host.off + host.len {
        assert all[i] == hs[i - host.off] && hs[i - host.off] in hs && ps[i] == Some(HostPart);
      } else {
        assert all[i] == ps[i];
      }
    }
    ExactIsRange(r, all, f);
  }

  /** A part that the second pass finds. */
  lemma {:induction false} InsideHost(ps: seq<Option<Part>>, host: Range, hs: seq<Option<Part>>, f: Part, r: Range)
    requires Exact(host, ps, 0, HostPart) && |hs| == host.len && Exact(r, hs, host.off, f)
    requires f == HostPart || Some(f) !in ps
    ensures Exact(r, ps[..host.off] + hs + ps[host.off + host.len..], 0, f)
  {
    var all := ps[..host.off] + hs + ps[host.off + host.len..];
    forall i | 0 <= i < |all|
      ensures all[i] == Some(f) <==> r.off <= i < r.off + r.len
    {
      if host.off <= i < host.off + host.len {
        assert all[i] == hs[i - host.off];
      } else {
        assert all[i] == ps[i] && ps[i] in ps;
      }
    }
    ExactIsRange(r, all, f);
  }

  lemma InMiddle(a: seq<Option<Part>>, b: seq<Option<Part>>, c: seq<Option<Part>>, f: Part)
    ensures Some(f) in a + b + c <==> Some(f) in a || Some(f) in b || Some(f) in c
  {
  }

  /** The first pass never finds user information or a port. */
  lemma {:induction false} NeverFound(start: UrlState, url: string, f: Part)
    requires f.UserInfoPart? || f.PortPart?
    ensures Some(f) !in Parts(start, url)
    decreases |url|
  {
    if url != [] {
      NeverFound(start, url[..|url| - 1], f);
    }
  }

  lemma {:induction false} HostPartsOnly(s: HostState, host: string, f: Part)
    requires !IsHostPart(f)
    ensures Some(f) !in HostParts(s, host)
    decreases |host|
  {
    if host != [] {
      HostPartsOnly(s, host[..|host| - 1], f);
    }
  }

  lemma {:induction false} SplitWithHost(
    start: UrlState, url: string, set1: set<Part>, data1: map<Part, Range>, last: Option<Part>,
    set2: set<Part>, data2: map<Part, Range>)
    requires Marked(set1, data1, Parts(start, url), Walk(start, url), last) && HostPart in set1
    requires var hs := HostParts(HostBegin(SawAt(start, url)), HostText(start, url));
             HostMarked(set2, data2, hs, data1[HostPart].off,
               HostWalk(HostBegin(SawAt(start, url)), HostText(start, url)))
             && HostPart in set2 && Some(HostPart) in hs
    requires forall f :: f in data2 && (!IsHostPart(f) ==> (f in set2 <==> f in set1) && data2[f] == data1[f])
    ensures Split(AllParts(start, url), set2, data2)
  {
    hide Walk, SawAt, HostWalk, HostParts, Parts, RangeIn;
    var ps := Parts(start, url);
    var r := data1[HostPart];
    assert PartMarked(true, r, ps, 0, 5, Depth(Walk(start, url)), HostPart);
    assert RangeIn(ps, HostPart) == r;
    var hs := HostParts(HostBegin(SawAt(start, url)), HostText(start, url));
    var all := ps[..r.off] + hs + ps[r.off + r.len..];
    assert AllParts(start, url) == all;
    forall f ensures (f in set2 <==> Some(f) in all) && (f in set2 ==> Exact(data2[f], all, 0, f)) {
      SplitPart(start, url, set1, data1, last, set2, data2, r, f);
    }
  }

  lemma {:induction false} SplitPart(
    start: UrlState, url: string, set1: set<Part>, data1: map<Part, Range>, last: Option<Part>,
    set2: set<Part>, data2: map<Part, Range>, r: Range, f: Part)
    requires Marked(set1, data1, Parts(start, url), Walk(start, url), last) && HostPart in set1 && r == data1[HostPart]
    requires Exact(r, Parts(start, url), 0, HostPart)
    requires var hs := HostParts(HostBegin(SawAt(start, url)), HostText(start, url));
             HostMarked(set2, data2, hs, r.off, HostWalk(HostBegin(SawAt(start, url)), HostText(start, url)))
             && HostPart in set2 && Some(HostPart) in hs && |hs| == r.len
    requires forall f :: f in data2 && (!IsHostPart(f) ==> (f in set2 <==> f in set1) && data2[f] == data1[f])
    ensures var hs := HostParts(HostBegin(SawAt(start, url)), HostText(start, url));
            var all := Parts(start, url)[..r.off] + hs + Parts(start, url)[r.off + r.len..];
            (f in set2 <==> Some(f) in all) && (f in set2 ==> Exact(data2[f], all, 0, f))
  {
    hide Walk, SawAt, HostWalk, HostParts, Parts, RangeIn;
    var ps := Parts(start, url);
    var hs := HostParts(HostBegin(SawAt(start, url)), HostText(start, url));
    InMiddle(ps[..r.off], hs, ps[r.off + r.len..], f);
    InMiddle(ps[..r.off], ps[r.off..r.off + r.len], ps[r.off + r.len..], f);
    assert ps[..r.off] + ps[r.off..r.off + r.len] + ps[r.off + r.len..] == ps;
    assert PartMarked(f in set1, data1[f], ps, 0, PartDepth(f), Depth(Walk(start, url)), f);
    if IsHostPart(f) {
      assert PartMarked(Seen(set2, data2, f), data2[f], hs, r.off, HostPartDepth(f),
                        HostDepth(HostWalk(HostBegin(SawAt(start, url)), HostText(start, url))), f);
      if f != HostPart {
        NeverFound(start, url, f);
      }
      if Some(f) in hs {
        InsideHost(ps, r, hs, f, data2[f]);
      }
    } else {
      HostPartsOnly(HostBegin(SawAt(start, url)), HostText(start, url), f);
      NotInHost(ps, r, f);
      if f in set1 {
        OutsideHost(ps, r, hs, f, data1[f]);
      }
    }
  }

  lemma NotInHost(ps: seq<Option<Part>>, r: Range, f: Part)
    requires Exact(r, ps, 0, HostPart) && f != HostPart
    ensures Some(f) !in ps[r.off..r.off + r.len]
  {
  }

  // What it means for the parts of a URL to be told apart.

  predicate Covers(r: Range, i: nat) { r.off <= i < r.off + r.len }

  predicate IsDelimiter(c: char) { c == ':' || c == '/' || c == '?' || c == '#' || c == '@' || c == '[' || c == ']' }

  /** The ranges lie in the URL, no octet is in two of them, only delimiters are in none, a schema has a
      host, and the port is the number that its octets write. */
  ghost predicate Partition(url: string, fieldSet: set<Part>, data: map<Part, Range>, port: nat) {
    && (forall f :: f in fieldSet ==> f in data && data[f].len > 0 && data[f].off + data[f].len <= |url|)
    && (forall f, g, i: nat :: f in fieldSet && g in fieldSet && Covers(data[f], i) && Covers(data[g], i) ==> f == g)
    && (forall i :: 0 <= i < |url| ==> (exists f :: f in fieldSet && Covers(data[f], i)) || IsDelimiter(url[i]))
    && (SchemaPart in fieldSet ==> HostPart in fieldSet)
    && port == (if PortPart in fieldSet then Number(10, Text(url, data[PortPart])) else 0) && port <= 0xFFFF
  }

  lemma {:induction false} Undelimited(start: UrlState, url: string, i: nat)
    requires i < |url| && AllParts(start, url)[i].None? && !Walk(start, url).UrlDead?
    requires RangeIn(Parts(start, url), HostPart).len > 0 ==>
               Exact(RangeIn(Parts(start, url), HostPart), Parts(start, url), 0, HostPart)
               && !HostWalk(HostBegin(SawAt(start, url)), HostText(start, url)).HostDead?
    ensures IsDelimiter(url[i])
  {
    hide Parts, Walk, SawAt, HostWalk, HostParts, RangeIn, ParseUrlChar, ParseHostChar;
    var ps := Parts(start, url);
    var r := RangeIn(ps, HostPart);
    var s0 := HostBegin(SawAt(start, url));
    var host := HostText(start, url);
    if Covers(r, i) {
      var j := i - r.off;
      assert AllParts(start, url)[i] == HostParts(s0, host)[j] && host[j] == url[i];
      HostPartsAt(s0, host, j);
      HostWalkStep(s0, host, j);
      HostWalkDies(s0, host, j + 1);
      HostDelimiter(HostWalk(s0, host[..j]), url[i]);
    } else {
      assert AllParts(start, url)[i] == ps[i];
      PartsAt(start, url, i);
      WalkStep(start, url, i);
      WalkDies(start, url, i + 1);
      Delimiter(Walk(start, url[..i]), url[i]);
    }
  }

  lemma {:induction false} HostPlaced(
    start: UrlState, url: string, fieldSet: set<Part>, data: map<Part, Range>, last: Option<Part>)
    requires Marked(fieldSet, data, Parts(start, url), Walk(start, url), last)
    ensures HostPart in fieldSet ==>
              Exact(data[HostPart], Parts(start, url), 0, HostPart)
                && RangeIn(Parts(start, url), HostPart) == data[HostPart]
    ensures HostPart !in fieldSet ==> RangeIn(Parts(start, url), HostPart).len == 0 && HostText(start, url) == []
    ensures NeedsHost(start, url) <==> SchemaPart in fieldSet || HostPart in fieldSet
    ensures Hostless(start, url) <==> SchemaPart in fieldSet && HostPart !in fieldSet
    ensures UserInfoPart !in fieldSet && PortPart !in fieldSet
  {
    hide Walk, Parts, RangeIn;
    var ps, d := Parts(start, url), Depth(Walk(start, url));
    assert PartMarked(HostPart in fieldSet, data[HostPart], ps, 0, 5, d, HostPart);
    assert PartMarked(SchemaPart in fieldSet, data[SchemaPart], ps, 0, 1, d, SchemaPart);
    assert PartMarked(UserInfoPart in fieldSet, data[UserInfoPart], ps, 0, 12, d, UserInfoPart);
    assert PartMarked(PortPart in fieldSet, data[PortPart], ps, 0, 12, d, PortPart);
    NeverFound(start, url, UserInfoPart);
    NeverFound(start, url, PortPart);
    if HostPart !in fieldSet {
      Nowhere(ps, HostPart);
    }
  }

  const ZEROED: map<Part, Range> :=
    map[SchemaPart := Range(0, 0), HostPart := Range(0, 0), PortPart := Range(0, 0), PathPart := Range(0, 0),
        QueryPart := Range(0, 0), FragmentPart := Range(0, 0), UserInfoPart := Range(0, 0)]

  /** Where the digits that begin at off end. */
  function DigitsEnd(buf: string, off: nat): (end: nat)
    requires off <= |buf|
    ensures off <= end <= |buf| && IsDecimal(buf[off..end]) && (end < |buf| ==> !IsNum(buf[end]))
    decreases |buf| - off
  {
    if off == |buf| || !IsNum(buf[off]) then off
    else
      var end := DigitsEnd(buf, off + 1);
      assert buf[off..end] == [buf[off]] + buf[off + 1..end];
      end
  }

  lemma {:induction false} DigitsEndAt(buf: string, off: nat, end: nat)
    requires off <= end <= |buf| && IsDecimal(buf[off..end]) && (end < |buf| ==> !IsNum(buf[end]))
    ensures DigitsEnd(buf, off) == end
  {
    DigitsBefore(buf, off, end);
    DigitsBefore(buf, off, DigitsEnd(buf, off));
  }

  lemma {:induction false} DigitsBefore(buf: string, off: nat, end: nat)
    requires off <= end <= |buf| && IsDecimal(buf[off..end])
    ensures forall i :: off <= i < end ==> IsNum(buf[i])
  {
    forall i | off <= i < end
      ensures IsNum(buf[i])
    {
      assert buf[off..end][i - off] == buf[i];
    }
  }

  /** strtoul in base 10 */
  method StrToUl(buf: string, off: nat) returns (v: nat)
    requires off <= |buf|
    ensures var n := Number(10, buf[off..DigitsEnd(buf, off)]); v == if n < U64 then n else U64 - 1
  {
    var i := off;
    v := 0;
    while i < |buf| && IsNum(buf[i])
      invariant off <= i <= |buf| && IsDecimal(buf[off..i])
      invariant v == if Number(10, buf[off..i]) < U64 then Number(10, buf[off..i]) else U64 - 1
    {
      assert buf[off..i + 1] == buf[off..i] + [buf[i]];
      DigitValue(buf[i]);
      ValueSnoc(10, buf[off..i], buf[i]);
      v := v * 10 + Digit(buf[i]);
      if v >= U64 {
        v := U64 - 1;
      }
      i := i + 1;
    }
    DigitsEndAt(buf, off, i);
  }

  /** struct http_parser_url */
  class Url {
    var fieldSet: set<Part>
    var port: nat
    var data: map<Part, Range>

    constructor ()
      ensures fieldSet == {} && port == 0 && data == ZEROED
    {
      fieldSet, port, data := {}, 0, ZEROED;
    }

    /** The loop of http_parser_parse_url. */
    method FirstPass(buf: string, connect: bool) returns (ok: bool, foundAt: bool, ghost last: Option<Part>)
      requires fieldSet == {} && forall f :: f in data
      modifies this`fieldSet, this`data
      ensures ok <==> !Walk(UrlStart(connect), buf).UrlDead?
      ensures ok ==> Marked(fieldSet, data, Parts(UrlStart(connect), buf), Walk(UrlStart(connect), buf), last)
      ensures ok ==> foundAt == SawAt(UrlStart(connect), buf)
      ensures forall f :: f in data
      ensures HostPart !in fieldSet ==> data[HostPart] == old(data[HostPart])
    {
      hide Marked, Walk, Parts, SawAt, ParseUrlChar, Depth, PartDepth;
      ghost var start := UrlStart(connect);
      var s := if connect then ServerStart else SpacesBeforeUrl;
      var oldUf: Option<Part> := None;
      foundAt := false;
      var p := 0;
      FirstNothing(data, start, buf);
      while p < |buf|
        invariant p <= |buf| && s == Walk(start, buf[..p]) && !s.UrlDead?
        invariant Marked(fieldSet, data, Parts(start, buf[..p]), s, oldUf) && foundAt == SawAt(start, buf[..p])
        invariant forall f :: f in data
        invariant HostPart !in fieldSet ==> data[HostPart] == old(data[HostPart])
      {
        ghost var ps, before := Parts(start, buf[..p]), s;
        WalkStep(start, buf, p);
        MovesOn(s, buf[p]);
        WalkLeavesStart(start, buf[..p + 1]);
        s := ParseUrlChar(s, buf[p]);
        var uf := SchemaPart;
        match s {
          case UrlDead =>
            UrlDeadEnds(start, buf, p + 1);
            return false, foundAt, None;
          case Schema => uf := SchemaPart;
          case ServerWithAt =>
            foundAt := true;
            uf := HostPart;
          case Server => uf := HostPart;
          case Path => uf := PathPart;
          case Query => uf := QueryPart;
          case Fragment => uf := FragmentPart;
          case SpacesBeforeUrl => assert false;
          case _ =>
            MarkedSkips(fieldSet, data, ps, before, oldUf, s);
            p := p + 1;
            continue;
        }
        FirstAdvances(fieldSet, data, ps, before, oldUf, s, uf);
        if Some(uf) == oldUf {
          data := data[uf := data[uf].(len := data[uf].len + 1)];
        } else {
          data := data[uf := Range(p, 1)];
          fieldSet := fieldSet + {uf};
          oldUf := Some(uf);
        }
        p := p + 1;
      }
      assert buf[..p] == buf;
      ok, last := true, oldUf;
    }

    /** The octet at p has taken the host automaton from s to news. */
    method RecordHostOctet(s: HostState, news: HostState, p: nat)
      requires forall f :: f in data
      requires (news.InHost? || news.InV6?) && s != news ==> data[HostPart].len == 0
      requires news.InPort? && s == news ==> PortPart in fieldSet
      requires news.InUserInfo? && s == news ==> UserInfoPart in fieldSet
      modifies this`fieldSet, this`data
      ensures news.InHost? || news.InV6? ==>
                fieldSet == old(fieldSet) && data == old(data[HostPart := Noted(data[HostPart], p, s != news)])
      ensures news.InPort? ==>
                fieldSet == old(fieldSet) + {PortPart}
                  && data == old(data[PortPart := Noted(data[PortPart], p, s != news)])
      ensures news.InUserInfo? ==>
                fieldSet == old(fieldSet) + {UserInfoPart}
                  && data == old(data[UserInfoPart := Noted(data[UserInfoPart], p, s != news)])
      ensures !news.InHost? && !news.InV6? && !news.InPort? && !news.InUserInfo? ==>
                fieldSet == old(fieldSet) && data == old(data)
    {
      match news {
        case InHost =>
          if s != InHost {
            data := data[HostPart := data[HostPart].(off := p)];
          }
          data := data[HostPart := data[HostPart].(len := data[HostPart].len + 1)];
        case InV6 =>
          if s != InV6 {
            data := data[HostPart := data[HostPart].(off := p)];
          }
          data := data[HostPart := data[HostPart].(len := data[HostPart].len + 1)];
        case InPort =>
          if s != InPort {
            data := data[PortPart := Range(p, 0)];
            fieldSet := fieldSet + {PortPart};
          }
          data := data[PortPart := data[PortPart].(len := data[PortPart].len + 1)];
        case InUserInfo =>
          if s != InUserInfo {
            data := data[UserInfoPart := Range(p, 0)];
            fieldSet := fieldSet + {UserInfoPart};
          }
          data := data[UserInfoPart := data[UserInfoPart].(len := data[UserInfoPart].len + 1)];
        case _ =>
      }
    }

    /** http_parse_host */
    method ParseHost(buf: string, foundAt: bool) returns (ok: bool)
      requires forall f :: f in data
      requires data[HostPart].off + data[HostPart].len <= |buf|
      requires UserInfoPart !in fieldSet && PortPart !in fieldSet
      modifies this`fieldSet, this`data
      ensures forall f :: f in data
      ensures forall f :: !IsHostPart(f) ==> (f in fieldSet <==> f in old(fieldSet)) && data[f] == old(data[f])
      ensures HostPart in fieldSet <==> HostPart in old(fieldSet)
      ensures var host := Text(buf, old(data[HostPart]));
              && (ok <==> HostMayEnd(HostWalk(HostBegin(foundAt), host)))
              && (ok ==> HostMarked(fieldSet, data, HostParts(HostBegin(foundAt), host), old(data[HostPart].off),
                                    HostWalk(HostBegin(foundAt), host)))
    {
      hide HostMarked, ParseHostChar, HostWalk, HostParts, HostPartOf, Number, Noted;
      ghost var host, base, s0 := Text(buf, data[HostPart]), data[HostPart].off, HostBegin(foundAt);
      var end := data[HostPart].off + data[HostPart].len;
      var p := data[HostPart].off;
      data := data[HostPart := data[HostPart].(len := 0)];
      var s := if foundAt then UserInfoStart else HostStart;
      NothingYet(fieldSet, data, base, s);
      HostNothing(s0, host);
      while p < end
        invariant base <= p <= end && end == base + |host| && s == HostWalk(s0, host[..p - base]) && !s.HostDead?
        invariant HostMarked(fieldSet, data, HostParts(s0, host[..p - base]), base, s)
        invariant forall f :: f in data
        invariant forall f :: !IsHostPart(f) ==> (f in fieldSet <==> f in old(fieldSet)) && data[f] == old(data[f])
        invariant HostPart in fieldSet <==> HostPart in old(fieldSet)
      {
        var news := ParseHostChar(s, buf[p]);
        HostWalkStep(s0, host, p - base);
        if news == HostDead {
          DeadEnds(s0, host, p - base + 1);
          return false;
        }
        HostAdvances(fieldSet, data, s0, host, p - base, base, s, news);
        RecordHostOctet(s, news, p);
        s := news;
        p := p + 1;
      }
      assert host[..p - base] == host;
      ok := s == InHost || s == V6End || s == InPort;
    }

    /** Both passes. */
    method Divide(buf: string, connect: bool) returns (ok: bool)
      requires fieldSet == {} && forall f :: f in data
      requires Hostless(UrlStart(connect), buf) ==> data[HostPart].off + data[HostPart].len <= |buf|
      modifies this`fieldSet, this`data
      ensures Hostless(UrlStart(connect), buf) ==>
                (ok <==>
                   !Walk(UrlStart(connect), buf).UrlDead? && LeftoverOk(UrlStart(connect), buf, old(data[HostPart])))
                && (ok ==> LeftoverPort(UrlStart(connect), buf, old(data[HostPart]), fieldSet, data))
      ensures !Hostless(UrlStart(connect), buf) ==>
                (ok <==> Divisible(UrlStart(connect), buf))
                && (ok ==>
                      Split(AllParts(UrlStart(connect), buf), fieldSet, data) && HostTogether(UrlStart(connect), buf))
                && (ok && PortPart in fieldSet ==> PortIs(buf, data[PortPart]))
    {
      hide Marked, HostMarked, Walk, Parts, AllParts, SawAt, HostWalk, HostParts, Split, PortIs, RangeIn, Exact;
      hide Hostless, LeftoverPort;
      ghost var start := UrlStart(connect);
      var first, foundAt, last := FirstPass(buf, connect);
      if !first {
        return false;
      }
      HostPlaced(start, buf, fieldSet, data, last);
      ghost var set1, data1 := fieldSet, data;
      if SchemaPart in fieldSet || HostPart in fieldSet {
        ok := ParseHost(buf, foundAt);
        if ok {
          if HostPart in set1 {
            HostFound(start, buf, set1, data1, last, fieldSet, data);
          } else {
            LeftoverFound(start, buf, data1[HostPart], fieldSet, data);
          }
        }
      } else {
        ok := true;
        SplitWithoutHost(start, buf, fieldSet, data, last);
      }
    }

    /** The port, if there is one. */
    method PortCheck(buf: string) returns (ok: bool)
      requires PortPart in fieldSet ==> PortPart in data && data[PortPart].off <= |buf|
      modifies this`port
      ensures ok <==> (PortPart in fieldSet ==> PortFrom(buf, data[PortPart].off) <= 0xFFFF)
      ensures ok ==> port == if PortPart in fieldSet then PortFrom(buf, data[PortPart].off) else old(port)
    {
      hide Number;
      if PortPart in fieldSet {
        var v := StrToUl(buf, data[PortPart].off);
        if v > 0xFFFF {
          return false;
        }
        port := v;
      }
      ok := true;
    }

    /** http_parser_parse_url, for a buffer whose offsets fit the 16-bit fields.  The result may hold anything
        beforehand: only for a schema without a host does it matter what it holds, and there the range left over
        for the host must lie in the buffer. */
    method Parse(buf: string, connect: bool) returns (ok: bool)
      requires |buf| <= 0xFFFF && forall f :: f in data
      requires Hostless(UrlStart(connect), buf) ==> data[HostPart].off + data[HostPart].len <= |buf|
      modifies this
      ensures !Hostless(UrlStart(connect), buf) ==>
                (ok <==> Acceptable(buf, connect))
                && (ok ==>
                      Split(AllParts(UrlStart(connect), buf), fieldSet, data) && Partition(buf, fieldSet, data, port))
      ensures Hostless(UrlStart(connect), buf) ==>
                !Acceptable(buf, connect) && (ok <==> LeftoverAccepted(buf, connect, old(data[HostPart])))
    {
      hide Divisible, AllParts, Exact, PortIs, Number, Partition, RangeIn, Text, Hostless, Walk, LeftoverPort;
      hide Acceptable;
      hide LeftoverOk, HostTogether, Parts;
      ghost var r := data[HostPart];
      port, fieldSet := 0, {};
      ghost var start := UrlStart(connect);
      var divided := Divide(buf, connect);
      AcceptableMeans(buf, connect);
      ghost var hostless := Hostless(start, buf);
      if hostless {
        HostlessFails(buf, connect);
      }
      if !divided {
        return false;
      }
      if connect && fieldSet != {HostPart, PortPart} {
        return false;
      }
      if hostless {
        LeftoverPlaced(start, buf, r, fieldSet, data);
      } else {
        if PortPart in fieldSet {
          PortRange(buf, AllParts(start, buf), fieldSet, data);
          PortNumber(buf, data[PortPart]);
        }
      }
      ok := PortCheck(buf);
      if ok && !hostless {
        SplitIsPartition(start, buf, fieldSet, data, port);
      }
    }
  }

  /** strtoul from off on. */
  function PortFrom(buf: string, off: nat): nat
    requires off <= |buf|
  {
    Number(10, buf[off..DigitsEnd(buf, off)])
  }

  /** The host automaton accepts what the range left over in the result happens to cover. */
  predicate LeftoverOk(start: UrlState, buf: string, r: Range)
    requires r.off + r.len <= |buf|
  {
    HostMayEnd(HostWalk(HostBegin(SawAt(start, buf)), Text(buf, r)))
  }

  function LeftoverParts(start: UrlState, buf: string, r: Range): seq<Option<Part>>
    requires r.off + r.len <= |buf|
  {
    HostParts(HostBegin(SawAt(start, buf)), Text(buf, r))
  }

  /** The port is the one found in the leftover range. */
  predicate LeftoverPort(start: UrlState, buf: string, r: Range, fieldSet: set<Part>, data: map<Part, Range>)
    requires r.off + r.len <= |buf|
  {
    var hs := LeftoverParts(start, buf, r);
    && (PortPart in fieldSet <==> Some(PortPart) in hs)
    && (PortPart in fieldSet ==> PortPart in data && Exact(data[PortPart], hs, r.off, PortPart))
  }

  /** What becomes of a schema without a host, if the result came with the range r for the host. */
  predicate LeftoverAccepted(buf: string, connect: bool, r: Range)
    requires r.off + r.len <= |buf|
  {
    var start := UrlStart(connect);
    var hs := LeftoverParts(start, buf, r);
    && !Walk(start, buf).UrlDead? && LeftoverOk(start, buf, r)
    && (Some(PortPart) in hs ==> PortFrom(buf, r.off + RangeIn(hs, PortPart).off) <= 0xFFFF)
  }

  lemma {:induction false} LeftoverFound(
    start: UrlState, buf: string, r: Range, fieldSet: set<Part>, data: map<Part, Range>)
    requires r.off + r.len <= |buf|
    requires HostMarked(fieldSet, data, LeftoverParts(start, buf, r), r.off,
                        HostWalk(HostBegin(SawAt(start, buf)), Text(buf, r)))
    ensures LeftoverPort(start, buf, r, fieldSet, data)
  {
    hide Exact, HostWalk, HostParts, SawAt;
    var d := HostDepth(HostWalk(HostBegin(SawAt(start, buf)), Text(buf, r)));
    var hs := LeftoverParts(start, buf, r);
    assert PartMarked(Seen(fieldSet, data, PortPart), data[PortPart], hs, r.off, HostPartDepth(PortPart), d, PortPart);
  }

  lemma {:induction false} LeftoverPlaced(
    start: UrlState, buf: string, r: Range, fieldSet: set<Part>, data: map<Part, Range>)
    requires r.off + r.len <= |buf| && LeftoverPort(start, buf, r, fieldSet, data)
    ensures var hs := LeftoverParts(start, buf, r);
            && (PortPart in fieldSet <==> Some(PortPart) in hs)
            && (PortPart in fieldSet ==>
                  PortPart in data && data[PortPart].off <= |buf|
                  && data[PortPart].off == r.off + RangeIn(hs, PortPart).off)
  {
    hide HostParts, SawAt;
  }

  lemma {:induction false} NoSchema(url: string)
    ensures Some(SchemaPart) !in Parts(ServerStart, url) && Depth(Walk(ServerStart, url)) > 1
    decreases |url|
  {
    hide ParseUrlChar, PartOf;
    if url != [] {
      var n := |url| - 1;
      NoSchema(url[..n]);
      MovesOn(Walk(ServerStart, url[..n]), url[n]);
      MovesOn(Walk(ServerStart, url), 'x');
    }
  }

  lemma {:induction false} HostlessIndivisible(start: UrlState, url: string)
    ensures Hostless(start, url) ==> !Divisible(start, url)
  {
    hide Walk, HostWalk, SawAt, Parts, RangeIn;
    if Hostless(start, url) {
      Nowhere(Parts(start, url), HostPart);
      assert HostText(start, url) == [];
      EmptyHost(SawAt(start, url));
    }
  }

  /** A schema without a host is not acceptable. */
  lemma {:induction false} HostlessFails(buf: string, connect: bool)
    requires Hostless(UrlStart(connect), buf)
    ensures !connect && !Acceptable(buf, connect)
  {
    NoSchema(buf);
    HostlessIndivisible(UrlStart(connect), buf);
    AcceptableMeans(buf, connect);
    hide Acceptable, Divisible, Parts;
  }

  lemma HostNothing(s: HostState, host: string)
    ensures HostWalk(s, host[..0]) == s && HostParts(s, host[..0]) == []
    ensures HostPartOf(HostBegin(true)).None? && HostPartOf(HostBegin(false)).None?
  {
  }

  /** The range of a part after one more octet. */
  function Noted(r: Range, p: nat, starts: bool): Range { if starts then Range(p, 1) else r.(len := r.len + 1) }

  /** One octet of the second pass. */
  lemma {:induction false} HostAdvances(
    fieldSet: set<Part>, data: map<Part, Range>, s0: HostState, host: string, i: nat, base: nat, s: HostState,
      news: HostState)
    requires i < |host| && s == HostWalk(s0, host[..i]) && news == ParseHostChar(s, host[i]) && !news.HostDead?
    requires HostMarked(fieldSet, data, HostParts(s0, host[..i]), base, s) && HostPartOf(s0).None?
    ensures news.InHost? || news.InV6? ==>
              HostMarked(fieldSet, data[HostPart := Noted(data[HostPart], base + i, s != news)],
                HostParts(s0, host[..i + 1]), base, news)
              && (s != news ==> data[HostPart].len == 0)
    ensures news.InPort? ==>
              HostMarked(fieldSet + {PortPart}, data[PortPart := Noted(data[PortPart], base + i, s != news)],
                HostParts(s0, host[..i + 1]), base, news)
              && (s == news ==> PortPart in fieldSet)
    ensures news.InUserInfo? ==>
              HostMarked(fieldSet + {UserInfoPart},
                data[UserInfoPart := Noted(data[UserInfoPart], base + i, s != news)], HostParts(s0, host[..i + 1]),
                  base, news)
              && (s == news ==> UserInfoPart in fieldSet)
    ensures !news.InHost? && !news.InV6? && !news.InPort? && !news.InUserInfo? ==>
              HostMarked(fieldSet, data, HostParts(s0, host[..i + 1]), base, news)
  {
    hide ParseHostChar, HostWalk, HostParts, PartMarked;
    var ps := HostParts(s0, host[..i]);
    HostWalkStep(s0, host, i);
    HostMovesOn(s, host[i]);
    match HostPartOf(news)
    case None => HostSkips(fieldSet, data, ps, base, s, news);
    case Some(f) =>
      if s == news {
        HostHere(s0, host[..i]);
        HostGrows(fieldSet, data, ps, base, s, f);
        SeenParts(fieldSet, data, ps, base, s, f);
      } else {
        HostStarts(fieldSet, data, ps, base, s, news, f);
        NotSeenParts(fieldSet, data, ps, base, s, f, news);
      }
      HostUnlisted(fieldSet, data[f := Noted(data[f], base + i, s != news)], ps + [Some(f)], base, news);
  }

  /** Whether the set lists the host makes no difference to the second pass. */
  lemma {:induction false} HostUnlisted(
    fieldSet: set<Part>, data: map<Part, Range>, ps: seq<Option<Part>>, base: nat, s: HostState)
    ensures HostMarked(fieldSet + {HostPart}, data, ps, base, s) ==> HostMarked(fieldSet, data, ps, base, s)
  {
    hide PartMarked;
  }

  lemma {:induction false} SeenParts(
    fieldSet: set<Part>, data: map<Part, Range>, ps: seq<Option<Part>>, base: nat, s: HostState, f: Part)
    requires HostMarked(fieldSet, data, ps, base, s) && IsHostPart(f) && Some(f) in ps
    ensures !f.HostPart? ==> f in fieldSet && fieldSet + {f} == fieldSet
  {
    hide Exact;
    assert PartMarked(Seen(fieldSet, data, f), data[f], ps, base, HostPartDepth(f), HostDepth(s), f);
  }

  lemma {:induction false} NotSeenParts(
    fieldSet: set<Part>, data: map<Part, Range>, ps: seq<Option<Part>>, base: nat, s: HostState, f: Part,
      news: HostState)
    requires HostMarked(fieldSet, data, ps, base, s) && HostPartOf(news) == Some(f) && HostDepth(s) < HostDepth(news)
    ensures f.HostPart? ==> data[f].len == 0
  {
    hide Exact;
    HostMovesOn(news, 'x');
    assert PartMarked(Seen(fieldSet, data, f), data[f], ps, base, HostPartDepth(f), HostDepth(s), f);
  }

  lemma FirstNothing(data: map<Part, Range>, start: UrlState, url: string)
    requires (start.SpacesBeforeUrl? || start.ServerStart?) && forall f :: f in data
    ensures Walk(start, url[..0]) == start && !SawAt(start, url[..0])
    ensures Marked({}, data, Parts(start, url[..0]), start, None)
  {
  }

  lemma {:induction false} UrlDeadEnds(start: UrlState, url: string, i: nat)
    requires i <= |url| && Walk(start, url[..i]).UrlDead?
    ensures Walk(start, url).UrlDead?
  {
    hide Walk;
    if !Walk(start, url).UrlDead? {
      WalkDies(start, url, i);
    }
  }

  /** One octet of the first pass. */
  lemma {:induction false} FirstAdvances(
    fieldSet: set<Part>, data: map<Part, Range>, ps: seq<Option<Part>>, s: UrlState, last: Option<Part>, s': UrlState,
      f: Part)
    requires Marked(fieldSet, data, ps, s, last) && PartOf(s') == Some(f) && Depth(s) <= Depth(s')
    ensures f in data
    ensures last == Some(f) ==>
            Marked(fieldSet, data[f := data[f].(len := data[f].len + 1)], ps + [Some(f)], s', last) && f in fieldSet
    ensures last != Some(f) ==> Marked(fieldSet + {f}, data[f := Range(|ps|, 1)], ps + [Some(f)], s', Some(f))
  {
    hide PartMarked;
    if last == Some(f) {
      MarkedGrows(fieldSet, data, ps, s, s', f);
    } else {
      MarkedStarts(fieldSet, data, ps, s, last, s', f);
    }
  }

  /** What both passes accept. */
  predicate Divisible(start: UrlState, url: string) {
    && !Walk(start, url).UrlDead?
    && (NeedsHost(start, url) ==> HostMayEnd(HostWalk(HostBegin(SawAt(start, url)), HostText(start, url))))
  }

  lemma {:induction false} AcceptableMeans(url: string, connect: bool)
    ensures var start := UrlStart(connect);
            var ps := AllParts(start, url);
            Acceptable(url, connect) <==>
            && Divisible(start, url)
            && (connect ==> forall f :: Some(f) in ps <==> f.HostPart? || f.PortPart?)
            && (Some(PortPart) in ps ==> Number(10, Text(url, RangeIn(ps, PortPart))) <= 0xFFFF)
  {
    hide Walk, HostWalk, SawAt, AllParts, Number, RangeIn, NeedsHost, HostText;
  }

  /** The octets of r are digits and nothing that follows them is. */
  predicate PortIs(url: string, r: Range) {
    r.off + r.len <= |url| && IsDecimal(Text(url, r)) && (r.off + r.len < |url| ==> !IsNum(url[r.off + r.len]))
  }

  lemma {:induction false} PortNumber(url: string, r: Range)
    requires PortIs(url, r)
    ensures Text(url, r) == url[r.off..DigitsEnd(url, r.off)]
  {
    DigitsEndAt(url, r.off, r.off + r.len);
  }

  lemma {:induction false} PortRange(url: string, ps: seq<Option<Part>>, fieldSet: set<Part>, data: map<Part, Range>)
    requires Split(ps, fieldSet, data) && PortPart in fieldSet
    ensures Some(PortPart) in ps && RangeIn(ps, PortPart) == data[PortPart]
  {
    hide RangeIn;
  }

  lemma EmptyHost(at: bool)
    ensures !HostMayEnd(HostWalk(HostBegin(at), []))
  {
  }

  /** The second pass accepted the host. */
  lemma {:induction false} HostFound(
    start: UrlState, url: string, set1: set<Part>, data1: map<Part, Range>, last: Option<Part>,
    set2: set<Part>, data2: map<Part, Range>)
    requires Marked(set1, data1, Parts(start, url), Walk(start, url), last) && !Walk(start, url).UrlDead?
    requires HostPart !in set1 ==> HostText(start, url) == []
    requires HostPart in set1 ==> Exact(data1[HostPart], Parts(start, url), 0, HostPart)
                                  && RangeIn(Parts(start, url), HostPart) == data1[HostPart]
    requires HostPart in set1 <==> HostPart in set2
    requires var s0, host := HostBegin(SawAt(start, url)), HostText(start, url);
             HostMayEnd(HostWalk(s0, host))
             && HostMarked(set2, data2, HostParts(s0, host), data1[HostPart].off, HostWalk(s0, host))
    requires forall f :: f in data2 && (!IsHostPart(f) ==> (f in set2 <==> f in set1) && data2[f] == data1[f])
    ensures Split(AllParts(start, url), set2, data2)
    ensures PortPart in set2 ==> PortIs(url, data2[PortPart])
  {
    assert HostPart in data1;
    hide Marked, HostMarked, Walk, Parts, AllParts, SawAt, HostParts, Split, PortIs, RangeIn, Exact, IsHostPart;
    var s0, host := HostBegin(SawAt(start, url)), HostText(start, url);
    EmptyHost(SawAt(start, url));
    hide HostWalk;
    if HostPart in set1 {
      HostBefore(SawAt(start, url), host);
      SplitWithHost(start, url, set1, data1, last, set2, data2);
      if PortPart in set2 {
        PortEnds(start, url, data1[HostPart], set2, data2);
      }
    }
  }

  lemma {:induction false} PortEnds(start: UrlState, url: string, r: Range, set2: set<Part>, data2: map<Part, Range>)
    requires !Walk(start, url).UrlDead? && Exact(r, Parts(start, url), 0, HostPart)
             && RangeIn(Parts(start, url), HostPart) == r
    requires var s0, host := HostBegin(SawAt(start, url)), HostText(start, url);
             HostMayEnd(HostWalk(s0, host)) && HostMarked(set2, data2, HostParts(s0, host), r.off, HostWalk(s0, host))
    requires PortPart in set2
    ensures PortIs(url, data2[PortPart])
  {
    hide Walk, Parts, SawAt, HostWalk, HostParts, RangeIn;
    var s0, host := HostBegin(SawAt(start, url)), HostText(start, url);
    var s, hs, q := HostWalk(s0, host), HostParts(s0, host), data2[PortPart];
    assert PartMarked(Seen(set2, data2, PortPart), q, hs, r.off, 7, HostDepth(s), PortPart);
    assert q.off + q.len == r.off + r.len;
    if q.off + q.len < |url| {
      AfterHost(start, url, r);
    }
    forall i | 0 <= i < q.len
      ensures IsNum(Text(url, q)[i])
    {
      var j := q.off + i - r.off;
      assert Text(url, q)[i] == host[j] && hs[j] == Some(PortPart);
      HostPartsAt(s0, host, j);
      HostWalkStep(s0, host, j);
      PortOctet(HostWalk(s0, host[..j]), host[j]);
    }
  }

  lemma PortOctet(s: HostState, c: char)
    requires HostPartOf(ParseHostChar(s, c)) == Some(PortPart)
    ensures IsNum(c)
  {
  }

  /** The octets of the host are next to each other. */
  predicate HostTogether(start: UrlState, url: string) {
    var r := RangeIn(Parts(start, url), HostPart);
    r.len > 0 ==> Exact(r, Parts(start, url), 0, HostPart)
  }

  lemma {:induction false} HostIsAlive(start: UrlState, url: string)
    requires Divisible(start, url)
    ensures RangeIn(Parts(start, url), HostPart).len > 0 ==>
            !HostWalk(HostBegin(SawAt(start, url)), HostText(start, url)).HostDead?
  {
    hide Walk, Parts, SawAt, HostWalk, RangeIn, HostText;
    if Some(HostPart) !in Parts(start, url) {
      Nowhere(Parts(start, url), HostPart);
    }
  }

  lemma {:induction false} SchemaHasHost(start: UrlState, url: string)
    requires Divisible(start, url) && Some(SchemaPart) in AllParts(start, url)
    ensures Some(HostPart) in AllParts(start, url)
  {
    hide Walk, Parts, SawAt, HostWalk, RangeIn, HostText, HostParts;
    var ps := Parts(start, url);
    var r := RangeIn(ps, HostPart);
    var s0, host := HostBegin(SawAt(start, url)), Text(url, r);
    assert HostText(start, url) == host by { HostTextIs(start, url); }
    var hs := HostParts(s0, host);
    InMiddle(ps[..r.off], hs, ps[r.off + r.len..], SchemaPart);
    InMiddle(ps[..r.off], hs, ps[r.off + r.len..], HostPart);
    HostPartsOnly(s0, host, SchemaPart);
    HostBefore(SawAt(start, url), host);
  }

  lemma HostTextIs(start: UrlState, url: string)
    ensures HostText(start, url) == Text(url, RangeIn(Parts(start, url), HostPart))
  {
  }

  lemma {:induction false} SplitIsPartition(
    start: UrlState, url: string, fieldSet: set<Part>, data: map<Part, Range>, port: nat)
    requires Divisible(start, url) && HostTogether(start, url) && Split(AllParts(start, url), fieldSet, data)
             && port <= 0xFFFF
    requires PortPart in fieldSet ==> PortIs(url, data[PortPart]) && port == Number(10, Text(url, data[PortPart]))
    requires PortPart !in fieldSet ==> port == 0
    ensures Partition(url, fieldSet, data, port)
  {
    hide Walk, Parts, AllParts, SawAt, HostWalk, HostParts, RangeIn, Number;
    var ps := AllParts(start, url);
    forall f, g, i: nat | f in fieldSet && g in fieldSet && Covers(data[f], i) && Covers(data[g], i)
      ensures f == g
    {
      assert Exact(data[f], ps, 0, f) && Exact(data[g], ps, 0, g);
      assert ps[i] == Some(f) && ps[i] == Some(g);
    }
    forall i | 0 <= i < |url|
      ensures (exists f :: f in fieldSet && Covers(data[f], i)) || IsDelimiter(url[i])
    {
      match ps[i]
      case Some(f) =>
        assert ps[i] in ps && Exact(data[f], ps, 0, f);
        assert f in fieldSet && Covers(data[f], i);
      case None =>
        HostIsAlive(start, url);
        Undelimited(start, url, i);
    }
    if SchemaPart in fieldSet {
      SchemaHasHost(start, url);
    }
  }

  lemma NothingYet(fieldSet: set<Part>, data: map<Part, Range>, base: nat, s: HostState)
    requires (forall f :: f in data) && data[HostPart].len == 0 && UserInfoPart !in fieldSet && PortPart !in fieldSet
    ensures HostMarked(fieldSet, data, [], base, s)
  {
  }

  lemma {:induction false} DeadEnds(s: HostState, host: string, i: nat)
    requires i <= |host| && HostWalk(s, host[..i]).HostDead?
    ensures HostWalk(s, host).HostDead?
  {
    hide HostWalk;
    if !HostWalk(s, host).HostDead? {
      HostWalkDies(s, host, i);
    }
  }

  lemma {:induction false} HostHere(s: HostState, host: string)
    requires HostPartOf(s).None? && HostPartOf(HostWalk(s, host)).Some?
    ensures HostPartOf(HostWalk(s, host)) in HostParts(s, host)
  {
    hide HostPartOf;
    if host != [] {
      assert HostParts(s, host)[|host| - 1] == HostPartOf(HostWalk(s, host));
    }
  }

  lemma {:induction false} PathOnly(url: string, f: Part)
    requires url != [] && (url[0] == '/' || url[0] == '*')
    ensures var s := Walk(SpacesBeforeUrl, url); Depth(s) >= 6
    ensures PartDepth(f) <= 5 ==> Some(f) !in Parts(SpacesBeforeUrl, url)
    decreases |url|
  {
    hide ParseUrlChar, PartOf;
    var n := |url| - 1;
    var s := Walk(SpacesBeforeUrl, url[..n]);
    MovesOn(s, url[n]);
    MovesOn(Walk(SpacesBeforeUrl, url), 'x');
    if n == 0 {
      PathStarts(url[0]);
      assert Parts(SpacesBeforeUrl, url[..0]) == [];
    } else {
      PathOnly(url[..n], f);
    }
  }

  lemma PathStarts(c: char)
    requires c == '/' || c == '*'
    ensures ParseUrlChar(SpacesBeforeUrl, c) == Path
  {
  }

  lemma {:induction false} PartsAreDeep(start: UrlState, url: string, f: Part)
    requires Some(f) in Parts(start, url)
    ensures PartDepth(f) <= Depth(Walk(start, url))
    decreases |url|
  {
    hide ParseUrlChar, PartOf;
    if url != [] {
      var n := |url| - 1;
      MovesOn(Walk(start, url[..n]), url[n]);
      MovesOn(Walk(start, url), 'x');
      if Some(f) in Parts(start, url[..n]) {
        PartsAreDeep(start, url[..n], f);
      }
    }
  }

  lemma FirstOctet(connect: bool, c: char)
    ensures var s := ParseUrlChar(UrlStart(connect), c);
            PartOf(s) == Some(SchemaPart) || PartOf(s) == Some(HostPart) || Depth(s) >= 6
  {
  }

  /** A URL with neither schema nor host begins with its path or its query. */
  lemma {:induction false} PlainUrl(connect: bool, url: string)
    requires url != [] && !NeedsHost(UrlStart(connect), url)
    ensures Depth(Walk(UrlStart(connect), url)) >= 6
    decreases |url|
  {
    hide ParseUrlChar, PartOf;
    var n := |url| - 1;
    var start := UrlStart(connect);
    if n == 0 {
      assert url[..0] == [];
      FirstOctet(connect, url[0]);
      assert Parts(start, url) == [PartOf(Walk(start, url))];
    } else {
      PlainUrl(connect, url[..n]);
      MovesOn(Walk(start, url[..n]), url[n]);
    }
  }

  lemma DeepEnough(s: UrlState)
    ensures Depth(s) >= 5 && !s.UrlDead? <==> UrlMayEnd(s)
  {
  }

  lemma {:induction false} AcceptableMayEnd(connect: bool, url: string)
    requires url != [] && Divisible(UrlStart(connect), url)
    ensures UrlMayEnd(Walk(UrlStart(connect), url))
  {
    hide Walk, HostWalk, SawAt, Parts, RangeIn, UrlMayEnd;
    var start := UrlStart(connect);
    DeepEnough(Walk(start, url));
    HostlessIndivisible(start, url);
    if Some(HostPart) in Parts(start, url) {
      PartsAreDeep(start, url, HostPart);
    } else {
      PlainUrl(connect, url);
    }
  }

  /** The two readings of a URL, in any form.  What http_parser_parse_url accepts is a URL that the request
      parser delivers and lets end; what the parser delivers and lets end is accepted exactly if in addition the
      host is well formed, the port fits its field, and a CONNECT target is a host and a port and nothing else. */
  lemma {:induction false} DeliveredUrlsSplit(c: Core, log: seq<Event>, url: string)
    requires c.state == InUrl(SpacesBeforeUrl) && url != [] && IsUrlText(url)
    ensures var connect := c.verb.Connect?;
            var start := UrlStart(connect);
            var ps := AllParts(start, url);
            Acceptable(url, connect) <==>
            && Run(c, log, url).end.More? && UrlMayEnd(Walk(start, url))
            && (NeedsHost(start, url) ==> HostMayEnd(HostWalk(HostBegin(SawAt(start, url)), HostText(start, url))))
            && (connect ==> forall f :: Some(f) in ps <==> f.HostPart? || f.PortPart?)
            && (Some(PortPart) in ps ==> Number(10, Text(url, RangeIn(ps, PortPart))) <= 0xFFFF)
  {
    hide Run, Push, Walk, AllParts, SawAt, HostWalk, RangeIn, Number, NeedsHost, HostText, UrlMayEnd;
    UrlRun(c, log, url);
    AcceptableMeans(url, c.verb.Connect?);
    if Divisible(UrlStart(c.verb.Connect?), url) {
      AcceptableMayEnd(c.verb.Connect?, url);
    }
  }

  /** The two readings agree: http_parser_parse_url accepts every path that the parser delivers as the
      URL of a request. */
  lemma {:induction false} DeliveredPathsSplit(c: Core, log: seq<Event>, url: string)
    requires c.state == InUrl(SpacesBeforeUrl) && !c.verb.Connect?
    requires url != [] && IsUrlText(url) && (url[0] == '/' || url[0] == '*')
    ensures Run(c, log, url).end.More? <==> Acceptable(url, false)
  {
    hide Run, Push, Walk, Parts, SawAt, HostWalk, HostParts, RangeIn, Number;
    UrlRun(c, log, url);
    var ps := Parts(SpacesBeforeUrl, url);
    forall f ensures PartDepth(f) <= 5 ==> Some(f) !in ps { PathOnly(url, f); }
    Nowhere(ps, HostPart);
    NeverFound(SpacesBeforeUrl, url, PortPart);
    assert AllParts(SpacesBeforeUrl, url) == ps;
    AcceptableMeans(url, false);
  }

  /** The request parser delivers the URL "http:///x", and of this URL http_parser_parse_url makes whatever its
      caller left in the result: an untouched result gives an error, and one that still says that a host
      of four octets begins the buffer gives success. */
  lemma {:induction false} LeftoverMatters(c: Core, log: seq<Event>)
    requires c.state == InUrl(SpacesBeforeUrl) && !c.verb.Connect?
    ensures Run(c, log, "http:///x").end.More? && UrlMayEnd(Walk(SpacesBeforeUrl, "http:///x"))
    ensures Hostless(UrlStart(false), "http:///x") && !Acceptable("http:///x", false)
    ensures !LeftoverAccepted("http:///x", false, Range(0, 0))
    ensures LeftoverAccepted("http:///x", false, Range(0, 4))
  {
    hide Run, Push, RangeIn, Number;
    HostlessWalk();
    UrlRun(c, log, "http:///x");
    HostlessFails("http:///x", false);
    hide Walk, Parts, Acceptable, Hostless;
    var url := "http:///x";
    assert Text(url, Range(0, 0)) == [] && Text(url, Range(0, 4)) == "http";
    EmptyHost(false);
    HttpIsHost();
  }

  lemma {:induction false} SchemaWalk()
    ensures Walk(SpacesBeforeUrl, "http:") == SchemaSlash && !SawAt(SpacesBeforeUrl, "http:")
    ensures var p := Some(SchemaPart); Parts(SpacesBeforeUrl, "http:") == [p, p, p, p, None]
  {
    hide Walk, Parts, SawAt;
    assert "" + ['h'] == "h" && "h" + ['t'] == "ht" && "ht" + ['t'] == "htt" && "htt" + ['p'] == "http";
    assert "http" + [':'] == "http:";
    WalkOn("", 'h', SpacesBeforeUrl);
    WalkOn("h", 't', Schema);
    WalkOn("ht", 't', Schema);
    WalkOn("htt", 'p', Schema);
    WalkOn("http", ':', Schema);
  }

  lemma {:induction false} HostlessWalk()
    ensures var url := "http:///x";
            Walk(SpacesBeforeUrl, url) == Path && !SawAt(SpacesBeforeUrl, url) && Hostless(SpacesBeforeUrl, url)
  {
    SchemaWalk();
    hide Walk, Parts, SawAt;
    assert "http:" + ['/'] == "http:/" && "http:/" + ['/'] == "http://" && "http://" + ['/'] == "http:///";
    assert "http:///" + ['x'] == "http:///x";
    WalkOn("http:", '/', SchemaSlash);
    WalkOn("http:/", '/', SchemaSlashSlash);
    WalkOn("http://", '/', ServerStart);
    WalkOn("http:///", 'x', Path);
  }

  /** One octet more of a URL. */
  lemma {:induction false} WalkOn(u: string, ch: char, s: UrlState)
    requires u == [] ==> s.SpacesBeforeUrl?
    requires u != [] ==> Walk(SpacesBeforeUrl, u) == s
    ensures var s' := ParseUrlChar(s, ch);
            && Walk(SpacesBeforeUrl, u + [ch]) == s'
               && Parts(SpacesBeforeUrl, u + [ch]) == Parts(SpacesBeforeUrl, u) + [PartOf(s')]
            && (SawAt(SpacesBeforeUrl, u + [ch]) <==> SawAt(SpacesBeforeUrl, u) || s'.ServerWithAt?)
    ensures u == [] ==> Parts(SpacesBeforeUrl, u) == [] && !SawAt(SpacesBeforeUrl, u)
  {
    hide ParseUrlChar, PartOf;
    assert (u + [ch])[..|u|] == u;
  }

  lemma {:induction false} HttpIsHost()
    ensures HostWalk(HostStart, "http") == InHost && Some(PortPart) !in HostParts(HostStart, "http")
  {
    assert "http"[..3] == "htt" && "htt"[..2] == "ht" && "ht"[..1] == "h" && "h"[..0] == "";
    assert HostWalk(HostStart, "h") == InHost && HostWalk(HostStart, "ht") == InHost
      && HostWalk(HostStart, "htt") == InHost;
  }
}
