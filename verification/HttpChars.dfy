/** Character classes, keyword tables and the pure decisions of the HTTP parser. */
module HttpChars {
  import opened Common
  import opened HttpTypes

  /** LOWER: sets bit 5.  Octets above 127 never equal anything the parser compares them with. */
  function Lower(c: char): char {
    if c < ' ' || '@' <= c < '`' then (c as int + 32) as char else c
  }

  predicate IsAlpha(c: char) { 'a' <= Lower(c) <= 'z' }

  predicate IsNum(c: char) { '0' <= c <= '9' }

  predicate IsAlphaNum(c: char) { IsAlpha(c) || IsNum(c) }

  predicate IsHex(c: char) { IsNum(c) || 'a' <= Lower(c) <= 'f' }

  predicate IsMark(c: char) {
    c == '-' || c == '_' || c == '.' || c == '!' || c == '~' || c == '*' || c == '\'' || c == '(' || c == ')'
  }

  predicate IsUserInfoChar(c: char) {
    IsAlphaNum(c) || IsMark(c) || c == '%' || c == ';' || c == ':' || c == '&' || c == '=' || c == '+'
    || c == '$' || c == ','
  }

  predicate IsHostChar(c: char) { IsAlphaNum(c) || c == '.' || c == '-' }

  /** The strict normal_url_char table. */
  predicate IsUrlChar(c: char) { '!' <= c <= '~' && c != '#' && c != '?' }

  predicate IsBlank(c: char) { c == ' ' || c == '\t' }

  /** The `tokens` table: the lower-cased token character, or NUL. */
  function Token(c: char): char {
    if 'A' <= c <= 'Z' then Lower(c)
    else if 'a' <= c <= 'z' || '0' <= c <= '9' || c == '!' || '#' <= c <= '\'' || c == '*' || c == '+'
            || c == '-' || c == '.' || '^' <= c <= '`' || c == '|' || c == '~' then c
    else '\0'
  }

  /** The `unhex` table.  Only its first half is initialised, so octets above 127 count as digit 0. */
  function Unhex(c: char): (r: int)
    ensures -1 <= r <= 15
  {
    if '0' <= c <= '9' then c as int - '0' as int
    else if 'A' <= c <= 'F' then c as int - 'A' as int + 10
    else if 'a' <= c <= 'f' then c as int - 'a' as int + 10
    else if c as int >= 128 then 0
    else -1
  }

  function Digit(c: char): nat
    requires IsNum(c)
  {
    c as int - '0' as int
  }

  /** C string indexing: the terminator is NUL. */
  function At(s: string, i: nat): char { if i < |s| then s[i] else '\0' }

  function MethodString(m: Method): string {
    match m
    case Delete => "DELETE" case Get => "GET" case Head => "HEAD" case Post => "POST" case Put => "PUT"
    case Connect => "CONNECT" case Options => "OPTIONS" case Trace => "TRACE" case Copy => "COPY"
    case Lock => "LOCK" case MkCol => "MKCOL" case Move => "MOVE" case PropFind => "PROPFIND"
    case PropPatch => "PROPPATCH" case Search => "SEARCH" case Unlock => "UNLOCK" case Report => "REPORT"
    case MkActivity => "MKACTIVITY" case Checkout => "CHECKOUT" case Merge => "MERGE"
    case MSearch => "M-SEARCH" case Notify => "NOTIFY" case Subscribe => "SUBSCRIBE"
    case Unsubscribe => "UNSUBSCRIBE" case Patch => "PATCH" case Purge => "PURGE"
    case MkCalendar => "MKCALENDAR"
  }

  /** The method guessed from its first letter. */
  function FirstMethod(c: char): Option<Method> {
    match c
    case 'C' => Some(Connect) case 'D' => Some(Delete) case 'G' => Some(Get) case 'H' => Some(Head)
    case 'L' => Some(Lock) case 'M' => Some(MkCol) case 'N' => Some(Notify) case 'O' => Some(Options)
    case 'P' => Some(Post) case 'R' => Some(Report) case 'S' => Some(Subscribe) case 'T' => Some(Trace)
    case 'U' => Some(Unlock)
    case _ => None
  }

  /** The revised guess when octet number i is not the one the current guess expects. */
  function ReviseMethod(m: Method, i: nat, c: char): Option<Method> {
    if m.Connect? then
      if i == 1 && c == 'H' then Some(Checkout) else if i == 2 && c == 'P' then Some(Copy) else None
    else if m.MkCol? then
      if i == 1 && c == 'O' then Some(Move)
      else if i == 1 && c == 'E' then Some(Merge)
      else if i == 1 && c == '-' then Some(MSearch)
      else if i == 2 && c == 'A' then Some(MkActivity)
      else if i == 3 && c == 'A' then Some(MkCalendar)
      else None
    else if m.Subscribe? then
      if i == 1 && c == 'E' then Some(Search) else None
    else if i == 1 && m.Post? then
      if c == 'R' then Some(PropFind) else if c == 'U' then Some(Put) else if c == 'A' then Some(Patch) else None
    else if i == 2 then
      if m.Put? && c == 'R' then Some(Purge)
      else if m.Unlock? && c == 'S' then Some(Unsubscribe)
      else None
    else if i == 4 && m.PropFind? && c == 'P' then Some(PropPatch)
    else None
  }

  /** parse_url_char: the URL automaton shared by the parser and by http_parser_parse_url. */
  function ParseUrlChar(s: UrlState, c: char): UrlState {
    if c == ' ' || c == CR || c == LF || c == '\t' || c == '\U{0C}' then UrlDead
    else match s
      case SpacesBeforeUrl => if c == '/' || c == '*' then Path else if IsAlpha(c) then Schema else UrlDead
      case Schema => if IsAlpha(c) then Schema else if c == ':' then SchemaSlash else UrlDead
      case SchemaSlash => if c == '/' then SchemaSlashSlash else UrlDead
      case SchemaSlashSlash => if c == '/' then ServerStart else UrlDead
      case ServerWithAt => if c == '@' then UrlDead else ServerChar(c)
      case ServerStart => ServerChar(c)
      case Server => ServerChar(c)
      case Path =>
        if IsUrlChar(c) then Path else if c == '?' then QueryStart else if c == '#' then FragmentStart else UrlDead
      case QueryStart => QueryChar(c)
      case Query => QueryChar(c)
      case FragmentStart =>
        if IsUrlChar(c) || c == '?' then Fragment else if c == '#' then FragmentStart else UrlDead
      case Fragment => if IsUrlChar(c) || c == '?' || c == '#' then Fragment else UrlDead
      case UrlDead => UrlDead
  }

  function ServerChar(c: char): UrlState {
    if c == '/' then Path
    else if c == '?' then QueryStart
    else if c == '@' then ServerWithAt
    else if IsUserInfoChar(c) || c == '[' || c == ']' then Server
    else UrlDead
  }

  function QueryChar(c: char): UrlState {
    if IsUrlChar(c) || c == '?' then Query else if c == '#' then FragmentStart else UrlDead
  }

  /** `parser->index++` on an 8-bit field. */
  function Inc8(i: nat): nat { (i + 1) % 256 }

  const CONNECTION := "connection"
  const PROXY_CONNECTION := "proxy-connection"
  const CONTENT_LENGTH := "content-length"
  const TRANSFER_ENCODING := "transfer-encoding"
  const UPGRADE := "upgrade"
  const CHUNKED := "chunked"
  const KEEP_ALIVE := "keep-alive"
  const CLOSE := "close"

  /** One comparison of a keyword matcher whose index has just been advanced to i. */
  function Advance(keyword: string, i: nat, c: char, matching: HState, matched: HState, otherwise: HState): HState
    requires 2 <= |keyword|
  {
    if i > |keyword| || c != At(keyword, i) then otherwise
    else if i == |keyword| - 1 then matched
    else matching
  }

  /** The header_state after the first octet of a field name (already lower-cased). */
  function FirstField(c: char): HState {
    if c == 'c' then HC
    else if c == 'p' then MatchingProxyConnection
    else if c == 't' then MatchingTransferEncoding
    else if c == 'u' then MatchingUpgrade
    else General
  }

  predicate IsFieldState(h: HState) {
    h.General? || h.HC? || h.HCO? || h.HCON? || h.MatchingConnection? || h.MatchingProxyConnection?
    || h.MatchingContentLength? || h.MatchingTransferEncoding? || h.MatchingUpgrade?
    || h.Connection? || h.ContentLength? || h.TransferEncoding? || h.Upgrade?
  }

  predicate IsValueState(h: HState) {
    h.General? || h.ContentLength? || h.MatchingChunked? || h.MatchingTokenStart? || h.MatchingKeepAlive?
    || h.MatchingClose? || h.MatchingConnectionUpgrade? || h.MatchingToken? || h.Chunked? || h.KeepAlive?
    || h.Close? || h.ConnectionUpgrade?
  }

  /** header_state and index after a further octet of a field name: c is its lower-case form. */
  function NextField(h: HState, i: nat, c: char, ch: char): (HState, nat) {
    var j := Inc8(i);
    match h
    case HC => (if c == 'o' then HCO else General, j)
    case HCO => (if c == 'n' then HCON else General, j)
    case HCON => (if c == 'n' then MatchingConnection else if c == 't' then MatchingContentLength else General, j)
    case MatchingConnection => (Advance(CONNECTION, j, c, h, Connection, General), j)
    case MatchingProxyConnection => (Advance(PROXY_CONNECTION, j, c, h, Connection, General), j)
    case MatchingContentLength => (Advance(CONTENT_LENGTH, j, c, h, ContentLength, General), j)
    case MatchingTransferEncoding => (Advance(TRANSFER_ENCODING, j, c, h, TransferEncoding, General), j)
    case MatchingUpgrade => (Advance(UPGRADE, j, c, h, Upgrade, General), j)
    case Connection => (if ch != ' ' then General else h, i)
    case ContentLength => (if ch != ' ' then General else h, i)
    case TransferEncoding => (if ch != ' ' then General else h, i)
    case Upgrade => (if ch != ' ' then General else h, i)
    case _ => (h, i)
  }

  /** The header_state chosen by the first octet of a value. */
  function FirstValue(h: HState, ch: char): HState {
    var c := Lower(ch);
    match h
    case TransferEncoding => if c == 'c' then MatchingChunked else General
    case ContentLength => ContentLength
    case Connection =>
      if c == 'k' then MatchingKeepAlive
      else if c == 'c' then MatchingClose
      else if c == 'u' then MatchingConnectionUpgrade
      else MatchingToken
    case MatchingTokenStart => h
    case _ => General
  }

  /** header_state and index after a further octet of a value other than CR and LF. */
  function NextValue(h: HState, i: nat, ch: char): (HState, nat) {
    var c := Lower(ch);
    var j := Inc8(i);
    match h
    case MatchingChunked => (Advance(CHUNKED, j, c, h, Chunked, General), j)
    case MatchingTokenStart =>
      (if c == 'k' then MatchingKeepAlive
       else if c == 'c' then MatchingClose
       else if c == 'u' then MatchingConnectionUpgrade
       else if Token(c) != '\0' then MatchingToken
       else General, i)
    case MatchingKeepAlive => (Advance(KEEP_ALIVE, j, c, h, KeepAlive, MatchingToken), j)
    case MatchingClose => (Advance(CLOSE, j, c, h, Close, MatchingToken), j)
    case MatchingConnectionUpgrade => (Advance(UPGRADE, j, c, h, ConnectionUpgrade, MatchingToken), j)
    case MatchingToken => if ch == ',' then (MatchingTokenStart, 0) else (h, i)
    case Chunked => (if ch != ' ' then General else h, i)
    case KeepAlive => if ch == ',' then (MatchingTokenStart, 0) else if ch != ' ' then (MatchingToken, i) else (h, i)
    case Close => if ch == ',' then (MatchingTokenStart, 0) else if ch != ' ' then (MatchingToken, i) else (h, i)
    case ConnectionUpgrade => if ch == ',' then (MatchingTokenStart, 0) else if ch != ' ' then (MatchingToken, i)
      else (h, i)
    case Connection => (h, i)
    case TransferEncoding => (h, i)
    case ContentLength => (h, i)
    case _ => (General, i)
  }

  /** The flag that a recognised Connection option or transfer coding sets. */
  function ConnectionFlags(h: HState, f: Flags): Flags {
    match h
    case KeepAlive => f.(keepAlive := true)
    case Close => f.(close := true)
    case ConnectionUpgrade => f.(connectionUpgrade := true)
    case _ => f
  }

  /** Flags set when a header line is finished. */
  function LineFlags(h: HState, f: Flags): Flags {
    if h.Chunked? then f.(chunked := true) else ConnectionFlags(h, f)
  }

  /** http_message_needs_eof; F_SKIPBODY cannot be set. */
  predicate NeedsEof(c: Core) {
    !c.kind.Request?
    && c.status / 100 != 1 && c.status != 204 && c.status != 304
    && !c.flags.chunked && c.length == NO_LENGTH
  }

  /** http_should_keep_alive */
  predicate ShouldKeepAlive(c: Core) {
    (if c.major > 0 && c.minor > 0 then !c.flags.close else c.flags.keepAlive) && !NeedsEof(c)
  }

  /** NEW_MESSAGE in strict mode. */
  function NewMessage(c: Core): State {
    Start(if !ShouldKeepAlive(c) then Dead else if c.kind.Request? then StartReq else StartRes)
  }
}
