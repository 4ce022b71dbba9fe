/** From a request to the origin it is fetched from and to the key its response is cached under. Two requests with one
    key share one cached body, so the interesting question is whether they would have been sent to the same origin. */
module Requests {
  import opened Basics
  import opened Numerals

  datatype ErrorType = HTTPStatus(code: nat) | ConnectError | InternalError

  datatype Result<+T> = Ok(value: T) | Err(error: ErrorType)

  const HTTP := "http"
  const HTTPS := "https"
  const DEFAULT_PORT_HTTP: nat := 80
  const DEFAULT_PORT_HTTPS: nat := 443

  /** What the proxy reads of a session. Headers are those that are present and are visible ASCII. */
  datatype Request = Request(
    host: Option<string>,
    scheme: Option<string>,             // ":scheme"
    forwardedProto: Option<string>,     // "x-forwarded-proto"
    serverPort: Option<nat>,            // the port of the listener, if it has an inet address
    pathAndQuery: Option<string>)

  // - - - text

  /** The characters with the Unicode property `White_Space`. */
  predicate IsSpace(c: char) {
    '\U{0009}' <= c <= '\U{000D}' || c == ' ' || c == '\U{0085}' || c == '\U{00A0}' || c == '\U{1680}'
    || '\U{2000}' <= c <= '\U{200A}' || c == '\U{2028}' || c == '\U{2029}' || c == '\U{202F}' || c == '\U{205F}'
    || c == '\U{3000}'
  }

  predicate AllSpace(s: string) {
    forall i :: 0 <= i < |s| ==> IsSpace(s[i])
  }

  function TrimStart(s: string): string {
    if s != "" && IsSpace(s[0]) then TrimStart(s[1..]) else s
  }

  function TrimEnd(s: string): string {
    if s != "" && IsSpace(s[|s| - 1]) then TrimEnd(s[..|s| - 1]) else s
  }

  function Trim(s: string): string {
    TrimEnd(TrimStart(s))
  }

  function TrimSlashes(s: string): string {
    if s != "" && s[|s| - 1] == '/' then TrimSlashes(s[..|s| - 1]) else s
  }

  function Find(s: string, c: char): (r: Option<nat>)
    ensures r.Some? ==> r.value < |s| && s[r.value] == c && c !in s[..r.value]
    ensures r.None? ==> c !in s
  {
    if s == "" then None
    else if s[0] == c then Some(0)
    else
      match Find(s[1..], c)
      case None => None
      case Some(i) => Some(i + 1)
  }

  predicate AllDigits(s: string) {
    forall i :: 0 <= i < |s| ==> IsDigit(s[i])
  }

  function WithoutPlus(s: string): string {
    if s != "" && s[0] == '+' then s[1..] else s
  }

  /** Digits, perhaps with a plus sign in front, for a number of 16 bits. */
  predicate IsPort(s: string) {
    var digits := WithoutPlus(s);
    digits != "" && AllDigits(digits) && Value(digits) <= 65535
  }

  /** `parse::<u16>()` */
  function ParseU16(s: string): Option<nat> {
    if IsPort(s) then Some(Value(WithoutPlus(s))) else None
  }

  function LowerChar(c: char): char {
    if 'A' <= c <= 'Z' then (c as int + 32) as char else c
  }

  /** `to_ascii_lowercase` */
  function Lower(s: string): string {
    seq(|s|, i requires 0 <= i < |s| => LowerChar(s[i]))
  }

  predicate EqIgnoreCase(a: string, b: string) {
    |a| == |b| && forall i :: 0 <= i < |a| ==> LowerChar(a[i]) == LowerChar(b[i])
  }

  lemma LowerEq(a: string, b: string)
    ensures Lower(a) == Lower(b) <==> EqIgnoreCase(a, b)
  {
    if Lower(a) == Lower(b) {
      forall i | 0 <= i < |a| ensures LowerChar(a[i]) == LowerChar(b[i]) {
        assert Lower(a)[i] == Lower(b)[i];
      }
    }
  }

  const UPPER_CASE := "ABCDEFGHIJKLMNOPQRSTUVWXYZ"
  const LOWER_CASE := "abcdefghijklmnopqrstuvwxyz"

  /** Lower case is what one expects of the letters, and nothing else changes. */
  lemma LowerOf(s: string)
    ensures |Lower(s)| == |s|
    ensures forall i, j :: 0 <= i < |s| && 0 <= j < 26 && s[i] == UPPER_CASE[j] ==> Lower(s)[i] == LOWER_CASE[j]
    ensures forall i :: 0 <= i < |s| && s[i] !in UPPER_CASE ==> Lower(s)[i] == s[i]
  {
    forall i | 0 <= i < |s| && s[i] !in UPPER_CASE ensures Lower(s)[i] == s[i] {
      LettersAre(s[i]);
    }
  }

  lemma LettersAre(c: char)
    ensures 'A' <= c <= 'Z' ==> c in UPPER_CASE
  {
    if 'A' <= c <= 'Z' {
      assert UPPER_CASE[c as int - 65] == c;
    }
  }

  /** The text is "https", in any case. */
  predicate SpellsHttps(s: string) {
    |s| == 5 && s[0] in "hH" && s[1] in "tT" && s[2] in "tT" && s[3] in "pP" && s[4] in "sS"
  }

  lemma SpelledHttps(s: string)
    ensures EqIgnoreCase(s, HTTPS) <==> SpellsHttps(s)
  {
    if |s| == 5 {
      assert forall i :: 0 <= i < 5 ==> LowerChar(HTTPS[i]) == HTTPS[i];
    }
  }

  /** The characters that are trimmed, one by one. */
  lemma SpacesAre(c: char)
    ensures IsSpace(c) <==>
      || c in "\t\n\U{B}\U{C}\r \U{85}\U{A0}\U{1680}\U{2000}\U{2001}\U{2002}\U{2003}\U{2004}"
      || c in "\U{2005}\U{2006}\U{2007}\U{2008}\U{2009}\U{200A}\U{2028}\U{2029}\U{202F}\U{205F}\U{3000}"
  {
  }

  // - - - the Host header

  function Unwrapped(raw: string): string {
    TrimSlashes(Trim(raw))
  }

  function ParseHostAuthority(raw: string): Result<(string, Option<nat>)> {
    Authority(Unwrapped(raw))
  }

  /** The port behind a bracketed literal. */
  function PortAfter(after: string): Option<nat> {
    if after != "" && after[0] == ':' then ParseU16(after[1..]) else None
  }

  function Authority(s: string): Result<(string, Option<nat>)> {
    if s == "" then Err(HTTPStatus(400))
    else if s[0] == '[' then
      var rest := s[1..];
      match Find(rest, ']')
      case None => Err(HTTPStatus(400))
      case Some(end) =>
        Ok((rest[..end], PortAfter(rest[end + 1..])))
    else if '/' in s || ' ' in s then Err(HTTPStatus(400))
    else
      match Find(s, ':')
      case None => Ok((s, None))
      case Some(colon) => Ok((s[..colon], ParseU16(s[colon + 1..])))
  }

  // - - - upstream and cache key

  function SchemeFromHdr(r: Request): Option<string> {
    if r.scheme.Some? then r.scheme else r.forwardedProto
  }

  /** A scheme header decides, whatever it says; without one, the listener does. */
  predicate IsHttps(r: Request, listenHttps: nat) {
    match SchemeFromHdr(r)
    case Some(s) => EqIgnoreCase(s, HTTPS)
    case None => r.serverPort == Some(listenHttps)
  }

  datatype Peer = Peer(host: string, port: nat, tls: bool, sni: string)

  function UpstreamPeer(r: Request, listenHttps: nat): Result<Peer> {
    if r.host.None? then Err(ConnectError)
    else
      match ParseHostAuthority(Trim(r.host.value))
      case Err(_) => Err(InternalError)
      case Ok((host, port)) =>
        var tls := IsHttps(r, listenHttps) || port == Some(DEFAULT_PORT_HTTPS);
        Ok(Peer(host,
                if port.Some? then port.value else if tls then DEFAULT_PORT_HTTPS else DEFAULT_PORT_HTTP,
                tls,
                if tls then host else ""))
  }

  function PathAndQuery(r: Request): string {
    if r.pathAndQuery.Some? then r.pathAndQuery.value else "/"
  }

  function HostOf(r: Request): Result<(string, Option<nat>)> {
    ParseHostAuthority(if r.host.Some? then r.host.value else "")
  }

  function PrimaryKey(https: bool, host: string, path: string): string {
    (if https then HTTPS else HTTP) + "://" + Lower(host) + path
  }

  function CacheKey(r: Request, listenHttps: nat): Result<string> {
    match HostOf(r)
    case Err(_) => Err(InternalError)
    case Ok((host, _)) => Ok(PrimaryKey(IsHttps(r, listenHttps), host, PathAndQuery(r)))
  }

  // - - - the parser

  /** How a port is written behind a host. */
  function PortSuffix(port: Option<nat>): string {
    if port.Some? then ":" + Decimal(port.value) else ""
  }

  lemma PortParses(n: nat)
    requires n <= 65535
    ensures var s := Decimal(n); ParseU16(s) == Some(n) && '/' !in s && ' ' !in s
  {
    ValueOfDecimal(n);
    assert Decimal(n)[0] != '+';
  }

  lemma {:induction false} ZeroInFront(t: string)
    requires AllDigits(t)
    ensures AllDigits("0" + t) && Value("0" + t) == Value(t)
  {
    var u := "0" + t;
    if t == "" {
      assert u[..0] == "" && u[0] == '0';
    } else {
      ZeroInFront(t[..|t| - 1]);
      assert u[..|u| - 1] == "0" + t[..|t| - 1];
    }
  }

  /** A port is a decimal number below 65536, perhaps with a plus sign or zeros in front; a sign alone, nothing, or any
      other character is none. */
  lemma PortsExactly(n: nat, s: string, i: nat)
    ensures var t, port := Decimal(n), if n < 65536 then Some(n) else None;
      ParseU16(t) == port && ParseU16("+" + t) == port && ParseU16("0" + t) == port
    ensures ParseU16("") == None && ParseU16("+") == None
    ensures i < |s| && !('0' <= s[i] <= '9') && !(i == 0 && s[0] == '+') ==> ParseU16(s) == None
  {
    var t := Decimal(n);
    ValueOfDecimal(n);
    assert t[0] != '+' && WithoutPlus("+" + t) == t && WithoutPlus("0" + t) == "0" + t;
    ZeroInFront(t);
    assert AllDigits(t);
    assert ("0" + t)[1..] == t;
    if i < |s| && !IsDigit(s[i]) && !(i == 0 && s[0] == '+') {
      var digits := WithoutPlus(s);
      assert s[i] == digits[if s[0] == '+' then i - 1 else i];
      assert !AllDigits(digits);
    }
  }

  lemma NothingToTrim(s: string)
    requires s != "" ==> !IsSpace(s[0]) && !IsSpace(s[|s| - 1]) && s[|s| - 1] != '/'
    ensures Unwrapped(s) == s
  {
  }

  /** The suffix leaves nothing to trim at the end of what it is attached to. */
  lemma SuffixEnds(host: string, port: Option<nat>)
    requires host != "" && !IsSpace(host[|host| - 1]) && host[|host| - 1] != '/'
    ensures var s := host + PortSuffix(port); !IsSpace(s[|s| - 1]) && s[|s| - 1] != '/'
  {
  }

  /** What is printed is parsed back: a plain host with any optional port. */
  lemma PlainRoundTrip(host: string, port: Option<nat>)
    requires host != "" && ':' !in host && '/' !in host && ' ' !in host && host[0] != '['
    requires !IsSpace(host[0]) && !IsSpace(host[|host| - 1])
    requires port.Some? ==> port.value <= 65535
    ensures ParseHostAuthority(host + PortSuffix(port)) == Ok((host, port))
  {
    hide Unwrapped, Find, ParseU16, Decimal;
    var s := host + PortSuffix(port);
    SuffixEnds(host, port);
    NothingToTrim(s);
    if port.Some? {
      var digits := Decimal(port.value);
      PortParses(port.value);
      assert s == host + [':'] + digits;
      assert '/' !in s && ' ' !in s;
      FindAt(host, ':', digits);
    } else {
      assert s == host;
    }
  }

  lemma BracketParses(s: string, host: string, after: string)
    requires s == "[" + host + "]" + after && ']' !in host && Unwrapped(s) == s
    ensures ParseHostAuthority(s) == Ok((host, PortAfter(after)))
  {
    hide Unwrapped, Find, ParseU16;
    FindAt(host, ']', after);
    assert s[1..] == host + [']'] + after;
  }

  /** The same for a bracketed literal. */
  lemma BracketRoundTrip(host: string, port: Option<nat>)
    requires ']' !in host && (port.Some? ==> port.value <= 65535)
    ensures ParseHostAuthority("[" + host + "]" + PortSuffix(port)) == Ok((host, port))
  {
    var s := "[" + host + "]" + PortSuffix(port);
    SuffixEnds("[" + host + "]", port);
    assert s[0] == '[';
    NothingToTrim(s);
    hide Unwrapped, ParseHostAuthority, ParseU16, Decimal;
    BracketParses(s, host, PortSuffix(port));
    if port.Some? {
      PortParses(port.value);
      assert PortSuffix(port)[1..] == Decimal(port.value);
    }
  }

  /** The first occurrence is found. */
  lemma {:induction false} FindAt(before: string, c: char, after: string)
    requires c !in before
    ensures var s := before + [c] + after;
      Find(s, c) == Some(|before|) && s[..|before|] == before && s[|before| + 1..] == after
  {
    var s := before + [c] + after;
    if before != "" {
      FindAt(before[1..], c, after);
      assert s[1..] == before[1..] + [c] + after;
    }
  }

  lemma {:induction false} TrimStartSkips(w: string, s: string)
    requires AllSpace(w)
    ensures TrimStart(w + s) == TrimStart(s)
  {
    if w == "" {
      assert w + s == s;
    } else {
      TrimStartSkips(w[1..], s);
      assert (w + s)[1..] == w[1..] + s;
    }
  }

  lemma {:induction false} TrimEndSkips(s: string, w: string)
    requires AllSpace(w)
    ensures TrimEnd(s + w) == TrimEnd(s)
  {
    if w == "" {
      assert s + w == s;
    } else {
      TrimEndSkips(s, w[..|w| - 1]);
      assert (s + w)[..|s + w| - 1] == s + w[..|w| - 1];
    }
  }

  /** A string that starts with something else is trimmed at its end only. */
  lemma {:induction false} TrimStartAppend(s: string, w: string)
    ensures AllSpace(s) ==> TrimStart(s + w) == TrimStart(w) && TrimStart(s) == ""
    ensures !AllSpace(s) ==> TrimStart(s + w) == TrimStart(s) + w && TrimStart(s) != ""
  {
    if s == "" {
      assert s + w == w;
    } else {
      TrimStartAppend(s[1..], w);
      assert (s + w)[1..] == s[1..] + w;
      assert AllSpace(s) <==> IsSpace(s[0]) && AllSpace(s[1..]);
    }
  }

  lemma {:induction false} AllSpaceTrims(w: string)
    requires AllSpace(w)
    ensures TrimStart(w) == "" && TrimEnd(w) == ""
  {
    if w != "" {
      AllSpaceTrims(w[1..]);
      TrimEndSkips("", w);
      assert "" + w == w;
    }
  }

  /** Whitespace around a string does not matter. */
  lemma TrimSkips(w: string, s: string, z: string)
    requires AllSpace(w) && AllSpace(z)
    ensures Trim(w + s + z) == Trim(s)
  {
    TrimStartSkips(w, s + z);
    assert w + s + z == w + (s + z);
    TrimStartAppend(s, z);
    if AllSpace(s) {
      AllSpaceTrims(z);
    } else {
      TrimEndSkips(TrimStart(s), z);
    }
  }

  predicate AllSlashes(s: string) {
    forall i :: 0 <= i < |s| ==> s[i] == '/'
  }

  lemma {:induction false} TrimSlashesSkips(s: string, z: string)
    requires AllSlashes(z)
    ensures TrimSlashes(s + z) == TrimSlashes(s)
  {
    if z == "" {
      assert s + z == s;
    } else {
      TrimSlashesSkips(s, z[..|z| - 1]);
      assert (s + z)[..|s + z| - 1] == s + z[..|z| - 1];
    }
  }

  lemma Regroup(w: string, s: string, slashes: string, z: string)
    ensures w + s + slashes + z == w + (s + slashes) + z && "" + slashes == slashes
  {
  }

  lemma SlashesStay(x: string, slashes: string)
    requires AllSlashes(slashes) && slashes != ""
    ensures TrimStart(slashes) == slashes && TrimEnd(x + slashes) == x + slashes
  {
  }

  /** What stands between the outer whitespace and the trailing slashes is not trimmed again. */
  lemma SlashedOuter(w: string, s: string, slashes: string, z: string)
    requires AllSpace(w) && AllSlashes(slashes) && slashes != "" && AllSpace(z)
    ensures Unwrapped(w + s + slashes + z) == if AllSpace(s) then "" else TrimSlashes(TrimStart(s))
  {
    assert TrimSlashes("") == "";
    hide TrimStart, TrimEnd, TrimSlashes, IsSpace, AllSpace, AllSlashes;
    Regroup(w, s, slashes, z);
    TrimSkips(w, s + slashes, z);
    TrimStartAppend(s, slashes);
    SlashesStay("", slashes);
    SlashesStay(TrimStart(s), slashes);
    TrimSlashesSkips("", slashes);
    TrimSlashesSkips(TrimStart(s), slashes);
  }

  lemma AllSpaceUnwraps(s: string)
    requires AllSpace(s)
    ensures Unwrapped(s) == ""
  {
    AllSpaceTrims(s);
  }

  lemma {:induction false} TrimSlashesStops(s: string)
    ensures TrimSlashes(s) <= s && AllSlashes(s[|TrimSlashes(s)|..])
  {
    if s != "" && s[|s| - 1] == '/' {
      var t := s[..|s| - 1];
      TrimSlashesStops(t);
      assert s[|TrimSlashes(s)|..] == t[|TrimSlashes(t)|..] + "/";
    }
  }

  lemma {:induction false} TrimEndCuts(s: string)
    ensures TrimEnd(s) <= s && AllSpace(s[|TrimEnd(s)|..])
  {
    if s != "" && IsSpace(s[|s| - 1]) {
      var t := s[..|s| - 1];
      TrimEndCuts(t);
      assert s[|TrimEnd(s)|..] == t[|TrimEnd(t)|..] + [s[|s| - 1]];
    }
  }

  lemma {:induction false} TrimStartLast(s: string)
    ensures AllSpace(s) || (TrimStart(s) != "" && TrimStart(s)[|TrimStart(s)| - 1] == s[|s| - 1])
  {
    if s != "" && IsSpace(s[0]) {
      TrimStartLast(s[1..]);
    }
  }

  predicate Skipped(c: char) {
    IsSpace(c) || c == '/'
  }

  /** Whitespace at the end of a text costs it that whitespace, and slashes in front of it. */
  lemma TailCut(s: string) returns (tail: string)
    requires !AllSpace(s) && IsSpace(s[|s| - 1])
    ensures TrimStart(s) == Unwrapped(s) + tail && tail != "" && IsSpace(tail[|tail| - 1])
    ensures TrimSlashes(TrimStart(s)) == TrimStart(s)
    ensures forall i :: 0 <= i < |tail| ==> Skipped(tail[i])
    ensures Unwrapped(s) == "" ==> tail[0] == '/'
  {
    var u := TrimStart(s);
    TrimStartLast(s);
    TrimStartStops(s);
    TrimEndCuts(u);
    TrimEndStops(u);
    TrimSlashesStops(TrimEnd(u));
    assert TrimSlashes(u) == u;
    hide TrimStart, TrimEnd, TrimSlashes, IsSpace;
    tail := TailOf(u, TrimEnd(u), TrimSlashes(TrimEnd(u)));
  }

  lemma TailOf(u: string, middle: string, front: string) returns (tail: string)
    requires u != "" && !IsSpace(u[0]) && IsSpace(u[|u| - 1]) && front <= middle <= u
    requires AllSpace(u[|middle|..]) && AllSlashes(middle[|front|..])
    requires middle == "" || !IsSpace(middle[|middle| - 1])
    ensures u == front + tail && tail != "" && IsSpace(tail[|tail| - 1]) && (front == "" ==> tail[0] == '/')
    ensures forall i :: 0 <= i < |tail| ==> Skipped(tail[i])
  {
    hide IsSpace;
    tail := u[|front|..];
    assert tail == middle[|front|..] + u[|middle|..];
    assert middle != u;
    assert !AllSpace(u) && u[0..] == u;
  }

  /** Exactly when outer whitespace and trailing slashes go away for good: if there is no whitespace in front of the
      slashes, or nothing else. */
  lemma UnwrappedOuter(w: string, s: string, slashes: string, z: string)
    requires AllSpace(w) && AllSlashes(slashes) && AllSpace(z)
    ensures slashes == "" ==> Unwrapped(w + s + slashes + z) == Unwrapped(s)
    ensures slashes != "" ==>
      (Unwrapped(w + s + slashes + z) == Unwrapped(s) <==> AllSpace(s) || !IsSpace(s[|s| - 1]))
  {
    if slashes == "" {
      TrimSkips(w, s, z);
      Regroup(w, s, slashes, z);
      assert s + "" == s;
    } else {
      SlashedOuter(w, s, slashes, z);
      if AllSpace(s) {
        AllSpaceUnwraps(s);
      } else if IsSpace(s[|s| - 1]) {
        var tail := TailCut(s);
      } else {
        TrimStartLast(s);
      }
    }
  }

  lemma {:induction false} FindAppend(s: string, c: char, tail: string)
    requires c !in tail
    ensures Find(s + tail, c) == Find(s, c)
  {
    if s == "" {
      assert s + tail == tail;
    } else {
      FindAppend(s[1..], c, tail);
      assert (s + tail)[1..] == s[1..] + tail;
    }
  }

  lemma NoPortWithTail(s: string)
    requires s != "" && IsSpace(s[|s| - 1])
    ensures ParseU16(s) == None
  {
    var digits := WithoutPlus(s);
    var last := |digits| - 1;
    assert digits != "" && digits[last] == s[|s| - 1] && !IsDigit(digits[last]);
    assert !AllDigits(digits);
  }

  lemma NoColonInTail(tail: string)
    requires forall i :: 0 <= i < |tail| ==> Skipped(tail[i])
    ensures ':' !in tail && ']' !in tail
  {
  }

  lemma BracketWithTail(s: string, tail: string)
    requires s != "" && s[0] == '[' && tail != "" && IsSpace(tail[|tail| - 1])
    requires forall i :: 0 <= i < |tail| ==> Skipped(tail[i])
    ensures Authority(s + tail) == Authority(s) <==> Authority(s).Err? || Authority(s).value.1.None?
  {
    hide PortAfter, Find, IsSpace;
    var rest := s[1..];
    assert (s + tail)[1..] == rest + tail;
    NoColonInTail(tail);
    FindAppend(rest, ']', tail);
    if Find(rest, ']').Some? {
      var end := Find(rest, ']').value;
      FindInside(rest, ']');
      assert (rest + tail)[end + 1..] == rest[end + 1..] + tail && (rest + tail)[..end] == rest[..end];
      NoPortAfterTail(rest[end + 1..], tail);
    }
  }

  lemma NoPortAfterTail(after: string, tail: string)
    requires tail != "" && IsSpace(tail[|tail| - 1]) && ':' !in tail
    ensures PortAfter(after + tail) == None
  {
    hide ParseU16, IsSpace;
    if after == "" {
      assert after + tail == tail;
    } else {
      assert (after + tail)[1..] == after[1..] + tail;
      NoPortWithTail(after[1..] + tail);
    }
  }

  lemma FindInside(s: string, c: char)
    requires Find(s, c).Some?
    ensures Find(s, c).value < |s|
  {
  }

  lemma PlainWithTail(s: string, tail: string)
    requires s != "" && s[0] != '[' && tail != "" && IsSpace(tail[|tail| - 1])
    requires forall i :: 0 <= i < |tail| ==> Skipped(tail[i])
    ensures Authority(s + tail) == Authority(s) <==>
      || Authority(s).Err?
      || (Authority(s).value.1.None? && ':' in s && ' ' !in s + tail && '/' !in s + tail)
  {
    hide ParseU16, Find, IsSpace;
    NoColonInTail(tail);
    FindAppend(s, ':', tail);
    if Find(s, ':').Some? {
      FindColon(s);
      var colon := Find(s, ':').value;
      assert (s + tail)[..colon] == s[..colon] && (s + tail)[colon + 1..] == s[colon + 1..] + tail;
      NoPortWithTail(s[colon + 1..] + tail);
    } else {
      FindColon(s);
      assert |s + tail| != |s|;
    }
  }

  lemma FindColon(s: string)
    ensures Find(s, ':').Some? <==> ':' in s
    ensures Find(s, ':').Some? ==> Find(s, ':').value < |s|
  {
  }

  predicate FirstAt(s: string, c: char, i: nat) {
    i < |s| && s[i] == c && c !in s[..i]
  }

  /** A port stands directly behind the first ']'. */
  predicate BracketPort(s: string) {
    exists i :: 0 <= i < |s| - 1 && FirstAt(s, ']', i) && s[i + 1] == ':' && IsPort(s[i + 2..])
  }

  /** A port stands behind the first ':'. */
  predicate PlainPort(s: string) {
    exists i :: 0 <= i < |s| && FirstAt(s, ':', i) && IsPort(s[i + 1..])
  }

  lemma FirstIsUnique(s: string, c: char, i: nat, j: nat)
    requires FirstAt(s, c, i) && FirstAt(s, c, j)
    ensures i == j
  {
  }

  lemma BracketText(s: string)
    requires "[" <= s
    ensures Authority(s).Ok? <==> ']' in s
    ensures Authority(s).Ok? ==> (Authority(s).value.1.Some? <==> BracketPort(s))
  {
    hide IsPort, Find;
    var rest := s[1..];
    assert s == "[" + rest && (']' in s <==> ']' in rest);
    FindIsFirst(rest, ']');
    if Find(rest, ']').Some? {
      var end := Find(rest, ']').value;
      assert s[..end + 1] == "[" + rest[..end] && FirstAt(s, ']', end + 1);
      assert s[end + 2..] == rest[end + 1..];
      forall i | FirstAt(s, ']', i) ensures i == end + 1 { FirstIsUnique(s, ']', i, end + 1); }
      PortAt(s, end + 1);
    }
  }

  lemma FindIsFirst(s: string, c: char)
    ensures Find(s, c).Some? <==> c in s
    ensures Find(s, c).Some? ==> FirstAt(s, c, Find(s, c).value)
  {
  }

  lemma PortAt(s: string, i: nat)
    requires i < |s|
    ensures PortAfter(s[i + 1..]).Some? <==> i < |s| - 1 && s[i + 1] == ':' && IsPort(s[i + 2..])
  {
    hide IsPort;
    var after := s[i + 1..];
    if after != "" { assert after[0] == s[i + 1] && after[1..] == s[i + 2..]; }
  }

  lemma PlainText(s: string)
    requires !("[" <= s)
    ensures Authority(s).Ok? <==> s != "" && '/' !in s && ' ' !in s
    ensures Authority(s).Ok? ==> (Authority(s).value.1.Some? <==> PlainPort(s))
  {
    hide IsPort, Find;
    FindIsFirst(s, ':');
    if Find(s, ':').Some? {
      var colon := Find(s, ':').value;
      forall i | FirstAt(s, ':', i) ensures i == colon { FirstIsUnique(s, ':', i, colon); }
    }
  }

  /** Outer whitespace and trailing slashes do not change the result, unless there is whitespace in front of the
      slashes. It is not trimmed again, and then the result is the same exactly if it is an error either way, or no port
      is read and the host ends before the whitespace. */
  lemma OuterInvariance(w: string, s: string, slashes: string, z: string)
    requires AllSpace(w) && AllSlashes(slashes) && AllSpace(z)
    ensures slashes == "" ==> ParseHostAuthority(w + s + slashes + z) == ParseHostAuthority(s)
    ensures slashes != "" ==>
      var u, v := TrimStart(s), Unwrapped(s);
      ParseHostAuthority(w + s + slashes + z) == ParseHostAuthority(s) <==>
        || AllSpace(s) || !IsSpace(s[|s| - 1])
        || (if "[" <= u then !BracketPort(v)
            else v == "" || '/' in v || ' ' in v || (':' in u && '/' !in u && ' ' !in u && !PlainPort(v)))
  {
    hide Unwrapped, Authority, BracketPort, PlainPort, IsSpace;
    UnwrappedOuter(w, s, slashes, z);
    if slashes != "" && !AllSpace(s) && IsSpace(s[|s| - 1]) {
      var tail := TailCut(s);
      var v := Unwrapped(s);
      SlashedOuter(w, s, slashes, z);
      TailParses(v, tail);
      NoColonInTail(tail);
      assert ':' in v <==> ':' in v + tail;
      assert "[" <= v <==> "[" <= v + tail;
      if "[" <= v {
        BracketText(v);
        NoBracketNoPort(v);
      } else {
        PlainText(v);
      }
    }
  }

  lemma NoBracketNoPort(s: string)
    ensures BracketPort(s) ==> ']' in s
  {
  }

  lemma TailParses(v: string, tail: string)
    requires tail != "" && IsSpace(tail[|tail| - 1]) && (v == "" ==> tail[0] == '/')
    requires forall i :: 0 <= i < |tail| ==> Skipped(tail[i])
    ensures Authority(v + tail) == Authority(v) <==>
      || Authority(v).Err?
      || (Authority(v).value.1.None? && (v[0] == '[' || (':' in v && ' ' !in v + tail && '/' !in v + tail)))
    ensures v == "" ==> Authority(v).Err?
  {
    if v == "" {
      assert v + tail == tail;
    } else if v[0] == '[' {
      BracketWithTail(v, tail);
    } else {
      PlainWithTail(v, tail);
    }
  }

  /** An instance: the tab stays, and is part of the host. */
  lemma InnerTabStays()
    ensures ParseHostAuthority("a\t/") == Ok(("a\t", None)) && ParseHostAuthority("a\t") == Ok(("a", None))
  {
    NothingInFront("a\t/");
    NothingInFront("a\t");
    assert "a\t/"[..2] == "a\t" && "a\t"[..1] == "a";
    assert TrimEnd("a\t/") == "a\t/" && TrimSlashes("a\t/") == TrimSlashes("a\t") == "a\t";
    assert TrimEnd("a\t") == TrimEnd("a") == "a" && TrimSlashes("a") == "a";
    assert Find("a\t", ':') == None && Find("a", ':') == None;
  }

  lemma NothingInFront(s: string)
    requires s != "" && !IsSpace(s[0])
    ensures TrimStart(s) == s
  {
  }

  /** What is accepted: a host without ':', '/' or ' ', or a bracketed one without ']'; and a port below 65536. */
  lemma AcceptedHosts(raw: string)
    requires ParseHostAuthority(raw).Ok?
    ensures var (host, port) := ParseHostAuthority(raw).value;
      && Unwrapped(raw) != ""
      && (port.Some? ==> port.value <= 65535)
      && (if Unwrapped(raw)[0] == '[' then ']' !in host
          else ':' !in host && '/' !in host && ' ' !in host)
  {
  }

  /** What is rejected, and how: nothing at all, an open bracket, and a slash or a space outside of brackets. */
  lemma RejectedExactly(raw: string)
    ensures var u := Unwrapped(raw);
      ParseHostAuthority(raw).Err? <==> u == "" || (if "[" <= u then ']' !in u else '/' in u || ' ' in u)
    ensures ParseHostAuthority(raw).Err? ==> ParseHostAuthority(raw) == Err(HTTPStatus(400))
  {
    hide Unwrapped, IsPort, BracketPort, PlainPort;
    if "[" <= Unwrapped(raw) { BracketText(Unwrapped(raw)); } else { PlainText(Unwrapped(raw)); }
  }

  /** Not all of them are hosts: the host is empty exactly for headers that start with "[]", and for those without '/'
      and ' ' that start with a colon. */
  lemma EmptyHostAccepted(raw: string)
    ensures var u := Unwrapped(raw);
      ParseHostAuthority(raw).Ok? && ParseHostAuthority(raw).value.0 == "" <==>
        || "[]" <= u
        || (u != "" && u[0] == ':' && '/' !in u && ' ' !in u)
  {
    hide Unwrapped, ParseU16;
    var u := Unwrapped(raw);
    if u != "" && u[0] == '[' {
      assert "[]" <= u <==> |u| > 1 && u[1] == ']';
      assert |u| > 1 ==> u[1..][0] == u[1];
    }
  }

  // - - - keys and upstreams

  lemma {:induction false} TrimEndStops(s: string)
    ensures TrimEnd(s) == "" || !IsSpace(TrimEnd(s)[|TrimEnd(s)| - 1])
    ensures TrimEnd(s) <= s
  {
    if s != "" && IsSpace(s[|s| - 1]) {
      TrimEndStops(s[..|s| - 1]);
    }
  }

  lemma {:induction false} TrimStartStops(s: string)
    ensures TrimStart(s) == "" || !IsSpace(TrimStart(s)[0])
  {
    if s != "" && IsSpace(s[0]) {
      TrimStartStops(s[1..]);
    }
  }

  lemma TrimTwice(s: string)
    ensures Trim(Trim(s)) == Trim(s)
  {
    TrimStartStops(s);
    TrimEndStops(TrimStart(s));
    var t := Trim(s);
    if t != "" {
      assert t[0] == TrimStart(s)[0];
    }
  }

  /** The upstream selection trims the header once more than the key construction, to no effect: one succeeds exactly
      when the other does, and then they see the same host and port. */
  lemma SameHost(r: Request, listenHttps: nat)
    ensures UpstreamPeer(r, listenHttps).Ok? <==> CacheKey(r, listenHttps).Ok?
    ensures UpstreamPeer(r, listenHttps).Ok? ==>
      && HostOf(r).Ok? && ParseHostAuthority(Trim(r.host.value)) == HostOf(r)
      && UpstreamPeer(r, listenHttps).value.host == HostOf(r).value.0
      && (HostOf(r).value.1.Some? ==> UpstreamPeer(r, listenHttps).value.port == HostOf(r).value.1.value)
  {
    if r.host.Some? {
      TrimTwice(r.host.value);
    } else {
      assert Unwrapped("") == "";
    }
  }

  /** The lengths of the two schemes differ where it shows. */
  lemma SchemesDiffer(a: string, b: string)
    ensures HTTPS + "://" + a != HTTP + "://" + b
  {
    assert (HTTPS + "://" + a)[4] == 's' && (HTTP + "://" + b)[4] == ':';
  }

  /** Where a slash-free host ends, the path begins. */
  lemma SplitAtSlash(a: string, p: string, b: string, q: string)
    requires '/' !in a && '/' !in b && p != "" && p[0] == '/' && q != "" && q[0] == '/'
    requires a + p == b + q
    ensures a == b && p == q
  {
    var s := a + p;
    assert s[|a|] == '/' && forall i :: 0 <= i < |a| ==> s[i] != '/';
    assert s == b + q && s[|b|] == '/' && forall i :: 0 <= i < |b| ==> s[i] != '/';
    assert a == (a + p)[..|a|] && b == (b + q)[..|b|];
    assert p == (a + p)[|a|..] && q == (b + q)[|b|..];
  }

  lemma LowerKeepsSlashes(s: string)
    ensures '/' in Lower(s) <==> '/' in s
  {
    if '/' in s {
      var i :| 0 <= i < |s| && s[i] == '/';
      assert Lower(s)[i] == '/';
    }
  }

  /** Keys are equal exactly when the schemes agree and the host and path put together do. */
  lemma KeysApart(https1: bool, host1: string, path1: string, https2: bool, host2: string, path2: string)
    ensures PrimaryKey(https1, host1, path1) == PrimaryKey(https2, host2, path2)
      <==> https1 == https2 && Lower(host1) + path1 == Lower(host2) + path2
  {
    var a, b := Lower(host1) + path1, Lower(host2) + path2;
    assert PrimaryKey(https1, host1, path1) == (if https1 then HTTPS else HTTP) + "://" + a;
    assert PrimaryKey(https2, host2, path2) == (if https2 then HTTPS else HTTP) + "://" + b;
    if https1 != https2 {
      SchemesDiffer(a, b);
      SchemesDiffer(b, a);
    } else {
      var scheme := (if https1 then HTTPS else HTTP) + "://";
      assert a == (scheme + a)[|scheme|..] && b == (scheme + b)[|scheme|..];
    }
  }

  /** So, for hosts without a slash and paths that begin with one, equal keys mean equal parts. */
  lemma KeySoundness(https1: bool, host1: string, path1: string, https2: bool, host2: string, path2: string)
    requires '/' !in host1 && '/' !in host2 && path1 != "" && path1[0] == '/' && path2 != "" && path2[0] == '/'
    ensures PrimaryKey(https1, host1, path1) == PrimaryKey(https2, host2, path2)
      <==> https1 == https2 && EqIgnoreCase(host1, host2) && path1 == path2
  {
    KeysApart(https1, host1, path1, https2, host2, path2);
    LowerEq(host1, host2);
    LowerKeepsSlashes(host1);
    LowerKeepsSlashes(host2);
    if Lower(host1) + path1 == Lower(host2) + path2 {
      SplitAtSlash(Lower(host1), path1, Lower(host2), path2);
    }
  }

  predicate Regular(r: Request) {
    && HostOf(r).Ok? && '/' !in HostOf(r).value.0
    && (r.pathAndQuery.Some? ==> "/" <= r.pathAndQuery.value)
  }

  /** The port a request is sent to, given only what the key says about its scheme. */
  function EffectivePort(r: Request, listenHttps: nat): nat
    requires HostOf(r).Ok?
  {
    var port := HostOf(r).value.1;
    if port.Some? then port.value else if CountsAsHttps(r, listenHttps) then 443 else 80
  }

  predicate SameOrigin(p: Peer, q: Peer) {
    EqIgnoreCase(p.host, q.host) && p.port == q.port && p.tls == q.tls && EqIgnoreCase(p.sni, q.sni)
  }

  /** Requests that share a cached body would be sent to the same origin exactly when their ports, explicit or implied
      by the scheme, are the same: the port is not part of the key. */
  lemma SharedBodySharedOrigin(r1: Request, r2: Request, listenHttps: nat)
    requires Regular(r1) && Regular(r2) && CacheKey(r1, listenHttps) == CacheKey(r2, listenHttps)
    ensures var p, q := UpstreamPeer(r1, listenHttps), UpstreamPeer(r2, listenHttps);
      && p.Ok? && q.Ok?
      && EqIgnoreCase(p.value.host, q.value.host)
      && (SameOrigin(p.value, q.value) <==> EffectivePort(r1, listenHttps) == EffectivePort(r2, listenHttps))
      && (HostOf(r1).value.1.None? && HostOf(r2).value.1.None? ==> SameOrigin(p.value, q.value))
  {
    hide ParseHostAuthority, PrimaryKey, SpellsHttps;
    SameHost(r1, listenHttps);
    SameHost(r2, listenHttps);
    PeerOf(r1, listenHttps);
    PeerOf(r2, listenHttps);
    HttpsExactly(r1, listenHttps);
    HttpsExactly(r2, listenHttps);
    KeySoundness(IsHttps(r1, listenHttps), HostOf(r1).value.0, PathAndQuery(r1),
                 IsHttps(r2, listenHttps), HostOf(r2).value.0, PathAndQuery(r2));
  }

  /** The peer in terms of what the key construction sees: TLS is used for https keys, and for port 443. */
  lemma PeerOf(r: Request, listenHttps: nat)
    requires HostOf(r).Ok?
    ensures UpstreamPeer(r, listenHttps).Ok?
    ensures var (host, port) := HostOf(r).value;
      var tls := CountsAsHttps(r, listenHttps) || port == Some(443);
      UpstreamPeer(r, listenHttps).value
        == Peer(host, EffectivePort(r, listenHttps), tls, if tls then host else "")
  {
    hide SpellsHttps;
    HttpsExactly(r, listenHttps);
    SameHost(r, listenHttps);
    if r.host.Some? {
      TrimTwice(r.host.value);
    }
  }

  // - - - in terms of the request itself

  /** Whether the request counts as https: its ":scheme" header decides, else its x-forwarded-proto header, else the
      listener it came through. */
  predicate CountsAsHttps(r: Request, listenHttps: nat) {
    || (r.scheme.Some? && SpellsHttps(r.scheme.value))
    || (r.scheme.None? && r.forwardedProto.Some? && SpellsHttps(r.forwardedProto.value))
    || (r.scheme.None? && r.forwardedProto.None? && r.serverPort == Some(listenHttps))
  }

  lemma HttpsExactly(r: Request, listenHttps: nat)
    ensures IsHttps(r, listenHttps) <==> CountsAsHttps(r, listenHttps)
  {
    if r.scheme.Some? { SpelledHttps(r.scheme.value); }
    if r.forwardedProto.Some? { SpelledHttps(r.forwardedProto.value); }
  }

  /** Where a request is sent. */
  lemma PeerExactly(r: Request, listenHttps: nat)
    ensures r.host.None? ==> UpstreamPeer(r, listenHttps) == Err(ConnectError)
    ensures r.host.Some? && ParseHostAuthority(r.host.value).Err? ==> UpstreamPeer(r, listenHttps) == Err(InternalError)
    ensures r.host.Some? && ParseHostAuthority(r.host.value).Ok? ==>
      var (host, port) := ParseHostAuthority(r.host.value).value;
      && UpstreamPeer(r, listenHttps).Ok?
      && var peer := UpstreamPeer(r, listenHttps).value;
         && (peer.tls <==> CountsAsHttps(r, listenHttps) || port == Some(443))
         && peer.host == host && peer.sni == (if peer.tls then host else "")
         && (port.Some? ==> peer.port == port.value)
         && (port.None? && CountsAsHttps(r, listenHttps) ==> peer.port == 443)
         && (port.None? && !CountsAsHttps(r, listenHttps) ==> peer.port == 80)
  {
    hide ParseHostAuthority, SpellsHttps;
    HttpsExactly(r, listenHttps);
    if r.host.Some? { TrimmedParses(r.host.value); }
  }

  lemma TrimmedParses(raw: string)
    ensures ParseHostAuthority(Trim(raw)) == ParseHostAuthority(raw)
  {
    TrimTwice(raw);
  }

  /** The path of a request; none counts as "/". */
  predicate HasPath(r: Request, path: string) {
    r.pathAndQuery == Some(path) || (r.pathAndQuery.None? && path == "/")
  }

  /** What the key of a request says, letter by letter. */
  lemma KeyText(r: Request, listenHttps: nat, path: string)
    requires HasPath(r, path)
    ensures CacheKey(r, listenHttps).Ok? <==> r.host.Some? && ParseHostAuthority(r.host.value).Ok?
    ensures CacheKey(r, listenHttps).Err? ==> CacheKey(r, listenHttps) == Err(InternalError)
    ensures CacheKey(r, listenHttps).Ok? ==>
      var host := Lower(ParseHostAuthority(r.host.value).value.0);
      CacheKey(r, listenHttps).value
        == (if CountsAsHttps(r, listenHttps) then "https://" + host + path else "http://" + host + path)
  {
    hide ParseHostAuthority, SpellsHttps;
    HttpsExactly(r, listenHttps);
    NoHostNoKey();
    assert HTTPS + "://" == "https://" && HTTP + "://" == "http://";
  }

  lemma NoHostNoKey()
    ensures ParseHostAuthority("").Err?
  {
    assert Unwrapped("") == "";
  }

  /** Which requests share a cached body: for hosts without a slash and paths that begin with one, exactly those that
      agree in whether they count as https, in the host but for its case, and in the path. */
  lemma KeyExactly(r: Request, q: Request, listenHttps: nat, path1: string, path2: string)
    requires HostOf(r).Ok? && HostOf(q).Ok? && '/' !in HostOf(r).value.0 && '/' !in HostOf(q).value.0
    requires HasPath(r, path1) && HasPath(q, path2) && "/" <= path1 && "/" <= path2
    ensures CacheKey(r, listenHttps).Ok? && CacheKey(q, listenHttps).Ok?
    ensures CacheKey(r, listenHttps) == CacheKey(q, listenHttps) <==>
      && (CountsAsHttps(r, listenHttps) <==> CountsAsHttps(q, listenHttps))
      && EqIgnoreCase(HostOf(r).value.0, HostOf(q).value.0) && path1 == path2
  {
    hide ParseHostAuthority, SpellsHttps, PrimaryKey, EqIgnoreCase;
    HttpsExactly(r, listenHttps);
    HttpsExactly(q, listenHttps);
    KeySoundness(IsHttps(r, listenHttps), HostOf(r).value.0, path1, IsHttps(q, listenHttps), HostOf(q).value.0, path2);
  }

  lemma ParsesTo(s: string, host: string, port: nat)
    requires host != "" && ':' !in host && '/' !in host && ' ' !in host && host[0] != '['
    requires !IsSpace(host[0]) && !IsSpace(host[|host| - 1]) && port <= 65535
    requires s == host + ":" + Decimal(port)
    ensures ParseHostAuthority(s) == Ok((host, Some(port)))
  {
    hide ParseHostAuthority, Decimal;
    PlainRoundTrip(host, Some(port));
    assert PortSuffix(Some(port)) == ":" + Decimal(port);
    assert host + ":" + Decimal(port) == host + PortSuffix(Some(port));
  }

  /** And two ports of one host do share their cached bodies. */
  lemma PortsCollide(host: string, p: nat, q: nat, path: Option<string>, listenHttps: nat)
    requires host != "" && ':' !in host && '/' !in host && ' ' !in host && host[0] != '['
    requires !IsSpace(host[0]) && !IsSpace(host[|host| - 1]) && p <= 65535 && q <= 65535
    ensures var r1 := Request(Some(host + ":" + Decimal(p)), Some(HTTP), None, None, path);
      var r2 := Request(Some(host + ":" + Decimal(q)), Some(HTTP), None, None, path);
      && CacheKey(r1, listenHttps).Ok? && CacheKey(r1, listenHttps) == CacheKey(r2, listenHttps)
      && (p != q ==> UpstreamPeer(r1, listenHttps) != UpstreamPeer(r2, listenHttps))
  {
    hide ParseHostAuthority;
    var r1 := Request(Some(host + ":" + Decimal(p)), Some(HTTP), None, None, path);
    var r2 := Request(Some(host + ":" + Decimal(q)), Some(HTTP), None, None, path);
    ParsesTo(r1.host.value, host, p);
    ParsesTo(r2.host.value, host, q);
    PeerOf(r1, listenHttps);
    PeerOf(r2, listenHttps);
  }

  /** A bracketed host may hold a slash, and then the boundary between host and path is lost. */
  lemma BracketsCollide(a: string, b: string, path: string, https: bool)
    requires ']' !in a && ']' !in b
    ensures ParseHostAuthority("[" + a + "/" + b + "]") == Ok((a + "/" + b, None))
    ensures ParseHostAuthority("[" + a + "]") == Ok((a, None))
    ensures PrimaryKey(https, a + "/" + b, path) == PrimaryKey(https, a, "/" + Lower(b) + path)
  {
    hide ParseHostAuthority;
    BracketRoundTrip(a + "/" + b, None);
    BracketRoundTrip(a, None);
    assert "[" + (a + "/" + b) + "]" + PortSuffix(None) == "[" + a + "/" + b + "]";
    assert "[" + a + "]" + PortSuffix(None) == "[" + a + "]";
    assert Lower(a + "/" + b) + path == Lower(a) + ("/" + Lower(b) + path);
    KeysApart(https, a + "/" + b, path, https, a, "/" + Lower(b) + path);
  }
}
