/**
 * referrer_to_path: the host and path of a referrer URL, through the URL
 * splitting of Python 2.7's urlparse (scheme, then "//" network location,
 * then fragment, query and ";" parameters).
 */
module Urls {
  import opened Wrappers
  import opened Text
  import opened Numerals

  datatype ParsedUrl = ParsedUrl(scheme: string, netloc: string, path: string, params: string, query: string, fragment: string)

  predicate IsSchemeChar(c: char) {
    'a' <= c <= 'z' || 'A' <= c <= 'Z' || '0' <= c <= '9' || c == '+' || c == '-' || c == '.'
  }

  /** The schemes whose last path segment may carry ";" parameters ("" among them). */
  const UsesParams: set<string> :=
    {"ftp", "hdl", "prospero", "http", "imap", "https", "shttp", "rtsp", "rtspu",
     "sip", "sips", "mms", "", "sftp", "tel"}

  /** The characters that end a network location. */
  const NetlocDelims: set<char> := {'/', '?', '#'}

  /** The first index of t holding a network-location delimiter, |t| if none. */
  function NetlocEnd(t: string): (k: nat)
    ensures k <= |t| && (k < |t| ==> t[k] in NetlocDelims)
    ensures forall j :: 0 <= j < k ==> t[j] !in NetlocDelims
  {
    if |t| == 0 then 0
    else if t[0] in NetlocDelims then 0
    else 1 + NetlocEnd(t[1..])
  }

  /** The text before the first c, all of s if c does not occur. */
  function Before(s: string, c: char): (r: string)
    ensures c !in r && StartsWith(s, r)
    ensures c !in s ==> r == s
  {
    match IndexOfChar(s, c)
    case Some(i) => s[..i]
    case None => s
  }

  /** The text after the first c, "" if c does not occur. */
  function After(s: string, c: char): string {
    match IndexOfChar(s, c)
    case Some(i) => s[i + 1..]
    case None => ""
  }

  /** s.rfind(c): the last index holding c. */
  function LastIndexOfChar(s: string, c: char): (r: Option<nat>)
    ensures r.None? <==> c !in s
    ensures r.Some? ==> r.value < |s| && s[r.value] == c && c !in s[r.value + 1..]
  {
    if |s| == 0 then None
    else if s[|s| - 1] == c then Some(|s| - 1)
    else
      match LastIndexOfChar(s[..|s| - 1], c)
      case None => None
      case Some(i) => assert s[i + 1..] == s[..|s| - 1][i + 1..] + [s[|s| - 1]]; Some(i)
  }

  /** Split off the scheme when the text before the first ':' can be one. */
  function SplitScheme(url: string): (r: (string, string))
  {
    match IndexOfChar(url, ':')
    case None => ("", url)
    case Some(i) =>
      var rest := url[i + 1..];
      if i > 0 && (url[..i] == "http" ||
                   ((forall k :: 0 <= k < i ==> IsSchemeChar(url[k])) && (rest == "" || !AllDigits(rest))))
      then (ToLower(url[..i]), rest)
      else ("", url)
  }

  /** Drop the ";" parameters of the last path segment. */
  function SplitParams(path: string): (r: (string, string))
  {
    match LastIndexOfChar(path, '/')
    case Some(slash) =>
      (match IndexOfChar(path[slash..], ';')
       case None => (path, "")
       case Some(p) => (path[..slash + p], path[slash + p + 1..]))
    case None =>
      match IndexOfChar(path, ';')
      case None => (path, "")
      case Some(p) => (path[..p], path[p + 1..])
  }

  /** After the scheme: the network location behind a leading "//", and what follows it. */
  function SplitNetloc(rest: string): (r: (string, string))
    ensures '?' !in r.0 && '#' !in r.0
  {
    if StartsWith(rest, "//") then
      var k := NetlocEnd(rest[2..]);
      assert forall j :: 0 <= j < k ==> rest[2..2 + k][j] == rest[2..][j];
      (rest[2..2 + k], rest[2 + k..])
    else ("", rest)
  }

  /** The path, query and fragment of what follows the network location. */
  function SplitTail(tail: string): (r: (string, string, string))
    ensures '?' !in r.0 && '#' !in r.0
  {
    var beforeFragment := Before(tail, '#');
    (Before(beforeFragment, '?'), After(beforeFragment, '?'), After(tail, '#'))
  }

  /** urlparse(url); None where it raises ValueError for an unbalanced IPv6 bracket. */
  function UrlParse(url: string): (r: Option<ParsedUrl>)
    ensures r.Some? ==> '?' !in r.value.netloc && '#' !in r.value.netloc
    ensures r.Some? ==> '?' !in r.value.path && '#' !in r.value.path
  {
    var (scheme, rest) := SplitScheme(url);
    var (netloc, tail) := SplitNetloc(rest);
    if ('[' in netloc && ']' !in netloc) || (']' in netloc && '[' !in netloc) then None
    else
      var (path, query, fragment) := SplitTail(tail);
      var split := if scheme in UsesParams && ';' in path then SplitParams(path) else (path, "");
      SplitParamsKeeps(path);
      Some(ParsedUrl(scheme, netloc, split.0, split.1, query, fragment))
  }

  lemma SplitParamsPrefix(path: string)
    ensures StartsWith(path, SplitParams(path).0)
  {
  }

  /** Dropping the parameters introduces no character. */
  lemma SplitParamsKeeps(path: string)
    ensures forall c :: c in SplitParams(path).0 ==> c in path
  {
    SplitParamsPrefix(path);
    var p := SplitParams(path).0;
    forall c | c in p ensures c in path {
      var i :| 0 <= i < |p| && p[i] == c;
      assert path[i] == c;
    }
  }

  /** The network location and path urlparse reports, from the pieces it splits off. */
  lemma UrlParseParts(url: string, netloc: string, tail: string)
    requires SplitNetloc(SplitScheme(url).1) == (netloc, tail)
    requires '[' !in netloc && ']' !in netloc
    requires ';' !in SplitTail(tail).0
    ensures UrlParse(url).Some?
    ensures UrlParse(url).value.netloc == netloc && UrlParse(url).value.path == SplitTail(tail).0
  {
  }

  /**
   * referrer_to_path: "" for a missing or empty referrer, else the network
   * location followed by the path; None where urlparse raises.
   */
  function ReferrerToPath(referrer: Option<string>): (r: Option<string>)
    ensures referrer.None? || referrer == Some("") ==> r == Some("")
    ensures r.Some? ==> '?' !in r.value && '#' !in r.value
  {
    if referrer.None? || referrer.value == "" then Some("")
    else match UrlParse(referrer.value)
      case None => None
      case Some(p) => Some(p.netloc + p.path)
  }

  lemma BeforeAppend(a: string, b: string, c: char)
    requires c !in a
    ensures Before(a + b, c) == a + Before(b, c)
  {
    IndexOfCharAppend(a, b, c);
    match IndexOfChar(b, c)
    case None =>
    case Some(k) => assert (a + b)[..|a| + k] == a + b[..k];
  }

  lemma {:induction false} NetlocEndAppend(a: string, b: string)
    requires forall j :: 0 <= j < |a| ==> a[j] !in NetlocDelims
    requires b == [] || b[0] in NetlocDelims
    ensures NetlocEnd(a + b) == |a|
    decreases |a|
  {
    if |a| > 0 {
      assert (a + b)[1..] == a[1..] + b;
      NetlocEndAppend(a[1..], b);
    }
  }

  /**
   * An http referrer with a plain host and a path without query, fragment or
   * parameters gives host + path, whatever query or fragment follows.
   */
  lemma {:induction false} HttpReferrerToPath(host: string, path: string, suffix: string)
    requires forall j :: 0 <= j < |host| ==> host[j] !in NetlocDelims && host[j] != '[' && host[j] != ']'
    requires path == "" || path[0] == '/'
    requires '?' !in path && '#' !in path && ';' !in path
    requires suffix == "" || suffix[0] == '?' || suffix[0] == '#'
    ensures ReferrerToPath(Some("http://" + host + path + suffix)) == Some(host + path)
  {
    var url := "http://" + host + path + suffix;
    var rest := "//" + (host + (path + suffix));
    assert url == "http:" + rest;
    assert url[5..] == rest;
    HttpScheme(url, rest);
    HostNetloc(host, path + suffix);
    assert '[' !in host && ']' !in host;
    PathOfTail(path, suffix);
    UrlParseParts(url, host, path + suffix);
    ReferrerOfParse(url);
  }

  /** A non-empty referrer urlparse accepts gives its network location and path. */
  lemma ReferrerOfParse(url: string)
    requires url != "" && UrlParse(url).Some?
    ensures ReferrerToPath(Some(url)) == Some(UrlParse(url).value.netloc + UrlParse(url).value.path)
  {
  }

  lemma HttpScheme(url: string, rest: string)
    requires StartsWith(url, "http:") && rest == url[5..]
    ensures SplitScheme(url) == ("http", rest)
  {
    IndexOfCharAt(url, ':', 4);
    assert url[..4] == "http";
    assert ToLower("http") == "http" by {
      var l := ToLower("http");
      assert l[0] == 'h' && l[1] == 't' && l[2] == 't' && l[3] == 'p';
    }
  }

  lemma HostNetloc(host: string, tail: string)
    requires forall j :: 0 <= j < |host| ==> host[j] !in NetlocDelims
    requires tail == "" || tail[0] in NetlocDelims
    ensures SplitNetloc("//" + (host + tail)) == (host, tail)
  {
    var rest := "//" + (host + tail);
    assert rest[2..] == host + tail;
    NetlocEndAppend(host, tail);
    assert rest[2..2 + |host|] == host;
    assert rest[2 + |host|..] == tail;
  }

  lemma PathOfTail(path: string, suffix: string)
    requires '?' !in path && '#' !in path
    requires suffix == "" || suffix[0] == '?' || suffix[0] == '#'
    ensures SplitTail(path + suffix).0 == path
  {
    BeforeAppend(path, suffix, '#');
    var cut := Before(suffix, '#');
    assert cut == "" || cut[0] == '?';
    BeforeAppend(path, cut, '?');
    if cut != "" {
      IndexOfCharAt(cut, '?', 0);
    }
    assert Before(path + cut, '?') == path;
  }

  /** A referrer without scheme, "//", query, fragment or parameters comes back whole as the path. */
  lemma {:induction false} PlainReferrerToPath(s: string)
    requires s != "" && ':' !in s && !StartsWith(s, "//")
    requires '?' !in s && '#' !in s && ';' !in s
    ensures ReferrerToPath(Some(s)) == Some(s)
  {
    assert SplitScheme(s) == ("", s);
    assert SplitNetloc(s) == ("", s);
    assert SplitTail(s).0 == s;
    UrlParseParts(s, "", s);
    assert "" + s == s;
  }
}
