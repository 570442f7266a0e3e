/**
 * Forcing HTTPS: before a request, a plain-HTTP GET is redirected to the
 * same URL under https; after it, a secure request's response carries a
 * Strict-Transport-Security header (section 6.1 of RFC 6797) unless it
 * already has one.
 */
module Ssl {
  import opened Wrappers
  import opened Text
  import opened Web

  const HstsHeader := "Strict-Transport-Security"
  /** One year, in seconds. */
  const HstsValue := "max-age=31536000"

  /** request.headers.get('X-Forwarded-Proto', 'http') */
  function ForwardedProto(header: Option<string>): (p: string)
    ensures header.None? ==> p == "http"
    ensures header.Some? ==> p == header.value
  {
    if header.Some? then header.value else "http"
  }

  /** The four conditions under which get_redirect answers instead of the handler. */
  predicate MustRedirect(isSecure: bool, forwarded: Option<string>, httpMethod: string, url: string) {
    !isSecure && ForwardedProto(forwarded) != "https" && httpMethod == "GET" && StartsWith(url, "http://")
  }

  /** A string starting with a pattern has its first occurrence at 0. */
  lemma IndexOfPrefix(s: string, pat: string)
    requires StartsWith(s, pat)
    ensures IndexOf(s, pat) == Some(0)
  {
    assert OccursAt(s, pat, 0);
  }

  /**
   * get_redirect: a 301 to the URL with its first "http://", which is its
   * scheme, replaced by "https://"; nothing otherwise.
   */
  function GetRedirect(isSecure: bool, forwarded: Option<string>, httpMethod: string, url: string): (r: Option<Response>)
    ensures r.Some? <==> MustRedirect(isSecure, forwarded, httpMethod, url)
    ensures r.Some? ==> |url| >= 7 && r.value == RedirectTo("https://" + url[7..], 301)
  {
    if MustRedirect(isSecure, forwarded, httpMethod, url) then
      IndexOfPrefix(url, "http://");
      assert url[..0] == [];
      Some(RedirectTo(ReplaceFirst(url, "http://", "https://"), 301))
    else None
  }

  /** Only GET requests are ever redirected. */
  lemma NonGetNotRedirected(isSecure: bool, forwarded: Option<string>, httpMethod: string, url: string)
    requires httpMethod != "GET"
    ensures GetRedirect(isSecure, forwarded, httpMethod, url).None?
  {
  }

  /** Behind a proxy that reports no protocol, a plain-HTTP GET is redirected. */
  lemma MissingProtoIsHttp(rest: string)
    ensures GetRedirect(false, None, "GET", "http://" + rest) == Some(RedirectTo("https://" + rest, 301))
  {
    var url := "http://" + rest;
    assert url[..7] == "http://";
    assert url[7..] == rest;
  }

  /** The redirect target is never redirected again. */
  lemma {:induction false} NoRedirectLoop(isSecure: bool, forwarded: Option<string>, httpMethod: string, url: string,
                                          forwarded2: Option<string>)
    requires GetRedirect(isSecure, forwarded, httpMethod, url).Some?
    ensures GetRedirect(false, forwarded2, "GET", GetRedirect(isSecure, forwarded, httpMethod, url).value.content.location).None?
  {
    var target := GetRedirect(isSecure, forwarded, httpMethod, url).value.content.location;
    assert target == "https://" + url[7..];
    assert target[4] == 's';
    assert target[..7][4] != "http://"[4];
  }

  /** headers.setdefault(HstsHeader, HstsValue), done only for a secure request. */
  function WithHsts(headers: map<string, string>, isSecure: bool): (r: map<string, string>)
    ensures !isSecure ==> r == headers
    ensures isSecure ==> r.Keys == headers.Keys + {HstsHeader}
    ensures isSecure && HstsHeader !in headers ==> r[HstsHeader] == HstsValue
    ensures forall k :: k in headers ==> k in r && r[k] == headers[k]
  {
    if isSecure && HstsHeader !in headers then headers[HstsHeader := HstsValue] else headers
  }

  /** Setting the headers twice is setting them once. */
  lemma WithHstsIdempotent(headers: map<string, string>, isSecure: bool)
    ensures WithHsts(WithHsts(headers, isSecure), isSecure) == WithHsts(headers, isSecure)
  {
  }

  /** The response set_headers receives and returns. */
  class OutgoingResponse {
    var status: int
    var content: Content
    var headers: map<string, string>

    constructor (status: int, content: Content, headers: map<string, string>)
      ensures this.status == status && this.content == content && this.headers == headers
    {
      this.status := status;
      this.content := content;
      this.headers := headers;
    }

    /** set_headers: only the headers change, and an existing HSTS value is kept. */
    method SetHeaders(isSecure: bool)
      modifies this`headers
      ensures headers == WithHsts(old(headers), isSecure)
      ensures status == old(status) && content == old(content)
    {
      if isSecure && HstsHeader !in headers {
        headers := headers[HstsHeader := HstsValue];
      }
    }
  }
}
