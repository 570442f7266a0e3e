/**
 * The web-framework vocabulary the handlers answer in: JSON values, the
 * kinds of response body, responses with a status code, and content
 * negotiation (JSON for XMLHttpRequest callers or when the Accept header
 * prefers JSON over HTML).
 */
module Web {
  import opened Wrappers
  import opened Text

  datatype JsonValue =
    | JStr(s: string)
    | JBool(b: bool)
    | JInt(i: int)
    | JNull
    | JArr(items: seq<JsonValue>)
    | JObj(fields: map<string, JsonValue>)

  /** The body of a response: a JSON object, a rendered template or a redirect. */
  datatype Content =
    | Json(body: map<string, JsonValue>)
    | JsonText(text: string)
    | Page(template: string, title: string, params: seq<string>)
    | ConfirmationPage(email: string, host: string, resend: bool)
    | ConfirmedPage(email: string, host: string)
    | CaptchaPage(data: map<string, string>, sortedKeys: seq<string>, action: string, lang: Option<string>)
    | Redirect(location: string)

  /** A response, or the failure of a handler that raises instead of answering. */
  datatype Response = Reply(status: int, content: Content) | Crash

  /** The status Flask gives a body that is returned without one. */
  const DefaultStatus := 200

  /** jsonify(body): a JSON body with the default status. */
  function Jsonify(body: map<string, JsonValue>): (r: Response)
    ensures r.Reply? && r.status == DefaultStatus && r.content == Json(body)
  {
    Reply(DefaultStatus, Json(body))
  }

  /** jsonerror(code, body): the JSON body with exactly the given status. */
  function JsonError(code: int, body: map<string, JsonValue>): (r: Response)
    ensures r.Reply? && r.status == code && r.content == Json(body)
  {
    var resp := Jsonify(body);
    resp.(status := code)
  }

  /** redirect(url, code). */
  function RedirectTo(url: string, code: int): (r: Response)
    ensures r.Reply? && r.status == code && r.content.Redirect? && r.content.location == url
  {
    Reply(code, Redirect(url))
  }

  function ErrorBody(message: string): map<string, JsonValue> {
    map["error" := JStr(message)]
  }

  /** The two media types the handlers offer. */
  datatype Mime = ApplicationJson | TextHtml

  /** The quality the client's Accept header gives each offered type (0 when not accepted). */
  datatype Accept = Accept(qJson: real, qHtml: real)

  predicate ValidAccept(a: Accept) {
    0.0 <= a.qJson <= 1.0 && 0.0 <= a.qHtml <= 1.0
  }

  /**
   * best_match(['application/json', 'text/html']): the offered type of the
   * highest positive quality, the earlier one on a tie.
   */
  function BestMatch(a: Accept): (r: Option<Mime>)
    requires ValidAccept(a)
    ensures r.None? <==> a.qJson == 0.0 && a.qHtml == 0.0
    ensures r == Some(ApplicationJson) ==> a.qJson >= a.qHtml
    ensures r == Some(TextHtml) ==> a.qHtml > a.qJson
  {
    if a.qJson > 0.0 && a.qJson >= a.qHtml then Some(ApplicationJson)
    else if a.qHtml > 0.0 then Some(TextHtml)
    else None
  }

  /** request_wants_json, given the X-Requested-With header ("" when absent). */
  function RequestWantsJson(xRequestedWith: string, a: Accept): bool
    requires ValidAccept(a)
  {
    if ToLower(xRequestedWith) == "xmlhttprequest" then true
    else
      var best := BestMatch(a);
      best == Some(ApplicationJson) && a.qJson > a.qHtml
  }

  /** An XMLHttpRequest caller always gets JSON, whatever it accepts. */
  lemma XhrWantsJson(xRequestedWith: string, a: Accept)
    requires ValidAccept(a) && ToLower(xRequestedWith) == "xmlhttprequest"
    ensures RequestWantsJson(xRequestedWith, a)
  {
  }

  /**
   * Otherwise JSON is chosen exactly when JSON's quality strictly exceeds
   * HTML's: a tie (as with an Accept header of any type) answers HTML.
   */
  lemma {:induction false} WantsJsonByQuality(xRequestedWith: string, a: Accept)
    requires ValidAccept(a) && ToLower(xRequestedWith) != "xmlhttprequest"
    ensures RequestWantsJson(xRequestedWith, a) <==> a.qJson > a.qHtml
  {
    if a.qJson > a.qHtml {
      assert BestMatch(a) == Some(ApplicationJson);
    }
  }
}
