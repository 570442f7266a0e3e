/**
 * The submission endpoint: resolve the submitting host, resolve the target
 * to a form (a dashboard form by hashid, or a form by email and host,
 * created on first use), apply the CAPTCHA gate, and answer according to
 * the status the form reports.
 */
module Endpoint {
  import opened Wrappers
  import opened Text
  import opened Web
  import opened Errors
  import opened EmailRules
  import opened FieldSet
  import opened Urls
  import opened Forms

  /** What the temporary hostname store holds for a nonce. */
  datatype TempHost = Stored(host: string, referrer: Option<string>) | Unknown | Corrupt

  /** The collaborators and settings the endpoint consults. */
  datatype Env = Env(
    tempLookup: string -> TempHost,
    removeWww: string -> string,
    serviceDomain: string,
    upgradedPlanName: string,
    serviceName: string,
    testing: bool,
    captchaVerified: bool,
    formHasDashboard: bool,
    nonce: string,
    captchaAction: string -> string,
    languageExists: string -> bool,
    keysExcludedFromEmail: seq<string>)

  const HostNonceKey := "_host_nonce"

  /**
   * get_host_and_referrer: the host and referrer stored for the submission's
   * nonce, else those of the Referer header; a corrupt stored entry is a
   * 500 page, and a referrer urlparse rejects makes the request fail.
   */
  function GetHostAndReferrer(data: map<string, string>, requestReferrer: Option<string>, tempLookup: string -> TempHost)
    : (r: Result<(string, Option<string>), Response>)
    ensures HostNonceKey in data && tempLookup(data[HostNonceKey]).Stored? ==>
      r == Success((tempLookup(data[HostNonceKey]).host, tempLookup(data[HostNonceKey]).referrer))
    ensures HostNonceKey in data && tempLookup(data[HostNonceKey]).Corrupt? ==> r.Failure? && r.error.Reply? && r.error.status == 500
    ensures (HostNonceKey !in data || tempLookup(data[HostNonceKey]).Unknown?) ==>
      (ReferrerToPath(requestReferrer).Some? ==> r == Success((ReferrerToPath(requestReferrer).value, requestReferrer))) &&
      (ReferrerToPath(requestReferrer).None? ==> r == Failure(Crash))
  {
    var stored := if HostNonceKey in data then tempLookup(data[HostNonceKey]) else Unknown;
    match stored
    case Stored(host, referrer) => Success((host, referrer))
    case Corrupt => Failure(Reply(500, Page("error.html", "Unable to submit form", [])))
    case Unknown =>
      match ReferrerToPath(requestReferrer)
      case Some(path) => Success((path, requestReferrer))
      case None => Failure(Crash)
  }

  /** A missing or empty Referer, with no stored host, yields an empty host. */
  lemma NoReferrerNoHost(data: map<string, string>, requestReferrer: Option<string>, tempLookup: string -> TempHost)
    requires HostNonceKey !in data && (requestReferrer.None? || requestReferrer == Some(""))
    ensures GetHostAndReferrer(data, requestReferrer, tempLookup) == Success(("", requestReferrer))
  {
  }

  /** The host test of a bound form: trailing '/' ignored, or a www-neutral prefix for a sitewide form. */
  predicate HostAccepted(form: Form, host: string, removeWww: string -> string) {
    if form.sitewide then StartsWith(removeWww(host), removeWww(form.host))
    else RStrip(form.host, {'/'}) == RStrip(host, {'/'})
  }

  /** For a form that is not sitewide, trailing slashes on the submitting host never matter. */
  lemma {:induction false} TrailingSlashesIgnored(form: Form, host: string, slashes: string, removeWww: string -> string)
    requires !form.sitewide
    requires forall i :: 0 <= i < |slashes| ==> slashes[i] == '/'
    ensures HostAccepted(form, host + slashes, removeWww) <==> HostAccepted(form, host, removeWww)
  {
    RStripAppend(host, slashes, {'/'});
  }

  /** A sitewide form accepts any path or query after its bound host. */
  lemma {:induction false} SitewideAcceptsBelow(form: Form, host: string, rest: string, removeWww: string -> string)
    requires form.sitewide && removeWww(host) == removeWww(form.host) + rest
    ensures HostAccepted(form, host, removeWww)
  {
    assert removeWww(host)[..|removeWww(form.host)|] == removeWww(form.host);
  }

  /**
   * validate_user_form on the form a hashid names: unknown is a bad hashid,
   * disabled is rejected before the host is looked at, an unbound form is
   * bound to the host, and a bound form must accept the host.
   */
  function UserFormCheck(form: Option<Form>, hashid: string, host: string, wantsJson: bool, removeWww: string -> string)
    : (r: Result<Form, Response>)
    ensures form.None? ==> r == Failure(ErrorResponse(BadHashid(hashid), wantsJson))
    ensures form.Some? && form.value.disabled ==> r == Failure(ErrorResponse(Disabled, wantsJson))
    ensures r.Success? <==> form.Some? && !form.value.disabled && (form.value.host == "" || HostAccepted(form.value, host, removeWww))
    ensures r.Success? ==> r.value == if form.value.host == "" then form.value.(host := host) else form.value
    ensures r.Failure? && form.Some? && !form.value.disabled ==>
      r.error == ErrorResponse(MismatchedHost(host, form.value.host), wantsJson)
  {
    match form
    case None => Failure(ErrorResponse(BadHashid(hashid), wantsJson))
    case Some(f) =>
      if f.disabled then Failure(ErrorResponse(Disabled, wantsJson))
      else if f.host == "" then Success(f.(host := host))
      else if !HostAccepted(f, host, removeWww) then Failure(ErrorResponse(MismatchedHost(host, f.host), wantsJson))
      else Success(f)
  }

  /** A bound host is never overwritten, and only an accepted host gets through. */
  lemma {:induction false} BoundHostKept(f: Form, hashid: string, host: string, wantsJson: bool, removeWww: string -> string)
    requires f.host != ""
    ensures UserFormCheck(Some(f), hashid, host, wantsJson, removeWww).Success? ==>
      UserFormCheck(Some(f), hashid, host, wantsJson, removeWww).value.host == f.host && HostAccepted(f, host, removeWww)
  {
  }

  /** validate_user_form: the check above, with the binding written to the table. */
  method ValidateUserForm(store: Store, hashid: string, host: string, wantsJson: bool, removeWww: string -> string)
    returns (r: Result<nat, Response>)
    requires store.Valid()
    modifies store`forms
    ensures store.Valid()
    ensures var form := old(store.Get(store.WithHashid(hashid)));
      var expected := UserFormCheck(form, hashid, host, wantsJson, removeWww);
      (r.Success? <==> expected.Success?) &&
      (r.Failure? ==> r.error == expected.error) &&
      (r.Success? ==> Some(r.value) == old(store.WithHashid(hashid)) && r.value in store.forms && store.forms[r.value] == expected.value) &&
      (if r.Success? && form.value.host == "" then store.forms == old(store.forms)[r.value := form.value.(host := host)]
       else store.forms == old(store.forms))
  {
    var id := store.WithHashid(hashid);
    var checked := UserFormCheck(store.Get(id), hashid, host, wantsJson, removeWww);
    if checked.Failure? {
      return Failure(checked.error);
    }
    if store.forms[id.value].host == "" {
      store.Update(id.value, checked.value);
    }
    r := Success(id.value);
  }

  /**
   * The form a target names in the table as it stands: a dashboard form by
   * hashid, bound to the host on first use, or the form of the lower-cased
   * address and the host, built but not stored when there is none yet.
   */
  function Resolution(store: Store, target: string, host: string, wantsJson: bool, env: Env): Result<Form, Response>
    reads store
    requires store.Valid()
  {
    if IsValidEmail(target) then
      var email := ToLower(target);
      var h := store.HashOf(email, host);
      GetOrCreate(store.Get(store.Lookup(h)), email, host, h, wantsJson, env)
    else UserFormCheck(store.Get(store.WithHashid(target)), target, host, wantsJson, env.removeWww)
  }

  /** The table once the target is resolved: only a dashboard form bound on first use changes. */
  function ResolvedTable(store: Store, target: string, host: string, wantsJson: bool, env: Env): map<nat, Form>
    reads store
    requires store.Valid()
  {
    var id := store.WithHashid(target);
    var r := Resolution(store, target, host, wantsJson, env);
    if !IsValidEmail(target) && r.Success? && id.Some? && store.forms[id.value].host == "" then store.forms[id.value := r.value]
    else store.forms
  }

  /**
   * Resolving a target writes at most the host of one host-less form, and
   * that form is the resolved one; an e-mail target writes nothing.
   */
  lemma {:induction false} ResolutionBindsOnly(store: Store, target: string, host: string, wantsJson: bool, env: Env)
    requires store.Valid()
    ensures IsValidEmail(target) ==> ResolvedTable(store, target, host, wantsJson, env) == store.forms
    ensures ResolvedTable(store, target, host, wantsJson, env) == store.forms ||
      exists id :: id in store.forms && store.forms[id].host == "" &&
        ResolvedTable(store, target, host, wantsJson, env) == store.forms[id := store.forms[id].(host := host)] &&
        Resolution(store, target, host, wantsJson, env) == Success(store.forms[id].(host := host))
  {
    var id := store.WithHashid(target);
    var r := Resolution(store, target, host, wantsJson, env);
    if !IsValidEmail(target) && r.Success? && id.Some? && store.forms[id.value].host == "" {
      assert r.value == store.forms[id.value].(host := host);
    }
  }

  /** The resolution of a target, with the binding written to the table. */
  method ResolveForm(store: Store, target: string, host: string, wantsJson: bool, env: Env) returns (r: Result<Form, Response>)
    requires store.Valid()
    modifies store`forms
    ensures store.Valid()
    ensures r == old(Resolution(store, target, host, wantsJson, env))
    ensures store.forms == old(ResolvedTable(store, target, host, wantsJson, env))
  {
    if !IsValidEmail(target) {
      var validated := ValidateUserForm(store, target, host, wantsJson, env.removeWww);
      if validated.Failure? {
        return Failure(validated.error);
      }
      r := Success(store.forms[validated.value]);
    } else {
      var email := ToLower(target);
      var h := store.HashOf(email, host);
      r := GetOrCreate(store.Get(store.Lookup(h)), email, host, h, wantsJson, env);
    }
  }

  /**
   * get_or_create_form: the stored form, else, for a caller that is not
   * AJAX and a host that does not contain the service domain, a new
   * unsaved form; a disabled form is rejected.
   */
  function GetOrCreate(existing: Option<Form>, email: string, host: string, hash: string, wantsJson: bool, env: Env)
    : (r: Result<Form, Response>)
    ensures existing.Some? ==> r == if existing.value.disabled then Failure(ErrorResponse(Disabled, wantsJson)) else Success(existing.value)
    ensures existing.None? && wantsJson ==> r.Failure? && r.error.Reply? && r.error.status == 400 && r.error.content.Json?
    ensures existing.None? && !wantsJson && Contains(host, env.serviceDomain) ==>
      r.Failure? && r.error.Reply? && r.error.status == 400 && r.error.content.Page?
    ensures existing.None? && !wantsJson && !Contains(host, env.serviceDomain) ==> r == Success(NewForm(hash, email, host))
  {
    match existing
    case None =>
      if wantsJson then
        Failure(JsonError(400, ErrorBody("To prevent spam, only " + env.upgradedPlanName + " accounts may create AJAX forms.")))
      else if Contains(host, env.serviceDomain) then
        Failure(Reply(400, Page("error.html", "Unable to submit form", ["Sorry"])))
      else
        var f := NewForm(hash, email, host);
        if f.disabled then Failure(ErrorResponse(Disabled, wantsJson)) else Success(f)
    case Some(f) =>
      if f.disabled then Failure(ErrorResponse(Disabled, wantsJson)) else Success(f)
  }

  /** needs_captcha, with the owner's switch honoured only for dashboard forms. */
  predicate NeedsCaptcha(wantsJson: bool, verified: bool, testing: bool, hasDashboard: bool, captchaDisabled: bool) {
    var needs := !(wantsJson || verified || testing);
    if hasDashboard then needs && !captchaDisabled else needs
  }

  /** JSON callers, verified submissions and test mode never get the challenge. */
  lemma NoCaptchaFor(wantsJson: bool, verified: bool, testing: bool, hasDashboard: bool, captchaDisabled: bool)
    ensures NeedsCaptcha(wantsJson, verified, testing, hasDashboard, captchaDisabled) ==>
      !wantsJson && !verified && !testing && !(hasDashboard && captchaDisabled)
  {
  }

  /**
   * check_captcha: the challenge page when it is needed, carrying a copy of
   * the data with the host nonce added, in the requested language when
   * that template exists.
   */
  function CheckCaptcha(form: Form, target: string, data: map<string, string>, sortedKeys: seq<string>, wantsJson: bool, env: Env)
    : (r: Option<Response>)
    ensures r.Some? <==> NeedsCaptcha(wantsJson, env.captchaVerified, env.testing, env.formHasDashboard, form.captchaDisabled)
    ensures r.Some? ==> (
      r.value.Reply? && r.value.status == DefaultStatus && r.value.content.CaptchaPage? &&
      r.value.content.data == data[HostNonceKey := env.nonce] &&
      r.value.content.sortedKeys == sortedKeys && r.value.content.action == env.captchaAction(target) &&
      (r.value.content.lang.Some? <==> "_language" in data && env.languageExists(data["_language"])) &&
      (r.value.content.lang.Some? ==> r.value.content.lang.value == data["_language"]))
  {
    if !NeedsCaptcha(wantsJson, env.captchaVerified, env.testing, env.formHasDashboard, form.captchaDisabled) then None
    else
      var copy := data[HostNonceKey := env.nonce];
      if "_language" in data && env.languageExists(data["_language"]) then
        Some(Reply(DefaultStatus, CaptchaPage(copy, sortedKeys, env.captchaAction(target), Some(data["_language"]))))
      else
        Some(Reply(DefaultStatus, CaptchaPage(copy, sortedKeys, env.captchaAction(target), None)))
  }

  /** The challenge copy differs from the submitted data only in the nonce. */
  lemma CaptchaCopyDiffersOnlyInNonce(data: map<string, string>, nonce: string)
    ensures var copy := data[HostNonceKey := nonce];
      copy.Keys == data.Keys + {HostNonceKey} && forall k :: k in data && k != HostNonceKey ==> copy[k] == data[k]
  {
  }

  /** str() of an optional string, as the page templates print it. */
  function Shown(s: Option<string>): string {
    if s.Some? then s.value else "None"
  }

  /**
   * response_for_status: dispatch on the status; any status without a
   * case of its own reaches the generic error, whose HTML branch fails
   * because it is handed a function to serialise. A send that raised never
   * gets here: the exception leaves the endpoint.
   */
  function ResponseForStatus(form: Form, host: string, referrer: Option<string>, status: SendStatus, wantsJson: bool, serviceName: string)
    : (r: Response)
    ensures status.EmailSent? || status.NoEmail? ==>
      if wantsJson then r.Reply? && r.status == DefaultStatus && r.content.Json? &&
        "success" in r.content.body && "next" in r.content.body && r.content.body["next"] == JStr(status.next)
      else r == RedirectTo(status.next, 302)
    ensures status == EmailEmpty ==> r == ErrorResponse(EmptyForm(Shown(referrer)), wantsJson)
    ensures status == ConfirmationSent || status == ConfirmationDuplicated ==>
      r.Reply? && r.status == DefaultStatus &&
      (!wantsJson ==> r.content == ConfirmationPage(form.email, host, status == ConfirmationDuplicated))
    ensures status == SendStatus.OverLimit ==> r == ErrorResponse(ErrorKind.OverLimit, wantsJson)
    ensures status.ReplyToError? ==> r == ErrorResponse(MalformedReplyTo(status.address, status.referrer), wantsJson)
    ensures status == EmailFailed || status == ConfirmationFailed ==>
      if wantsJson then r == ErrorResponse(GenericSend, true) else r.Crash?
    ensures status == Raised ==> r.Crash?
  {
    match status
    case EmailSent(next) =>
      if wantsJson then Jsonify(map["success" := JStr("email sent"), "next" := JStr(next)]) else RedirectTo(next, 302)
    case NoEmail(next) =>
      if wantsJson then
        Jsonify(map["success" := JStr("no email sent, access submission archive on " + serviceName + " dashboard"), "next" := JStr(next)])
      else RedirectTo(next, 302)
    case EmailEmpty => ErrorResponse(EmptyForm(Shown(referrer)), wantsJson)
    case ConfirmationSent => ConfirmationSentSuccess(form, host, status, wantsJson)
    case ConfirmationDuplicated => ConfirmationSentSuccess(form, host, status, wantsJson)
    case OverLimit => ErrorResponse(ErrorKind.OverLimit, wantsJson)
    case ReplyToError(address, back) => ErrorResponse(MalformedReplyTo(address, back), wantsJson)
    case Raised => Crash
    case _ => if wantsJson then ErrorResponse(GenericSend, true) else Crash
  }

  function ConfirmationSentSuccess(form: Form, host: string, status: SendStatus, wantsJson: bool): Response {
    if wantsJson then Jsonify(map["success" := JStr("confirmation email sent")])
    else Reply(DefaultStatus, ConfirmationPage(form.email, host, status == ConfirmationDuplicated))
  }

  /** The confirmation page offers a resend exactly for a duplicate request. */
  lemma ResendIffDuplicated(form: Form, host: string, referrer: Option<string>, status: SendStatus, serviceName: string)
    requires status == ConfirmationSent || status == ConfirmationDuplicated
    ensures ResponseForStatus(form, host, referrer, status, false, serviceName).content.resend <==> status == ConfirmationDuplicated
  {
  }

  /** [k for k in keys if k not in excluded], order kept. */
  function FilterKeys(keys: seq<string>, excluded: seq<string>): (r: seq<string>)
    ensures |r| <= |keys|
    ensures forall k :: k in r <==> k in keys && k !in excluded
  {
    if |keys| == 0 then []
    else (if keys[0] in excluded then [] else [keys[0]]) + FilterKeys(keys[1..], excluded)
  }

  /** Filtering keeps the order: it distributes over concatenation. */
  lemma {:induction false} FilterKeysAppend(a: seq<string>, b: seq<string>, excluded: seq<string>)
    ensures FilterKeys(a + b, excluded) == FilterKeys(a, excluded) + FilterKeys(b, excluded)
    decreases |a|
  {
    if |a| > 0 {
      var head := if a[0] in excluded then [] else [a[0]];
      assert (a + b)[0] == a[0] && (a + b)[1..] == a[1..] + b;
      assert FilterKeys(a + b, excluded) == head + FilterKeys(a[1..] + b, excluded);
      FilterKeysAppend(a[1..], b, excluded);
      assert FilterKeys(a, excluded) == head + FilterKeys(a[1..], excluded);
    } else {
      assert a + b == b;
    }
  }

  /** A JSON object's fields as a dict: a repeated name keeps its last value. */
  function JsonObject(pairs: seq<Field>): (d: map<string, string>)
    ensures d.Keys == Keys(pairs)
    ensures forall i :: 0 <= i < |pairs| && (forall j :: i < j < |pairs| ==> pairs[j].0 != pairs[i].0) ==>
      pairs[i].0 in d && d[pairs[i].0] == pairs[i].1
    decreases |pairs|
  {
    if |pairs| == 0 then map[]
    else
      var prefix := pairs[..|pairs| - 1];
      assert forall j :: 0 <= j < |prefix| ==> prefix[j] == pairs[j];
      JsonObject(prefix)[pairs[|pairs| - 1].0 := pairs[|pairs| - 1].1]
  }

  /** Which of the form's operations the endpoint invoked. */
  datatype Call =
    | NoCall
    | ShowedCaptcha(form: Form)
    | CalledSend(form: Form, data: map<string, string>, keys: seq<string>, referrer: Option<string>)
    | CalledSendConfirmation(form: Form, data: map<string, string>)

  /** The submitted data and key list: the form fields if any, else the JSON body. */
  function ReceivedData(formFields: seq<Field>, jsonBody: seq<Field>): (r: (map<string, string>, seq<string>))
    ensures formFields != [] ==> r == (Joined(formFields), OrderedKeys(formFields, ExcludeKeys))
  {
    if formFields != [] then (Joined(formFields), OrderedKeys(formFields, ExcludeKeys))
    else (JsonObject(jsonBody), OrderedKeys(jsonBody, []))
  }

  /**
   * How the endpoint answers once the target is resolved: a failed
   * resolution is answered with its error; a confirmed form gets the
   * CAPTCHA page when one is needed and otherwise the submission, answered
   * by its status; an unconfirmed form gets send_confirmation with the data.
   */
  predicate Answers(resp: Response, call: Call, resolved: Result<Form, Response>, target: string, host: string,
                    referrer: Option<string>, data: map<string, string>, sortedKeys: seq<string>, wantsJson: bool, env: Env,
                    sendStatus: SendStatus, confirmationStatus: SendStatus)
  {
    (resolved.Failure? ==> resp == resolved.error && call == NoCall) &&
    (resolved.Success? && resolved.value.confirmed ==>
       var page := CheckCaptcha(resolved.value, target, data, sortedKeys, wantsJson, env);
       (page.Some? ==> resp == page.value && call == ShowedCaptcha(resolved.value)) &&
       (page.None? ==>
          call == CalledSend(resolved.value, data, sortedKeys, referrer) &&
          resp == ResponseForStatus(resolved.value, host, referrer, sendStatus, wantsJson, env.serviceName))) &&
    (resolved.Success? && !resolved.value.confirmed ==>
       call == CalledSendConfirmation(resolved.value, data) &&
       resp == ResponseForStatus(resolved.value, host, referrer, confirmationStatus, wantsJson, env.serviceName))
  }

  /**
   * Only the resolved form is ever acted on; only a confirmed one reaches
   * the CAPTCHA gate and send, and exactly the unconfirmed ones go to
   * send_confirmation.
   */
  lemma {:induction false} OnlyConfirmedReachSend(resp: Response, call: Call, resolved: Result<Form, Response>, target: string,
                                                 host: string, referrer: Option<string>, data: map<string, string>,
                                                 sortedKeys: seq<string>, wantsJson: bool, env: Env,
                                                 sendStatus: SendStatus, confirmationStatus: SendStatus)
    requires Answers(resp, call, resolved, target, host, referrer, data, sortedKeys, wantsJson, env, sendStatus, confirmationStatus)
    ensures call.NoCall? <==> resolved.Failure?
    ensures !call.NoCall? ==> call.form == resolved.value
    ensures call.CalledSend? || call.ShowedCaptcha? <==> resolved.Success? && resolved.value.confirmed
    ensures call.CalledSendConfirmation? <==> resolved.Success? && !resolved.value.confirmed
    ensures call.ShowedCaptcha? <==>
      resolved.Success? && resolved.value.confirmed &&
      NeedsCaptcha(wantsJson, env.captchaVerified, env.testing, env.formHasDashboard, resolved.value.captchaDisabled)
  {
  }

  /**
   * send: the whole endpoint. `sendStatus` and `confirmationStatus` are
   * what the form's send and send_confirmation report when called.
   */
  method Send(store: Store, httpMethod: string, target: string, formFields: seq<Field>, jsonBody: seq<Field>,
              requestReferrer: Option<string>, wantsJson: bool, env: Env,
              sendStatus: SendStatus, confirmationStatus: SendStatus)
    returns (resp: Response, call: Call)
    requires store.Valid()
    modifies store`forms
    ensures store.Valid()
    ensures httpMethod == "GET" ==> resp == ErrorResponse(BadMethod, wantsJson) && call == NoCall && store.forms == old(store.forms)
    ensures var hr := Resolved(formFields, jsonBody, requestReferrer, env);
      httpMethod != "GET" && hr.Failure? ==> resp == hr.error && call == NoCall && store.forms == old(store.forms)
    ensures var hr := Resolved(formFields, jsonBody, requestReferrer, env);
      httpMethod != "GET" && hr.Success? && hr.value.0 == "" ==>
        resp == ErrorResponse(NoReferrer, wantsJson) && call == NoCall && store.forms == old(store.forms)
    ensures var hr := Resolved(formFields, jsonBody, requestReferrer, env);
      var received := ReceivedData(formFields, jsonBody);
      httpMethod != "GET" && hr.Success? && hr.value.0 != "" ==>
        var host := hr.value.0;
        Answers(resp, call, old(Resolution(store, target, host, wantsJson, env)), target, host, hr.value.1,
                received.0, FilterKeys(received.1, env.keysExcludedFromEmail), wantsJson, env, sendStatus, confirmationStatus) &&
        store.forms == old(ResolvedTable(store, target, host, wantsJson, env))
  {
    call := NoCall;
    if httpMethod == "GET" {
      return ErrorResponse(BadMethod, wantsJson), NoCall;
    }
    var data, keys;
    if formFields != [] {
      data, keys := HttpFormToDict(formFields, ExcludeKeys);
    } else {
      data, keys := JsonObject(jsonBody), OrderedKeys(jsonBody, []);
    }
    assert (data, keys) == ReceivedData(formFields, jsonBody);
    var sortedKeys := FilterKeys(keys, env.keysExcludedFromEmail);
    var hr := GetHostAndReferrer(data, requestReferrer, env.tempLookup);
    if hr.Failure? {
      return hr.error, NoCall;
    }
    var (host, referrer) := hr.value;
    if host == "" {
      return ErrorResponse(NoReferrer, wantsJson), NoCall;
    }
    assert hr == Resolved(formFields, jsonBody, requestReferrer, env);
    resp, call := Dispatch(store, target, host, referrer, data, sortedKeys, wantsJson, env, sendStatus, confirmationStatus);
  }

  /** The rest of send once the host is known: resolve the target, then act on the form. */
  method Dispatch(store: Store, target: string, host: string, referrer: Option<string>, data: map<string, string>,
                  sortedKeys: seq<string>, wantsJson: bool, env: Env, sendStatus: SendStatus, confirmationStatus: SendStatus)
    returns (resp: Response, call: Call)
    requires store.Valid()
    modifies store`forms
    ensures store.Valid()
    ensures Answers(resp, call, old(Resolution(store, target, host, wantsJson, env)), target, host, referrer, data, sortedKeys,
                    wantsJson, env, sendStatus, confirmationStatus)
    ensures store.forms == old(ResolvedTable(store, target, host, wantsJson, env))
  {
    call := NoCall;
    var found := ResolveForm(store, target, host, wantsJson, env);
    if found.Failure? {
      return found.error, NoCall;
    }
    var form := found.value;
    var status;
    if form.confirmed {
      var page := CheckCaptcha(form, target, data, sortedKeys, wantsJson, env);
      if page.Some? {
        return page.value, ShowedCaptcha(form);
      }
      status := sendStatus;
      call := CalledSend(form, data, sortedKeys, referrer);
    } else {
      status := confirmationStatus;
      call := CalledSendConfirmation(form, data);
    }
    resp := ResponseForStatus(form, host, referrer, status, wantsJson, env.serviceName);
  }
  /** Where the endpoint takes the host and referrer of a request from. */
  function Resolved(formFields: seq<Field>, jsonBody: seq<Field>, requestReferrer: Option<string>, env: Env)
    : Result<(string, Option<string>), Response>
  {
    GetHostAndReferrer(ReceivedData(formFields, jsonBody).0, requestReferrer, env.tempLookup)
  }

  /** The host the endpoint resolves for a request, "" when it has none. */
  function HostOf(formFields: seq<Field>, jsonBody: seq<Field>, requestReferrer: Option<string>, env: Env): string {
    var hr := Resolved(formFields, jsonBody, requestReferrer, env);
    if hr.Success? then hr.value.0 else ""
  }
}
