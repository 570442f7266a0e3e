/**
 * The second version of the submission handler, split out of the single
 * file: the form model returns status codes again, an unconfirmed form is
 * answered without a new confirmation email, and a sent submission is
 * always answered with a redirect.
 */
module ClassicViews {
  import opened Wrappers
  import opened Web
  import opened Errors
  import opened EmailRules
  import opened FieldSet
  import opened Urls
  import opened Mail
  import opened Forms
  import FormViews

  /** The confirmation-sent answer of this handler. */
  function ConfirmationSentReply(email: string, host: string, wantsJson: bool): (r: Response)
    ensures r.Reply? && r.status == DefaultStatus
    ensures wantsJson ==> r.content == Json(map["success" := JStr("confirmation email sent")])
    ensures !wantsJson ==> r.content == ConfirmationPage(email, host, false)
  {
    if wantsJson then Jsonify(map["success" := JStr("confirmation email sent")])
    else Reply(DefaultStatus, ConfirmationPage(email, host, false))
  }

  /**
   * The answer to a status. Any status not matched, a duplicate among them,
   * is a JSON 500 or, for HTML, the failure of reading an undefined result.
   */
  function StatusReply(status: SendStatus, email: string, host: string, referrer: Option<string>, wantsJson: bool)
    : (r: Response)
    ensures status.EmailSent? ==> r == RedirectTo(status.next, 302)
    ensures status == EmailEmpty ==>
      if wantsJson then r.Crash? else r == ErrorResponse(EmptyForm(if referrer.Some? then referrer.value else "None"), false)
    ensures status == ConfirmationSent ==> r == ConfirmationSentReply(email, host, wantsJson)
    ensures status.Raised? ==> r.Crash?
    ensures !(status.EmailSent? || status == EmailEmpty || status == ConfirmationSent || status.Raised?) ==>
      if wantsJson then r == JsonError(500, ErrorBody("Unable to send email")) else r.Crash?
  {
    match status
    case EmailSent(next) => RedirectTo(next, 302)
    case EmailEmpty =>
      if wantsJson then Crash
      else ErrorResponse(EmptyForm(if referrer.Some? then referrer.value else "None"), false)
    case ConfirmationSent => ConfirmationSentReply(email, host, wantsJson)
    case Raised => Crash
    case _ => if wantsJson then JsonError(500, ErrorBody("Unable to send email")) else Crash
  }

  /** JSON and HTML callers alike get a 302 redirect for a sent submission. */
  lemma SentRedirectsEvenForJson(next: string, email: string, host: string, referrer: Option<string>)
    ensures StatusReply(EmailSent(next), email, host, referrer, true) == StatusReply(EmailSent(next), email, host, referrer, false)
    ensures StatusReply(EmailSent(next), email, host, referrer, true).status == 302
  {
  }

  /** A failed send gets a 500 only from a JSON caller; the HTML branch fails instead of answering. */
  lemma FailureAnswers(email: string, host: string, referrer: Option<string>)
    ensures StatusReply(EmailFailed, email, host, referrer, true).status == 500
    ensures StatusReply(ConfirmationFailed, email, host, referrer, true).status == 500
    ensures StatusReply(EmailFailed, email, host, referrer, false).Crash?
    ensures StatusReply(ConfirmationFailed, email, host, referrer, false).Crash?
  {
  }

  /**
   * send(email): a GET, an invalid address and an empty host are refused
   * in that order. A confirmed form gets the submission; a stored
   * unconfirmed form is answered as confirmation-sent with no call; an
   * unknown pair gets send_confirmation.
   */
  method Send(store: Store, httpMethod: string, email: string, fields: seq<Field>, referrer: Option<string>,
              wantsJson: bool, thanksUrl: string, mailStatus: int)
    returns (resp: Response, call: FormViews.Call)
    requires store.Valid()
    modifies store
    ensures store.Valid()
    ensures store.submissions == old(store.submissions)
    ensures httpMethod == "GET" ==>
      resp == ErrorResponse(BadMethod, wantsJson) && call.NoCall? && unchanged(store)
    ensures httpMethod != "GET" && !IsValidEmail(email) ==>
      resp == ErrorResponse(BadHashid(email), wantsJson) && call.NoCall? && unchanged(store)
    ensures httpMethod != "GET" && IsValidEmail(email) && ReferrerToPath(referrer).None? ==>
      resp.Crash? && call.NoCall? && unchanged(store)
    ensures httpMethod != "GET" && IsValidEmail(email) && ReferrerToPath(referrer) == Some("") ==>
      resp == FormViews.NoReferrerReply(wantsJson) && call.NoCall? && unchanged(store)
    ensures httpMethod != "GET" && IsValidEmail(email) && ReferrerToPath(referrer).Some? && ReferrerToPath(referrer).value != "" ==>
      var host := ReferrerToPath(referrer).value;
      var existing := old(store.Lookup(store.HashOf(email, host)));
      (existing.Some? && old(store.forms)[existing.value].confirmed ==>
         var outcome := SendOutcome(old(store.forms)[existing.value], Joined(fields), OrderedKeys(fields, ExcludeKeys),
                                    referrer, thanksUrl, store.sender, mailStatus);
         call.SentForm? && call.id == existing.value && call.status == outcome.0 &&
         store.forms == (if Delivered(outcome) then old(store.forms)[existing.value := Counted(old(store.forms)[existing.value])]
                         else old(store.forms)) &&
         store.byHash == old(store.byHash) && store.nextId == old(store.nextId)) &&
      (existing.Some? && !old(store.forms)[existing.value].confirmed ==>
         call.NoCall? && resp == ConfirmationSentReply(email, host, wantsJson) && unchanged(store)) &&
      (existing.None? ==>
         var h := store.HashOf(email, host);
         call.SentConfirmation? && call.email == email && call.host == host &&
         call.status == ConfirmationOutcome(None, email, host, store.confirmUrl(h), "Confirm email for " + store.serviceName,
                                            store.sender, mailStatus).0 &&
         (call.status == ConfirmationSent <==> SendSucceeded(mailStatus)) &&
         store.forms == ConfirmationTable(old(store.forms), None, old(store.nextId), h, email, host, call.status) &&
         IndexAfterConfirmation(store.byHash, store.nextId, old(store.byHash), old(store.nextId), None, h, call.status))
    ensures !call.NoCall? ==> resp == StatusReply(call.status, email, ReferrerToPath(referrer).value, referrer, wantsJson)
  {
    call := FormViews.NoCall;
    if httpMethod == "GET" {
      return ErrorResponse(BadMethod, wantsJson), call;
    }
    if !IsValidEmail(email) {
      return ErrorResponse(BadHashid(email), wantsJson), call;
    }
    var path := ReferrerToPath(referrer);
    if path.None? {
      return Crash, call;
    }
    var host := path.value;
    if host == "" {
      return FormViews.NoReferrerReply(wantsJson), call;
    }
    resp, call := Deliver(store, email, host, fields, referrer, wantsJson, thanksUrl, mailStatus);
  }

  /** The part of send after the checks, for a valid address and a non-empty host. */
  method Deliver(store: Store, email: string, host: string, fields: seq<Field>, referrer: Option<string>,
                 wantsJson: bool, thanksUrl: string, mailStatus: int)
    returns (resp: Response, call: FormViews.Call)
    requires store.Valid()
    modifies store
    ensures store.Valid()
    ensures store.submissions == old(store.submissions)
    ensures var existing := old(store.Lookup(store.HashOf(email, host)));
      existing.Some? && old(store.forms)[existing.value].confirmed ==>
        var outcome := SendOutcome(old(store.forms)[existing.value], Joined(fields), OrderedKeys(fields, ExcludeKeys),
                                   referrer, thanksUrl, store.sender, mailStatus);
        call.SentForm? && call.id == existing.value && call.status == outcome.0 &&
        store.forms == (if Delivered(outcome) then old(store.forms)[existing.value := Counted(old(store.forms)[existing.value])]
                        else old(store.forms)) &&
        store.byHash == old(store.byHash) && store.nextId == old(store.nextId)
    ensures var existing := old(store.Lookup(store.HashOf(email, host)));
      existing.Some? && !old(store.forms)[existing.value].confirmed ==>
        call.NoCall? && resp == ConfirmationSentReply(email, host, wantsJson) && unchanged(store)
    ensures var h := store.HashOf(email, host);
      old(store.Lookup(h)).None? ==>
        call.SentConfirmation? && call.email == email && call.host == host &&
        call.status == ConfirmationOutcome(None, email, host, store.confirmUrl(h), "Confirm email for " + store.serviceName,
                                           store.sender, mailStatus).0 &&
        (call.status == ConfirmationSent <==> SendSucceeded(mailStatus)) &&
        store.forms == ConfirmationTable(old(store.forms), None, old(store.nextId), h, email, host, call.status) &&
        IndexAfterConfirmation(store.byHash, store.nextId, old(store.byHash), old(store.nextId), None, h, call.status)
    ensures !call.NoCall? ==> resp == StatusReply(call.status, email, host, referrer, wantsJson)
  {
    call := FormViews.NoCall;
    var id := store.Lookup(store.HashOf(email, host));
    if id.Some? {
      if !store.forms[id.value].confirmed {
        return ConfirmationSentReply(email, host, wantsJson), call;
      }
      var status, mail := store.Send(id.value, fields, referrer, thanksUrl, mailStatus);
      call := FormViews.SentForm(id.value, status);
    } else {
      var status, mail := store.SendConfirmation(email, host, mailStatus);
      call := FormViews.SentConfirmation(email, host, status);
    }
    resp := StatusReply(call.status, email, host, referrer, wantsJson);
  }
}
