/**
 * The first single-file version of the service: the submission endpoint
 * looks the form up by HASH(email, host) and either sends the submission
 * (for a confirmed form) or sends the confirmation email, answering each
 * outcome directly instead of through status codes.
 */
module Monolith {
  import opened Wrappers
  import opened Web
  import opened Errors
  import opened EmailRules
  import opened FieldSet
  import opened Urls
  import opened Mail
  import opened Forms
  import FormViews

  /** The answer to a submission that went out or was silently dropped as spam. */
  function SuccessReply(data: map<string, string>, thanksUrl: string, wantsJson: bool): (r: Response)
    ensures r.Reply?
    ensures wantsJson ==> r == Jsonify(map["success" := JStr("Email sent")])
    ensures !wantsJson ==> r == RedirectTo(Get(data, "_next", thanksUrl), 302)
  {
    if wantsJson then Jsonify(map["success" := JStr("Email sent")])
    else RedirectTo(Get(data, "_next", thanksUrl), 302)
  }

  /** The email a non-spam submission sends to the form's address. */
  function SubmissionPayload(email: string, host: string, data: map<string, string>, keys: seq<string>, sender: string)
    : (p: Payload)
    ensures p.to == email && p.from == ParseSender(sender).0
    ensures p.subject == Get(data, "_subject", "New submission from " + host)
    ensures p.replyTo == Checked(ReplyTo(data)) && p.cc == Checked(GetOpt(data, "_cc"))
    ensures p.text == FormEmail("email/form.txt", data, keys, host)
  {
    BuildPayload(Some(email), Some(Get(data, "_subject", "New submission from " + host)),
                 Some(FormEmail("email/form.txt", data, keys, host)), Some(FormEmail("email/form.html", data, keys, host)),
                 Some(sender), GetOpt(data, "_cc"), ReplyTo(data)).value
  }

  /** The submission is emailed and the service accepts it: the one case that counts. */
  predicate Mailed(data: map<string, string>, mailStatus: int) {
    !AllFalsy(data) && !IsSpam(data) && SendSucceeded(mailStatus)
  }

  /**
   * _send_form on the normalised fields: the reply and the email sent, if
   * any. The referrer is the one the host was taken from.
   */
  function FormReply(email: string, host: string, data: map<string, string>, keys: seq<string>, referrer: string,
                     wantsJson: bool, thanksUrl: string, sender: string, mailStatus: int): (r: (Response, Option<Payload>))
    ensures AllFalsy(data) ==>
      r.1.None? && if wantsJson then r.0.Crash? else r.0 == ErrorResponse(EmptyForm(referrer), false)
    ensures !AllFalsy(data) && IsSpam(data) ==> r == (SuccessReply(data, thanksUrl, wantsJson), None)
    ensures !AllFalsy(data) && !IsSpam(data) ==>
      r.1 == Some(SubmissionPayload(email, host, data, keys, sender)) &&
      r.0 == if SendSucceeded(mailStatus) then SuccessReply(data, thanksUrl, wantsJson) else ErrorResponse(GenericSend, wantsJson)
  {
    if AllFalsy(data) then
      (if wantsJson then Crash else ErrorResponse(EmptyForm(referrer), false), None)
    else if IsSpam(data) then (SuccessReply(data, thanksUrl, wantsJson), None)
    else
      var p := SubmissionPayload(email, host, data, keys, sender);
      if SendSucceeded(mailStatus) then (SuccessReply(data, thanksUrl, wantsJson), Some(p))
      else (ErrorResponse(GenericSend, wantsJson), Some(p))
  }

  /**
   * _send_form as written. The email's timestamp is read through
   * `datetime.datetime`, but the module's second import binds `datetime`
   * to the class, which has no such attribute: a submission that would be
   * emailed raises before the email is built, and the counter never moves.
   */
  function FormReplyAsWritten(email: string, host: string, data: map<string, string>, keys: seq<string>, referrer: string,
                              wantsJson: bool, thanksUrl: string, sender: string, mailStatus: int)
    : (r: (Response, Option<Payload>))
    ensures !AllFalsy(data) && !IsSpam(data) ==> r == (Crash, None)
    ensures AllFalsy(data) || IsSpam(data) ==>
      r == FormReply(email, host, data, keys, referrer, wantsJson, thanksUrl, sender, mailStatus)
  {
    if !AllFalsy(data) && !IsSpam(data) then (Crash, None)
    else FormReply(email, host, data, keys, referrer, wantsJson, thanksUrl, sender, mailStatus)
  }

  /** A one-field submission to a confirmed form: emailed by FormReply, a failure as written. */
  lemma ShadowedClockLosesSubmission(email: string, host: string, referrer: string, wantsJson: bool,
                                     thanksUrl: string, sender: string)
    ensures var data := map["message" := "hello"];
      FormReplyAsWritten(email, host, data, ["message"], referrer, wantsJson, thanksUrl, sender, 200) == (Crash, None) &&
      FormReply(email, host, data, ["message"], referrer, wantsJson, thanksUrl, sender, 200) ==
        (SuccessReply(data, thanksUrl, wantsJson), Some(SubmissionPayload(email, host, data, ["message"], sender)))
  {
    var data := map["message" := "hello"];
    assert data["message"] != "";
    assert !AllFalsy(data);
    assert !IsSpam(data);
  }

  /** An email goes out exactly for a non-empty, non-spam submission, and it is answered as a success iff it is accepted. */
  lemma {:induction false} MailIffNotEmptyNorSpam(email: string, host: string, data: map<string, string>, keys: seq<string>,
                                                  referrer: string, wantsJson: bool, thanksUrl: string, sender: string, mailStatus: int)
    ensures var r := FormReply(email, host, data, keys, referrer, wantsJson, thanksUrl, sender, mailStatus);
      (r.1.Some? <==> !AllFalsy(data) && !IsSpam(data)) &&
      (r.1.Some? ==> (r.0.status == 500 <==> !SendSucceeded(mailStatus)))
  {
    var r := FormReply(email, host, data, keys, referrer, wantsJson, thanksUrl, sender, mailStatus);
    StatusTable(wantsJson);
    if r.1.Some? && SendSucceeded(mailStatus) {
      assert r.0 == SuccessReply(data, thanksUrl, wantsJson);
    }
  }

  /** A control key absent from this version's exclusion list is listed in the email: "_bcc" is a field like any other. */
  lemma BccListed(fields: seq<Field>, v: string)
    requires ("_bcc", v) in fields
    ensures "_bcc" in OrderedKeys(fields, LegacyExcludeKeys)
  {
    var i :| 0 <= i < |fields| && fields[i] == ("_bcc", v);
    KeysAt(fields);
    assert "_bcc" !in LegacyExcludeKeys;
    OrderedKeysMembers(fields, LegacyExcludeKeys);
  }

  /**
   * _send_form(form, email, host): the fields are normalised with this
   * version's exclusion list and the counter goes up only for a delivered email.
   */
  method SendForm(store: Store, id: nat, email: string, host: string, fields: seq<Field>, referrer: string,
                  wantsJson: bool, thanksUrl: string, mailStatus: int)
    returns (resp: Response, mail: Option<Payload>)
    requires store.Valid() && id in store.forms
    modifies store`forms
    ensures store.Valid()
    ensures (resp, mail) == FormReply(email, host, Joined(fields), OrderedKeys(fields, LegacyExcludeKeys), referrer,
                                      wantsJson, thanksUrl, store.sender, mailStatus)
    ensures store.forms == if Mailed(Joined(fields), mailStatus) then old(store.forms)[id := Counted(old(store.forms[id]))]
                           else old(store.forms)
  {
    var data, keys := HttpFormToDict(fields, LegacyExcludeKeys);
    var outcome := FormReply(email, host, data, keys, referrer, wantsJson, thanksUrl, store.sender, mailStatus);
    resp, mail := outcome.0, outcome.1;
    if Mailed(data, mailStatus) {
      store.Update(id, Counted(store.forms[id]));
    }
  }

  /** The answer of _send_confirmation to the outcome of the confirmation request. */
  function ConfirmationReply(status: SendStatus, email: string, host: string, wantsJson: bool): (r: Response)
    requires status in {ConfirmationSent, ConfirmationDuplicated, ConfirmationFailed}
    ensures status == ConfirmationFailed <==> r == ErrorResponse(GenericSend, wantsJson)
    ensures status != ConfirmationFailed ==> r.Reply? && r.status == DefaultStatus
    ensures status != ConfirmationFailed && !wantsJson ==> r.content == ConfirmationPage(email, host, false)
    ensures status != ConfirmationFailed && wantsJson ==> r.content == Json(map["success" := JStr("confirmation email sent")])
  {
    if status == ConfirmationFailed then ErrorResponse(GenericSend, wantsJson)
    else if wantsJson then Jsonify(map["success" := JStr("confirmation email sent")])
    else Reply(DefaultStatus, ConfirmationPage(email, host, false))
  }

  /** A duplicate request and a fresh one are answered alike, and only a failure is a 500. */
  lemma DuplicateAnsweredAsSent(email: string, host: string, wantsJson: bool)
    ensures ConfirmationReply(ConfirmationDuplicated, email, host, wantsJson) == ConfirmationReply(ConfirmationSent, email, host, wantsJson)
    ensures ConfirmationReply(ConfirmationFailed, email, host, wantsJson).status == 500
  {
    StatusTable(wantsJson);
  }

  /**
   * _send_confirmation(form, email, host): the form-model transition of
   * send_confirmation, answered by ConfirmationReply.
   */
  method SendConfirmation(store: Store, email: string, host: string, wantsJson: bool, mailStatus: int)
    returns (resp: Response, mail: Option<Payload>)
    requires store.Valid()
    modifies store
    ensures store.Valid()
    ensures var h := store.HashOf(email, host);
      var outcome := ConfirmationOutcome(old(store.Get(store.Lookup(h))), email, host, store.confirmUrl(h),
                                         "Confirm email for " + store.serviceName, store.sender, mailStatus);
      resp == ConfirmationReply(outcome.0, email, host, wantsJson) && mail == outcome.1 &&
      (outcome.0 != ConfirmationSent ==> store.forms == old(store.forms) && store.byHash == old(store.byHash)) &&
      store.forms == ConfirmationTable(old(store.forms), old(store.Lookup(h)), old(store.nextId), h, email, host, outcome.0) &&
      IndexAfterConfirmation(store.byHash, store.nextId, old(store.byHash), old(store.nextId), old(store.Lookup(h)), h, outcome.0)
    ensures store.submissions == old(store.submissions)
    ensures var h := store.HashOf(email, host);
      (old(store.Get(store.Lookup(h))).Some? && old(store.Get(store.Lookup(h))).value.confirmSent) || !SendSucceeded(mailStatus) ==>
        store.forms == old(store.forms)
    ensures var h := store.HashOf(email, host);
      !(old(store.Get(store.Lookup(h))).Some? && old(store.Get(store.Lookup(h))).value.confirmSent) && SendSucceeded(mailStatus) ==>
        store.Lookup(h).Some? && store.forms[store.Lookup(h).value].confirmSent
  {
    var status;
    status, mail := store.SendConfirmation(email, host, mailStatus);
    resp := ConfirmationReply(status, email, host, wantsJson);
  }

  /**
   * send(email): a GET, an invalid address and an empty host are refused in
   * that order; then a confirmed form for HASH(email, host) gets the
   * submission and anything else gets the confirmation email.
   */
  method Send(store: Store, httpMethod: string, email: string, fields: seq<Field>, referrer: Option<string>,
              wantsJson: bool, thanksUrl: string, mailStatus: int)
    returns (resp: Response, mail: Option<Payload>)
    requires store.Valid()
    modifies store
    ensures store.Valid()
    ensures store.submissions == old(store.submissions)
    ensures httpMethod == "GET" ==> resp == ErrorResponse(BadMethod, wantsJson) && mail.None? && unchanged(store)
    ensures httpMethod != "GET" && !IsValidEmail(email) ==>
      resp == ErrorResponse(BadHashid(email), wantsJson) && mail.None? && unchanged(store)
    ensures httpMethod != "GET" && IsValidEmail(email) && ReferrerToPath(referrer).None? ==>
      resp.Crash? && mail.None? && unchanged(store)
    ensures httpMethod != "GET" && IsValidEmail(email) && ReferrerToPath(referrer) == Some("") ==>
      resp == FormViews.NoReferrerReply(wantsJson) && mail.None? && unchanged(store)
    ensures httpMethod != "GET" && IsValidEmail(email) && ReferrerToPath(referrer).Some? && ReferrerToPath(referrer).value != "" ==>
      var host := ReferrerToPath(referrer).value;
      var existing := old(store.Lookup(store.HashOf(email, host)));
      existing.Some? && old(store.forms)[existing.value].confirmed ==>
        referrer.Some? &&
        (resp, mail) == FormReply(email, host, Joined(fields), OrderedKeys(fields, LegacyExcludeKeys), referrer.value,
                                  wantsJson, thanksUrl, store.sender, mailStatus) &&
        store.forms == (if Mailed(Joined(fields), mailStatus) then old(store.forms)[existing.value := Counted(old(store.forms)[existing.value])]
                        else old(store.forms)) &&
        store.byHash == old(store.byHash) && store.nextId == old(store.nextId)
    ensures httpMethod != "GET" && IsValidEmail(email) && ReferrerToPath(referrer).Some? && ReferrerToPath(referrer).value != "" ==>
      var host := ReferrerToPath(referrer).value;
      var h := store.HashOf(email, host);
      var existing := old(store.Lookup(h));
      !(existing.Some? && old(store.forms)[existing.value].confirmed) ==>
        var outcome := ConfirmationOutcome(old(store.Get(existing)), email, host, store.confirmUrl(h),
                                           "Confirm email for " + store.serviceName, store.sender, mailStatus);
        resp == ConfirmationReply(outcome.0, email, host, wantsJson) && mail == outcome.1 &&
        store.forms == ConfirmationTable(old(store.forms), existing, old(store.nextId), h, email, host, outcome.0) &&
        IndexAfterConfirmation(store.byHash, store.nextId, old(store.byHash), old(store.nextId), existing, h, outcome.0)
  {
    if httpMethod == "GET" {
      return ErrorResponse(BadMethod, wantsJson), None;
    }
    if !IsValidEmail(email) {
      return ErrorResponse(BadHashid(email), wantsJson), None;
    }
    var path := ReferrerToPath(referrer);
    if path.None? {
      return Crash, None;
    }
    var host := path.value;
    if host == "" {
      return FormViews.NoReferrerReply(wantsJson), None;
    }
    resp, mail := Deliver(store, email, host, fields, referrer.value, wantsJson, thanksUrl, mailStatus);
  }

  /** The part of send after the checks: _send_form for a confirmed form, _send_confirmation otherwise. */
  method Deliver(store: Store, email: string, host: string, fields: seq<Field>, referrer: string,
                 wantsJson: bool, thanksUrl: string, mailStatus: int)
    returns (resp: Response, mail: Option<Payload>)
    requires store.Valid()
    modifies store
    ensures store.Valid()
    ensures store.submissions == old(store.submissions)
    ensures var existing := old(store.Lookup(store.HashOf(email, host)));
      existing.Some? && old(store.forms)[existing.value].confirmed ==>
        (resp, mail) == FormReply(email, host, Joined(fields), OrderedKeys(fields, LegacyExcludeKeys), referrer,
                                  wantsJson, thanksUrl, store.sender, mailStatus) &&
        store.forms == (if Mailed(Joined(fields), mailStatus) then old(store.forms)[existing.value := Counted(old(store.forms)[existing.value])]
                        else old(store.forms)) &&
        store.byHash == old(store.byHash) && store.nextId == old(store.nextId)
    ensures var h := store.HashOf(email, host);
      var existing := old(store.Lookup(h));
      !(existing.Some? && old(store.forms)[existing.value].confirmed) ==>
        var outcome := ConfirmationOutcome(old(store.Get(existing)), email, host, store.confirmUrl(h),
                                           "Confirm email for " + store.serviceName, store.sender, mailStatus);
        resp == ConfirmationReply(outcome.0, email, host, wantsJson) && mail == outcome.1 &&
        store.forms == ConfirmationTable(old(store.forms), existing, old(store.nextId), h, email, host, outcome.0) &&
        IndexAfterConfirmation(store.byHash, store.nextId, old(store.byHash), old(store.nextId), existing, h, outcome.0)
  {
    var id := store.Lookup(store.HashOf(email, host));
    if id.Some? && store.forms[id.value].confirmed {
      resp, mail := SendForm(store, id.value, email, host, fields, referrer, wantsJson, thanksUrl, mailStatus);
    } else {
      resp, mail := SendConfirmation(store, email, host, wantsJson, mailStatus);
    }
  }
}
