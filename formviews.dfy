/**
 * The earlier submission handler built on the form model: the host comes
 * from the Referer alone, a dashboard form is found by its random-like
 * string and must match the host exactly, and statuses are answered with
 * a smaller table.
 */
module FormViews {
  import opened Wrappers
  import opened Web
  import opened Errors
  import opened EmailRules
  import opened FieldSet
  import opened Urls
  import opened Forms

  /** The no-referrer reply of this handler (its JSON message says "Referrer"). */
  function NoReferrerReply(wantsJson: bool): (r: Response)
    ensures r.Reply? && r.status == 400
  {
    if wantsJson then JsonError(400, ErrorBody("Invalid \"Referrer\" header"))
    else Reply(400, Page("error.html", "Unable to submit form", []))
  }

  /**
   * The dashboard-form branch: an unknown string is a bad address, an
   * unbound form is bound to the host, and a bound form must have exactly
   * the submitting host.
   */
  function BindCheck(form: Option<Form>, target: string, host: string, wantsJson: bool): (r: Result<Form, Response>)
    ensures form.None? ==> r == Failure(ErrorResponse(BadHashid(target), wantsJson))
    ensures r.Success? <==> form.Some? && (form.value.host == "" || form.value.host == host)
    ensures r.Success? ==> r.value == form.value.(host := host)
    ensures form.Some? && r.Failure? ==> r.error == ErrorResponse(MismatchedHost(host, form.value.host), wantsJson)
  {
    match form
    case None => Failure(ErrorResponse(BadHashid(target), wantsJson))
    case Some(f) =>
      if f.host == "" then Success(f.(host := host))
      else if f.host != host then Failure(ErrorResponse(MismatchedHost(host, f.host), wantsJson))
      else Success(f)
  }

  /** Unlike the later handler, a trailing slash alone makes the hosts differ. */
  lemma TrailingSlashRejected(f: Form, target: string, host: string, wantsJson: bool)
    requires f.host == host + "/"
    ensures BindCheck(Some(f), target, host, wantsJson).Failure?
    ensures BindCheck(Some(f), target, host, wantsJson).error.status == 403
  {
    assert |f.host| != |host|;
    assert BindCheck(Some(f), target, host, wantsJson) == Failure(ErrorResponse(MismatchedHost(host, f.host), wantsJson));
    StatusTable(wantsJson);
  }

  /** The answer to a status in this handler. */
  function StatusReply(status: SendStatus, email: string, host: string, referrer: Option<string>, wantsJson: bool)
    : (r: Response)
    ensures status.EmailSent? ==>
      if wantsJson then r == Jsonify(map["success" := JStr("email sent"), "next" := JStr(status.next)])
      else r == RedirectTo(status.next, 302)
    ensures status == EmailEmpty ==>
      if wantsJson then r.Crash? else r == ErrorResponse(EmptyForm(if referrer.Some? then referrer.value else "None"), false)
    ensures status == ConfirmationSent || status == ConfirmationDuplicated ==>
      r.Reply? && r.status == DefaultStatus && (!wantsJson ==> r.content == ConfirmationPage(email, host, false))
    ensures status.Raised? ==> r.Crash?
    ensures !(status.EmailSent? || status == EmailEmpty || status == ConfirmationSent ||
              status == ConfirmationDuplicated || status.Raised?) ==>
      r == ErrorResponse(GenericSend, wantsJson) && r.status == 500
  {
    match status
    case EmailSent(next) =>
      if wantsJson then Jsonify(map["success" := JStr("email sent"), "next" := JStr(next)]) else RedirectTo(next, 302)
    case EmailEmpty =>
      if wantsJson then Crash
      else ErrorResponse(EmptyForm(if referrer.Some? then referrer.value else "None"), false)
    case ConfirmationSent =>
      if wantsJson then Jsonify(map["success" := JStr("confirmation email sent")])
      else Reply(DefaultStatus, ConfirmationPage(email, host, false))
    case ConfirmationDuplicated =>
      if wantsJson then Jsonify(map["success" := JStr("confirmation email sent")])
      else Reply(DefaultStatus, ConfirmationPage(email, host, false))
    case Raised => Crash
    case _ => ErrorResponse(GenericSend, wantsJson)
  }

  /** A failed send, of a submission or of a confirmation, is a 500 in both formats. */
  lemma FailuresAre500(email: string, host: string, referrer: Option<string>, wantsJson: bool)
    ensures StatusReply(EmailFailed, email, host, referrer, wantsJson).status == 500
    ensures StatusReply(ConfirmationFailed, email, host, referrer, wantsJson).status == 500
  {
    StatusTable(wantsJson);
  }

  /** Which of the form model's operations the handler ran, and what it reported. */
  datatype Call =
    | NoCall
    | SentForm(id: nat, status: SendStatus)
    | SentConfirmation(email: string, host: string, status: SendStatus)

  /** The form a target resolves to: its id when stored, the form, and the address it sends to. */
  datatype Resolved = Resolved(id: Option<nat>, form: Form, email: string)

  /** The stored form of an id, if any. */
  function FormAt(forms: map<nat, Form>, id: Option<nat>): Option<Form> {
    if id.Some? && id.value in forms then Some(forms[id.value]) else None
  }

  /**
   * The target in the table as it stands: a dashboard form by its
   * random-like string (bound to the host on first use), or the stored form
   * of the address and host, or a new unsaved one.
   */
  function Resolution(store: Store, target: string, host: string, wantsJson: bool, byString: string -> Option<nat>)
    : (r: Result<Resolved, Response>)
    reads store
    requires store.Valid()
    ensures r.Success? && r.value.form.confirmed ==> r.value.id.Some? && r.value.id.value in store.forms
  {
    if !IsValidEmail(target) then
      var checked := BindCheck(FormAt(store.forms, byString(target)), target, host, wantsJson);
      if checked.Failure? then Failure(checked.error) else Success(Resolved(byString(target), checked.value, checked.value.email))
    else
      var h := store.HashOf(target, host);
      var existing := store.Lookup(h);
      Success(Resolved(existing, if existing.Some? then store.forms[existing.value] else NewForm(h, target, host), target))
  }

  /** The table once the target is resolved: only a dashboard form bound on first use changes. */
  function BoundTable(store: Store, target: string, host: string, wantsJson: bool, byString: string -> Option<nat>)
    : (r: map<nat, Form>)
    reads store
    requires store.Valid()
    ensures r.Keys == store.forms.Keys
  {
    var r := Resolution(store, target, host, wantsJson, byString);
    if !IsValidEmail(target) && r.Success? && r.value.id.Some? && r.value.id.value in store.forms &&
       store.forms[r.value.id.value].host == ""
    then store.forms[r.value.id.value := r.value.form]
    else store.forms
  }

  /**
   * A resolved form that is stored is the table's entry after the binding,
   * and a resolved form that is confirmed is stored; binding never changes
   * whether a form is confirmed.
   */
  lemma {:induction false} ResolvedIsStored(store: Store, target: string, host: string, wantsJson: bool, byString: string -> Option<nat>)
    requires store.Valid()
    ensures var r := Resolution(store, target, host, wantsJson, byString);
      var table := BoundTable(store, target, host, wantsJson, byString);
      r.Success? && r.value.id.Some? ==>
        r.value.id.value in store.forms && table.Keys == store.forms.Keys &&
        table[r.value.id.value] == r.value.form &&
        store.forms[r.value.id.value].confirmed == r.value.form.confirmed
    ensures var r := Resolution(store, target, host, wantsJson, byString);
      r.Success? && r.value.form.confirmed ==> r.value.id.Some?
  {
  }

  /** The resolution of a target, with the binding written to the table. */
  method ResolveTarget(store: Store, target: string, host: string, wantsJson: bool, byString: string -> Option<nat>)
    returns (r: Result<Resolved, Response>)
    requires store.Valid()
    modifies store`forms
    ensures store.Valid()
    ensures r == old(Resolution(store, target, host, wantsJson, byString))
    ensures store.forms == old(BoundTable(store, target, host, wantsJson, byString))
  {
    if !IsValidEmail(target) {
      var found := byString(target);
      var checked := BindCheck(FormAt(store.forms, found), target, host, wantsJson);
      if checked.Failure? {
        return Failure(checked.error);
      }
      if store.forms[found.value].host == "" {
        store.Update(found.value, checked.value);
      }
      r := Success(Resolved(found, checked.value, checked.value.email));
    } else {
      var h := store.HashOf(target, host);
      var id := store.Lookup(h);
      var form := if id.Some? then store.forms[id.value] else NewForm(h, target, host);
      r := Success(Resolved(id, form, target));
    }
  }

  /**
   * What the handler did with a resolved target over a table: a confirmed
   * form got send, with the counter of the stored form raised exactly when
   * the submission was delivered; any other got send_confirmation for its
   * address and the host, with the table, the hash index and the next id
   * changed as that prescribes.
   */
  predicate Handled(call: Call, forms: map<nat, Form>, byHashAfter: map<string, nat>, nextIdAfter: nat,
                    target: Resolved, host: string, tableBefore: map<nat, Form>,
                    byHash: map<string, nat>, nextId: nat, digestHash: (string, string) -> string, link: string -> string,
                    subject: string, sender: string, fields: seq<Field>, referrer: Option<string>,
                    thanksUrl: string, mailStatus: int)
    requires target.form.confirmed ==> target.id.Some? && target.id.value in tableBefore
    requires forall h :: h in byHash ==> byHash[h] in tableBefore
  {
    if target.form.confirmed then
      var id := target.id.value;
      var outcome := SendOutcome(tableBefore[id], Joined(fields), OrderedKeys(fields, ExcludeKeys), referrer, thanksUrl, sender, mailStatus);
      call == SentForm(id, outcome.0) &&
      forms == (if Delivered(outcome) then tableBefore[id := Counted(tableBefore[id])] else tableBefore) &&
      byHashAfter == byHash && nextIdAfter == nextId
    else
      var h := digestHash(target.email, host);
      var existing := if h in byHash then Some(byHash[h]) else None;
      var outcome := ConfirmationOutcome(FormAt(tableBefore, existing), target.email, host, link(h), subject, sender, mailStatus);
      call == SentConfirmation(target.email, host, outcome.0) &&
      forms == ConfirmationTable(tableBefore, existing, nextId, h, target.email, host, outcome.0) &&
      IndexAfterConfirmation(byHashAfter, nextIdAfter, byHash, nextId, existing, h, outcome.0)
  }

  /**
   * send. `byString` is get_form_by_random_like_string's lookup, and the
   * confirmation is sent for the handler's email and host.
   */
  method Send(store: Store, httpMethod: string, target: string, fields: seq<Field>, referrer: Option<string>,
              wantsJson: bool, byString: string -> Option<nat>, thanksUrl: string, mailStatus: int)
    returns (resp: Response, call: Call)
    requires store.Valid()
    modifies store
    ensures store.Valid()
    ensures store.submissions == old(store.submissions)
    ensures httpMethod == "GET" ==> resp == ErrorResponse(BadMethod, wantsJson) && call == NoCall && unchanged(store)
    ensures httpMethod != "GET" && ReferrerToPath(referrer).None? ==> resp.Crash? && call == NoCall && unchanged(store)
    ensures httpMethod != "GET" && ReferrerToPath(referrer) == Some("") ==>
      resp == NoReferrerReply(wantsJson) && call == NoCall && unchanged(store)
    ensures httpMethod != "GET" && ReferrerToPath(referrer).Some? && ReferrerToPath(referrer).value != "" ==>
      var host := ReferrerToPath(referrer).value;
      var resolved := old(Resolution(store, target, host, wantsJson, byString));
      (resolved.Failure? ==> resp == resolved.error && call == NoCall && unchanged(store)) &&
      (resolved.Success? ==>
         Handled(call, store.forms, store.byHash, store.nextId, resolved.value, host, old(BoundTable(store, target, host, wantsJson, byString)),
                 old(store.byHash), old(store.nextId), store.HashOf, store.confirmUrl,
                 "Confirm email for " + store.serviceName, store.sender, fields, referrer, thanksUrl, mailStatus) &&
         resp == StatusReply(call.status, resolved.value.email, host, referrer, wantsJson))
    ensures call.SentForm? ==> call.id in old(store.forms) && old(store.forms)[call.id].confirmed
  {
    call := NoCall;
    if httpMethod == "GET" {
      return ErrorResponse(BadMethod, wantsJson), NoCall;
    }
    var path := ReferrerToPath(referrer);
    if path.None? {
      return Crash, NoCall;
    }
    var host := path.value;
    if host == "" {
      return NoReferrerReply(wantsJson), NoCall;
    }
    resp, call := Route(store, target, host, fields, referrer, wantsJson, byString, thanksUrl, mailStatus);
  }

  /** The part of send after the checks: resolve the target, then dispatch on it. */
  method Route(store: Store, target: string, host: string, fields: seq<Field>, referrer: Option<string>,
               wantsJson: bool, byString: string -> Option<nat>, thanksUrl: string, mailStatus: int)
    returns (resp: Response, call: Call)
    requires store.Valid()
    modifies store
    ensures store.Valid()
    ensures store.submissions == old(store.submissions)
    ensures var resolved := old(Resolution(store, target, host, wantsJson, byString));
      (resolved.Failure? ==> resp == resolved.error && call == NoCall && unchanged(store)) &&
      (resolved.Success? ==>
         Handled(call, store.forms, store.byHash, store.nextId, resolved.value, host, old(BoundTable(store, target, host, wantsJson, byString)),
                 old(store.byHash), old(store.nextId), store.HashOf, store.confirmUrl,
                 "Confirm email for " + store.serviceName, store.sender, fields, referrer, thanksUrl, mailStatus) &&
         resp == StatusReply(call.status, resolved.value.email, host, referrer, wantsJson))
    ensures call.SentForm? ==> call.id in old(store.forms) && old(store.forms)[call.id].confirmed
  {
    ResolvedIsStored(store, target, host, wantsJson, byString);
    ghost var before := store.forms;
    var resolved := ResolveTarget(store, target, host, wantsJson, byString);
    if resolved.Failure? {
      return resolved.error, NoCall;
    }
    ghost var table, byHash, nextId := store.forms, store.byHash, store.nextId;
    resp, call := Dispatch(store, resolved.value, host, fields, referrer, wantsJson, thanksUrl, mailStatus);
    assert Handled(call, store.forms, store.byHash, store.nextId, resolved.value, host, table, byHash, nextId, store.HashOf, store.confirmUrl,
                   "Confirm email for " + store.serviceName, store.sender, fields, referrer, thanksUrl, mailStatus);
    assert call.SentForm? ==> call.id in before && before[call.id].confirmed;
  }

  /** A confirmed form gets send, any other gets send_confirmation; the status is then answered. */
  method Dispatch(store: Store, target: Resolved, host: string, fields: seq<Field>, referrer: Option<string>,
                  wantsJson: bool, thanksUrl: string, mailStatus: int)
    returns (resp: Response, call: Call)
    requires store.Valid()
    requires target.form.confirmed ==> target.id.Some? && target.id.value in store.forms
    modifies store
    ensures store.Valid()
    ensures store.submissions == old(store.submissions)
    ensures Handled(call, store.forms, store.byHash, store.nextId, target, host, old(store.forms), old(store.byHash), old(store.nextId), store.HashOf,
                    store.confirmUrl, "Confirm email for " + store.serviceName, store.sender, fields, referrer, thanksUrl, mailStatus)
    ensures !call.NoCall? ==> resp == StatusReply(call.status, target.email, host, referrer, wantsJson)
  {
    if target.form.confirmed {
      var status, mail := store.Send(target.id.value, fields, referrer, thanksUrl, mailStatus);
      call := SentForm(target.id.value, status);
    } else {
      ghost var existing := store.Lookup(store.HashOf(target.email, host));
      assert store.Get(existing) == FormAt(store.forms, existing);
      var status, mail := store.SendConfirmation(target.email, host, mailStatus);
      call := SentConfirmation(target.email, host, status);
    }
    resp := StatusReply(call.status, target.email, host, referrer, wantsJson);
  }

  /** confirm_email: 400 for an unknown nonce, else the confirmed page of the now-confirmed form. */
  method ConfirmEmail(store: Store, nonce: string) returns (resp: Response)
    requires store.Valid()
    modifies store`forms
    ensures store.Valid()
    ensures store.forms == ConfirmedForms(old(store.forms), store.byHash, nonce)
    ensures old(store.Lookup(nonce)).None? ==> resp == Reply(400, Page("error.html", "Not a valid link", []))
    ensures old(store.Lookup(nonce)).Some? ==>
      var f := old(store.forms)[old(store.Lookup(nonce)).value];
      resp == Reply(DefaultStatus, ConfirmedPage(f.email, f.host)) && store.forms[old(store.Lookup(nonce)).value].confirmed
  {
    var found := store.Confirm(nonce);
    if found.None? {
      return Reply(400, Page("error.html", "Not a valid link", []));
    }
    var f := store.forms[found.value];
    resp := Reply(DefaultStatus, ConfirmedPage(f.email, f.host));
  }
}
