/**
 * The form table and the form state machine: a form is created unconfirmed
 * with a zero counter, a confirmation email marks it confirm-sent, the
 * confirmation link marks it confirmed, and each delivered submission
 * increments its counter.
 */
module Forms {
  import opened Wrappers
  import opened Text
  import opened EmailRules
  import opened FieldSet
  import opened Urls
  import opened Mail

  /**
   * A row of the forms table. A host of "" is an unset host; a form made on
   * the dashboard has no public hash.
   */
  datatype Form = Form(
    hash: Option<string>, email: string, host: string,
    confirmSent: bool, confirmed: bool, counter: int,
    owner: Option<nat>, sitewide: bool, disabled: bool,
    captchaDisabled: bool, disableStorage: bool, disableEmail: bool)

  datatype Submission = Submission(formId: nat, data: map<string, string>)

  /** Form(email, host): hashed, unconfirmed, no confirmation sent, counter 0, no owner. */
  function NewForm(hash: string, email: string, host: string): (f: Form)
    ensures f.hash == Some(hash) && f.email == email && f.host == host
    ensures !f.confirmSent && !f.confirmed && f.counter == 0 && f.owner.None?
    ensures !f.sitewide && !f.disabled
  {
    Form(Some(hash), email, host, false, false, 0, None, false, false, false, false, false)
  }

  /** The outcome of a submission or of a confirmation request. */
  datatype SendStatus =
    | EmailSent(next: string)
    | NoEmail(next: string)
    | EmailEmpty
    | EmailFailed
    | ConfirmationSent
    | ConfirmationDuplicated
    | ConfirmationFailed
    | OverLimit
    | ReplyToError(address: string, referrer: string)
    | Raised

  const StatusEmailSent := 0
  const StatusEmailEmpty := 1
  const StatusEmailFailed := 2
  const StatusConfirmationSent := 10
  const StatusConfirmationDuplicated := 11
  const StatusConfirmationFailed := 12

  /** The status code of the six outcomes that have one. */
  function Code(s: SendStatus): (c: Option<int>)
    ensures c.Some? <==> s.EmailSent? || s.EmailEmpty? || s.EmailFailed? ||
                         s.ConfirmationSent? || s.ConfirmationDuplicated? || s.ConfirmationFailed?
  {
    match s
    case EmailSent(_) => Some(StatusEmailSent)
    case EmailEmpty => Some(StatusEmailEmpty)
    case EmailFailed => Some(StatusEmailFailed)
    case ConfirmationSent => Some(StatusConfirmationSent)
    case ConfirmationDuplicated => Some(StatusConfirmationDuplicated)
    case ConfirmationFailed => Some(StatusConfirmationFailed)
    case _ => None
  }

  lemma CodesDistinct(a: SendStatus, b: SendStatus)
    requires Code(a).Some? && Code(a) == Code(b)
    ensures a.EmailSent? == b.EmailSent? && (!a.EmailSent? ==> a == b)
  {
  }

  /** dict.get(k, default). */
  function Get(data: map<string, string>, k: string, default: string): string {
    if k in data then data[k] else default
  }

  function GetOpt(data: map<string, string>, k: string): (r: Option<string>)
    ensures r.Some? <==> k in data
    ensures r.Some? ==> r.value == data[k]
  {
    if k in data then Some(data[k]) else None
  }

  /** The reply-to address: the first of "_replyto", "email", "Email" that is present. */
  function ReplyTo(data: map<string, string>): (r: Option<string>)
    ensures "_replyto" in data ==> r == Some(data["_replyto"])
    ensures "_replyto" !in data && "email" in data ==> r == Some(data["email"])
    ensures "_replyto" !in data && "email" !in data && "Email" in data ==> r == Some(data["Email"])
    ensures "_replyto" !in data && "email" !in data && "Email" !in data ==> r.None?
  {
    if "_replyto" in data then Some(data["_replyto"])
    else if "email" in data then Some(data["email"])
    else GetOpt(data, "Email")
  }

  /** not any(data.values()): every value is the empty string. */
  predicate AllFalsy(data: map<string, string>) {
    forall k :: k in data ==> data[k] == ""
  }

  /** A non-empty "_gotcha" field marks the submission as spam. */
  predicate IsSpam(data: map<string, string>) {
    "_gotcha" in data && data["_gotcha"] != ""
  }

  function SubmissionText(template: string, data: map<string, string>, keys: seq<string>, form: Form): Rendered {
    FormEmail(template, data, keys, form.host)
  }

  /**
   * Form.send after the fields are normalised: the subject (whose default
   * is computed, and may raise, even when "_subject" is given), then the
   * empty check, the spam check, and the email with its result.
   */
  function SendOutcome(form: Form, data: map<string, string>, keys: seq<string>, referrer: Option<string>,
                       thanksUrl: string, sender: string, mailStatus: int): (r: (SendStatus, Option<Payload>))
    ensures r.0.Raised? <==> ReferrerToPath(referrer).None?
    ensures !r.0.Raised? ==> (r.0 == EmailEmpty <==> AllFalsy(data))
    ensures r.0 == EmailEmpty || r.0.Raised? ==> r.1.None?
    ensures !r.0.Raised? && !AllFalsy(data) && IsSpam(data) ==> r == (EmailSent(Get(data, "_next", thanksUrl)), None)
    ensures !r.0.Raised? && !AllFalsy(data) && !IsSpam(data) ==>
      r.1.Some? && (if SendSucceeded(mailStatus) then r.0 == EmailSent(Get(data, "_next", thanksUrl)) else r.0 == EmailFailed)
    ensures r.1.Some? ==>
      var p := r.1.value;
      p.to == form.email && p.from == ParseSender(sender).0 &&
      p.subject == Get(data, "_subject", "New submission from " + ReferrerToPath(referrer).value) &&
      p.replyTo == Checked(ReplyTo(data)) && p.cc == Checked(GetOpt(data, "_cc")) &&
      p.text == SubmissionText("email/form.txt", data, keys, form)
    ensures r.0.EmailSent? || r.0.EmailEmpty? || r.0.EmailFailed? || r.0.Raised?
  {
    match ReferrerToPath(referrer)
    case None => (Raised, None)
    case Some(path) =>
      var subject := Get(data, "_subject", "New submission from " + path);
      var next := Get(data, "_next", thanksUrl);
      var spam := GetOpt(data, "_gotcha");
      if AllFalsy(data) then (EmailEmpty, None)
      else if spam.None? || spam.value == "" then
        var p := BuildPayload(Some(form.email), Some(subject), Some(SubmissionText("email/form.txt", data, keys, form)),
                              Some(SubmissionText("email/form.html", data, keys, form)), Some(sender),
                              GetOpt(data, "_cc"), ReplyTo(data));
        if SendSucceeded(mailStatus) then (EmailSent(next), Some(p.value)) else (EmailFailed, Some(p.value))
      else (EmailSent(next), None)
  }

  /** The form after one more delivered submission. */
  function Counted(f: Form): (g: Form)
    ensures g.counter == f.counter + 1 && g == f.(counter := g.counter)
  {
    f.(counter := f.counter + 1)
  }

  /** The submission was delivered by email, which is when the counter goes up. */
  predicate Delivered(r: (SendStatus, Option<Payload>)) {
    r.0.EmailSent? && r.1.Some?
  }

  lemma {:induction false} DeliveredIffSent(form: Form, data: map<string, string>, keys: seq<string>, referrer: Option<string>,
                                            thanksUrl: string, sender: string, mailStatus: int)
    ensures Delivered(SendOutcome(form, data, keys, referrer, thanksUrl, sender, mailStatus)) <==>
      ReferrerToPath(referrer).Some? && !AllFalsy(data) && !IsSpam(data) && SendSucceeded(mailStatus)
  {
  }

  /** A lone non-empty "_gotcha" is not an empty form: it is answered as sent, with no email. */
  lemma {:induction false} LoneGotcha(v: string, referrer: Option<string>, thanksUrl: string, sender: string, mailStatus: int, form: Form)
    requires v != "" && ReferrerToPath(referrer).Some?
    ensures var fields := [("_gotcha", v)];
      SendOutcome(form, Joined(fields), OrderedKeys(fields, ExcludeKeys), referrer, thanksUrl, sender, mailStatus) ==
      (EmailSent(thanksUrl), None)
  {
    var fields := [("_gotcha", v)];
    assert fields[..0] == [];
    assert ValuesOf(fields, "_gotcha") == [v];
    SingleValueUnchanged(fields, "_gotcha", v);
    var data := Joined(fields);
    assert Keys(fields) == {"_gotcha"};
    assert !AllFalsy(data) && IsSpam(data);
    assert "_next" !in data;
  }

  /** The confirmation email for (email, host) with the given confirmation link. */
  function ConfirmationPayload(email: string, host: string, link: string, subject: string, sender: string): (p: Payload)
    ensures p.to == email && p.subject == subject && p.from == ParseSender(sender).0
    ensures p.replyTo.None? && p.cc.None?
  {
    BuildPayload(Some(email), Some(subject), Some(ConfirmEmail("email/confirm.txt", email, host, link)),
                 Some(ConfirmEmail("email/confirm.html", email, host, link)), Some(sender), None, None).value
  }

  /**
   * Form.send_confirmation given the stored form for (email, host), if any:
   * a duplicate when the confirmation was already sent, otherwise the email
   * and its result.
   */
  function ConfirmationOutcome(existing: Option<Form>, email: string, host: string, link: string, subject: string,
                               sender: string, mailStatus: int): (r: (SendStatus, Option<Payload>))
    ensures existing.Some? && existing.value.confirmSent <==> r.0 == ConfirmationDuplicated
    ensures r.0 == ConfirmationDuplicated <==> r.1.None?
    ensures r.0 != ConfirmationDuplicated ==>
      r.1 == Some(ConfirmationPayload(email, host, link, subject, sender)) &&
      (r.0 == ConfirmationSent <==> SendSucceeded(mailStatus)) &&
      (r.0 == ConfirmationFailed <==> !SendSucceeded(mailStatus))
    ensures r.0 in {ConfirmationSent, ConfirmationDuplicated, ConfirmationFailed}
  {
    if existing.Some? && existing.value.confirmSent then (ConfirmationDuplicated, None)
    else
      var p := ConfirmationPayload(email, host, link, subject, sender);
      if SendSucceeded(mailStatus) then (ConfirmationSent, Some(p)) else (ConfirmationFailed, Some(p))
  }

  /**
   * The table after send_confirmation for hash h, given the id the hash
   * names, if any, and the next free id: unchanged unless the email went
   * out; then that form, or a new one at the next id, is marked as sent.
   */
  function ConfirmationTable(forms: map<nat, Form>, existing: Option<nat>, nextId: nat, h: string, email: string, host: string,
                             status: SendStatus): (r: map<nat, Form>)
    requires existing.Some? ==> existing.value in forms
    ensures status != ConfirmationSent ==> r == forms
    ensures status == ConfirmationSent && existing.Some? ==>
      r.Keys == forms.Keys && r[existing.value] == forms[existing.value].(confirmSent := true) &&
      forall id :: id in forms && id != existing.value ==> r[id] == forms[id]
    ensures status == ConfirmationSent && existing.None? ==>
      r.Keys == forms.Keys + {nextId} && r[nextId] == NewForm(h, email, host).(confirmSent := true) &&
      forall id :: id in forms && id != nextId ==> r[id] == forms[id]
  {
    if status != ConfirmationSent then forms
    else if existing.Some? then forms[existing.value := forms[existing.value].(confirmSent := true)]
    else forms[nextId := NewForm(h, email, host).(confirmSent := true)]
  }

  /**
   * The hash index and the next free id after send_confirmation for hash h:
   * only a new form, stored under the next id, changes them.
   */
  predicate IndexAfterConfirmation(byHash: map<string, nat>, nextId: nat, byHashBefore: map<string, nat>, nextIdBefore: nat,
                                   existing: Option<nat>, h: string, status: SendStatus)
  {
    if status == ConfirmationSent && existing.None? then byHash == byHashBefore[h := nextIdBefore] && nextId == nextIdBefore + 1
    else byHash == byHashBefore && nextId == nextIdBefore
  }

  /** Form.confirm on the table: the form whose hash is the nonce becomes confirmed. */
  function ConfirmedForms(forms: map<nat, Form>, byHash: map<string, nat>, nonce: string): (r: map<nat, Form>)
    ensures r.Keys == forms.Keys
    ensures nonce in byHash && byHash[nonce] in forms ==>
      r == forms[byHash[nonce] := forms[byHash[nonce]].(confirmed := true)]
    ensures !(nonce in byHash && byHash[nonce] in forms) ==> r == forms
  {
    if nonce in byHash && byHash[nonce] in forms then
      var id := byHash[nonce];
      forms[id := forms[id].(confirmed := true)]
    else forms
  }

  /** Confirming twice is confirming once. */
  lemma {:induction false} ConfirmIdempotent(forms: map<nat, Form>, byHash: map<string, nat>, nonce: string)
    ensures ConfirmedForms(ConfirmedForms(forms, byHash, nonce), byHash, nonce) == ConfirmedForms(forms, byHash, nonce)
  {
    if nonce in byHash && byHash[nonce] in forms {
      var id := byHash[nonce];
      var once := ConfirmedForms(forms, byHash, nonce);
      assert once[id].(confirmed := true) == once[id];
      assert once[id := once[id]] == once;
    }
  }

  /** The database: forms by id with a unique-hash index, and the stored submissions. */
  class Store {
    var forms: map<nat, Form>
    var byHash: map<string, nat>
    var submissions: map<nat, Submission>
    var nextId: nat
    /** The hex digest behind HASH and the secret appended to its input. */
    const digest: string -> string
    const secret: string
    /** The configured default sender and service name. */
    const sender: string
    const serviceName: string
    /** url_for('confirm_email', nonce=...), absolute. */
    const confirmUrl: string -> string
    /** The hashid codec: decoding an identifier to a form id. */
    const decodeHashid: string -> Option<nat>

    ghost predicate Valid()
      reads this
    {
      (forall id :: id in forms ==> id < nextId) &&
      (forall h :: h in byHash ==> byHash[h] in forms && forms[byHash[h]].hash == Some(h)) &&
      (forall id :: id in forms && forms[id].hash.Some? ==> forms[id].hash.value in byHash && byHash[forms[id].hash.value] == id) &&
      (forall s :: s in submissions ==> submissions[s].formId in forms)
    }

    constructor (digest: string -> string, secret: string, sender: string, serviceName: string,
                 confirmUrl: string -> string, decodeHashid: string -> Option<nat>)
      ensures Valid() && forms == map[] && submissions == map[]
      ensures this.digest == digest && this.secret == secret && this.sender == sender
      ensures this.serviceName == serviceName && this.confirmUrl == confirmUrl && this.decodeHashid == decodeHashid
    {
      this.digest := digest;
      this.secret := secret;
      this.sender := sender;
      this.serviceName := serviceName;
      this.confirmUrl := confirmUrl;
      this.decodeHashid := decodeHashid;
      forms := map[];
      byHash := map[];
      submissions := map[];
      nextId := 0;
    }

    function HashOf(email: string, host: string): string {
      Hash(digest, secret, email, host)
    }

    /** Form.query.filter_by(hash=h).first() */
    function Lookup(h: string): (r: Option<nat>)
      reads this
      requires Valid()
      ensures r.Some? ==> r.value in forms && forms[r.value].hash == Some(h)
      ensures r.None? ==> forall id :: id in forms ==> forms[id].hash != Some(h)
    {
      if h in byHash then Some(byHash[h]) else None
    }

    /** Form.get_with_hashid: the form whose id the hashid decodes to. */
    function WithHashid(hashid: string): (r: Option<nat>)
      reads this
      ensures r.Some? ==> r.value in forms && decodeHashid(hashid) == r
      ensures r.None? <==> decodeHashid(hashid).None? || decodeHashid(hashid).value !in forms
    {
      match decodeHashid(hashid)
      case Some(id) => if id in forms then Some(id) else None
      case None => None
    }

    /** The stored form of an id, if any. */
    function Get(id: Option<nat>): (r: Option<Form>)
      reads this
      ensures r.Some? <==> id.Some? && id.value in forms
    {
      if id.Some? && id.value in forms then Some(forms[id.value]) else None
    }

    /** DB.session.add of a new form: it gets the next id. */
    method Insert(f: Form) returns (id: nat)
      requires Valid()
      requires f.hash.Some? ==> f.hash.value !in byHash
      modifies this
      ensures Valid()
      ensures id == old(nextId) && id !in old(forms) && nextId == old(nextId) + 1
      ensures forms == old(forms)[id := f]
      ensures byHash == if f.hash.Some? then old(byHash)[f.hash.value := id] else old(byHash)
      ensures submissions == old(submissions)
    {
      id := nextId;
      forms := forms[id := f];
      if f.hash.Some? {
        byHash := byHash[f.hash.value := id];
      }
      nextId := nextId + 1;
    }

    /** DB.session.add of a changed form whose hash is unchanged. */
    method Update(id: nat, f: Form)
      requires Valid() && id in forms && f.hash == forms[id].hash
      modifies this`forms
      ensures Valid()
      ensures forms == old(forms)[id := f]
    {
      forms := forms[id := f];
    }

    /**
     * Form.send: normalise the fields, decide the outcome, and count a
     * delivered submission.
     */
    method Send(id: nat, fields: seq<Field>, referrer: Option<string>, thanksUrl: string, mailStatus: int)
      returns (status: SendStatus, mail: Option<Payload>)
      requires Valid() && id in forms
      modifies this`forms
      ensures Valid()
      ensures (status, mail) ==
        SendOutcome(old(forms[id]), Joined(fields), OrderedKeys(fields, ExcludeKeys), referrer, thanksUrl, sender, mailStatus)
      ensures forms == if Delivered((status, mail)) then old(forms)[id := Counted(old(forms[id]))] else old(forms)
    {
      var data, keys := HttpFormToDict(fields, ExcludeKeys);
      var form := forms[id];
      var outcome := SendOutcome(form, data, keys, referrer, thanksUrl, sender, mailStatus);
      status, mail := outcome.0, outcome.1;
      if Delivered(outcome) {
        Update(id, Counted(form));
      }
    }

    /**
     * Form.send_confirmation(email, host): nothing changes unless the email
     * goes out; then the form exists, created if need be, with its
     * confirmation marked as sent.
     */
    method SendConfirmation(email: string, host: string, mailStatus: int) returns (status: SendStatus, mail: Option<Payload>)
      requires Valid()
      modifies this
      ensures Valid()
      ensures var h := HashOf(email, host);
        (status, mail) == ConfirmationOutcome(old(Get(Lookup(h))), email, host, confirmUrl(h),
                                              "Confirm email for " + serviceName, sender, mailStatus)
      ensures submissions == old(submissions)
      ensures status != ConfirmationSent ==> forms == old(forms) && byHash == old(byHash) && nextId == old(nextId)
      ensures status == ConfirmationSent ==>
        var h := HashOf(email, host);
        Lookup(h).Some? && forms[Lookup(h).value].confirmSent &&
        (old(Lookup(h)).Some? ==> forms == old(forms)[old(Lookup(h)).value := old(forms[Lookup(h).value]).(confirmSent := true)]) &&
        (old(Lookup(h)).None? ==> forms == old(forms)[old(nextId) := NewForm(h, email, host).(confirmSent := true)])
      ensures var h := HashOf(email, host);
        forms == ConfirmationTable(old(forms), old(Lookup(h)), old(nextId), h, email, host, status)
      ensures var h := HashOf(email, host);
        IndexAfterConfirmation(byHash, nextId, old(byHash), old(nextId), old(Lookup(h)), h, status)
    {
      var h := HashOf(email, host);
      var existing := Lookup(h);
      var outcome := ConfirmationOutcome(Get(existing), email, host, confirmUrl(h), "Confirm email for " + serviceName, sender, mailStatus);
      status, mail := outcome.0, outcome.1;
      if status == ConfirmationSent {
        if existing.Some? {
          Update(existing.value, forms[existing.value].(confirmSent := true));
        } else {
          var id := Insert(NewForm(h, email, host).(confirmSent := true));
        }
      }
    }

    /** Form.confirm(nonce): the form with that hash, if any, now confirmed. */
    method Confirm(nonce: string) returns (found: Option<nat>)
      requires Valid()
      modifies this`forms
      ensures Valid()
      ensures found == old(Lookup(nonce))
      ensures forms == ConfirmedForms(old(forms), byHash, nonce)
    {
      found := Lookup(nonce);
      if found.Some? {
        Update(found.value, forms[found.value].(confirmed := true));
      }
    }
  }
}
