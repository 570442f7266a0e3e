/**
 * The dashboard's JSON API over the form table: list a user's forms,
 * create a form, update its switches, delete it with its submissions, and
 * delete one submission.
 */
module Api {
  import opened Wrappers
  import opened Text
  import opened Web
  import opened EmailRules
  import opened Urls
  import opened Forms

  /** The logged-in user: id, whether the plan has the dashboard feature, and the registered addresses. */
  datatype User = User(id: nat, hasDashboard: bool, emails: seq<string>)

  /**
   * What the handlers take from settings and from helpers whose code is not
   * part of this model: the base URLs of the Referer and of the service
   * (referrer_to_baseurl), API_ROOT, the hashid encoder, remove_www,
   * urljoin(url, '/'), and sitewide_file_check(url, email).
   */
  datatype ApiEnv = ApiEnv(
    referrerBase: string,
    serviceBase: string,
    apiRoot: string,
    encodeHashid: nat -> string,
    removeWww: string -> string,
    urlRoot: string -> string,
    sitewideFileCheck: (string, string) -> bool)

  function ApiError(code: int, message: string): Response {
    JsonError(code, ErrorBody(message))
  }

  /** The check that a state-changing request came from the dashboard itself. */
  function Guard(env: ApiEnv): (r: Option<Response>)
    ensures r.Some? <==> env.referrerBase != env.serviceBase
    ensures r.Some? ==> r.value.Reply? && r.value.status == 400
  {
    if env.referrerBase != env.serviceBase then Some(ApiError(400, "Improper request.")) else None
  }

  /** current_user.forms: the forms whose owner is the user. */
  function OwnedBy(forms: map<nat, Form>, user: nat): (r: set<nat>)
    ensures forall id :: id in r <==> id in forms && forms[id].owner == Some(user)
  {
    set id | id in forms && forms[id].owner == Some(user)
  }

  /** The wrong-user test as written: not the owner, and not among the user's forms. */
  predicate WrongUser(forms: map<nat, Form>, id: nat, user: nat)
    requires id in forms
  {
    forms[id].owner != Some(user) && id !in OwnedBy(forms, user)
  }

  /** Since the user's forms are the ones it owns, the second test adds nothing. */
  lemma WrongUserIffNotOwner(forms: map<nat, Form>, id: nat, user: nat)
    requires id in forms
    ensures WrongUser(forms, id, user) <==> forms[id].owner != Some(user)
  {
  }

  /** The user's forms with ids below n, highest id first. */
  function OwnedBelow(forms: map<nat, Form>, user: nat, n: nat): (r: seq<nat>)
    ensures forall i :: 0 <= i < |r| ==> r[i] < n
    ensures forall i, j :: 0 <= i < j < |r| ==> r[i] > r[j]
    ensures forall id :: id in r <==> id < n && id in forms && forms[id].owner == Some(user)
  {
    if n == 0 then []
    else (if n - 1 in forms && forms[n - 1].owner == Some(user) then [n - 1] else []) + OwnedBelow(forms, user, n - 1)
  }

  /** list: nothing without the dashboard feature, else the user's forms by descending id. */
  function ListedForms(store: Store, user: User): (r: seq<nat>)
    reads store
    requires store.Valid()
    ensures !user.hasDashboard ==> r == []
    ensures forall i, j :: 0 <= i < j < |r| ==> r[i] > r[j]
    ensures user.hasDashboard ==> forall id :: id in r <==> id in store.forms && store.forms[id].owner == Some(user.id)
  {
    if user.hasDashboard then OwnedBelow(store.forms, user.id, store.nextId) else []
  }

  /** The fields of create's JSON body; a missing url counts as empty, a missing sitewide as false. */
  datatype CreateRequest = CreateRequest(email: Option<string>, url: string, sitewide: bool)

  /** 'http://' + url unless url already starts with "http". */
  function WithScheme(url: string): (r: string)
    ensures StartsWith(r, "http")
    ensures StartsWith(url, "http") ==> r == url
    ensures !StartsWith(url, "http") ==> r == "http://" + url
  {
    if StartsWith(url, "http") then url else "http://" + url
  }

  /** s[:-1]. */
  function DropLast(s: string): string {
    if |s| == 0 then s else s[..|s| - 1]
  }

  /**
   * The part of create before anything is stored: the guard, the plan, the
   * address, and the host taken from the url (the site root, less its
   * final character and any www, for a verified sitewide form).
   */
  function CreatedForm(user: User, req: CreateRequest, env: ApiEnv): (r: Result<Form, Response>)
    ensures Guard(env).Some? ==> r == Failure(Guard(env).value)
    ensures Guard(env).None? && !user.hasDashboard ==> r == Failure(ApiError(402, "Please upgrade your account."))
    ensures Guard(env).None? && user.hasDashboard && req.email.Some? && !IsValidEmail(req.email.value) ==>
      r == Failure(ApiError(400, "The provided email address is not valid."))
    ensures r.Success? ==> req.email.Some? && IsValidEmail(req.email.value) && Guard(env).None? && user.hasDashboard
    ensures r.Success? ==> (
      var f := r.value;
      f.email == Strip(ToLower(req.email.value)) && f.hash.None? && f.owner == Some(user.id) &&
      !f.confirmed && !f.confirmSent && f.counter == 0 && !f.disabled &&
      (req.url == "" ==> f.host == "" && !f.sitewide) &&
      (req.url != "" && !req.sitewide ==> Some(f.host) == ReferrerToPath(Some(WithScheme(req.url))) && !f.sitewide) &&
      (req.url != "" && req.sitewide ==> f.sitewide && env.sitewideFileCheck(WithScheme(req.url), f.email)))
    ensures r.Failure? && r.error.Reply? && r.error.status == 403 ==>
      req.email.Some? && req.url != "" && req.sitewide &&
      !env.sitewideFileCheck(WithScheme(req.url), Strip(ToLower(req.email.value)))
    ensures (Guard(env).None? && user.hasDashboard && req.email.Some? && IsValidEmail(req.email.value) &&
             req.url != "" && ReferrerToPath(Some(WithScheme(req.url))).Some? && req.sitewide &&
             !env.sitewideFileCheck(WithScheme(req.url), Strip(ToLower(req.email.value)))) ==>
      r == Failure(ApiError(403, "Couldn't verify the file at " + WithScheme(req.url) + "."))
    ensures r.Success? <==>
      Guard(env).None? && user.hasDashboard && req.email.Some? && IsValidEmail(req.email.value) &&
      (req.url != "" ==>
         ReferrerToPath(Some(WithScheme(req.url))).Some? &&
         (req.sitewide ==>
            env.sitewideFileCheck(WithScheme(req.url), Strip(ToLower(req.email.value))) &&
            ReferrerToPath(Some(env.urlRoot(WithScheme(req.url)))).Some?))
    ensures r.Success? && req.url != "" && req.sitewide ==>
      r.value.host == env.removeWww(DropLast(ReferrerToPath(Some(env.urlRoot(WithScheme(req.url)))).value))
    ensures r.Failure? && !r.error.Crash? ==> r.error.Reply? && r.error.status in {400, 402, 403}
  {
    if Guard(env).Some? then Failure(Guard(env).value)
    else if !user.hasDashboard then Failure(ApiError(402, "Please upgrade your account."))
    else if req.email.None? then Failure(Crash)
    else if !IsValidEmail(req.email.value) then Failure(ApiError(400, "The provided email address is not valid."))
    else
      var email := Strip(ToLower(req.email.value));
      var form := Form(None, email, "", false, false, 0, Some(user.id), false, false, false, false, false);
      if req.url == "" then Success(form)
      else
        var url := WithScheme(req.url);
        match ReferrerToPath(Some(url))
        case None => Failure(Crash)
        case Some(host) =>
          if !req.sitewide then Success(form.(host := host))
          else if !env.sitewideFileCheck(url, email) then
            Failure(ApiError(403, "Couldn't verify the file at " + url + "."))
          else
            match ReferrerToPath(Some(env.urlRoot(url)))
            case None => Failure(Crash)
            case Some(root) => Success(form.(host := env.removeWww(DropLast(root)), sitewide := true))
  }

  /** A url given without a scheme, such as a bare domain and path, becomes the form's host whole. */
  lemma {:induction false} BareUrlBecomesHost(user: User, email: string, host: string, path: string, env: ApiEnv)
    requires Guard(env).None? && user.hasDashboard && IsValidEmail(email)
    requires host != "" && !StartsWith(host + path, "http")
    requires forall j :: 0 <= j < |host| ==> host[j] !in NetlocDelims && host[j] != '[' && host[j] != ']'
    requires path == "" || path[0] == '/'
    requires '?' !in path && '#' !in path && ';' !in path
    ensures CreatedForm(user, CreateRequest(Some(email), host + path, false), env).Success?
    ensures CreatedForm(user, CreateRequest(Some(email), host + path, false), env).value.host == host + path
  {
    assert WithScheme(host + path) == "http://" + host + path + "";
    HttpReferrerToPath(host, path, "");
  }

  /**
   * A sitewide form verified for http://host/path is bound to the site's
   * domain with any www removed, so that it accepts every page of the site.
   */
  lemma {:induction false} SitewideHostIsDomain(user: User, email: string, host: string, path: string, env: ApiEnv)
    requires Guard(env).None? && user.hasDashboard && IsValidEmail(email)
    requires forall j :: 0 <= j < |host| ==> host[j] !in NetlocDelims && host[j] != '[' && host[j] != ']'
    requires path == "" || path[0] == '/'
    requires '?' !in path && '#' !in path && ';' !in path
    requires env.urlRoot("http://" + host + path) == "http://" + host + "/"
    requires env.sitewideFileCheck("http://" + host + path, Strip(ToLower(email)))
    ensures CreatedForm(user, CreateRequest(Some(email), "http://" + host + path, true), env) ==
      Success(Form(None, Strip(ToLower(email)), env.removeWww(host), false, false, 0, Some(user.id), true, false, false, false, false))
  {
    var url := "http://" + host + path;
    assert StartsWith(url, "http") by { assert url[..4] == "http"; }
    assert url == "http://" + host + path + "";
    HttpReferrerToPath(host, path, "");
    assert "http://" + host + "/" == "http://" + host + "/" + "";
    HttpReferrerToPath(host, "/", "");
    assert DropLast(host + "/") == host;
  }

  /** sitewide_check: whether the verification file is in place, as a JSON flag. */
  function SitewideCheck(email: string, url: string, env: ApiEnv): (r: Response)
    ensures r.Reply? && r.status == DefaultStatus && r.content.Json? && r.content.body.Keys == {"ok"}
    ensures r.content.body["ok"] == JBool(env.sitewideFileCheck(url, email))
  {
    Jsonify(map["ok" := JBool(env.sitewideFileCheck(url, email))])
  }

  /**
   * The dashboard's check predicts create: for a url with its scheme, a
   * check of the normalised address answering false means the sitewide
   * create is refused with 403, and true means it is accepted.
   */
  lemma {:induction false} SitewideCheckPredictsCreate(user: User, email: string, url: string, env: ApiEnv)
    requires Guard(env).None? && user.hasDashboard && IsValidEmail(email)
    requires StartsWith(url, "http") && ReferrerToPath(Some(url)).Some? && ReferrerToPath(Some(env.urlRoot(url))).Some?
    ensures var created := CreatedForm(user, CreateRequest(Some(email), url, true), env);
      var ok := SitewideCheck(Strip(ToLower(email)), url, env).content.body["ok"];
      (ok == JBool(false) ==> created.Failure? && created.error.Reply? && created.error.status == 403) &&
      (ok == JBool(true) ==> created.Success? && created.value.sitewide)
  {
    assert |url| >= 4;
    assert WithScheme(url) == url;
  }

  /** for email in current_user.emails: if email.address == form.email: ... break */
  method IsRegistered(emails: seq<string>, address: string) returns (found: bool)
    ensures found <==> address in emails
  {
    found := false;
    var i := 0;
    while i < |emails|
      invariant 0 <= i <= |emails|
      invariant !found && address !in emails[..i]
    {
      if emails[i] == address {
        return true;
      }
      i := i + 1;
    }
  }

  /** The form, confirmed. */
  function Confirmed(f: Form): (g: Form)
    ensures g.confirmed && g.hash == f.hash && g.email == f.email && g.host == f.host
  {
    f.(confirmed := true)
  }

  /** The body create answers with. */
  function CreatedBody(hashid: string, apiRoot: string, confirmed: bool): map<string, JsonValue> {
    map["ok" := JBool(true), "hashid" := JStr(hashid), "submission_url" := JStr(apiRoot + "/" + hashid),
        "confirmed" := JBool(confirmed)]
  }

  /**
   * create: store the new form; a form with a host is confirmed at once
   * when its address is one of the user's, and otherwise a confirmation is
   * requested for it.
   */
  method Create(store: Store, user: User, req: CreateRequest, env: ApiEnv)
    returns (resp: Response, confirmationRequested: bool)
    requires store.Valid()
    modifies store
    ensures store.Valid()
    ensures store.submissions == old(store.submissions)
    ensures var created := CreatedForm(user, req, env);
      created.Failure? ==>
        resp == created.error && !confirmationRequested &&
        store.forms == old(store.forms) && store.byHash == old(store.byHash) && store.nextId == old(store.nextId)
    ensures var created := CreatedForm(user, req, env);
      created.Success? ==>
        var f := created.value;
        var id := old(store.nextId);
        var confirmed := f.host != "" && f.email in user.emails;
        id !in old(store.forms) &&
        store.forms == old(store.forms)[id := if confirmed then Confirmed(f) else f] &&
        store.nextId == id + 1 && store.byHash == old(store.byHash) &&
        (confirmationRequested <==> f.host != "" && f.email !in user.emails) &&
        resp == Jsonify(CreatedBody(env.encodeHashid(id), env.apiRoot, confirmed))
  {
    var created := CreatedForm(user, req, env);
    if created.Failure? {
      return created.error, false;
    }
    resp, confirmationRequested := StoreCreated(store, created.value, user, env);
  }

  /** The part of create after the checks: insert the form, then confirm it or ask for confirmation. */
  method StoreCreated(store: Store, f: Form, user: User, env: ApiEnv) returns (resp: Response, confirmationRequested: bool)
    requires store.Valid() && f.hash.None? && !f.confirmed
    modifies store
    ensures store.Valid()
    ensures store.submissions == old(store.submissions)
    ensures var id := old(store.nextId);
      var confirmed := f.host != "" && f.email in user.emails;
      id !in old(store.forms) &&
      store.forms == old(store.forms)[id := if confirmed then Confirmed(f) else f] &&
      store.nextId == id + 1 && store.byHash == old(store.byHash) &&
      (confirmationRequested <==> f.host != "" && f.email !in user.emails) &&
      resp == Jsonify(CreatedBody(env.encodeHashid(id), env.apiRoot, confirmed))
  {
    var id := store.Insert(f);
    var confirmed := false;
    confirmationRequested := false;
    if f.host != "" {
      confirmed := ConfirmIfRegistered(store, id, user.emails);
      confirmationRequested := !confirmed;
    }
    resp := Jsonify(CreatedBody(env.encodeHashid(id), env.apiRoot, confirmed));
  }

  /** The for/else of create: confirm the form when its address is one of the user's. */
  method ConfirmIfRegistered(store: Store, id: nat, emails: seq<string>) returns (confirmed: bool)
    requires store.Valid() && id in store.forms
    modifies store`forms
    ensures store.Valid()
    ensures confirmed <==> old(store.forms[id]).email in emails
    ensures store.forms == if confirmed then old(store.forms)[id := Confirmed(old(store.forms[id]))] else old(store.forms)
  {
    confirmed := IsRegistered(emails, store.forms[id].email);
    if confirmed {
      store.Update(id, Confirmed(store.forms[id]));
    }
  }

  /** The attributes update may change. */
  datatype Attr = DisableStorage | Disabled | DisableEmail | CaptchaDisabled

  /** The attribute's name as the patch spells it. */
  function Name(a: Attr): string {
    match a
    case DisableStorage => "disable_storage"
    case Disabled => "disabled"
    case DisableEmail => "disable_email"
    case CaptchaDisabled => "captcha_disabled"
  }

  /** The whitelist, in the order update visits it. */
  const Whitelist: seq<Attr> := [DisableStorage, Disabled, DisableEmail, CaptchaDisabled]

  /** setattr(form, attr, value). */
  function SetAttr(f: Form, attr: Attr, value: bool): Form {
    match attr
    case DisableStorage => f.(disableStorage := value)
    case Disabled => f.(disabled := value)
    case DisableEmail => f.(disableEmail := value)
    case CaptchaDisabled => f.(captchaDisabled := value)
  }

  /** The patch's value for an attribute, or the form's current one. */
  function PatchValue(patch: map<string, bool>, a: Attr, current: bool): bool {
    if Name(a) in patch then patch[Name(a)] else current
  }

  /** Each whitelisted switch the patch names takes the patch's value; everything else stays. */
  function Patched(f: Form, patch: map<string, bool>): (g: Form)
    ensures g.(disableStorage := f.disableStorage, disabled := f.disabled,
               disableEmail := f.disableEmail, captchaDisabled := f.captchaDisabled) == f
  {
    f.(disableStorage := PatchValue(patch, DisableStorage, f.disableStorage),
       disabled := PatchValue(patch, Disabled, f.disabled),
       disableEmail := PatchValue(patch, DisableEmail, f.disableEmail),
       captchaDisabled := PatchValue(patch, CaptchaDisabled, f.captchaDisabled))
  }

  /** A patch naming no whitelisted attribute changes nothing. */
  lemma IgnoredPatch(f: Form, patch: map<string, bool>)
    requires forall i :: 0 <= i < |Whitelist| ==> Name(Whitelist[i]) !in patch
    ensures Patched(f, patch) == f
  {
    assert Name(Whitelist[0]) !in patch && Name(Whitelist[1]) !in patch;
    assert Name(Whitelist[2]) !in patch && Name(Whitelist[3]) !in patch;
  }

  /** One turn of update's loop: set the attribute if the patch names it. */
  function SetIfPresent(g: Form, patch: map<string, bool>, a: Attr): Form {
    if Name(a) in patch then SetAttr(g, a, patch[Name(a)]) else g
  }

  /** The form after the loop has visited the first n whitelisted attributes. */
  function PatchedUpTo(f: Form, patch: map<string, bool>, n: nat): Form
    requires n <= |Whitelist|
  {
    if n == 0 then f else SetIfPresent(PatchedUpTo(f, patch, n - 1), patch, Whitelist[n - 1])
  }

  lemma PatchedOne(f: Form, p: map<string, bool>)
    ensures PatchedUpTo(f, p, 1) == f.(disableStorage := PatchValue(p, DisableStorage, f.disableStorage))
  {
    assert Whitelist[0] == DisableStorage;
  }

  lemma PatchedTwo(f: Form, p: map<string, bool>)
    ensures PatchedUpTo(f, p, 2) == f.(disableStorage := PatchValue(p, DisableStorage, f.disableStorage),
                                       disabled := PatchValue(p, Disabled, f.disabled))
  {
    PatchedOne(f, p);
    assert Whitelist[1] == Disabled;
  }

  lemma PatchedThree(f: Form, p: map<string, bool>)
    ensures PatchedUpTo(f, p, 3) == f.(disableStorage := PatchValue(p, DisableStorage, f.disableStorage),
                                       disabled := PatchValue(p, Disabled, f.disabled),
                                       disableEmail := PatchValue(p, DisableEmail, f.disableEmail))
  {
    PatchedTwo(f, p);
    assert Whitelist[2] == DisableEmail;
  }

  /** Visiting the whole whitelist gives the patched form. */
  lemma PatchedAll(f: Form, p: map<string, bool>)
    ensures PatchedUpTo(f, p, |Whitelist|) == Patched(f, p)
  {
    PatchedThree(f, p);
    assert Whitelist[3] == CaptchaDisabled;
  }

  /** The setattr loop of update. */
  method ApplyPatch(f: Form, patch: map<string, bool>) returns (g: Form)
    ensures g == Patched(f, patch)
  {
    g := f;
    for i := 0 to |Whitelist|
      invariant g == PatchedUpTo(f, patch, i)
    {
      var attr := Whitelist[i];
      if Name(attr) in patch {
        g := SetAttr(g, attr, patch[Name(attr)]);
      }
      assert g == SetIfPresent(PatchedUpTo(f, patch, i), patch, Whitelist[i]);
    }
    PatchedAll(f, patch);
  }

  /** The target of update, delete and submission_delete: 400 for an unknown form, 401 for another user's. */
  function Target(store: Store, hashid: string, user: nat): (r: Result<nat, Response>)
    reads store
    ensures r.Success? <==> store.WithHashid(hashid).Some? && !WrongUser(store.forms, store.WithHashid(hashid).value, user)
    ensures r.Success? ==> Some(r.value) == store.WithHashid(hashid) && store.forms[r.value].owner == Some(user)
    ensures r.Failure? && store.WithHashid(hashid).None? ==> r.error == ApiError(400, "Not a valid form.")
    ensures r.Failure? && store.WithHashid(hashid).Some? ==> r.error == ApiError(401, "Wrong user.")
  {
    match store.WithHashid(hashid)
    case None => Failure(ApiError(400, "Not a valid form."))
    case Some(id) => if WrongUser(store.forms, id, user) then Failure(ApiError(401, "Wrong user.")) else Success(id)
  }

  /** The response every successful change answers with. */
  function Ok(): Response {
    Jsonify(map["ok" := JBool(true)])
  }

  /** update: only the whitelisted switches of the user's own form change. */
  method Update(store: Store, user: User, hashid: string, patch: map<string, bool>, env: ApiEnv) returns (resp: Response)
    requires store.Valid()
    modifies store`forms
    ensures store.Valid()
    ensures Guard(env).Some? ==> resp == Guard(env).value && store.forms == old(store.forms)
    ensures Guard(env).None? && old(Target(store, hashid, user.id)).Failure? ==>
      resp == old(Target(store, hashid, user.id)).error && store.forms == old(store.forms)
    ensures Guard(env).None? && old(Target(store, hashid, user.id)).Success? ==>
      var id := old(Target(store, hashid, user.id)).value;
      resp == Ok() && store.forms == old(store.forms)[id := Patched(old(store.forms[id]), patch)]
  {
    if Guard(env).Some? {
      return Guard(env).value;
    }
    var target := Target(store, hashid, user.id);
    if target.Failure? {
      return target.error;
    }
    var patched := ApplyPatch(store.forms[target.value], patch);
    store.Update(target.value, patched);
    resp := Ok();
  }

  /** The submissions that do not belong to a form. */
  function Others(submissions: map<nat, Submission>, id: nat): (r: map<nat, Submission>)
    ensures forall s :: s in r <==> s in submissions && submissions[s].formId != id
    ensures forall s :: s in r ==> r[s] == submissions[s]
  {
    map s | s in submissions && submissions[s].formId != id :: submissions[s]
  }

  /** The form table without a form, and without its hash. */
  function Removed(forms: map<nat, Form>, byHash: map<string, nat>, id: nat): (r: (map<nat, Form>, map<string, nat>))
    requires id in forms
    ensures r.0 == forms - {id}
    ensures r.1 == if forms[id].hash.Some? then byHash - {forms[id].hash.value} else byHash
  {
    (forms - {id}, if forms[id].hash.Some? then byHash - {forms[id].hash.value} else byHash)
  }

  /** for submission in form.submissions: delete it. */
  method DeleteSubmissionsOf(store: Store, id: nat)
    requires store.Valid()
    modifies store`submissions
    ensures store.submissions == Others(old(store.submissions), id)
    ensures store.Valid()
  {
    ghost var before := store.submissions;
    var pending := set s | s in store.submissions && store.submissions[s].formId == id;
    while pending != {}
      invariant pending <= store.submissions.Keys
      invariant forall s :: s in pending ==> s in before && before[s].formId == id
      invariant forall s :: s in store.submissions <==> s in before && (before[s].formId != id || s in pending)
      invariant forall s :: s in store.submissions ==> store.submissions[s] == before[s]
      decreases |pending|
    {
      var s :| s in pending;
      store.submissions := store.submissions - {s};
      pending := pending - {s};
    }
    assert store.submissions == Others(before, id);
  }

  /** delete: the user's form goes, and every submission of it with it. */
  method Delete(store: Store, user: User, hashid: string, env: ApiEnv) returns (resp: Response)
    requires store.Valid()
    modifies store
    ensures store.Valid()
    ensures store.nextId == old(store.nextId)
    ensures Guard(env).Some? || old(Target(store, hashid, user.id)).Failure? ==>
      store.forms == old(store.forms) && store.byHash == old(store.byHash) && store.submissions == old(store.submissions)
    ensures Guard(env).Some? ==> resp == Guard(env).value
    ensures Guard(env).None? && old(Target(store, hashid, user.id)).Failure? ==> resp == old(Target(store, hashid, user.id)).error
    ensures Guard(env).None? && old(Target(store, hashid, user.id)).Success? ==>
      var id := old(Target(store, hashid, user.id)).value;
      resp == Ok() && (store.forms, store.byHash) == Removed(old(store.forms), old(store.byHash), id) &&
      store.submissions == Others(old(store.submissions), id)
  {
    if Guard(env).Some? {
      return Guard(env).value;
    }
    var target := Target(store, hashid, user.id);
    if target.Failure? {
      return target.error;
    }
    var id := target.value;
    DeleteSubmissionsOf(store, id);
    var removed := Removed(store.forms, store.byHash, id);
    store.forms, store.byHash := removed.0, removed.1;
    resp := Ok();
  }

  /** No submission of a deleted form remains. */
  lemma DeleteCascades(submissions: map<nat, Submission>, id: nat)
    ensures forall s :: s in Others(submissions, id) ==> Others(submissions, id)[s].formId != id
  {
  }

  /**
   * submission_delete: a missing submission is a 401 with a bare string
   * body; otherwise it is deleted, whichever form it belongs to, and the
   * target form's counter drops by one.
   */
  method SubmissionDelete(store: Store, user: User, hashid: string, submissionId: nat, env: ApiEnv) returns (resp: Response)
    requires store.Valid()
    modifies store`forms, store`submissions
    ensures store.Valid()
    ensures Guard(env).Some? ==> resp == Guard(env).value
    ensures Guard(env).None? && old(Target(store, hashid, user.id)).Failure? ==> resp == old(Target(store, hashid, user.id)).error
    ensures Guard(env).Some? || old(Target(store, hashid, user.id)).Failure? || submissionId !in old(store.submissions) ==>
      store.forms == old(store.forms) && store.submissions == old(store.submissions)
    ensures Guard(env).None? && old(Target(store, hashid, user.id)).Success? && submissionId !in old(store.submissions) ==>
      resp == Reply(401, JsonText("Not a valid submission."))
    ensures Guard(env).None? && old(Target(store, hashid, user.id)).Success? && submissionId in old(store.submissions) ==>
      var id := old(Target(store, hashid, user.id)).value;
      resp == Ok() && store.submissions == old(store.submissions) - {submissionId} &&
      store.forms == old(store.forms)[id := old(store.forms[id]).(counter := old(store.forms[id]).counter - 1)]
  {
    if Guard(env).Some? {
      return Guard(env).value;
    }
    var target := Target(store, hashid, user.id);
    if target.Failure? {
      return target.error;
    }
    if submissionId !in store.submissions {
      return Reply(401, JsonText("Not a valid submission."));
    }
    var id := target.value;
    store.submissions := store.submissions - {submissionId};
    var f := store.forms[id];
    store.Update(id, f.(counter := f.counter - 1));
    resp := Ok();
  }
}
