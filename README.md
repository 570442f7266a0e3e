# Formspree form-submission admission, modelled in Dafny

Formspree is a form-to-email service. A static site's HTML form posts to
`/<email>` or `/<hashid>`, and the service decides what to do with it:

- whether to accept the request at all (method, target, submitting host, CAPTCHA);
- which database form the submission belongs to, creating one on first use;
- whether to send a confirmation email, mail the submission, or refuse it;
- what to answer, either a JSON object or an HTML page, with its HTTP status.

This project models that logic. It also models the helpers the logic relies on:

- the e-mail pattern, the form hash and the excluded fields;
- `referrer_to_path` and the multi-valued form-body flattening;
- the outgoing mail payload and the error catalogue;
- the uuid slug and big-string codecs, and the 12-month timestamp;
- the dashboard's JSON API over forms;
- the HTTPS redirect and HSTS header hooks.

The repository holds three generations of the submission handler, and each one is modelled separately:

- `formspree/forms/endpoint.py` (module `Endpoint`);
- `formspree/forms/views.py` (module `FormViews`);
- the older split `forms/views.py` (module `ClassicViews`), and the single-file `forms/app.py` (module `Monolith`).

How things are modelled:

- The database is the class `Forms.Store`. Its fields are the form table, the index from public
  hash to form id, and the submission table. The handlers are methods that modify it. Each one
  pins the new form table, hash index and next id as functions of the old store and its inputs, and
  keeps the submissions.
- Everything the handlers compute is a function of the inputs and the old state. Those functions
  carry their own contracts, and lemmas relate them (round trips, idempotence, if-and-only-if
  characterisations).
- Python raising an exception becomes `Response.Crash`. This covers an undefined name
  (`k(...)`, `result[1]`), `urlparse` rejecting a URL, and a missing key.
- A `SubmitFormError` carrying a response becomes `Result.Failure(response)`.
- Python's falsy `None`/`''` host is the empty string.

## Model

| member | source | states |
|---|---|---|
| Web.Jsonify | formspree/forms/endpoint.py:160-164 | a JSON reply of status 200 carrying exactly the given object |
| Web.JsonError | formspree/utils.py:67-70 | a JSON reply with the given status and object |
| Web.RedirectTo | formspree/forms/endpoint.py:160-164 | a redirect response with the given code and location |
| Web.BestMatch | formspree/utils.py:60-61 | no match exactly when both qualities are zero; JSON wins ties, HTML must be strictly preferred |
| Web.XhrWantsJson | formspree/utils.py:58-59 | an XMLHttpRequest always wants JSON, whatever its Accept header |
| Web.WantsJsonByQuality | formspree/utils.py:57-64 | without the XHR header, JSON is wanted exactly when its quality is strictly higher than HTML's |
| Errors.ErrorResponse | formspree/forms/errors.py:14-129 | every error is an answer; a JSON caller gets an object with an "error" key, an HTML caller a page |
| Errors.StatusTable | formspree/forms/errors.py:14-129 | the status of each error: 405, 400, 403, 400, 500; over-limit is 402 for HTML but 200 for JSON; a malformed reply-to is 400 for HTML but 500 for JSON |
| Errors.StatusIndependentOfFormat | formspree/forms/errors.py:98-117 | JSON and HTML callers get the same status for every error except over-limit and malformed reply-to |
| Errors.ErrorStatusIsError | formspree/forms/errors.py:14-129 | every error status is in 4xx/5xx, except over-limit answered as JSON |
| Errors.MismatchedBody | formspree/forms/errors.py:73-84 | the JSON mismatch error reports the submitted host and the confirmed host |
| EmailRules.IsValidEmailMatchesPattern | formspree/forms/utils.py:14 | the executable e-mail check accepts exactly the strings that the regular expression matches when anchored at the start |
| EmailRules.ValidEmailIgnoresSuffix | forms/consts.py:6 | `re.match` is unanchored at the end: any text may follow a valid address |
| EmailRules.HashOfConcatenation | formspree/forms/helpers.py:10 | the hash reads only the concatenation of email and host, so ("ab","c") and ("a","bc") share a hash |
| EmailRules.LegacyKeysDifference | forms/consts.py:7 | the newer exclusion list adds `_bcc` to the older one and removes nothing |
| EmailRules.MonthlyCounterKey | formspree/forms/helpers.py:12 | the key starts with "monthly_" |
| EmailRules.MonthlyCounterKeyInjective | formspree/forms/helpers.py:12 | distinct (form, month) pairs get distinct counter keys |
| Urls.UrlParse | formspree/forms/helpers.py:28-33 | a parsed netloc and path contain no '?' or '#' |
| Urls.ReferrerToPath | formspree/forms/helpers.py:28-33 | a missing or empty referrer gives ""; a returned path holds no query or fragment |
| Urls.HttpReferrerToPath | formspree/forms/helpers.py:28-33 | for `http://host/path?query#fragment` with no ';' in the path, the result is host + path, with the query and the fragment dropped |
| Urls.PlainReferrerToPath | formspree/forms/helpers.py:28-33 | a scheme-less referrer without delimiters is returned unchanged |
| FieldSet.ValuesOf | formspree/forms/helpers.py:45-52 | the values of one key, in order, no more than there are fields |
| FieldSet.CollectValues | formspree/forms/helpers.py:45-52 | the loop gathers every key's values in submission order, and the non-excluded keys in order of first appearance |
| FieldSet.JoinValues | formspree/forms/helpers.py:54-55 | each key's values joined with ", ", with the same keys |
| FieldSet.HttpFormToDict | formspree/forms/helpers.py:36-57 | the flattened dictionary and the ordered key list of the whole body |
| FieldSet.OrderedKeysMembers | formspree/forms/helpers.py:46-50 | a key is listed exactly when it was submitted and is not excluded |
| FieldSet.OrderedKeysDistinct | formspree/forms/helpers.py:46-50 | no key is listed twice |
| FieldSet.OrderedKeysFirstOccurrence | formspree/forms/helpers.py:45-50 | keys are listed in the order of their first occurrence in the body |
| FieldSet.ExcludedKeysOnlyInDict | formspree/forms/helpers.py:46-55 | excluded keys stay in the dictionary but are never listed for the email |
| FieldSet.SingleValueUnchanged | formspree/forms/helpers.py:52-55 | a key submitted once keeps its value verbatim |
| Mail.ParseSender | formspree/forms/utils.py:158-165 | a sender without '<' is used as the address with no name |
| Mail.NamedSender | formspree/forms/utils.py:158-163 | `Name <addr>` splits into the address and the stripped name |
| Mail.Checked | formspree/forms/utils.py:167-171 | reply-to and cc are kept exactly when they are valid non-empty addresses, and are dropped otherwise |
| Mail.BuildPayload | formspree/forms/utils.py:142-171 | no mail exactly when to, subject, text or sender is missing; otherwise the payload carries them with checked reply-to and cc |
| Mail.SendSucceeded | formspree/forms/utils.py:182-189 | a send succeeds exactly on a 2xx transport status |
| Forms.NewForm | formspree/forms/models.py:30-36 | a new form has the given hash, email and host, a zero counter, and is unconfirmed, unsent and unowned |
| Forms.Code | formspree/forms/models.py:22-28 | the numeric code exists for the status kinds the model defines |
| Forms.CodesDistinct | formspree/forms/models.py:22-28 | equal codes mean the same status |
| Forms.GetOpt | formspree/forms/models.py:47 | `dict.get` without a default is None exactly for a missing key |
| Forms.ReplyTo | formspree/forms/models.py:47 | reply-to falls back from `_replyto` to `email` to `Email`, and is None when none is present |
| Forms.SendOutcome | formspree/forms/models.py:38-76 | the submission outcome: raised when the referrer cannot be parsed; empty exactly for an all-falsy form; spam is "sent" without mail; otherwise mail with the default subject and the checked reply-to; failed exactly on a non-2xx send |
| Forms.Counted | formspree/forms/models.py:72 | only the counter changes, and it goes up by one |
| Forms.DeliveredIffSent | formspree/forms/models.py:56-76 | the counter is bumped exactly when the form is non-empty, not spam, has a parsable referrer and the send succeeds |
| Forms.LoneGotcha | formspree/forms/models.py:50-56 | a body whose only non-empty field is `_gotcha` is answered as sent and mails nothing |
| Forms.ConfirmationPayload | formspree/forms/models.py:91-105 | the confirmation mail goes to the form's address with the service subject, the parsed sender, and no reply-to or cc |
| Forms.ConfirmationOutcome | formspree/forms/models.py:79-119 | a duplicate exactly when a confirmation was already sent; no mail exactly for a duplicate; otherwise a sent mail means confirmation-sent |
| Forms.ConfirmationTable | formspree/forms/models.py:106-119 | the table is unchanged unless the confirmation went out; then the existing form is marked as sent, or a new sent form is added at the next id, and every other form is kept |
| Forms.ConfirmedForms | formspree/forms/models.py:122-128 | confirming changes only the form the nonce names (if any) and keeps every form id |
| Forms.ConfirmIdempotent | formspree/forms/models.py:122-128 | following a confirmation link twice is following it once |
| Forms.Store.constructor | formspree/forms/models.py:11-20 | an empty table |
| Forms.Store.Lookup | formspree/forms/models.py:85 | the form with the given hash, or none such exists |
| Forms.Store.WithHashid | formspree/forms/endpoint.py:50 | a decoded hashid naming a stored form, or none |
| Forms.Store.Get | formspree/forms/endpoint.py:50-53 | a form is returned exactly for a stored id |
| Forms.Store.Insert | formspree/forms/models.py:114-119 | a fresh id gets the form and its hash is indexed; nothing else changes |
| Forms.Store.Update | formspree/forms/models.py:72-74 | the one form is replaced |
| Forms.Store.Send | formspree/forms/models.py:38-76 | returns SendOutcome for the stored form and body; the counter is bumped exactly when delivered |
| Forms.Store.SendConfirmation | formspree/forms/models.py:79-119 | returns ConfirmationOutcome; the table becomes ConfirmationTable of the old one: only a sent confirmation creates the form (or marks the existing one) as confirmation-sent; the hash index and the next id change only when a new form is stored; submissions never change |
| Forms.Store.Confirm | formspree/forms/models.py:122-128 | marks the form named by the nonce confirmed and reports whether there was one |
| Endpoint.GetHostAndReferrer | formspree/forms/endpoint.py:23-41 | host and referrer come from the stored nonce when present; a corrupt entry is a 500; otherwise they come from the Referer header |
| Endpoint.NoReferrerNoHost | formspree/forms/endpoint.py:23-41 | without a nonce or a Referer header, the host is empty |
| Endpoint.TrailingSlashesIgnored | formspree/forms/endpoint.py:71-73 | trailing slashes on the submitting host never change acceptance |
| Endpoint.SitewideAcceptsBelow | formspree/forms/endpoint.py:74-77 | a sitewide form accepts every path below its host |
| Endpoint.UserFormCheck | formspree/forms/endpoint.py:44-79 | an unknown hashid is 400 and a disabled form 403; accepted exactly for an enabled form that is unbound or matches the host; an unbound form is bound to the submitting host |
| Endpoint.BoundHostKept | formspree/forms/endpoint.py:61-66 | an accepted form that already has a host keeps it |
| Endpoint.ValidateUserForm | formspree/forms/endpoint.py:44-79 | answers UserFormCheck on the stored form; the stored form changes only by being bound to the host |
| Endpoint.ResolveForm | formspree/forms/endpoint.py:44-117 | the result is the resolution of the target against the old table (validation for a hashid, get-or-create for an address), and the new table is the old one with that resolution's binding |
| Endpoint.ResolutionBindsOnly | formspree/forms/endpoint.py:44-117 | resolving writes at most the host of one host-less form, and that form is then the resolved one; an e-mail target writes nothing |
| Endpoint.GetOrCreate | formspree/forms/endpoint.py:82-117 | an existing form is used unless disabled; JSON may not create a form; a host inside the service's own domain is refused; otherwise a new form |
| Endpoint.NoCaptchaFor | formspree/forms/endpoint.py:125-132 | JSON requests, already-verified requests, testing, and dashboard forms with the CAPTCHA disabled are never asked for a CAPTCHA |
| Endpoint.CheckCaptcha | formspree/forms/endpoint.py:120-157 | the CAPTCHA page is shown exactly when it is needed, and it carries the data with a fresh host nonce |
| Endpoint.CaptchaCopyDiffersOnlyInNonce | formspree/forms/endpoint.py:135-138 | the stored copy differs from the submission only in the nonce field |
| Endpoint.ResponseForStatus | formspree/forms/endpoint.py:189-210 | sent goes to a redirect or JSON success; empty gives the empty-form error; confirmation statuses give the confirmation page; failures give a JSON 500 or, for HTML, a crash; a raised send crashes |
| Endpoint.ResendIffDuplicated | formspree/forms/endpoint.py:177-186 | the confirmation page offers a resend exactly for a duplicated confirmation |
| Endpoint.FilterKeys | formspree/forms/endpoint.py:234 | a key is kept exactly when it is present and not excluded, and never more keys than given |
| Endpoint.FilterKeysAppend | formspree/forms/endpoint.py:234 | filtering distributes over concatenation, so the kept keys stay in their original order |
| Endpoint.JsonObject | formspree/forms/endpoint.py:228-232 | the dictionary built from a JSON body has exactly the body's keys, and a repeated name keeps its last value |
| Endpoint.ReceivedData | formspree/forms/endpoint.py:228-232 | a non-empty form body is flattened like http_form_to_dict, over the newer exclusion list |
| Endpoint.Dispatch | formspree/forms/endpoint.py:247-271 | the answer and the call are Answers over the resolution in the old table: the resolution's error; the CAPTCHA page when a confirmed form needs one; otherwise send, answered by its status; send_confirmation for an unconfirmed form. The new table is that resolution's binding |
| Endpoint.Send | formspree/forms/endpoint.py:216-271 | a GET is 405, a failed host lookup its error and an empty host 400, all changing nothing; otherwise the answer is Answers over the resolution in the old table, for the flattened data and the filtered keys, and the table changes only by that resolution's binding |
| Endpoint.OnlyConfirmedReachSend | formspree/forms/endpoint.py:247-271 | for any answer: no call exactly for a failed resolution; every call acts on the resolved form; send or the CAPTCHA page exactly for a confirmed form, send_confirmation exactly for an unconfirmed one, and the CAPTCHA page exactly when a confirmed form needs one |
| Api.Guard | formspree/forms/api.py:37-40 | the API refuses with 400 exactly when the Referer's base is not the service's |
| Api.OwnedBy | formspree/forms/api.py:20 | exactly the user's forms |
| Api.WrongUserIffNotOwner | formspree/forms/api.py:133-134 | "wrong user" exactly when the form is not owned by the caller |
| Api.OwnedBelow | formspree/forms/api.py:20 | the user's forms below a bound, newest first, without repeats |
| Api.ListedForms | formspree/forms/api.py:17-31 | a user without the dashboard feature sees no forms; otherwise exactly their own, newest first |
| Api.WithScheme | formspree/forms/api.py:60-62 | a URL without an "http" prefix gets "http://" prepended |
| Api.CreatedForm | formspree/forms/api.py:35-72 | the guard, the upgrade (402), the address checks and the sitewide file check (403), in the source's order; success exactly when all pass; a created form has the lowered, stripped address, no hash and no confirmation, and a sitewide form the URL's domain without its www as host; every refusal is 400, 402 or 403 |
| Api.BareUrlBecomesHost | formspree/forms/api.py:58-62 | a bare host and path creates a form whose host is that host and path |
| Api.SitewideHostIsDomain | formspree/forms/api.py:60-72 | a sitewide form created for a page below a domain takes the domain, without www, as its host |
| Api.IsRegistered | formspree/forms/api.py:80-86 | the loop finds the address exactly when the user has registered it |
| Api.Confirmed | formspree/forms/api.py:83 | confirming keeps hash, address and host |
| Api.Create | formspree/forms/api.py:35-97 | a refused request stores nothing; an accepted one stores CreatedForm under the next id, which then advances, confirmed exactly when the address is registered, and asks for a confirmation exactly for an unregistered address with a host |
| Api.StoreCreated | formspree/forms/api.py:74-97 | the form is inserted under the next id, which then advances, and is auto-confirmed exactly for a registered address; the hash index and submissions are kept |
| Api.ConfirmIfRegistered | formspree/forms/api.py:77-90 | the form is confirmed exactly when its address is among the user's |
| Api.Patched | formspree/forms/api.py:138-140 | only the four whitelisted switches change, each to the patch value when present |
| Api.IgnoredPatch | formspree/forms/api.py:138-140 | a patch without whitelisted keys changes nothing |
| Api.PatchedAll | formspree/forms/api.py:138-140 | the attribute-by-attribute loop gives the patched form |
| Api.ApplyPatch | formspree/forms/api.py:138-140 | the loop method computes Patched |
| Api.Target | formspree/forms/api.py:129-134 | 400 for an unknown hashid, 401 for another user's form, else the caller's form |
| Api.Update | formspree/forms/api.py:122-144 | refused requests change nothing; an accepted one patches only the target form |
| Api.Others | formspree/forms/api.py:162-163 | exactly the submissions of other forms, unchanged |
| Api.Removed | formspree/forms/api.py:164 | the form and its hash index entry are gone; nothing else is |
| Api.DeleteSubmissionsOf | formspree/forms/api.py:162-163 | the loop deletes exactly the form's submissions |
| Api.Delete | formspree/forms/api.py:148-167 | refused requests change nothing; an accepted one removes the form and all its submissions |
| Api.DeleteCascades | formspree/forms/api.py:162-165 | no submission of the deleted form survives |
| Api.SubmissionDelete | formspree/forms/api.py:171-193 | a missing submission is 401 and changes nothing; otherwise it is removed and the form's counter decremented |
| Api.SitewideCheck | formspree/forms/api.py:243-250 | a 200 JSON object whose one key "ok" is the file check's answer |
| Api.SitewideCheckPredictsCreate | formspree/forms/api.py:64-72 | the check decides create: false means the sitewide create is refused with 403, true that it succeeds as a sitewide form |
| FormViews.NoReferrerReply | formspree/forms/views.py:31-38 | a missing host is a 400 |
| FormViews.BindCheck | formspree/forms/views.py:44-72 | an unknown target is a bad hashid; accepted exactly when the form is unbound or bound to exactly this host, which is then its host; otherwise the mismatch error |
| FormViews.TrailingSlashRejected | formspree/forms/views.py:54-63 | unlike the endpoint, a trailing slash on the host is a 403 mismatch |
| FormViews.StatusReply | formspree/forms/views.py:89-116 | the answer for each status the form model returns |
| FormViews.FailuresAre500 | formspree/forms/views.py:108-116 | failed submissions and confirmations answer 500 |
| FormViews.ResolveTarget | formspree/forms/views.py:40-79 | the result is the resolution against the old table (a random-like string through the host check, an address through its hash or a new unstored form), and the new table is the old one with that binding |
| FormViews.Resolution | formspree/forms/views.py:40-79 | the target as the handler sees it: a random-like string through the host check, an address through its hash or as a new unstored form; a confirmed resolved form always names a stored id |
| FormViews.BoundTable | formspree/forms/views.py:40-79 | binding a host to a dashboard form keeps every form id |
| FormViews.ResolvedIsStored | formspree/forms/views.py:40-79 | a resolved form with an id is that entry of the new table, with the same keys and confirmation as before; a confirmed resolved form always has an id |
| FormViews.Send | formspree/forms/views.py:16-116 | GET, an unparsable referrer and a missing host are refused in that order, and the store is unchanged; a failed resolution is its error; otherwise Handled: a confirmed form receives SendOutcome and is counted exactly when delivered, and any other target gets ConfirmationOutcome, with the table ConfirmationTable gives and the hash index and next id IndexAfterConfirmation gives; submissions never change; the answer is the status reply |
| FormViews.Dispatch | formspree/forms/views.py:83-86 | Handled over the old state: a confirmed form gets SendOutcome and is counted exactly when delivered, with the index and next id kept; an unconfirmed one gets ConfirmationOutcome, the table ConfirmationTable gives and the index IndexAfterConfirmation gives; submissions never change |
| FormViews.ConfirmEmail | formspree/forms/views.py:118-134 | an unknown nonce is a 400 page; otherwise the form is confirmed and the confirmed page names its address and host |
| Monolith.SuccessReply | forms/app.py:374-377 | JSON success or a 302 to `_next`, defaulting to the thanks page |
| Monolith.SubmissionPayload | forms/app.py:332-359 | the mail for a submission: the default subject names the host; reply-to and cc are checked |
| Monolith.FormReply | forms/app.py:326-377 | `_send_form` as intended: empty forms are refused; spam gets success without mail; otherwise mail is sent, and a failed send is 500 |
| Monolith.FormReplyAsWritten | forms/app.py:341-359 | `_send_form` as written: every non-empty, non-spam submission fails on the shadowed `datetime` before mailing |
| Monolith.ShadowedClockLosesSubmission | forms/app.py:350 | a one-field submission with a successful transport crashes as written but is mailed as intended |
| Monolith.MailIffNotEmptyNorSpam | forms/app.py:341-367 | a mail is composed exactly for a non-empty, non-spam body, and the reply is 500 exactly when that send fails |
| Monolith.BccListed | forms/consts.py:7 | under the older exclusion list, a submitted `_bcc` is listed in the mail body |
| Monolith.SendForm | forms/app.py:326-377 | the reply and mail are FormReply's; the counter is bumped exactly when mail is sent successfully |
| Monolith.ConfirmationReply | forms/app.py:386-430 | a failed confirmation is the generic 500; sent and duplicate give the same confirmation page or JSON |
| Monolith.DuplicateAnsweredAsSent | forms/app.py:386-392 | a duplicate confirmation is answered exactly like a fresh one |
| Monolith.SendConfirmation | forms/app.py:380-430 | the reply follows ConfirmationOutcome; the table becomes ConfirmationTable of the old one, the hash index and next id change only for a newly stored form, and submissions never change |
| Monolith.Send | forms/app.py:96-135 | GET, an invalid address, an unparsable and a missing host are refused in that order, and the store is unchanged; a confirmed form gets FormReply and is counted exactly when mailed, with the index and next id kept; everything else gets ConfirmationOutcome's reply and mail, with the table ConfirmationTable gives and the index IndexAfterConfirmation gives; submissions never change |
| ClassicViews.ConfirmationSentReply | forms/views.py:99-103 | JSON success or the confirmation page, status 200 |
| ClassicViews.StatusReply | forms/views.py:89-111 | sent redirects; empty crashes for JSON (undefined `k`); others answer JSON 500 or crash for HTML (undefined `result`) |
| ClassicViews.SentRedirectsEvenForJson | forms/views.py:90-91 | a JSON caller also gets the 302 redirect |
| ClassicViews.FailureAnswers | forms/views.py:106-111 | failures are 500 for JSON callers and a crash for HTML callers |
| ClassicViews.Send | forms/views.py:39-111 | GET, invalid address, unparsable and missing host are refused in order, and the store is unchanged; a confirmed form gets SendOutcome and is counted exactly when delivered, with the index and next id kept; a stored unconfirmed form changes nothing; an unknown address gets ConfirmationOutcome, sent exactly on a 2xx transport, with the table ConfirmationTable gives and the index IndexAfterConfirmation gives; submissions never change |
| Ssl.ForwardedProto | formspree/helpers.py:8 | a missing X-Forwarded-Proto header counts as "http" |
| Ssl.GetRedirect | formspree/helpers.py:7-11 | a redirect exactly for an insecure GET of an http:// URL not forwarded as https, and it is a 301 to the https:// URL |
| Ssl.NonGetNotRedirected | formspree/helpers.py:8 | POSTs are never redirected |
| Ssl.MissingProtoIsHttp | formspree/helpers.py:8-10 | without the proxy header, a plain GET is redirected |
| Ssl.NoRedirectLoop | formspree/helpers.py:8-10 | the https target is never redirected again |
| Ssl.WithHsts | formspree/helpers.py:13-16 | secure responses gain the one-year HSTS header unless one is set; other headers are kept |
| Ssl.WithHstsIdempotent | formspree/helpers.py:15 | applying it twice is applying it once |
| Ssl.OutgoingResponse.constructor | formspree/helpers.py:13 | the response with the given status, body and headers |
| Ssl.OutgoingResponse.SetHeaders | formspree/helpers.py:13-16 | only the headers change, to WithHsts of the old ones |
| Slugs.UuidString | formspree/utils.py:81-82 | the canonical 36-character dashed form |
| Slugs.SlugShape | formspree/utils.py:77-78 | a slug is 22 URL-safe characters: no '/', no '=' |
| Slugs.SlugRoundTrip | formspree/utils.py:77-82 | slug2uuid(uuid2slug(u)) is u's canonical string |
| Base64.SymValue | formspree/utils.py:77-82 | decoding a symbol inverts encoding it |
| Base64.GroupRoundTrip | formspree/utils.py:77-82 | a 3-byte group decodes back to itself |
| Base64.RoundTrip | formspree/utils.py:77-82 | decode(encode(bs)) == bs for every byte string |
| Base64.EncodeShape | formspree/utils.py:77-78 | the length is 4 times ceil(n/3), with symbols followed by exactly the padding |
| BigString.ISqrt | formspree/utils.py:91-94 | the integer square root: r*r <= n < (r+1)*(r+1) |
| BigString.ISqrtOfSquare | formspree/utils.py:93 | the square root of a square returns its absolute value |
| BigString.Spell | formspree/utils.py:88 | each digit becomes the letter at that position |
| BigString.IntToBigString | formspree/utils.py:85-88 | letters a..j spelling the decimal of (n + offset) squared |
| BigString.Unspell | formspree/utils.py:92 | fails exactly when a character is not a lowercase letter |
| BigString.UnspellSpell | formspree/utils.py:88-92 | un-spelling a spelled string gives its digits back |
| BigString.RoundTrip | formspree/utils.py:85-94 | bigstring2int(int2bigstring(n)) == n exactly when n is not below minus the offset |
| BigString.TruncatedRoot | formspree/utils.py:93-94 | `int(n**0.5 - 1000)`: at or above the offset the root rounds down, below it the root rounds up, as truncation toward zero does |
| BigString.BigStringToInt | formspree/utils.py:91-94 | None exactly for a non-letter or an empty string (where `int` raises), otherwise the truncated root of the spelled number |
| BigString.TruncatesTowardZero | formspree/utils.py:94 | "f" decodes to -997, not -998 |
| BigString.TruncatedRootOfSquare | formspree/utils.py:93-94 | the root of a square is exact: it gives the absolute value less the offset |
| Calendar.TwelveMonthsFromNow | formspree/utils.py:106-112 | the first of the same month next year, as seconds since the epoch, when the year is representable |
| Calendar.TwelveMonthsSpan | formspree/utils.py:106-112 | that instant lies exactly 365 or 366 days after the first of this month |
| Calendar.TwelveMonthsLater | formspree/utils.py:106-112 | that instant is later than today |

## Left out

- Mail transport, template rendering and flask's `url_for` are not modelled. The transport is a status-code parameter. Templates are a (name, values) record. URLs are parameters.
- The clock, `datetime.now()` and `_send_form`'s `now` stamp are left out. The calendar function takes the date as a parameter.
- MD5 and the secret key behind the form hash are a digest parameter. Hashids encoding and decoding are parameters too.
- `remove_www`, `referrer_to_baseurl`, `url_domain`, `sitewide_file_check`, the CAPTCHA verification and the temporary host store are parameters. Their own code is not part of this model.
- `KEYS_EXCLUDED_FROM_EMAIL` is a parameter. The settings module is not part of this model.
- Urls.UrlParse: only the parts of `urlparse` that `referrer_to_path` reads (scheme, netloc, params, query, fragment) are modelled. Its one `ValueError`, unbalanced IPv6 brackets, becomes None.
- Web.RequestWantsJson: the Accept header is reduced to the qualities of the two mime types, not parsed.
- BigString.TruncatedRoot: Python takes a floating-point `n**0.5`. This is modelled as the exact real root, which is what that expression gives while the float is exact; the truncation of `int` toward zero is modelled.
- Base64.RoundTrip: the encoder is standard base64. The decoder is a strict one, not Python's ignoring decoder, and only the round trip is claimed.
- Endpoint.Send: `formspree/forms/endpoint.py` calls `form.send(data, keys, referrer)` and `form.send_confirmation(store_data=...)`. Neither signature shown in `formspree/forms/models.py` accepts those arguments. So the statuses those calls return are inputs, and the call made is recorded in `Endpoint.Call`.
- FormViews.Send: `formspree/forms/views.py` calls `get_form_by_random_like_string` and a no-argument `send_confirmation`. Both belong to a form model that is not part of this model. The lookup is a parameter, and the confirmation is sent for the handler's own (email, host).
- ClassicViews.Send: `forms/views.py` imports `models` and `helpers`, which are not part of this model. It is modelled over the form model of `formspree/forms/models.py`. That form model does not count towards a monthly limit, so no over-limit status arises.
- Monolith: `forms/app.py` reads `HASH`, `IS_VALID_EMAIL` and `EXCLUDE_KEYS` without importing them. They are taken to be those of `forms/consts.py`.
- FieldSet.HttpFormToDict: `_form_to_dict` at `forms/app.py:302-323` is the same flattening, called with the older exclusion list. It is modelled by this one method and not written twice.
- FormViews.ConfirmEmail: `confirm_email` at `forms/app.py:138-157` and at `forms/views.py:114-133` behaves like the one at `formspree/forms/views.py:118-134`, apart from template names. It is modelled once.
- Monolith: the repeated copy of the handlers at `forms/app.py:439-515` is the same code and is not modelled twice.
- Monolith.FormReply: the HTML error page for a failed send shows the transport's message. The model's page leaves that text out.
- Monolith.ConfirmationReply: the HTML error page for a failed confirmation send (`forms/app.py:412-418`) shows the transport's message as well. The model's page leaves that text out.
- Api: `get` (`formspree/forms/api.py:101-118`) is not modelled, because it only serialises stored submissions.
- Api.ListedForms: the listing's per-form serialisation is left out, and only the ids and their order are modelled.
- Api.SubmissionDelete: it does not check which form the submission belongs to, and neither does the source.
- Api.Create: `formspree/forms/api.py:90` calls `form.send_confirmation()` with no arguments. The `send_confirmation(email, host)` of `formspree/forms/models.py:78-119` does not accept that call, so it belongs to a form model that is not part of this model. The call is recorded only as the `confirmationRequested` result. Its mail and its setting of `confirm_sent` are not modelled.
- Api.CreatedForm: a form created from the dashboard gets no public hash, because the `Form(email, owner=...)` constructor it relies on is not shown. A request without an email is a crash, as `.lower()` on None is in the source.
- Api.Patched: JSON patch values are booleans. Non-boolean JSON values are not modelled.
- `str.lower()` is modelled for ASCII letters only.
- Concurrency, database transactions and sessions are left out. So are logging and flask decorators such as `crossdomain`.
- Behaviour that appears only in `tests/` is not modelled.
- `assign_ajax` (`formspree/forms/endpoint.py:56`, `:112`) records on the form whether it was submitted by AJAX. Its code is not part of this model, and no contract reads the flag.
- Endpoint.JsonObject: JSON body values are modelled as strings. Numbers, lists and nested objects in a JSON submission are not modelled.
- Ssl.WithHsts: header names are compared case-sensitively. werkzeug's header lookup ignores case.
- Api.SitewideCheck: a request body without `email` or `url` is not modelled, and the two arrive as strings.

Some definitions carry no contract of their own. Lemmas characterise them instead:

- EmailRules.IsValidEmail is characterised by EmailRules.IsValidEmailMatchesPattern and EmailRules.ValidEmailIgnoresSuffix.
- EmailRules.Hash is characterised by EmailRules.HashOfConcatenation.
- Slugs.Uuid2Slug and Slugs.Slug2Uuid are characterised by Slugs.SlugShape and Slugs.SlugRoundTrip.
- Web.RequestWantsJson is characterised by Web.XhrWantsJson and Web.WantsJsonByQuality.
- Endpoint.NeedsCaptcha is characterised by Endpoint.NoCaptchaFor and Endpoint.CheckCaptcha.
- Endpoint.HostAccepted is characterised by Endpoint.TrailingSlashesIgnored, Endpoint.SitewideAcceptsBelow and Endpoint.UserFormCheck.
- Endpoint.Resolution, Endpoint.ResolvedTable, Endpoint.Answers, FormViews.Handled and Forms.IndexAfterConfirmation are the specifications the handlers are proved against.

## Findings

| source | as written | input that shows it | evidently intended | confidence | as-written member | corrected member |
|---|---|---|---|---|---|---|
| forms/app.py:350 | `datetime.datetime.utcnow()` after `from datetime import datetime` (line 6) raises AttributeError, so every non-empty, non-spam submission to a confirmed form fails before mail is sent and before the counter is bumped | a confirmed form receiving the body `message=hello` with a 2xx transport | the submission is mailed and answered with success | not executed | Monolith.FormReplyAsWritten (Monolith.ShadowedClockLosesSubmission) | Monolith.FormReply |
