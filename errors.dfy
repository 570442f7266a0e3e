/**
 * The error replies of form submission: one kind per helper, each answered
 * as JSON or as an HTML page depending on what the caller wants.
 */
module Errors {
  import opened Web

  datatype ErrorKind =
    | BadMethod
    | NoReferrer
    | BadHashid(target: string)
    | Disabled
    | MismatchedHost(submitted: string, confirmed: string)
    | EmptyForm(referrer: string)
    | OverLimit
    | MalformedReplyTo(address: string, back: string)
    | GenericSend

  /** The reply of the helper for `kind`. */
  function ErrorResponse(kind: ErrorKind, wantsJson: bool): (r: Response)
    ensures r.Reply?
    ensures wantsJson ==> r.content.Json? && "error" in r.content.body
    ensures !wantsJson ==> r.content.Page?
  {
    match kind
    case BadMethod =>
      if wantsJson then JsonError(405, ErrorBody("Please submit POST request."))
      else Reply(405, Page("info.html", "Form should POST", []))
    case NoReferrer =>
      if wantsJson then JsonError(400, ErrorBody("Invalid \"Referer\" header"))
      else Reply(400, Page("error.html", "Unable to submit form", []))
    case BadHashid(target) =>
      if wantsJson then JsonError(400, ErrorBody("Invalid email address"))
      else Reply(400, Page("error.html", "Check email address", [target]))
    case Disabled =>
      if wantsJson then JsonError(403, ErrorBody("Form not active"))
      else Reply(403, Page("error.html", "Form not active", []))
    case MismatchedHost(submitted, confirmed) =>
      if wantsJson then
        JsonError(403, map["error" := JStr("Submission from different host than confirmed"),
                           "submitted" := JStr(submitted),
                           "confirmed" := JStr(confirmed)])
      else Reply(403, Page("error.html", "Check form address", [submitted, confirmed]))
    case EmptyForm(referrer) =>
      if wantsJson then JsonError(400, ErrorBody("Can't send an empty form"))
      else Reply(400, Page("error.html", "Can't send an empty form", [referrer]))
    case OverLimit =>
      if wantsJson then Jsonify(ErrorBody("form over quota"))
      else Reply(402, Page("error.html", "Form over quota", []))
    case MalformedReplyTo(address, back) =>
      if wantsJson then JsonError(500, ErrorBody("_replyto or email field has not been sent correctly"))
      else Reply(400, Page("error.html", "Invalid email address", [address, back]))
    case GenericSend =>
      if wantsJson then JsonError(500, ErrorBody("Unable to send email"))
      else Reply(500, Page("error.html", "Unable to send email", []))
  }

  /** The status of every error helper, in both branches. */
  lemma StatusTable(wantsJson: bool)
    ensures ErrorResponse(BadMethod, wantsJson).status == 405
    ensures ErrorResponse(NoReferrer, wantsJson).status == 400
    ensures forall t :: ErrorResponse(BadHashid(t), wantsJson).status == 400
    ensures ErrorResponse(Disabled, wantsJson).status == 403
    ensures forall s, c :: ErrorResponse(MismatchedHost(s, c), wantsJson).status == 403
    ensures forall ref :: ErrorResponse(EmptyForm(ref), wantsJson).status == 400
    ensures ErrorResponse(GenericSend, wantsJson).status == 500
    ensures ErrorResponse(OverLimit, wantsJson).status == if wantsJson then DefaultStatus else 402
    ensures forall a, b :: ErrorResponse(MalformedReplyTo(a, b), wantsJson).status == if wantsJson then 500 else 400
  {
  }

  /** Only the over-limit and malformed-reply-to helpers answer JSON and HTML callers differently. */
  lemma StatusIndependentOfFormat(kind: ErrorKind)
    ensures ErrorResponse(kind, true).status == ErrorResponse(kind, false).status
      <==> !kind.OverLimit? && !kind.MalformedReplyTo?
  {
  }

  /** Every error is a client or server error, except a JSON over-limit reply, which carries the default status. */
  lemma ErrorStatusIsError(kind: ErrorKind, wantsJson: bool)
    ensures 400 <= ErrorResponse(kind, wantsJson).status < 600 <==> !(kind.OverLimit? && wantsJson)
  {
  }

  /** The JSON mismatched-host reply names both the submitted and the confirmed host. */
  lemma MismatchedBody(submitted: string, confirmed: string)
    ensures ErrorResponse(MismatchedHost(submitted, confirmed), true).content.body["submitted"] == JStr(submitted)
    ensures ErrorResponse(MismatchedHost(submitted, confirmed), true).content.body["confirmed"] == JStr(confirmed)
  {
  }
}
