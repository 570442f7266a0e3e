/**
 * The mail-service request of send_email: the required arguments, the
 * sender split into address and display name, the optional reply-to and
 * cc, and the reading of the service's status code.
 */
module Mail {
  import opened Wrappers
  import opened Text
  import opened EmailRules

  /** A rendered email body, represented by its template and the values given to it. */
  datatype Rendered =
    | FormEmail(template: string, data: map<string, string>, keys: seq<string>, host: string)
    | ConfirmEmail(template: string, email: string, host: string, link: string)

  datatype Payload = Payload(
    to: string, subject: string, text: Rendered, html: Option<Rendered>,
    from: string, fromName: Option<string>,
    replyTo: Option<string>, cc: Option<string>)

  /**
   * The sender as address and display name: "Name <addr>" is split at the
   * first '<', dropping the last character; any other sender is the address itself.
   */
  function ParseSender(sender: string): (r: (string, Option<string>))
    ensures '<' !in sender <==> r.1.None?
    ensures '<' !in sender ==> r.0 == sender
  {
    match IndexOfChar(sender, '<')
    case None => (sender, None)
    case Some(b) =>
      var from := if b + 1 <= |sender| - 1 then sender[b + 1..|sender| - 1] else "";
      (from, Some(Strip(sender[..b])))
  }

  /** "Name <addr>" gives the address between the brackets and the stripped name. */
  lemma NamedSender(name: string, address: string)
    requires '<' !in name
    ensures ParseSender(name + "<" + address + ">") == (address, Some(Strip(name)))
  {
    var s := name + "<" + address + ">";
    IndexOfCharAt(s, '<', |name|);
    assert s[..|name|] == name;
    assert s[|name| + 1..|s| - 1] == address;
  }

  /** An optional address enters the payload only when present, non-empty and valid. */
  function Checked(address: Option<string>): (r: Option<string>)
    ensures r.Some? <==> address.Some? && address.value != "" && IsValidEmail(address.value)
    ensures r.Some? ==> r == address
  {
    if address.Some? && address.value != "" && IsValidEmail(address.value) then address else None
  }

  /** The payload of send_email, or the ValueError it raises before sending anything. */
  function BuildPayload(to: Option<string>, subject: Option<string>, text: Option<Rendered>, html: Option<Rendered>,
                        sender: Option<string>, cc: Option<string>, replyTo: Option<string>): (r: Result<Payload, string>)
    ensures r.Failure? <==> to.None? || subject.None? || text.None? || sender.None?
    ensures r.Success? ==>
      r.value.to == to.value && r.value.subject == subject.value && r.value.text == text.value &&
      r.value.html == html && (r.value.from, r.value.fromName) == ParseSender(sender.value)
    ensures r.Success? ==> r.value.replyTo == Checked(replyTo) && r.value.cc == Checked(cc)
  {
    if to.None? || subject.None? || text.None? || sender.None? then
      Failure("to, subject text and sender are required to send email")
    else
      var (from, fromName) := ParseSender(sender.value);
      Success(Payload(to.value, subject.value, text.value, html, from, fromName, Checked(replyTo), Checked(cc)))
  }

  /** The service accepted the message: status_code / 100 == 2 in integer division. */
  function SendSucceeded(statusCode: int): (ok: bool)
    ensures ok <==> 200 <= statusCode < 300
  {
    statusCode / 100 == 2
  }
}
