/**
 * The message part of `generate_email`: pick the subject and bodies for the
 * kind of mail, then put the token in place of the `$random_hash`
 * placeholder in both bodies. The mail transport and its settings are not
 * modelled; the templates are configuration and arrive as parameters.
 */
module Mail {
  import opened Text

  datatype Option<T> = None | Some(value: T)

  /** The text the mail configuration provides for one kind of mail. */
  datatype Template = Template(subject: string, body: string, altBody: string)

  /** What is handed to the mail transport. */
  datatype Message = Message(to: string, subject: string, body: string, altBody: string)

  /** The literal placeholder the templates carry where the token belongs. */
  const Placeholder: string := "$random_hash"

  /**
   * Builds the registration or reset mail for `to` carrying `token`; any other
   * kind yields no message.
   */
  function GenerateEmail(to: string, kind: string, token: string,
                         registration: Template, reset: Template): (m: Option<Message>)
    ensures m.Some? <==> kind == "registration" || kind == "reset"
    ensures m.Some? ==> m.value.to == to
    ensures kind == "registration" ==> m.value.subject == registration.subject
    ensures kind == "reset" ==> m.value.subject == reset.subject
  {
    var chosen :=
      if kind == "registration" then Some(registration)
      else if kind == "reset" then Some(reset)
      else None;
    match chosen
    case None => None
    case Some(t) =>
      Some(Message(to, t.subject,
                   Replace(t.body, Placeholder, token),
                   Replace(t.altBody, Placeholder, token)))
  }

  /**
   * A template whose bodies are literal text with placeholders between them
   * (the literal text holding no '$') becomes the same text with the token in
   * every place a placeholder stood.
   */
  lemma GenerateEmailFillsToken(to: string, kind: string, token: string,
                                registration: Template, reset: Template,
                                bodyParts: seq<string>, altParts: seq<string>)
    requires kind == "registration" || kind == "reset"
    requires var t := if kind == "registration" then registration else reset;
             t.body == Join(bodyParts, Placeholder) && t.altBody == Join(altParts, Placeholder)
    requires forall k :: 0 <= k < |bodyParts| ==> '$' !in bodyParts[k]
    requires forall k :: 0 <= k < |altParts| ==> '$' !in altParts[k]
    ensures GenerateEmail(to, kind, token, registration, reset)
            == Some(Message(to, if kind == "registration" then registration.subject else reset.subject,
                            Join(bodyParts, token), Join(altParts, token)))
  {
    ReplaceFillsTemplate(bodyParts, Placeholder, token);
    ReplaceFillsTemplate(altParts, Placeholder, token);
  }
}
