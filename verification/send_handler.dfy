/**
  The `POST /api/mail/send` handler: honeypot, captcha, then `sendMail`,
  with every failure turned into an HTTP error.
 */
module SendHandler {
  import opened Values
  import opened Wrappers
  import opened MailTypes
  import Captcha
  import Mail
  import Schemas

  /** The handler's JSON reply on success. */
  datatype Reply =
    | Honeypot                    // { success: true, message: 'Sent' }: a bot filled the honeypot
    | Delivered(result: SentInfo) // { success: true, result }

  const ValidationErrorMessage: string := "Validation Error"
  const SendFailedMessage: string := "Failed to send email"

  /**
    The catch block: a zod error becomes a 400 carrying its issues, an error
    that already has a status code is rethrown as it is, and anything else
    becomes a 500 with its own message or a generic one.
   */
  function Classify(e: Error): (r: Error)
    ensures r.HttpError? && r.statusCode != 0
    ensures e.ZodError? ==> r == HttpError(400, ValidationErrorMessage, Arr(e.issues))
    ensures e.HttpError? && e.statusCode != 0 ==> r == e
    ensures !e.ZodError? && !(e.HttpError? && e.statusCode != 0) ==>
      && r.statusCode == 500 && r.message != ""
      && (e.message != "" ==> r.message == e.message)
      && (e.message == "" ==> r.message == SendFailedMessage)
  {
    match e
    case ZodError(issues, _) => HttpError(400, ValidationErrorMessage, Arr(issues))
    case HttpError(statusCode, message, _) => if statusCode != 0 then e else ServerError(message)
    case PlainError(message, _) => ServerError(message)
  }

  /** `createError({ statusCode: 500, message: message || 'Failed to send email' })`. */
  function ServerError(message: string): Error {
    HttpError(500, if message != "" then message else SendFailedMessage, Undef)
  }

  /** An error leaving the handler is final: classifying it again changes nothing. */
  lemma ClassifyIdempotent(e: Error)
    ensures Classify(Classify(e)) == Classify(e)
  {
  }

  /** `delete body?.captchaToken; delete body?._gotcha`. */
  function StripControlFields(body: Value): (r: Value)
    ensures body.Obj? ==> r.Obj? && r.fields.Keys == body.fields.Keys - {"captchaToken", "_gotcha"}
    ensures body.Obj? ==> forall k | k in r.fields :: r.fields[k] == body.fields[k]
    ensures !body.Obj? ==> r == body
  {
    if body.Obj? then Obj(body.fields - {"captchaToken", "_gotcha"}) else body
  }

  /**
    The handler for a parsed request `body`, with the captcha check `verify`
    (applied to the body's token) and the mail sender `send` as parameters.
   */
  function HandleWith(body: Value, verify: Value -> Result<(), Error>, send: Value -> Result<SentInfo, Error>)
    : (r: Result<Reply, Error>)
    ensures Truthy(Prop(body, "_gotcha")) ==> r == Success(Honeypot)
    ensures r.Failure? ==> r.error.HttpError? && r.error.statusCode != 0
    ensures !Truthy(Prop(body, "_gotcha")) && verify(Prop(body, "captchaToken")).Failure? ==>
      r == Failure(Classify(verify(Prop(body, "captchaToken")).error))
    ensures r.Success? && r.value.Delivered? ==>
      verify(Prop(body, "captchaToken")).Success? && send(StripControlFields(body)) == Success(r.value.result)
  {
    if Truthy(Prop(body, "_gotcha")) then Success(Honeypot)
    else
      var verified := verify(Prop(body, "captchaToken"));
      if verified.Failure? then Failure(Classify(verified.error))
      else
        var sent := send(StripControlFields(body));
        if sent.Failure? then Failure(Classify(sent.error))
        else Success(Delivered(sent.value))
  }

  /**
    The handler wired to its real collaborators: `verifyCaptcha` with the
    configured `security` settings and `sendMail` with the module
    configuration. The HTTP client and the SMTP transport stay parameters.
   */
  function Handle(body: Value, config: Value, remoteIp: Value, post: Captcha.Poster, sendSmtp: Mail.SmtpSender)
    : Result<Reply, Error>
  {
    HandleWith(body,
      token => Captcha.VerifyCaptcha(token, Prop(config, "security"), remoteIp, post),
      message => Mail.SendMail(message, config, sendSmtp))
  }

  /** A filled honeypot is answered as sent without any captcha request or transport call. */
  lemma HoneypotTouchesNothing(body: Value, config: Value, remoteIp: Value,
                               p1: Captcha.Poster, p2: Captcha.Poster, s1: Mail.SmtpSender, s2: Mail.SmtpSender)
    requires Truthy(Prop(body, "_gotcha"))
    ensures Handle(body, config, remoteIp, p1, s1) == Handle(body, config, remoteIp, p2, s2) == Success(Honeypot)
  {
  }

  /** A failed captcha check stops the request before any transport is reached. */
  lemma CaptchaFailureSendsNothing(body: Value, config: Value, remoteIp: Value, post: Captcha.Poster,
                                   s1: Mail.SmtpSender, s2: Mail.SmtpSender)
    requires !Truthy(Prop(body, "_gotcha"))
    requires Captcha.VerifyCaptcha(Prop(body, "captchaToken"), Prop(config, "security"), remoteIp, post).Failure?
    ensures Handle(body, config, remoteIp, post, s1) == Handle(body, config, remoteIp, post, s2)
    ensures Handle(body, config, remoteIp, post, s1).Failure?
  {
  }

  /**
    The message handed to `sendMail` is the request body without its
    captcha token and honeypot field; a transport failure comes back as a
    status-bearing error.
   */
  lemma SendsStrippedBody(body: Value, config: Value, remoteIp: Value, post: Captcha.Poster, sendSmtp: Mail.SmtpSender)
    requires !Truthy(Prop(body, "_gotcha"))
    requires Captcha.VerifyCaptcha(Prop(body, "captchaToken"), Prop(config, "security"), remoteIp, post).Success?
    ensures var sent := Mail.SendMail(StripControlFields(body), config, sendSmtp);
      && (sent.Success? ==> Handle(body, config, remoteIp, post, sendSmtp) == Success(Delivered(sent.value)))
      && (sent.Failure? ==> Handle(body, config, remoteIp, post, sendSmtp) == Failure(Classify(sent.error)))
  {
  }

  /**
    A captcha provider answering with JSON `null` makes the `success` read
    throw; that `TypeError` is not an HTTP error, so the client gets a 500
    carrying its message, and nothing is sent.
   */
  lemma NullCaptchaReplyIsServerError(body: Value, config: Value, remoteIp: Value, post: Captcha.Poster,
                                      sendSmtp: Mail.SmtpSender)
    requires !Truthy(Prop(body, "_gotcha"))
    requires var security := Prop(config, "security");
      && Captcha.Enabled(security)
      && |Schemas.CaptchaIssues(Captcha.CaptchaParams(security, Prop(body, "captchaToken")))| == 0
      && post(Captcha.RequestFor(Captcha.CaptchaParams(security, Prop(body, "captchaToken")), remoteIp)) == Success(Null)
    ensures Handle(body, config, remoteIp, post, sendSmtp) ==
      Failure(HttpError(500, PropertyReadError(Null, "success").message, Undef))
  {
    var token := Prop(body, "captchaToken");
    var security := Prop(config, "security");
    Captcha.VerificationRequest(token, security, remoteIp, post);
  }

  /** A message rejected by `sendMail` for want of a sender reaches the client as a 500 carrying that message. */
  lemma MissingSenderIsServerError(body: Value, config: Value, remoteIp: Value, post: Captcha.Poster,
                                   sendSmtp: Mail.SmtpSender)
    requires !Truthy(Prop(body, "_gotcha"))
    requires Captcha.VerifyCaptcha(Prop(body, "captchaToken"), Prop(config, "security"), remoteIp, post).Success?
    requires !Truthy(Get(Mail.FinalOptions(StripControlFields(body), config), "from"))
    ensures Handle(body, config, remoteIp, post, sendSmtp) == Failure(HttpError(500, Mail.MissingFromMessage, Undef))
  {
  }
}
