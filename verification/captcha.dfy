/**
  `verifyCaptcha`: when captcha protection is enabled, validate the
  provider settings together with the caller's token, then ask the
  provider's verification endpoint whether the token is good. The HTTP
  request is a parameter of the model.
 */
module Captcha {
  import opened Values
  import opened Wrappers
  import opened MailTypes
  import Schemas

  /** `security?.captcha?.enabled` is truthy. */
  predicate Enabled(security: Value) {
    Truthy(Prop(Prop(security, "captcha"), "enabled"))
  }

  /** `{ ...security.captcha, token }`: the parameters handed to the schema. */
  function CaptchaParams(security: Value, token: Value): (r: Record)
    requires Enabled(security)
    ensures forall k | k != "token" :: Get(r, k) == Prop(Prop(security, "captcha"), k)
    ensures Get(r, "token") == token
  {
    Prop(security, "captcha").fields["token" := token]
  }

  /** The siteverify endpoint of each supported provider. */
  function ProviderUrl(provider: Value): (url: string)
    requires Schemas.IsProvider(provider)
    ensures provider == Str("turnstile") <==> url == "https://challenges.cloudflare.com/turnstile/v0/siteverify"
    ensures provider == Str("recaptcha") <==> url == "https://www.google.com/recaptcha/api/siteverify"
    ensures provider == Str("hcaptcha") <==> url == "https://api.hcaptcha.com/siteverify"
  {
    if provider == Str("turnstile") then "https://challenges.cloudflare.com/turnstile/v0/siteverify"
    else if provider == Str("recaptcha") then "https://www.google.com/recaptcha/api/siteverify"
    else "https://api.hcaptcha.com/siteverify"
  }

  /** The POST to a provider: its URL and the form fields `secret`, `response` and `remoteip`. */
  datatype VerifyRequest = VerifyRequest(url: string, secret: Value, response: Value, remoteip: Value)

  /** `$fetch(url, { method: 'POST', body })`: the parsed JSON reply, or the error the request raised. */
  type Poster = VerifyRequest -> Result<Value, Error>

  /** `z.prettifyError(error)`, reduced to the issue messages one per line. */
  function PrettyIssues(messages: seq<string>): string {
    if |messages| == 0 then ""
    else if |messages| == 1 then messages[0]
    else messages[0] + "\n" + PrettyIssues(messages[1..])
  }

  /** The request sent for validated parameters: the provider's URL, the secret key, the token and the client IP. */
  function RequestFor(params: Record, remoteIp: Value): (q: VerifyRequest)
    requires |Schemas.CaptchaIssues(params)| == 0
    ensures q.secret == Get(params, "secretKey") && q.response == Get(params, "token") && q.remoteip == remoteIp
    ensures q.url == ProviderUrl(Get(params, "provider"))
  {
    VerifyRequest(ProviderUrl(Get(params, "provider")), Get(params, "secretKey"), Get(params, "token"), remoteIp)
  }

  const InvalidCaptchaMessage: string := "Invalid captcha"

  /**
    `verifyCaptcha(event, token, security)`, with the client address
    `remoteIp` and the HTTP client `post`.
   */
  function VerifyCaptcha(token: Value, security: Value, remoteIp: Value, post: Poster): (r: Result<(), Error>)
    ensures !Enabled(security) ==> r.Success?
    ensures Enabled(security) && |Schemas.CaptchaIssues(CaptchaParams(security, token))| > 0 ==>
      r == Failure(HttpError(400, PrettyIssues(Schemas.CaptchaIssues(CaptchaParams(security, token))), Undef))
    ensures r.Success? <==> (
      || !Enabled(security)
      || (&& |Schemas.CaptchaIssues(CaptchaParams(security, token))| == 0
          && var reply := post(RequestFor(CaptchaParams(security, token), remoteIp));
             reply.Success? && !Nullish(reply.value) && Truthy(Prop(reply.value, "success"))))
  {
    if !Enabled(security) then Success(())
    else
      var params := CaptchaParams(security, token);
      var issues := Schemas.CaptchaIssues(params);
      if |issues| > 0 then Failure(HttpError(400, PrettyIssues(issues), Undef))
      else
        var reply := post(RequestFor(params, remoteIp));
        if reply.Failure? then Failure(reply.error)
        else
          var success := Read(reply.value, "success");
          if success.Failure? then Failure(success.error)
          else if !Truthy(success.value) then Failure(HttpError(400, InvalidCaptchaMessage, Undef))
          else Success(())
  }

  /** With captcha disabled no request is made: the outcome is the same for every HTTP client. */
  lemma DisabledMakesNoRequest(token: Value, security: Value, remoteIp: Value, p1: Poster, p2: Poster)
    requires !Enabled(security)
    ensures VerifyCaptcha(token, security, remoteIp, p1) == VerifyCaptcha(token, security, remoteIp, p2) == Success(())
  {
  }

  /** Invalid captcha settings or token fail with status 400 before any request is made. */
  lemma InvalidParamsMakeNoRequest(token: Value, security: Value, remoteIp: Value, p1: Poster, p2: Poster)
    requires Enabled(security) && |Schemas.CaptchaIssues(CaptchaParams(security, token))| > 0
    ensures VerifyCaptcha(token, security, remoteIp, p1) == VerifyCaptcha(token, security, remoteIp, p2)
    ensures VerifyCaptcha(token, security, remoteIp, p1).error.HttpError?
    ensures VerifyCaptcha(token, security, remoteIp, p1).error.statusCode == 400
  {
  }

  /** A missing or empty token is reported with the token message whenever captcha is enabled. */
  lemma MissingTokenRejected(token: Value, security: Value, remoteIp: Value, post: Poster)
    requires Enabled(security) && !Schemas.IsNonEmptyString(token)
    ensures Schemas.TokenMessage in Schemas.CaptchaIssues(CaptchaParams(security, token))
    ensures VerifyCaptcha(token, security, remoteIp, post).Failure?
  {
  }

  /**
    With valid settings the provider's endpoint receives the secret key, the
    token and the client address; a reply whose `success` is falsy is the
    400 "Invalid captcha" error, a `null` reply throws the property-read
    `TypeError`, and a failed request's error is passed on.
   */
  lemma VerificationRequest(token: Value, security: Value, remoteIp: Value, post: Poster)
    requires Enabled(security) && |Schemas.CaptchaIssues(CaptchaParams(security, token))| == 0
    ensures var q := RequestFor(CaptchaParams(security, token), remoteIp);
      && q.response == token
      && q.secret == Prop(Prop(security, "captcha"), "secretKey")
      && q.url == ProviderUrl(Prop(Prop(security, "captcha"), "provider"))
      && (post(q).Failure? ==> VerifyCaptcha(token, security, remoteIp, post) == Failure(post(q).error))
      && (post(q).Success? && !Nullish(post(q).value) && !Truthy(Prop(post(q).value, "success")) ==>
            VerifyCaptcha(token, security, remoteIp, post) == Failure(HttpError(400, InvalidCaptchaMessage, Undef)))
      && (post(q).Success? && Nullish(post(q).value) ==>
            VerifyCaptcha(token, security, remoteIp, post) == Failure(PropertyReadError(post(q).value, "success")))
  {
  }
}
