/**
  The zod schemas of the mail API as predicates and parse functions:
  the email body (every field optional, at least one truthy recipient), the
  stricter email configuration (`from` required), and the captcha
  verification parameters.
 */
module Schemas {
  import opened Values
  import opened Wrappers

  /** `z.union([z.string(), z.array(z.string())])`. */
  predicate IsStringOrStrings(v: Value) {
    v.Str? || (v.Arr? && forall i :: 0 <= i < |v.items| ==> v.items[i].Str?)
  }

  /** The recipient fields. */
  predicate IsRecipientKey(k: string) {
    k == "to" || k == "cc" || k == "bcc"
  }

  /** The fields of the body schema, in declaration order. */
  const BodyFields: seq<string> :=
    ["to", "cc", "bcc", "subject", "text", "html", "from", "replyTo", "_gotcha", "captchaToken"]

  /** Whether field `k` of `m` has the type the body schema gives it (absent and `undefined` pass). */
  predicate FieldOk(m: Record, k: string) {
    k !in m || m[k].Undef? || (if IsRecipientKey(k) then IsStringOrStrings(m[k]) else m[k].Str?)
  }

  /** Whether field `k` has its type in the configuration schema, where `from` is a required string. */
  predicate ConfigFieldOk(m: Record, k: string) {
    if k == "from" then k in m && m[k].Str? else FieldOk(m, k)
  }

  /** `!val.to && !val.cc && !val.bcc` is false: some recipient field is truthy. */
  predicate HasRecipient(m: Record) {
    Truthy(Get(m, "to")) || Truthy(Get(m, "cc")) || Truthy(Get(m, "bcc"))
  }

  const RecipientMessage: string := "At least one recipient (to, cc, or bcc) must be provided"

  /** A reason the parse rejected its input. */
  datatype Issue =
    | NotAnObject
    | InvalidType(field: string)
    | Custom(message: string)

  /** The fields among `keys`, in order, whose value has the wrong type. */
  function TypeIssues(m: Record, keys: seq<string>, config: bool): (r: seq<Issue>)
    ensures forall k :: InvalidType(k) in r <==> k in keys && !(if config then ConfigFieldOk(m, k) else FieldOk(m, k))
    ensures forall i :: 0 <= i < |r| ==> r[i].InvalidType?
  {
    if |keys| == 0 then []
    else
      var ok := if config then ConfigFieldOk(m, keys[0]) else FieldOk(m, keys[0]);
      (if ok then [] else [InvalidType(keys[0])]) + TypeIssues(m, keys[1..], config)
  }

  /** The keys of the parsed data: the input restricted to the schema's fields (zod strips the others). */
  function Known(m: Record): (r: Record)
    ensures forall k :: k in r <==> k in m && k in BodyFields
    ensures forall k | k in r :: r[k] == m[k]
  {
    map k | k in m && k in BodyFields :: m[k]
  }

  /**
    Parse with the body schema (`config == false`) or the configuration
    schema (`config == true`): type issues first, and the recipient rule only
    when every field has its type.
   */
  function Parse(body: Value, config: bool): (r: Result<Record, seq<Issue>>)
    ensures !body.Obj? ==> r == Failure([NotAnObject])
    ensures r.Success? ==> body.Obj? && r.value == Known(body.fields)
    ensures r.Failure? ==> |r.error| > 0
  {
    if !body.Obj? then Failure([NotAnObject])
    else
      var issues := TypeIssues(body.fields, BodyFields, config);
      if |issues| > 0 then Failure(issues)
      else if !HasRecipient(body.fields) then Failure([Custom(RecipientMessage)])
      else Success(Known(body.fields))
  }

  /** `emailBodySchema.safeParse(body)`. */
  function ParseEmailBody(body: Value): Result<Record, seq<Issue>> {
    Parse(body, false)
  }

  /** `emailConfigurationSchema.safeParse(body)`. */
  function ParseEmailConfiguration(body: Value): Result<Record, seq<Issue>> {
    Parse(body, true)
  }

  /** Every field of the body schema has its declared type. */
  predicate BodyTyped(m: Record) {
    forall k | k in BodyFields :: FieldOk(m, k)
  }

  /** Every field of the configuration schema has its declared type. */
  predicate ConfigTyped(m: Record) {
    forall k | k in BodyFields :: ConfigFieldOk(m, k)
  }

  /** No type issue is reported exactly when every listed field has its type. */
  lemma {:induction false} NoTypeIssuesIff(m: Record, keys: seq<string>, config: bool)
    ensures |TypeIssues(m, keys, config)| == 0 <==>
      forall k | k in keys :: (if config then ConfigFieldOk(m, k) else FieldOk(m, k))
  {
    if |keys| > 0 {
      NoTypeIssuesIff(m, keys[1..], config);
      assert forall k | k in keys :: k == keys[0] || k in keys[1..];
    }
  }

  /** The body schema accepts exactly the typed objects with a truthy recipient. */
  lemma BodyAcceptedIff(body: Value)
    ensures ParseEmailBody(body).Success? <==> body.Obj? && BodyTyped(body.fields) && HasRecipient(body.fields)
  {
    if body.Obj? {
      NoTypeIssuesIff(body.fields, BodyFields, false);
    }
  }

  /** A typed body without a truthy recipient is rejected with the recipient message, and only that. */
  lemma RecipientRule(body: Value)
    requires body.Obj? && BodyTyped(body.fields) && !HasRecipient(body.fields)
    ensures ParseEmailBody(body) == Failure([Custom(RecipientMessage)])
  {
    NoTypeIssuesIff(body.fields, BodyFields, false);
  }

  /** The configuration schema accepts exactly the bodies the body schema accepts whose `from` is a string. */
  lemma ConfigurationAcceptedIff(body: Value)
    ensures ParseEmailConfiguration(body).Success? <==>
      ParseEmailBody(body).Success? && Prop(body, "from").Str?
    ensures ParseEmailConfiguration(body).Success? ==> ParseEmailConfiguration(body) == ParseEmailBody(body)
  {
    if body.Obj? {
      var m := body.fields;
      NoTypeIssuesIff(m, BodyFields, false);
      NoTypeIssuesIff(m, BodyFields, true);
      assert "from" in BodyFields;
      assert ConfigTyped(m) <==> BodyTyped(m) && Prop(body, "from").Str?;
    }
  }

  /** The captcha providers the schema admits. */
  predicate IsProvider(v: Value) {
    v == Str("turnstile") || v == Str("recaptcha") || v == Str("hcaptcha")
  }

  /** `z.string().min(1)`: a non-empty string. */
  predicate IsNonEmptyString(v: Value) {
    v.Str? && |v.s| >= 1
  }

  const TokenMessage: string := "Captcha token is required"
  const ProviderMessage: string := "Captcha provider not valid"
  const SecretKeyMessage: string := "Captcha secretKey is required"

  /**
    The messages of `captchaVerificationSchema` for `params`, one per failing
    field, in the order token, provider, secret key.
   */
  function CaptchaIssues(params: Record): (r: seq<string>)
    ensures TokenMessage in r <==> !IsNonEmptyString(Get(params, "token"))
    ensures ProviderMessage in r <==> !IsProvider(Get(params, "provider"))
    ensures SecretKeyMessage in r <==> !IsNonEmptyString(Get(params, "secretKey"))
    ensures |r| == 0 <==>
      IsNonEmptyString(Get(params, "token")) && IsProvider(Get(params, "provider"))
      && IsNonEmptyString(Get(params, "secretKey"))
  {
    (if IsNonEmptyString(Get(params, "token")) then [] else [TokenMessage])
    + (if IsProvider(Get(params, "provider")) then [] else [ProviderMessage])
    + (if IsNonEmptyString(Get(params, "secretKey")) then [] else [SecretKeyMessage])
  }
}
