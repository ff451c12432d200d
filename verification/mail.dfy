/**
  `sendMail`: lay the caller's options over the configured defaults, insist
  on a sender and a recipient, and hand the message to the configured
  driver. The SMTP transport itself is a parameter of the model.
 */
module Mail {
  import opened Values
  import opened Wrappers
  import opened MailTypes
  import Defu
  import Schemas

  const MissingFromMessage: string :=
    "[nuxt-transport-mailer] Missing \"from\" address. Please define it in the send options or in the module defaults."
  const MissingRecipientMessage: string :=
    "[nuxt-transport-mailer] Missing recipient. Please provide at least one of \"to\", \"cc\", or \"bcc\"."

  /** The error for a driver the dispatcher does not know. */
  function UnsupportedDriverMessage(driver: Value): string {
    "[nuxt-transport-mailer] Driver '" + ToText(driver) + "' not implemented or supported."
  }

  /** `config.defaults || {}`. */
  function DefaultOptions(config: Value): Value {
    Or(Prop(config, "defaults"), Obj(map[]))
  }

  /** `defu(options, defaultOptions)`: the options the transport receives. */
  function FinalOptions(options: Value, config: Value): Record {
    Defu.Merge(options, DefaultOptions(config)).fields
  }

  /** The transport `sendSmtp(config, options)`, outside the model. */
  type SmtpSender = (Value, Record) -> Result<SentInfo, Error>

  /**
    `sendMail(options)` with the module configuration `config`: the merged
    options must have a truthy `from`, then a truthy `to`, `cc` or `bcc`; only
    the `smtp` driver is dispatched, every other driver is an error.
   */
  function SendMail(options: Value, config: Value, sendSmtp: SmtpSender): (r: Result<SentInfo, Error>)
    ensures r.Success? ==>
      && Prop(config, "driver") == Str("smtp")
      && Truthy(Get(FinalOptions(options, config), "from"))
      && Schemas.HasRecipient(FinalOptions(options, config))
    ensures !Truthy(Get(FinalOptions(options, config), "from")) ==> r == Failure(NewError(MissingFromMessage))
    ensures Truthy(Get(FinalOptions(options, config), "from")) && !Schemas.HasRecipient(FinalOptions(options, config))
      ==> r == Failure(NewError(MissingRecipientMessage))
    ensures Truthy(Get(FinalOptions(options, config), "from")) && Schemas.HasRecipient(FinalOptions(options, config))
      && Prop(config, "driver") != Str("smtp")
      ==> r == Failure(NewError(UnsupportedDriverMessage(Prop(config, "driver"))))
  {
    var finalOptions := FinalOptions(options, config);
    var driver := Prop(config, "driver");
    if !Truthy(Get(finalOptions, "from")) then Failure(NewError(MissingFromMessage))
    else if !Schemas.HasRecipient(finalOptions) then Failure(NewError(MissingRecipientMessage))
    else if driver == Str("smtp") then sendSmtp(config, finalOptions)
    else Failure(NewError(UnsupportedDriverMessage(driver)))
  }

  /** A message that reaches the SMTP transport is exactly the merged options, with the whole configuration. */
  lemma SmtpReceivesFinalOptions(options: Value, config: Value, sendSmtp: SmtpSender)
    requires Prop(config, "driver") == Str("smtp")
    requires Truthy(Get(FinalOptions(options, config), "from")) && Schemas.HasRecipient(FinalOptions(options, config))
    ensures SendMail(options, config, sendSmtp) == sendSmtp(config, FinalOptions(options, config))
  {
  }

  /** When validation or dispatch fails, the outcome does not depend on the transport: nothing was sent. */
  lemma RejectionSendsNothing(options: Value, config: Value, s1: SmtpSender, s2: SmtpSender)
    requires !Truthy(Get(FinalOptions(options, config), "from"))
      || !Schemas.HasRecipient(FinalOptions(options, config))
      || Prop(config, "driver") != Str("smtp")
    ensures SendMail(options, config, s1) == SendMail(options, config, s2)
    ensures SendMail(options, config, s1).Failure?
  {
  }

  /** The merge keeps a truthy caller value truthy (lists and objects stay lists and objects). */
  lemma MergeKeepsTruthy(options: Value, config: Value, k: string)
    requires options.Obj? && k in options.fields && Truthy(options.fields[k])
    requires k != "__proto__" && k != "constructor"
    ensures Truthy(Get(FinalOptions(options, config), k))
  {
    var base := options.fields;
    var defaults := Defu.PlainFields(DefaultOptions(config));
    assert Defu.Takes(base, k);
    var m := Defu.MergeFields(base, defaults);
    if k in defaults {
      assert m[k] == Defu.MergeValue(base[k], defaults[k]);
    }
  }

  /** A caller string field is sent as written, whatever the defaults say. */
  lemma CallerStringWins(options: Value, config: Value, k: string)
    requires options.Obj? && k in options.fields && options.fields[k].Str?
    requires k != "__proto__" && k != "constructor"
    ensures Get(FinalOptions(options, config), k) == options.fields[k]
  {
    var base := options.fields;
    var defaults := Defu.PlainFields(DefaultOptions(config));
    assert Defu.Takes(base, k);
    if k in defaults {
      Defu.BaseLeafWins(base, defaults, k);
    }
  }

  /** A field the caller leaves out (or sets to null) is taken from the configured defaults. */
  lemma DefaultFillsGap(options: Value, config: Value, k: string)
    requires Prop(config, "defaults").Obj? && k in Prop(config, "defaults").fields
    requires !(options.Obj? && k in options.fields) || Nullish(options.fields[k])
    ensures Get(FinalOptions(options, config), k) == Prop(config, "defaults").fields[k]
  {
  }

  /**
    A present but empty caller `from` is not nullish, so it hides the default
    sender and the send fails for want of a sender.
   */
  lemma EmptyFromHidesDefault(options: Value, config: Value, sendSmtp: SmtpSender)
    requires options.Obj? && Get(options.fields, "from") == Str("")
    ensures SendMail(options, config, sendSmtp) == Failure(NewError(MissingFromMessage))
  {
    CallerStringWins(options, config, "from");
  }

  /** A body the schema accepts always names a recipient, so `sendMail` never rejects it for lack of one. */
  lemma SchemaBodyHasRecipient(body: Value, config: Value)
    requires Schemas.ParseEmailBody(body).Success?
    ensures Schemas.HasRecipient(FinalOptions(body, config))
  {
    Schemas.BodyAcceptedIff(body);
    var m := body.fields;
    if Truthy(Get(m, "to")) {
      MergeKeepsTruthy(body, config, "to");
    } else if Truthy(Get(m, "cc")) {
      MergeKeepsTruthy(body, config, "cc");
    } else {
      MergeKeepsTruthy(body, config, "bcc");
    }
  }
}
