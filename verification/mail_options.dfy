/**
  Translation of one generic email envelope into the option shapes of
  worker-mailer (structured users), nodemailer (formatted strings) and the
  SES v2 `SendEmailRequest` (string lists), including the merge of the
  module-level SES `commandInput`.
 */
module MailOptions {
  import opened Values
  import opened Address
  import Defu

  /** The envelope fields that hold addresses. */
  predicate IsAddressKey(k: string) {
    k == "from" || k == "to" || k == "cc" || k == "bcc" || k == "reply" || k == "replyTo"
  }

  /**
    What the translators' parameter types promise: every address field is
    absent or falsy, one address or a list of addresses, and `ses` is an
    object (or absent).
   */
  predicate WellTyped(opts: Record) {
    && IsAddressField(Get(opts, "from"))
    && IsAddressField(Get(opts, "to"))
    && IsAddressField(Get(opts, "cc"))
    && IsAddressField(Get(opts, "bcc"))
    && IsAddressField(Get(opts, "reply"))
    && IsAddressField(Get(opts, "replyTo"))
    && Spreadable(Get(opts, "ses"))
  }

  /** The body fields every translator copies explicitly over the spread input. */
  const BodyKeys: set<string> := {"subject", "text", "html", "headers", "attachments"}

  /** The address fields `toWorkerMailerMailOptions` writes. */
  const WorkerAddressKeys: set<string> := {"from", "to", "reply", "cc", "bcc"}

  /** The address fields `toNodemailerMailOptions` writes. */
  const NodemailerAddressKeys: set<string> := {"from", "to", "replyTo", "cc", "bcc"}

  /** The translators' key sets do not overlap, and none of them holds `ses`. */
  lemma KeySetsDisjoint()
    ensures NodemailerAddressKeys !! BodyKeys && WorkerAddressKeys !! BodyKeys
    ensures "ses" !in NodemailerAddressKeys + BodyKeys
  {
  }

  /** The body fields, copied as they are. */
  function BodyFields(opts: Record): (r: Record)
    ensures r.Keys == BodyKeys
    ensures forall k | k in BodyKeys :: r[k] == Get(opts, k)
  {
    map k | k in BodyKeys :: Get(opts, k)
  }

  /** `opts.replyTo || opts.reply`: the reply address worker-mailer receives. */
  function WorkerReply(opts: Record): (v: Value)
    ensures Truthy(Get(opts, "replyTo")) ==> v == Get(opts, "replyTo")
    ensures !Truthy(Get(opts, "replyTo")) ==> v == Get(opts, "reply")
  {
    Or(Get(opts, "replyTo"), Get(opts, "reply"))
  }

  /** The value `toWorkerMailerMailOptions` writes under address key `k`. */
  function WorkerAddressField(opts: Record, k: string): Value
    requires WellTyped(opts) && k in WorkerAddressKeys
  {
    if k == "from" then ToSingleUser(Get(opts, "from"))
    else if k == "reply" then ToSingleUser(WorkerReply(opts))
    else ToUserOrArray(Get(opts, k))
  }

  /** The address fields `toWorkerMailerMailOptions` writes. */
  function WorkerAddressFields(opts: Record): (r: Record)
    requires WellTyped(opts)
    ensures r.Keys == WorkerAddressKeys
    ensures forall k | k in WorkerAddressKeys :: r[k] == WorkerAddressField(opts, k)
  {
    map k | k in WorkerAddressKeys :: WorkerAddressField(opts, k)
  }

  /**
    `toWorkerMailerMailOptions`: the input spread first, then `from` and the
    reply address as single users (the reply taken from `replyTo || reply`),
    recipients as users or lists of users, and the body fields copied.
   */
  function ToWorkerMailerMailOptions(opts: Record): (r: Record)
    requires WellTyped(opts)
    ensures r.Keys == opts.Keys + WorkerAddressKeys + BodyKeys
    ensures forall k | k in opts && k !in WorkerAddressKeys + BodyKeys :: r[k] == opts[k]
    ensures forall k | k in BodyKeys :: r[k] == Get(opts, k)
    ensures forall k | k in WorkerAddressKeys :: r[k] == WorkerAddressField(opts, k)
  {
    KeySetsDisjoint();
    opts + WorkerAddressFields(opts) + BodyFields(opts)
  }

  /**
    The worker-mailer options hold `from` and the reply address as single
    users, the reply taken from `replyTo` when that is truthy and from
    `reply` otherwise, and the recipients as users or lists of users.
   */
  lemma WorkerAddressesTranslated(opts: Record)
    requires WellTyped(opts)
    ensures var r := ToWorkerMailerMailOptions(opts);
      && r["from"] == ToSingleUser(Get(opts, "from"))
      && r["to"] == ToUserOrArray(Get(opts, "to"))
      && r["cc"] == ToUserOrArray(Get(opts, "cc"))
      && r["bcc"] == ToUserOrArray(Get(opts, "bcc"))
      && (Truthy(Get(opts, "replyTo")) ==> r["reply"] == ToSingleUser(Get(opts, "replyTo")))
      && (!Truthy(Get(opts, "replyTo")) ==> r["reply"] == ToSingleUser(Get(opts, "reply")))
  {
    var r := ToWorkerMailerMailOptions(opts);
    assert "from" in WorkerAddressKeys && "to" in WorkerAddressKeys && "cc" in WorkerAddressKeys;
    assert "bcc" in WorkerAddressKeys && "reply" in WorkerAddressKeys;
  }

  /**
    The worker-mailer and the nodemailer translations of one envelope name
    the same mailboxes: on addresses whose user form keeps their format,
    formatting the worker-mailer sender and recipients gives exactly the
    nodemailer strings.
   */
  lemma TranslationsAgreeOnAddresses(opts: Record, k: string)
    requires WellTyped(opts) && IsAddress(Get(opts, "from")) && KeepsFormat(Get(opts, "from"))
    requires k == "to" || k == "cc" || k == "bcc"
    requires FieldKeepsFormat(Get(opts, k))
    ensures var w := ToWorkerMailerMailOptions(opts);
      && w["from"].Obj? && ToAddressString(w["from"]) == NodemailerFields(opts)["from"]
      && IsAddressField(w[k]) && ToAddressOrArray(w[k]) == NodemailerFields(opts)[k]
  {
    WorkerAddressesTranslated(opts);
    NodemailerAddressesTranslated(opts);
    UserFormatsLikeAddress(Get(opts, "from"));
    UsersFormatLikeAddresses(Get(opts, k));
  }

  /** The SES `commandInput` of the module options, or `{}`. */
  function CommandInput(sesConfig: Value): Value {
    Coalesce(Prop(sesConfig, "commandInput"), Obj(map[]))
  }

  /** `opts.reply || opts.replyTo`: the reply address nodemailer receives. */
  function NodemailerReply(opts: Record): (v: Value)
    ensures Truthy(Get(opts, "reply")) ==> v == Get(opts, "reply")
    ensures !Truthy(Get(opts, "reply")) ==> v == Get(opts, "replyTo")
  {
    Or(Get(opts, "reply"), Get(opts, "replyTo"))
  }

  /** The value `toNodemailerMailOptions` writes under address key `k`. */
  function NodemailerAddressField(opts: Record, k: string): Value
    requires WellTyped(opts) && IsAddress(Get(opts, "from")) && k in NodemailerAddressKeys
  {
    if k == "from" then ToAddressString(Get(opts, "from"))
    else if k == "replyTo" then ToAddressOrArray(NodemailerReply(opts))
    else ToAddressOrArray(Get(opts, k))
  }

  /** The address fields `toNodemailerMailOptions` writes. */
  function NodemailerAddressFields(opts: Record): (r: Record)
    requires WellTyped(opts) && IsAddress(Get(opts, "from"))
    ensures r.Keys == NodemailerAddressKeys
    ensures forall k | k in NodemailerAddressKeys :: r[k] == NodemailerAddressField(opts, k)
  {
    map k | k in NodemailerAddressKeys :: NodemailerAddressField(opts, k)
  }

  /**
    The nodemailer options before `ses` is considered: `ses` taken out of
    the input, the rest spread, then `from` formatted, recipients as strings
    or string lists, the reply address from `reply || replyTo`, and the body
    fields copied. A `reply` key of the input is passed through untouched.
   */
  function NodemailerFields(opts: Record): (r: Record)
    requires WellTyped(opts) && IsAddress(Get(opts, "from"))
    ensures r.Keys == (opts.Keys - {"ses"}) + NodemailerAddressKeys + BodyKeys
    ensures forall k | k in opts && k !in NodemailerAddressKeys + BodyKeys + {"ses"} :: r[k] == opts[k]
    ensures forall k | k in BodyKeys :: r[k] == Get(opts, k)
    ensures forall k | k in NodemailerAddressKeys :: r[k] == NodemailerAddressField(opts, k)
  {
    KeySetsDisjoint();
    (opts - {"ses"}) + NodemailerAddressFields(opts) + BodyFields(opts)
  }

  /**
    The nodemailer options hold `from` formatted, the recipients as strings
    or string lists, and `replyTo` from `reply` when that is truthy and from
    `replyTo` otherwise.
   */
  lemma NodemailerAddressesTranslated(opts: Record)
    requires WellTyped(opts) && IsAddress(Get(opts, "from"))
    ensures var r := NodemailerFields(opts);
      && r["from"] == ToAddressString(Get(opts, "from"))
      && r["to"] == ToAddressOrArray(Get(opts, "to"))
      && r["cc"] == ToAddressOrArray(Get(opts, "cc"))
      && r["bcc"] == ToAddressOrArray(Get(opts, "bcc"))
      && (Truthy(Get(opts, "reply")) ==> r["replyTo"] == ToAddressOrArray(Get(opts, "reply")))
      && (!Truthy(Get(opts, "reply")) ==> r["replyTo"] == ToAddressOrArray(Get(opts, "replyTo")))
  {
    var r := NodemailerFields(opts);
    assert "from" in NodemailerAddressKeys && "to" in NodemailerAddressKeys && "cc" in NodemailerAddressKeys;
    assert "bcc" in NodemailerAddressKeys && "replyTo" in NodemailerAddressKeys;
  }

  /**
    `toNodemailerMailOptions`: the translated fields, plus `ses` only when an
    SES configuration is given and the driver is `ses`, holding the per-call
    `ses` value defu-merged over the module's `commandInput`. Otherwise the
    input's `ses` is dropped.
   */
  function ToNodemailerMailOptions(opts: Record, sesConfig: Value, driver: Value): (r: Record)
    requires WellTyped(opts) && IsAddress(Get(opts, "from"))
    ensures r - {"ses"} == NodemailerFields(opts)
    ensures "ses" in r <==> Truthy(sesConfig) && driver == Str("ses")
    ensures "ses" in r ==> r["ses"] == Defu.Merge(Get(opts, "ses"), CommandInput(sesConfig))
  {
    var translated := NodemailerFields(opts);
    KeySetsDisjoint();
    assert "ses" !in translated;
    var merged := Defu.Merge(Get(opts, "ses"), CommandInput(sesConfig));
    SetThenRemove(translated, "ses", merged);
    if Truthy(sesConfig) && driver == Str("ses") then translated["ses" := merged] else translated
  }

  /** Setting a fresh key and removing it again gives back the record. */
  lemma SetThenRemove(m: Record, k: string, v: Value)
    requires k !in m
    ensures m[k := v] - {k} == m && m - {k} == m
  {
  }

  /** The envelope fields `toSESMailOptions` destructures out of its input. */
  const EnvelopeKeys: set<string> :=
    {"from", "to", "cc", "bcc", "reply", "replyTo", "subject", "text", "html", "headers", "attachments", "ses"}

  /** The request fields built from the envelope, which nothing spread can replace. */
  const RequestKeys: set<string> := {"FromEmailAddress", "Destination", "ReplyToAddresses", "Content"}

  /** A `{Data: v}` wrapper of the SES API. */
  function DataOf(v: Value): Value {
    Obj(map["Data" := v])
  }

  /** The SES message body: `Text` and `Html` parts only for truthy text and html. */
  function SesBody(text: Value, html: Value): (r: Record)
    ensures "Text" in r <==> Truthy(text)
    ensures "Html" in r <==> Truthy(html)
    ensures r.Keys <= {"Text", "Html"}
    ensures "Text" in r ==> r["Text"] == DataOf(text)
    ensures "Html" in r ==> r["Html"] == DataOf(html)
  {
    (if Truthy(text) then map["Text" := DataOf(text)] else map[])
    + (if Truthy(html) then map["Html" := DataOf(html)] else map[])
  }

  /** The destination lists of the request. */
  function SesDestination(opts: Record): Value
    requires WellTyped(opts)
  {
    Obj(map[
      "ToAddresses" := ToAddressStringArray(Get(opts, "to")),
      "CcAddresses" := ToAddressStringArray(Get(opts, "cc")),
      "BccAddresses" := ToAddressStringArray(Get(opts, "bcc"))])
  }

  /** The simple content of the request: the subject and the body parts. */
  function SesContent(opts: Record): Value {
    Obj(map["Simple" := Obj(map[
      "Subject" := DataOf(Get(opts, "subject")),
      "Body" := Obj(SesBody(Get(opts, "text"), Get(opts, "html")))])])
  }

  /** One of the four request fields built from the envelope. */
  function SesRequestField(opts: Record, k: string): Value
    requires WellTyped(opts) && IsAddress(Get(opts, "from"))
  {
    if k == "FromEmailAddress" then ToAddressString(Get(opts, "from"))
    else if k == "Destination" then SesDestination(opts)
    else if k == "ReplyToAddresses" then ToAddressStringArray(Or(Get(opts, "reply"), Get(opts, "replyTo")))
    else SesContent(opts)
  }

  /** The four request fields built from the envelope. */
  function SesRequestFields(opts: Record): (r: Record)
    requires WellTyped(opts) && IsAddress(Get(opts, "from"))
    ensures r.Keys == RequestKeys
    ensures r["FromEmailAddress"] == ToAddressString(Get(opts, "from"))
    ensures r["Destination"] == SesDestination(opts)
    ensures r["Content"] == SesContent(opts)
    ensures r["ReplyToAddresses"] == ToAddressStringArray(Or(Get(opts, "reply"), Get(opts, "replyTo")))
  {
    map k | k in RequestKeys :: SesRequestField(opts, k)
  }

  /** The input keys that are not envelope fields. */
  function ExtraFields(opts: Record): (r: Record)
    ensures r.Keys == opts.Keys - EnvelopeKeys
    ensures forall k | k in r :: r[k] == opts[k]
  {
    map k | k in opts && k !in EnvelopeKeys :: opts[k]
  }

  /**
    The request `toSESMailOptions` builds before merging `commandInput`:
    the leftover input keys, then the per-call `ses` keys, then the four
    fields built from the envelope, each spread over the previous.
   */
  function SesRequest(opts: Record): (r: Record)
    requires WellTyped(opts) && IsAddress(Get(opts, "from"))
    ensures r.Keys == (opts.Keys - EnvelopeKeys) + Spread(Get(opts, "ses")).Keys + RequestKeys
    ensures forall k | k in Spread(Get(opts, "ses")) && k !in RequestKeys :: r[k] == Spread(Get(opts, "ses"))[k]
    ensures forall k | k in opts && k !in EnvelopeKeys && k !in Spread(Get(opts, "ses")) && k !in RequestKeys ::
      r[k] == opts[k]
    ensures r["FromEmailAddress"] == ToAddressString(Get(opts, "from"))
    ensures r["Destination"] == SesDestination(opts)
    ensures r["Content"] == SesContent(opts)
    ensures Truthy(Get(opts, "reply")) ==> r["ReplyToAddresses"] == ToAddressStringArray(Get(opts, "reply"))
    ensures !Truthy(Get(opts, "reply")) ==> r["ReplyToAddresses"] == ToAddressStringArray(Get(opts, "replyTo"))
  {
    ExtraFields(opts) + Spread(Get(opts, "ses")) + SesRequestFields(opts)
  }

  /**
    `toSESMailOptions`: the request defu-merged over the module's
    `commandInput`. The result holds every `commandInput` key and every
    request key whose value is defined.
   */
  function ToSESMailOptions(opts: Record, sesConfig: Value): (r: Value)
    requires WellTyped(opts) && IsAddress(Get(opts, "from"))
    ensures r.Obj?
    ensures forall k :: k in r.fields <==> k in Defu.PlainFields(CommandInput(sesConfig)) || Defu.Takes(SesRequest(opts), k)
  {
    Defu.Merge(Obj(SesRequest(opts)), CommandInput(sesConfig))
  }

  /** A value the merge takes as it is, whatever the default: defined and neither a list nor an object. */
  predicate IsLeaf(v: Value) {
    !Nullish(v) && !v.Arr? && !v.Obj?
  }

  /** The formatted sender is never replaced: not by extra keys, not by `ses`, not by `commandInput`. */
  lemma SenderSurvivesMerge(opts: Record, sesConfig: Value)
    requires WellTyped(opts) && IsAddress(Get(opts, "from"))
    requires IsLeaf(ToAddressString(Get(opts, "from")))
    ensures ToSESMailOptions(opts, sesConfig).fields["FromEmailAddress"] == ToAddressString(Get(opts, "from"))
  {
    Defu.BaseLeafWins(SesRequest(opts), Defu.PlainFields(CommandInput(sesConfig)), "FromEmailAddress");
  }

  /** A per-call `ses` value wins over `commandInput` for the same key. */
  lemma PerCallSesWins(opts: Record, sesConfig: Value, k: string)
    requires WellTyped(opts) && IsAddress(Get(opts, "from"))
    requires k in Spread(Get(opts, "ses")) && k !in RequestKeys
    requires IsLeaf(Spread(Get(opts, "ses"))[k]) && k != "__proto__" && k != "constructor"
    ensures ToSESMailOptions(opts, sesConfig).fields[k] == Spread(Get(opts, "ses"))[k]
  {
    Defu.BaseLeafWins(SesRequest(opts), Defu.PlainFields(CommandInput(sesConfig)), k);
  }

  /** A `commandInput` key the request leaves undefined is kept as it is. */
  lemma CommandInputRetained(opts: Record, sesConfig: Value, k: string)
    requires WellTyped(opts) && IsAddress(Get(opts, "from"))
    requires k in Defu.PlainFields(CommandInput(sesConfig)) && !Defu.Takes(SesRequest(opts), k)
    ensures ToSESMailOptions(opts, sesConfig).fields[k] == Defu.PlainFields(CommandInput(sesConfig))[k]
  {
  }

  /** Without `commandInput` the request is sent as built, minus its undefined keys. */
  lemma NoCommandInputSendsRequest(opts: Record, sesConfig: Value)
    requires WellTyped(opts) && IsAddress(Get(opts, "from"))
    requires Nullish(Prop(sesConfig, "commandInput"))
    ensures ToSESMailOptions(opts, sesConfig) == Obj(Defu.Defined(SesRequest(opts)))
  {
    Defu.MergeOverNothing(SesRequest(opts));
  }

  /** A recipient field left empty yields no destination list; any other yields a list. */
  lemma DestinationListsFollowFields(opts: Record)
    requires WellTyped(opts)
    ensures !Truthy(Get(opts, "to")) <==> Prop(SesDestination(opts), "ToAddresses") == Undef
    ensures !Truthy(Get(opts, "cc")) <==> Prop(SesDestination(opts), "CcAddresses") == Undef
    ensures !Truthy(Get(opts, "bcc")) <==> Prop(SesDestination(opts), "BccAddresses") == Undef
  {
  }

  /** For the SES driver the nodemailer `ses` option keeps per-call leaves and `commandInput`-only keys. */
  lemma NodemailerSesMerge(opts: Record, sesConfig: Value, k: string)
    requires WellTyped(opts) && IsAddress(Get(opts, "from"))
    requires Truthy(sesConfig)
    ensures
      var r := ToNodemailerMailOptions(opts, sesConfig, Str("ses"))["ses"].fields;
      var ses := Defu.PlainFields(Get(opts, "ses"));
      var defaults := Defu.PlainFields(CommandInput(sesConfig));
      && (Defu.Takes(ses, k) && !ses[k].Arr? && !ses[k].Obj? ==> r[k] == ses[k])
      && (k in defaults && !Defu.Takes(ses, k) ==> r[k] == defaults[k])
  {
    var ses := Defu.PlainFields(Get(opts, "ses"));
    var defaults := Defu.PlainFields(CommandInput(sesConfig));
    if Defu.Takes(ses, k) && !ses[k].Arr? && !ses[k].Obj? {
      Defu.BaseLeafWins(ses, defaults, k);
    }
  }
}
