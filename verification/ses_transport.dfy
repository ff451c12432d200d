/**
  The SES transport: the edge sender, which signs and posts the SES v2
  request itself and synthesises a nodemailer-style result, and the
  dispatcher that picks the edge or the Node sender and prefixes every
  failure. The HTTP exchange, JSON text and the Node sender are parameters.
 */
module SesTransport {
  import opened Values
  import opened Wrappers
  import opened MailTypes
  import opened Address
  import MailOptions
  import ClientConfig
  import Defu

  /** The status line, headers aside, and the raw body text of an HTTP reply. */
  datatype HttpReply = HttpReply(ok: bool, status: int, statusText: string, body: string)

  /**
    What the edge sender asks of its runtime: the signed POST
    (`client.fetch(url, { body })` with the client configuration), JSON
    parsing and `JSON.stringify`, and the error raised when a body that was
    already read is read again.
   */
  datatype EdgeRuntime = EdgeRuntime(
    fetch: (Record, Value, string) -> Result<HttpReply, Error>,
    parseJson: string -> Result<Value, Error>,
    stringify: Value -> string,
    bodyUsed: Error)

  /** The default SES v2 endpoint of a region. */
  function DefaultEndpoint(region: Value): string {
    "https://email." + ToText(region) + ".amazonaws.com/v2/email/outbound-emails"
  }

  /** `sesConfig?.endpoint ?? <default endpoint of the client's region>`. */
  function Endpoint(sesConfig: Value, clientConfig: Record): (url: Value)
    ensures !Nullish(Prop(sesConfig, "endpoint")) ==> url == Prop(sesConfig, "endpoint")
    ensures Nullish(Prop(sesConfig, "endpoint")) ==> url == Str(DefaultEndpoint(Get(clientConfig, "region")))
  {
    Coalesce(Prop(sesConfig, "endpoint"), Str(DefaultEndpoint(Get(clientConfig, "region"))))
  }

  /** The destination lists of the module's `commandInput` are each absent, falsy or a list, as their type says. */
  predicate CommandInputTyped(sesConfig: Value) {
    var d := Prop(MailOptions.CommandInput(sesConfig), "Destination");
    && ListOrNothing(Prop(d, "ToAddresses"))
    && ListOrNothing(Prop(d, "CcAddresses"))
    && ListOrNothing(Prop(d, "BccAddresses"))
  }

  /** A value `[...(v || [])]` can spread: a list, or falsy. */
  predicate ListOrNothing(v: Value) {
    !Truthy(v) || v.Arr?
  }

  /** `[...(v || [])]` for a value that is a list or falsy. */
  function Items(v: Value): (r: seq<Value>)
    ensures v.Arr? ==> r == v.items
    ensures !v.Arr? ==> r == []
  {
    if v.Arr? then v.items else []
  }

  /** What the edge sender needs of its arguments: the types its signature promises. */
  predicate EdgeArgsTyped(sesConfig: Value, options: Record) {
    && MailOptions.WellTyped(options)
    && IsAddress(Get(options, "from"))
    && Spreadable(Prop(sesConfig, "clientConfig"))
    && CommandInputTyped(sesConfig)
  }

  /** The SES request the edge sender posts. */
  function EdgeInput(sesConfig: Value, options: Record): Value
    requires EdgeArgsTyped(sesConfig, options)
  {
    MailOptions.ToSESMailOptions(options, sesConfig)
  }

  /** The merged request's destination lists are all spreadable: the request's own are lists, and `commandInput`'s are typed. */
  lemma DestinationListsSpreadable(sesConfig: Value, options: Record, key: string)
    requires EdgeArgsTyped(sesConfig, options)
    requires key == "ToAddresses" || key == "CcAddresses" || key == "BccAddresses"
    ensures ListOrNothing(Prop(Prop(EdgeInput(sesConfig, options), "Destination"), key))
  {
    var own := MailOptions.SesDestination(options);
    var d := Prop(MailOptions.CommandInput(sesConfig), "Destination");
    MergedDestination(sesConfig, options);
    BuiltDestinationLists(options);
    MergedListTyped(own, d, key);
  }

  /** The posted destination is the built destination merged over `commandInput`'s. */
  lemma MergedDestination(sesConfig: Value, options: Record)
    requires EdgeArgsTyped(sesConfig, options)
    ensures Prop(EdgeInput(sesConfig, options), "Destination") ==
      Defu.MergeValue(MailOptions.SesDestination(options), Prop(MailOptions.CommandInput(sesConfig), "Destination"))
  {
    var request := MailOptions.SesRequest(options);
    var defaults := Defu.PlainFields(MailOptions.CommandInput(sesConfig));
    assert request["Destination"] == MailOptions.SesDestination(options);
    assert Defu.Takes(request, "Destination");
    assert Get(defaults, "Destination") == Prop(MailOptions.CommandInput(sesConfig), "Destination");
  }

  /** Merging keeps a destination list a list: a built list stays a list, and a default list is taken as it is. */
  lemma MergedListTyped(own: Value, d: Value, key: string)
    requires own.Obj? && (Prop(own, key).Undef? || Prop(own, key).Arr?)
    requires ListOrNothing(Prop(d, key))
    ensures ListOrNothing(Prop(Defu.MergeValue(own, d), key))
  {
    if d.Obj? {
      var inner := Defu.MergeFields(own.fields, d.fields);
      assert Defu.MergeValue(own, d) == Obj(inner);
      if Defu.Takes(own.fields, key) {
        assert inner[key] == Defu.MergeValue(own.fields[key], Get(d.fields, key));
      }
    }
  }

  /** `[...to, ...cc, ...bcc]`: the request's recipients, in list order. */
  function Recipients(input: Value): seq<Value> {
    var d := Prop(input, "Destination");
    Items(Prop(d, "ToAddresses")) + Items(Prop(d, "CcAddresses")) + Items(Prop(d, "BccAddresses"))
  }

  /** `` `${response.status} ${response.statusText}: ` ``. */
  function StatusLine(reply: HttpReply): string {
    IntToString(reply.status) + " " + reply.statusText + ": "
  }

  /**
    The successful result: SES's message id, the request's sender and
    recipients as envelope and accepted list, nothing rejected or pending,
    and the reply JSON as response text.
   */
  function Delivered(input: Value, data: Value, stringify: Value -> string): (info: SentInfo)
    requires ListOrNothing(Prop(Prop(input, "Destination"), "ToAddresses"))
    requires ListOrNothing(Prop(Prop(input, "Destination"), "CcAddresses"))
    requires ListOrNothing(Prop(Prop(input, "Destination"), "BccAddresses"))
    ensures info.accepted == info.envelopeTo == Recipients(input)
    ensures info.rejected == [] && info.pending == []
    ensures info.envelopeFrom == Prop(input, "FromEmailAddress")
    ensures info.messageId == Prop(data, "MessageId")
    ensures info.response == stringify(data)
  {
    var recipients := Recipients(input);
    SentInfo(Prop(data, "MessageId"), Prop(input, "FromEmailAddress"), recipients, recipients, [], [],
      stringify(data))
  }

  /** The request's destination lists can all be spread. */
  predicate ListsSpreadable(input: Value) {
    var d := Prop(input, "Destination");
    ListOrNothing(Prop(d, "ToAddresses")) && ListOrNothing(Prop(d, "CcAddresses")) && ListOrNothing(Prop(d, "BccAddresses"))
  }

  /** The edge sender's request can always be spread into the result's recipient lists. */
  lemma InputListsSpreadable(sesConfig: Value, options: Record)
    requires EdgeArgsTyped(sesConfig, options)
    ensures ListsSpreadable(EdgeInput(sesConfig, options))
  {
    DestinationListsSpreadable(sesConfig, options, "ToAddresses");
    DestinationListsSpreadable(sesConfig, options, "CcAddresses");
    DestinationListsSpreadable(sesConfig, options, "BccAddresses");
  }

  /**
    The error for a reply that is not ok, as written: the body is read with
    `response.json()`, and when that fails `response.text()` reads the
    already consumed body again, which raises the runtime's body-used error.
   */
  function ErrorAsWritten(io: EdgeRuntime, reply: HttpReply): Error {
    var json := io.parseJson(reply.body);
    if json.Success? then NewError(StatusLine(reply) + io.stringify(json.value))
    else io.bodyUsed
  }

  /** The error for a reply that is not ok, as intended: the JSON body restringified, or else the raw body text. */
  function ErrorReported(io: EdgeRuntime, reply: HttpReply): (e: Error)
    ensures e.PlainError?
    ensures |e.message| >= |StatusLine(reply)| && e.message[..|StatusLine(reply)|] == StatusLine(reply)
    ensures io.parseJson(reply.body).Failure? ==> e.message == StatusLine(reply) + reply.body
  {
    var json := io.parseJson(reply.body);
    var details := if json.Success? then io.stringify(json.value) else reply.body;
    NewError(StatusLine(reply) + details)
  }

  /** The error for a reply that is not ok, as written or as intended. */
  function ReplyError(io: EdgeRuntime, reply: HttpReply, asWritten: bool): Error {
    if asWritten then ErrorAsWritten(io, reply) else ErrorReported(io, reply)
  }

  /**
    What the edge sender makes of the outcome `sent` of posting `input`: a
    failed request's error, the error for a reply that is not ok, the JSON
    parse error of an ok reply, the `TypeError` of reading `MessageId` from
    a `null` reply, or the result built from its JSON.
   */
  function Outcome(sent: Result<HttpReply, Error>, input: Value, io: EdgeRuntime, asWritten: bool)
    : (r: Result<SentInfo, Error>)
    requires ListsSpreadable(input)
    ensures sent.Failure? ==> r == Failure(sent.error)
    ensures sent.Success? && !sent.value.ok ==> r == Failure(ReplyError(io, sent.value, asWritten))
    ensures sent.Success? && sent.value.ok && io.parseJson(sent.value.body).Success?
              && Nullish(io.parseJson(sent.value.body).value) ==>
      r == Failure(PropertyReadError(io.parseJson(sent.value.body).value, "MessageId"))
    ensures r.Success? <==>
      && sent.Success? && sent.value.ok && io.parseJson(sent.value.body).Success?
      && !Nullish(io.parseJson(sent.value.body).value)
    ensures r.Success? ==> r.value == Delivered(input, io.parseJson(sent.value.body).value, io.stringify)
  {
    if sent.Failure? then Failure(sent.error)
    else if !sent.value.ok then Failure(ReplyError(io, sent.value, asWritten))
    else
      var data := io.parseJson(sent.value.body);
      if data.Failure? then Failure(data.error)
      else
        var messageId := Read(data.value, "MessageId");
        if messageId.Failure? then Failure(messageId.error)
        else Success(Delivered(input, data.value, io.stringify))
  }

  /** The reply `client.fetch` produces for the edge sender's request. */
  function EdgeReply(sesConfig: Value, options: Record, io: EdgeRuntime): Result<HttpReply, Error>
    requires EdgeArgsTyped(sesConfig, options)
  {
    var clientConfig := ClientConfig.GetSesClientConfigEdge(sesConfig);
    io.fetch(clientConfig, Endpoint(sesConfig, clientConfig), io.stringify(EdgeInput(sesConfig, options)))
  }

  /**
    `sendSesEdge(sesConfig, options)` as written: a result accepts exactly
    its envelope recipients and comes from the request's sender; a failed
    request's error is passed on; a reply that is not ok fails with its
    status line and JSON details, or with the body-used error when the
    body is not JSON.
   */
  function SendSesEdgeAsWritten(sesConfig: Value, options: Record, io: EdgeRuntime): (r: Result<SentInfo, Error>)
    requires EdgeArgsTyped(sesConfig, options)
    ensures r.Success? ==>
      && r.value.accepted == r.value.envelopeTo == Recipients(EdgeInput(sesConfig, options))
      && r.value.rejected == [] && r.value.pending == []
      && r.value.envelopeFrom == Prop(EdgeInput(sesConfig, options), "FromEmailAddress")
    ensures EdgeReply(sesConfig, options, io).Failure? ==> r == Failure(EdgeReply(sesConfig, options, io).error)
    ensures var sent := EdgeReply(sesConfig, options, io);
      sent.Success? && !sent.value.ok && io.parseJson(sent.value.body).Failure? ==> r == Failure(io.bodyUsed)
    ensures var sent := EdgeReply(sesConfig, options, io);
      sent.Success? && !sent.value.ok && io.parseJson(sent.value.body).Success? ==>
        r == Failure(NewError(StatusLine(sent.value) + io.stringify(io.parseJson(sent.value.body).value)))
  {
    InputListsSpreadable(sesConfig, options);
    Outcome(EdgeReply(sesConfig, options, io), EdgeInput(sesConfig, options), io, true)
  }

  /**
    `sendSesEdge(sesConfig, options)` corrected: the error details of a
    reply that is not ok are read from its body once.
   */
  function SendSesEdge(sesConfig: Value, options: Record, io: EdgeRuntime): (r: Result<SentInfo, Error>)
    requires EdgeArgsTyped(sesConfig, options)
    ensures r.Success? ==>
      && r.value.accepted == r.value.envelopeTo == Recipients(EdgeInput(sesConfig, options))
      && r.value.rejected == [] && r.value.pending == []
      && r.value.envelopeFrom == Prop(EdgeInput(sesConfig, options), "FromEmailAddress")
  {
    InputListsSpreadable(sesConfig, options);
    Outcome(EdgeReply(sesConfig, options, io), EdgeInput(sesConfig, options), io, false)
  }

  /**
    As written, a failed reply whose body is not JSON loses its status and
    body: the sender fails with the body-used error instead.
   */
  lemma NonJsonErrorLosesStatus(sesConfig: Value, options: Record, io: EdgeRuntime)
    requires EdgeArgsTyped(sesConfig, options)
    requires EdgeReply(sesConfig, options, io).Success? && !EdgeReply(sesConfig, options, io).value.ok
    requires io.parseJson(EdgeReply(sesConfig, options, io).value.body).Failure?
    ensures SendSesEdgeAsWritten(sesConfig, options, io) == Failure(io.bodyUsed)
  {
  }

  /**
    Every reply that is not ok fails with `"<status> <statusText>: <details>"`,
    where the details are the raw body text when it is not JSON.
   */
  lemma FailedReplyReportsStatus(sesConfig: Value, options: Record, io: EdgeRuntime)
    requires EdgeArgsTyped(sesConfig, options)
    requires EdgeReply(sesConfig, options, io).Success? && !EdgeReply(sesConfig, options, io).value.ok
    ensures var reply := EdgeReply(sesConfig, options, io).value;
      && SendSesEdge(sesConfig, options, io).Failure?
      && var m := SendSesEdge(sesConfig, options, io).error.message;
      && m[..|StatusLine(reply)|] == StatusLine(reply)
      && (io.parseJson(reply.body).Failure? ==> m == StatusLine(reply) + reply.body)
      && (io.parseJson(reply.body).Success? ==> SendSesEdge(sesConfig, options, io) == SendSesEdgeAsWritten(sesConfig, options, io))
  {
  }

  /**
    The correction changes one case only: the corrected and the as-written
    senders differ exactly when a reply that is not ok has a body that is
    not JSON and the body-used error differs from the reported one.
   */
  lemma CorrectionOnlyTouchesNonJsonErrors(sesConfig: Value, options: Record, io: EdgeRuntime)
    requires EdgeArgsTyped(sesConfig, options)
    ensures var sent := EdgeReply(sesConfig, options, io);
      SendSesEdge(sesConfig, options, io) != SendSesEdgeAsWritten(sesConfig, options, io) <==>
        && sent.Success? && !sent.value.ok && io.parseJson(sent.value.body).Failure?
        && io.bodyUsed != NewError(StatusLine(sent.value) + sent.value.body)
  {
    InputListsSpreadable(sesConfig, options);
    OutcomesDiffer(EdgeReply(sesConfig, options, io), EdgeInput(sesConfig, options), io);
  }

  /** The as-written and the corrected outcome of one exchange differ only on a non-JSON error body. */
  lemma OutcomesDiffer(sent: Result<HttpReply, Error>, input: Value, io: EdgeRuntime)
    requires ListsSpreadable(input)
    ensures Outcome(sent, input, io, false) != Outcome(sent, input, io, true) <==>
      && sent.Success? && !sent.value.ok && io.parseJson(sent.value.body).Failure?
      && io.bodyUsed != NewError(StatusLine(sent.value) + sent.value.body)
  {
  }

  /**
    Without `commandInput`, the accepted recipients are the formatted `to`,
    `cc` and `bcc` addresses, in that order.
   */
  lemma AcceptedAreFormattedRecipients(sesConfig: Value, options: Record, io: EdgeRuntime)
    requires EdgeArgsTyped(sesConfig, options)
    requires Nullish(Prop(sesConfig, "commandInput"))
    requires SendSesEdge(sesConfig, options, io).Success?
    ensures SendSesEdge(sesConfig, options, io).value.accepted ==
      Items(ToAddressStringArray(Get(options, "to")))
      + Items(ToAddressStringArray(Get(options, "cc")))
      + Items(ToAddressStringArray(Get(options, "bcc")))
  {
    var input := EdgeInput(sesConfig, options);
    assert SendSesEdge(sesConfig, options, io).value.accepted == Recipients(input);
    NoCommandInputDestination(sesConfig, options);
    BuiltDestinationLists(options);
  }

  /** The built destination holds the formatted `to`, `cc` and `bcc` lists under their SES names. */
  lemma BuiltDestinationLists(options: Record)
    requires MailOptions.WellTyped(options)
    ensures var d := MailOptions.SesDestination(options);
      && Prop(d, "ToAddresses") == ToAddressStringArray(Get(options, "to"))
      && Prop(d, "CcAddresses") == ToAddressStringArray(Get(options, "cc"))
      && Prop(d, "BccAddresses") == ToAddressStringArray(Get(options, "bcc"))
  {
  }

  /** Without `commandInput` the posted destination is the one built from the options. */
  lemma NoCommandInputDestination(sesConfig: Value, options: Record)
    requires EdgeArgsTyped(sesConfig, options)
    requires Nullish(Prop(sesConfig, "commandInput"))
    ensures Prop(EdgeInput(sesConfig, options), "Destination") == MailOptions.SesDestination(options)
  {
    MailOptions.NoCommandInputSendsRequest(options, sesConfig);
    assert Defu.Takes(MailOptions.SesRequest(options), "Destination");
  }

  const FailurePrefix: string := "[nuxt-transport-mailer] SES Transport failed: "

  /** `` `[nuxt-transport-mailer] SES Transport failed: ${err.message || err}` ``. */
  function Wrapped(e: Error): (w: Error)
    ensures w.PlainError?
    ensures |w.message| >= |FailurePrefix| && w.message[..|FailurePrefix|] == FailurePrefix
    ensures e.message != "" ==> w.message == FailurePrefix + e.message
    ensures e.message == "" ==> w.message == FailurePrefix + ErrorText(e)
  {
    NewError(FailurePrefix + (if e.message != "" then e.message else ErrorText(e)))
  }

  /** The dispatcher's catch block: a result passes through, a failure is wrapped with the transport prefix. */
  function Dispatched(result: Result<SentInfo, Error>): (r: Result<SentInfo, Error>)
    ensures result.Success? ==> r == result
    ensures result.Failure? ==> r == Failure(Wrapped(result.error))
  {
    if result.Success? then result else Failure(Wrapped(result.error))
  }

  /**
    `sendSes(sesConfig, options)`: the edge sender when the module's `edge`
    flag is truthy, the Node sender `sendSesNode` otherwise; a result is
    passed through, a failure is wrapped with the transport prefix.
   */
  function SendSes(edge: Value, sesConfig: Value, options: Record, io: EdgeRuntime,
                   sendSesNode: (Value, Record) -> Result<SentInfo, Error>): (r: Result<SentInfo, Error>)
    requires Truthy(edge) ==> EdgeArgsTyped(sesConfig, options)
    ensures Truthy(edge) && SendSesEdgeAsWritten(sesConfig, options, io).Success? ==>
      r == SendSesEdgeAsWritten(sesConfig, options, io)
    ensures !Truthy(edge) && sendSesNode(sesConfig, options).Success? ==> r == sendSesNode(sesConfig, options)
    ensures Truthy(edge) && SendSesEdgeAsWritten(sesConfig, options, io).Failure? ==>
      r == Failure(Wrapped(SendSesEdgeAsWritten(sesConfig, options, io).error))
    ensures !Truthy(edge) && sendSesNode(sesConfig, options).Failure? ==>
      r == Failure(Wrapped(sendSesNode(sesConfig, options).error))
    ensures r.Failure? ==>
      && r.error.PlainError?
      && |r.error.message| >= |FailurePrefix|
      && r.error.message[..|FailurePrefix|] == FailurePrefix
  {
    Dispatched(if Truthy(edge) then SendSesEdgeAsWritten(sesConfig, options, io) else sendSesNode(sesConfig, options))
  }

  /** `sendSes` over the corrected edge sender. */
  function SendSesCorrected(edge: Value, sesConfig: Value, options: Record, io: EdgeRuntime,
                            sendSesNode: (Value, Record) -> Result<SentInfo, Error>): (r: Result<SentInfo, Error>)
    requires Truthy(edge) ==> EdgeArgsTyped(sesConfig, options)
    ensures Truthy(edge) && SendSesEdge(sesConfig, options, io).Success? ==> r == SendSesEdge(sesConfig, options, io)
    ensures !Truthy(edge) ==> r == SendSes(edge, sesConfig, options, io, sendSesNode)
    ensures Truthy(edge) && SendSesEdge(sesConfig, options, io).Failure? ==>
      r == Failure(Wrapped(SendSesEdge(sesConfig, options, io).error))
  {
    Dispatched(if Truthy(edge) then SendSesEdge(sesConfig, options, io) else sendSesNode(sesConfig, options))
  }

  /** The edge flag alone picks the sender: the edge path never calls the Node sender, and the Node path never posts. */
  lemma EdgeFlagPicksSender(edge: Value, sesConfig: Value, options: Record, io1: EdgeRuntime, io2: EdgeRuntime,
                            node1: (Value, Record) -> Result<SentInfo, Error>,
                            node2: (Value, Record) -> Result<SentInfo, Error>)
    requires Truthy(edge) ==> EdgeArgsTyped(sesConfig, options)
    ensures Truthy(edge) ==> SendSes(edge, sesConfig, options, io1, node1) == SendSes(edge, sesConfig, options, io1, node2)
    ensures !Truthy(edge) ==> SendSes(edge, sesConfig, options, io1, node1) == SendSes(edge, sesConfig, options, io2, node1)
  {
  }

  /**
    As written, through the dispatcher, a failed edge reply whose body is
    not JSON surfaces as the prefixed body-used error: its status is lost.
   */
  lemma DispatchedNonJsonFailureLosesStatus(edge: Value, sesConfig: Value, options: Record, io: EdgeRuntime,
                                            sendSesNode: (Value, Record) -> Result<SentInfo, Error>)
    requires Truthy(edge) && EdgeArgsTyped(sesConfig, options)
    requires EdgeReply(sesConfig, options, io).Success? && !EdgeReply(sesConfig, options, io).value.ok
    requires io.parseJson(EdgeReply(sesConfig, options, io).value.body).Failure?
    ensures SendSes(edge, sesConfig, options, io, sendSesNode) == Failure(Wrapped(io.bodyUsed))
  {
  }

  /** Corrected, through the dispatcher, a failed edge reply keeps its status line behind the transport prefix. */
  lemma DispatchedFailureKeepsStatus(edge: Value, sesConfig: Value, options: Record, io: EdgeRuntime,
                                     sendSesNode: (Value, Record) -> Result<SentInfo, Error>)
    requires Truthy(edge) && EdgeArgsTyped(sesConfig, options)
    requires EdgeReply(sesConfig, options, io).Success? && !EdgeReply(sesConfig, options, io).value.ok
    requires io.parseJson(EdgeReply(sesConfig, options, io).value.body).Failure?
    ensures var reply := EdgeReply(sesConfig, options, io).value;
      SendSesCorrected(edge, sesConfig, options, io, sendSesNode).error.message ==
        FailurePrefix + StatusLine(reply) + reply.body
  {
    var reply := EdgeReply(sesConfig, options, io).value;
    NonJsonReplyMessage(sesConfig, options, io);
    WrappedStatusMessage(NewError(StatusLine(reply) + reply.body), reply);
  }

  /** Wrapping an error whose message begins with a status line puts the prefix right before that line. */
  lemma WrappedStatusMessage(e: Error, reply: HttpReply)
    requires e.message == StatusLine(reply) + reply.body
    ensures Wrapped(e).message == FailurePrefix + StatusLine(reply) + reply.body
  {
    assert |StatusLine(reply)| > 0;
  }

  /** A failed reply whose body is not JSON fails the edge sender with the status line and the raw body. */
  lemma NonJsonReplyMessage(sesConfig: Value, options: Record, io: EdgeRuntime)
    requires EdgeArgsTyped(sesConfig, options)
    requires EdgeReply(sesConfig, options, io).Success? && !EdgeReply(sesConfig, options, io).value.ok
    requires io.parseJson(EdgeReply(sesConfig, options, io).value.body).Failure?
    ensures SendSesEdge(sesConfig, options, io) ==
      Failure(NewError(StatusLine(EdgeReply(sesConfig, options, io).value) + EdgeReply(sesConfig, options, io).value.body))
  {
  }
}
