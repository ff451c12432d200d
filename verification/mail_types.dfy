/** The values that cross the transport boundary: thrown errors and the uniform send result. */
module MailTypes {
  import opened Values
  import opened Wrappers

  /**
    A thrown value, as the handlers tell them apart:
    a zod validation error, an HTTP error built by `createError` (it carries
    a status code), or any other thrown value with its `message` property
    (`""` when it has none) and its string conversion `String(err)`.
   */
  datatype Error =
    | ZodError(issues: seq<Value>, message: string)
    | HttpError(statusCode: int, message: string, data: Value)
    | PlainError(message: string, shown: string)

  /** `new Error(message)`. */
  function NewError(message: string): (e: Error)
    ensures e.PlainError? && e.message == message
  {
    PlainError(message, if message == "" then "Error" else "Error: " + message)
  }

  /** `String(err)`: the error's name, followed by `": "` and its message when that is not empty. */
  function ErrorText(e: Error): string {
    match e
    case ZodError(_, m) => if m == "" then "ZodError" else "ZodError: " + m
    case HttpError(_, m, _) => if m == "" then "Error" else "Error: " + m
    case PlainError(_, shown) => shown
  }

  /**
    The `TypeError` a plain property read `v.k` throws when `v` is `null`
    or `undefined`, in the V8 wording.
   */
  function PropertyReadError(v: Value, k: string): (e: Error)
    ensures e.PlainError? && e.message != ""
  {
    var m := "Cannot read properties of " + (if v.Null? then "null" else "undefined") + " (reading '" + k + "')";
    PlainError(m, "TypeError: " + m)
  }

  /**
    A plain property read `v.k`, without `?.`: it throws on `null` and
    `undefined` and otherwise reads as `Prop`.
   */
  function Read(v: Value, k: string): (r: Result<Value, Error>)
    ensures r.Failure? <==> Nullish(v)
    ensures r.Success? ==> r.value == Prop(v, k)
    ensures r.Failure? ==> r.error.PlainError? && r.error.message != ""
  {
    if Nullish(v) then Failure(PropertyReadError(v, k)) else Success(Prop(v, k))
  }

  /**
    The uniform send result (nodemailer's `SentMessageInfo`): message id,
    envelope sender and recipients, accepted, rejected and pending
    recipients, and the transport's raw response text.
   */
  datatype SentInfo = SentInfo(
    messageId: Value,
    envelopeFrom: Value,
    envelopeTo: seq<Value>,
    accepted: seq<Value>,
    rejected: seq<Value>,
    pending: seq<Value>,
    response: string)
}
