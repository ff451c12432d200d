# nuxt-transport-mailer in Dafny

This project models the part of nuxt-transport-mailer that normalises and dispatches mail. The model covers:

- **Translators.** One generic email envelope is turned into the option shapes of three mail libraries. worker-mailer wants structured `{name, email}` users. nodemailer wants formatted `"Name <email>"` strings. The SES v2 `SendEmailRequest` wants string lists, merged over the module's `commandInput`. SMTP credentials are translated between worker-mailer's `{username, password}` form and nodemailer's `{user, pass}` form, and the SES client configuration is built for Node and for the edge.
- **Schemas.** The zod schemas of the mail API are modelled as parse functions: the email body, the email configuration and the captcha verification parameters.
- **`sendMail`.** It merges the caller's options over the configured defaults with `defu`, insists on a sender and a recipient, and dispatches by driver.
- **`verifyCaptcha`.** It validates the captcha settings and asks the provider's siteverify endpoint about the token.
- **The `POST` send handler.** It checks the honeypot, then the captcha, then sends. Every failure is turned into an HTTP error.
- **The SES transport.** The edge sender posts the SES v2 request itself and synthesises a nodemailer-style result. The dispatcher picks the edge or the Node sender and prefixes every failure.

JavaScript values are the `Value` datatype (`values.dfy`). A key present with `undefined` differs from an absent key, so object spread (`map` union, right side wins) and `defu` (`defu.dfy`) behave as they do in JavaScript. Truthiness, `||`, `??`, `?.` and `String(v)` are defined once and used everywhere.

The collaborators the code calls out to are function-typed parameters of the model: the SMTP transport, the Node SES sender, the signed `fetch` of the edge client, the captcha provider's HTTP endpoint, and JSON parsing and stringification. Each property about them holds for every such function.

Modules follow the source files:

- `address.dfy`, `client_config.dfy` and `mail_options.dfy` model `compatibility.ts`.
- `text.dfy` models `String.prototype.trim` and the address pattern `^([^<]*)<([^>]+)>$`.
- `schemas.dfy` models `schemas.ts`.
- `mail.dfy` models `mail.ts`.
- `captcha.dfy` models `captcha.ts`.
- `send_handler.dfy` models `send.post.ts`.
- `ses_transport.dfy` models `ses.edge.ts` and `ses.ts`.

What `sendMail` in `mail.ts` does, and does not do:

- It dispatches only the `smtp` driver. Every other driver, `ses` and `stream` included, fails with the "not implemented or supported" error.
- It runs no before-send or after-send hooks.
- It checks only for a truthy `from` and a truthy recipient. It does not run the body schema.
- It adds no wrapping of its own to a transport failure. The SMTP transport, a parameter here, prefixes its failures itself; the SES dispatcher wraps its failures with its own prefix.

The SES edge sender is modelled twice: as written (`SendSesEdgeAsWritten`, used by the dispatcher `SendSes`) and with the error-body defect listed under "## Findings" corrected (`SendSesEdge`, used by `SendSesCorrected`). Members about the corrected senders say "corrected" in their row.

A plain property read `v.k` of a JSON reply that is `null` throws a `TypeError`; the captcha check and the edge sender model that failure (`MailTypes.Read`).

## Model

| member | source | states |
|---|---|---|
| Text.TrimSpec | src/runtime/server/utils/compatibility.ts:98-99 | `trim` returns a contiguous infix of its input that has no white space at either end, and everything it cut off on either side is white space |
| Text.TrimFixedPoint | src/runtime/server/utils/compatibility.ts:98-99 | `trim` leaves a string unchanged exactly when the string has no leading or trailing white space |
| Text.MatchBracketedCorrect | src/runtime/server/utils/compatibility.ts:95-96 | the matcher returns groups `(g1, g2)` exactly when `s` is `g1 + "<" + g2 + ">"` with no `<` in `g1` and a non-empty `g2` without `>` (both directions) |
| Text.NoBracketNoMatch | src/runtime/server/utils/compatibility.ts:95-96 | a string without `<`, such as a bare address, never matches the pattern |
| Address.ToUser | src/runtime/server/utils/compatibility.ts:93-113 | the result is always an object with an `email` key; a user object is returned as it is; a nodemailer `{name, address}` becomes `{name, email: address}` |
| Address.BracketedToUser | src/runtime/server/utils/compatibility.ts:94-101 | a string matching `name <email>` becomes a user whose name and email are the trimmed groups |
| Address.UnbracketedToUser | src/runtime/server/utils/compatibility.ts:94-102 | a string the pattern does not match becomes `{email: s}` unchanged |
| Address.ToAddressString | src/runtime/server/utils/compatibility.ts:115-125 | a string address is returned as it is; a record with a truthy name becomes `"name <email>"` and one without the bare email, the email read as `email`, or `address` when that is falsy |
| Address.NamedRecordFormats | src/runtime/server/utils/compatibility.ts:118-122 | a record with a non-empty string name formats as `name + " <" + email + ">"`, the email being `email`, or `address` when that is falsy |
| Address.FalsyEmailUsesAddress | src/runtime/server/utils/compatibility.ts:118 | a record whose `email` is falsy formats exactly like the same record with `email` set to its `address` |
| Address.EmptyEmailExample | src/runtime/server/utils/compatibility.ts:118-122 | `{name: "N", email: "", address: "x"}` formats as `"N <x>"` |
| Address.FormatsCanonicalUser | src/runtime/server/utils/compatibility.ts:118-121 | a user with a non-empty name and email formats as `name <email>` |
| Address.FormatsNamelessUser | src/runtime/server/utils/compatibility.ts:120-124 | a user with an empty name formats as the bare email, without brackets |
| Address.ParsesCanonicalString | src/runtime/server/utils/compatibility.ts:94-101 | `name <email>` with trimmed, bracket-free parts parses back into exactly that name and email |
| Address.FormattedRoundTrip | src/runtime/server/utils/compatibility.ts:93-125 | formatting the user parsed from a canonical `name <email>` string gives back the same string |
| Address.UserRoundTrip | src/runtime/server/utils/compatibility.ts:93-125 | parsing the formatted string of a user with a trimmed name and email gives back the same user |
| Address.BareRoundTrip | src/runtime/server/utils/compatibility.ts:102-124 | a non-empty bare address survives parsing and formatting unchanged |
| Address.UnspacedNameIsRespaced | src/runtime/server/utils/compatibility.ts:95-121 | `name<email>` is parsed and reformatted as `name <email>`, which differs from the input |
| Address.EmptyNameDropsBrackets | src/runtime/server/utils/compatibility.ts:95-124 | `<email>` parses to a user with an empty name, and it formats back as the bare email without brackets |
| Address.ObjectFormatsLikeItsUser | src/runtime/server/utils/compatibility.ts:105-124 | an address object formats the same as the user it converts to |
| Address.UserFormatsLikeAddress | src/runtime/server/utils/compatibility.ts:93-125 | an object naming its mailbox, or a non-empty bare string without `<`, formats the same as the user it converts to |
| Address.UsersFormatLikeAddresses | src/runtime/server/utils/compatibility.ts:127-145 | for a field of such addresses, formatting the one-or-many user form gives the one-or-many string form, list by list and element by element |
| Address.MapToUser | src/runtime/server/utils/compatibility.ts:131 | a list is converted element by element and keeps its length and order |
| Address.MapToAddressString | src/runtime/server/utils/compatibility.ts:141 | a list is formatted element by element and keeps its length and order |
| Address.ToUserOrArray | src/runtime/server/utils/compatibility.ts:127-135 | a falsy input gives `undefined`; a list gives the list of converted elements; a single address gives one user |
| Address.ToAddressOrArray | src/runtime/server/utils/compatibility.ts:137-145 | a falsy input gives `undefined`; a list gives the list of formatted elements; a single address gives one string |
| Address.ToAddressStringArray | src/runtime/server/utils/compatibility.ts:147-152 | a falsy input gives `undefined`; a truthy input gives a list; a single address is lifted to a list of one |
| Address.StringArrayLiftsOneOrMany | src/runtime/server/utils/compatibility.ts:137-152 | the string-array conversion is the one-or-many conversion with a single result wrapped in a list |
| Address.ToSingleUser | src/runtime/server/utils/compatibility.ts:154-162 | a falsy input or an empty list gives `undefined`; a list gives its first element's user |
| Address.SingleUserIsFirst | src/runtime/server/utils/compatibility.ts:127-162 | the single user is the first of the users the one-or-many conversion yields |
| Defu.MergeFields | src/runtime/server/utils/compatibility.ts:17-26 | the merge has exactly the default keys plus the base's defined keys; a default survives where the base has nothing; a base-only key is copied |
| Defu.Merge | src/runtime/server/utils/mail.ts:23 | `defu` always yields a plain object |
| Defu.BaseLeafWins | src/runtime/server/utils/mail.ts:23 | a defined base value that is neither a list nor an object replaces any default |
| Defu.BaseWinsOnKindClash | src/runtime/server/utils/mail.ts:23 | a base value of a different kind from the default replaces it |
| Defu.ListsConcatenate | src/runtime/server/utils/compatibility.ts:255 | two lists under one key are concatenated, the base's items first |
| Defu.ObjectsMergeRecursively | src/runtime/server/utils/mail.ts:23 | two plain objects under one key that is not `__proto__` or `constructor` are merged recursively, the base's fields over the default's |
| Defu.ReservedKeysIgnored | src/runtime/server/utils/mail.ts:23 | a base's `__proto__` or `constructor` key is ignored: the default under it stays, and without a default the key is absent |
| Defu.MergeOverNothing | src/runtime/server/utils/compatibility.ts:255 | merging over `{}` keeps exactly the base's defined keys |
| Defu.MergeOfNothing | src/runtime/server/utils/compatibility.ts:200 | merging an empty base returns the defaults unchanged |
| Defu.MergeSelf | src/runtime/server/utils/mail.ts:23 | merging a record without lists, nullish leaves or reserved keys over itself gives the same record (an inductive proof through nested objects) |
| ClientConfig.ToWorkerMailerConfig | src/runtime/server/utils/compatibility.ts:50-71 | every input key is copied as it is; `credentials` is derived from `{user, pass}` auth only when the input has no `credentials` key |
| ClientConfig.ToNodemailerConfig | src/runtime/server/utils/compatibility.ts:73-91 | every input key is copied as it is; `auth` is derived from worker credentials only when the input has no `auth` key |
| ClientConfig.AuthRoundTrip | src/runtime/server/utils/compatibility.ts:50-91 | `{user, pass}` auth translated to credentials and back gives the original auth |
| ClientConfig.CredentialsRoundTrip | src/runtime/server/utils/compatibility.ts:50-91 | `{username, password}` credentials translated to auth and back give the original credentials |
| ClientConfig.GetSesClientConfigNode | src/runtime/server/utils/compatibility.ts:12-29 | a missing client config gives `{}`; a config with truthy flat keys and a nullish `credentials` gains nested credentials built from them, while a falsy but defined `credentials` is kept as it is; in both cases the other keys are kept unless their value is `null` or `undefined`; any other config is returned unchanged |
| ClientConfig.GetSesClientConfigEdge | src/runtime/server/utils/compatibility.ts:31-48 | client-config keys override; a credential key missing from the client config comes from the nested credentials; `region` is `undefined` and `service` is `'ses'` unless the config sets them |
| ClientConfig.NodeAndEdgeAgreeOnCredentials | src/runtime/server/utils/compatibility.ts:12-48 | for flat credentials, the Node client's nested credentials equal the edge client's flat ones |
| MailOptions.BodyFields | src/runtime/server/utils/compatibility.ts:174-178 | the body fields are copied under their own names, present even when undefined |
| MailOptions.ToWorkerMailerMailOptions | src/runtime/server/utils/compatibility.ts:164-180 | the result has the input's keys plus the address and body keys; every other input key is kept as it is; the body fields are copied even when undefined |
| MailOptions.WorkerAddressesTranslated | src/runtime/server/utils/compatibility.ts:168-172 | `from` and the reply address become single users, the reply from `replyTo` when that is truthy and from `reply` otherwise; `to`, `cc` and `bcc` become users or lists of users |
| MailOptions.TranslationsAgreeOnAddresses | src/runtime/server/utils/compatibility.ts:163-191 | the worker-mailer and nodemailer translations of one envelope carry the same sender and recipients: formatting the worker-mailer users gives the nodemailer strings, for addresses whose user form keeps their format |
| MailOptions.NodemailerFields | src/runtime/server/utils/compatibility.ts:183-197 | `ses` is removed; the other input keys are kept unless they are address or body keys; the body fields are copied even when undefined |
| MailOptions.NodemailerAddressesTranslated | src/runtime/server/utils/compatibility.ts:186-191 | `from` is formatted as a string; `to`, `cc` and `bcc` become strings or string lists; `replyTo` comes from `reply` when that is truthy and from `replyTo` otherwise |
| MailOptions.ToNodemailerMailOptions | src/runtime/server/utils/compatibility.ts:182-204 | `ses` is set exactly when an SES config is given and the driver is `ses`, and then it is the per-call `ses` merged over `commandInput`; the rest is the translation |
| MailOptions.NodemailerSesMerge | src/runtime/server/utils/compatibility.ts:199-201 | a per-call `ses` leaf wins, and a `commandInput` key the call leaves undefined is kept |
| MailOptions.SesBody | src/runtime/server/utils/compatibility.ts:223-233 | `Text` is present exactly when `text` is truthy, and `Html` exactly when `html` is truthy |
| MailOptions.SesRequestFields | src/runtime/server/utils/compatibility.ts:235-253 | the four request fields hold the formatted sender, the destination lists, the reply list and the content |
| MailOptions.ExtraFields | src/runtime/server/utils/compatibility.ts:207-221 | the rest object holds exactly the non-envelope keys |
| MailOptions.SesRequest | src/runtime/server/utils/compatibility.ts:235-253 | per-call `ses` keys override the rest object, and the built request fields override both; the reply list prefers `reply` over `replyTo` |
| MailOptions.ToSESMailOptions | src/runtime/server/utils/compatibility.ts:206-256 | the request holds every `commandInput` key and every defined request key |
| MailOptions.SenderSurvivesMerge | src/runtime/server/utils/compatibility.ts:238-255 | `commandInput` never replaces the formatted sender |
| MailOptions.PerCallSesWins | src/runtime/server/utils/compatibility.ts:237-255 | a per-call `ses` leaf wins over `commandInput` |
| MailOptions.CommandInputRetained | src/runtime/server/utils/compatibility.ts:255 | a `commandInput` key the request leaves undefined is sent as configured |
| MailOptions.NoCommandInputSendsRequest | src/runtime/server/utils/compatibility.ts:255 | without `commandInput`, the request is sent as built, minus its undefined keys |
| MailOptions.DestinationListsFollowFields | src/runtime/server/utils/compatibility.ts:239-243 | a destination list is absent exactly when its recipient field is falsy |
| Schemas.TypeIssues | src/runtime/server/utils/schemas.ts:3-15 | a field gets a type issue exactly when its value has the wrong type |
| Schemas.Parse | src/runtime/server/utils/schemas.ts:3-40 | a non-object is rejected; accepted data is the input restricted to the schema's fields; a rejection carries at least one issue |
| Schemas.NoTypeIssuesIff | src/runtime/server/utils/schemas.ts:3-15 | no type issue is reported exactly when every field has its type (an inductive proof) |
| Schemas.BodyAcceptedIff | src/runtime/server/utils/schemas.ts:3-33 | the body schema accepts exactly the typed objects with a truthy `to`, `cc` or `bcc` |
| Schemas.RecipientRule | src/runtime/server/utils/schemas.ts:16-23 | a typed body without a recipient fails with the recipient message, and only that |
| Schemas.ConfigurationAcceptedIff | src/runtime/server/utils/schemas.ts:38-40 | the configuration schema accepts exactly the bodies the body schema accepts whose `from` is a string, with the same data |
| Schemas.CaptchaIssues | src/runtime/server/utils/schemas.ts:55-59 | each message appears exactly when its field fails; there are no issues exactly when the token and secret key are non-empty strings and the provider is supported |
| Mail.SendMail | src/runtime/server/utils/mail.ts:18-39 | a result comes only from the `smtp` driver with a truthy `from` and recipient; a missing sender, then a missing recipient, then an unknown driver fail with their messages |
| Mail.SmtpReceivesFinalOptions | src/runtime/server/utils/mail.ts:23-35 | the SMTP transport receives the whole configuration and exactly the merged options |
| Mail.RejectionSendsNothing | src/runtime/server/utils/mail.ts:26-38 | a validation or driver failure does not depend on the transport, so nothing is sent |
| Mail.MergeKeepsTruthy | src/runtime/server/utils/mail.ts:23 | a truthy caller value stays truthy in the merged options |
| Mail.CallerStringWins | src/runtime/server/utils/mail.ts:23 | a caller string field is sent as written, whatever the defaults say |
| Mail.DefaultFillsGap | src/runtime/server/utils/mail.ts:21-23 | a field the caller omits or sets to null is taken from the configured defaults |
| Mail.EmptyFromHidesDefault | src/runtime/server/utils/mail.ts:23-27 | an empty caller `from` is not nullish, so it hides the default sender and the send fails for want of a sender |
| Mail.SchemaBodyHasRecipient | src/runtime/server/utils/mail.ts:30-32 | a body the schema accepts keeps a recipient after the merge, so the recipient check passes |
| Captcha.CaptchaParams | src/runtime/server/utils/captcha.ts:12-15 | the parameters are the captcha settings, with `token` set to the caller's token |
| Captcha.ProviderUrl | src/runtime/server/utils/captcha.ts:24-34 | each provider maps to its own siteverify URL, in both directions |
| Captcha.RequestFor | src/runtime/server/utils/captcha.ts:37-44 | the request carries the secret key, the token and the client address |
| MailTypes.Read | src/runtime/server/utils/captcha.ts:46 | a plain property read fails exactly on `null` and `undefined`, with a non-empty `TypeError` message, and otherwise yields the property |
| Captcha.VerifyCaptcha | src/runtime/server/utils/captcha.ts:7-50 | disabled captcha passes; invalid settings fail with 400; otherwise it passes exactly when the provider answers with a reply that is not `null` and has a truthy `success` |
| Captcha.DisabledMakesNoRequest | src/runtime/server/utils/captcha.ts:8-10 | with captcha disabled the outcome is the same for every HTTP client |
| Captcha.InvalidParamsMakeNoRequest | src/runtime/server/utils/captcha.ts:12-19 | invalid settings fail with status 400 before any request |
| Captcha.MissingTokenRejected | src/runtime/server/utils/captcha.ts:12-19 | a missing or empty token is reported with the token message whenever captcha is enabled |
| Captcha.VerificationRequest | src/runtime/server/utils/captcha.ts:21-49 | the provider endpoint receives the token and secret; a falsy `success` is the 400 "Invalid captcha" error; a `null` reply fails with the property-read `TypeError`; a failed request's error is passed on |
| SendHandler.Classify | src/runtime/server/api/send.post.ts:31-52 | every error leaves with a non-zero status: zod errors become 400 carrying their issues, errors with a status are rethrown as they are, the rest become 500 with their own message, or "Failed to send email" when that is empty |
| SendHandler.ClassifyIdempotent | src/runtime/server/api/send.post.ts:40-44 | classifying a classified error changes nothing |
| SendHandler.StripControlFields | src/runtime/server/api/send.post.ts:24-25 | the token and honeypot keys are removed and every other key is kept |
| SendHandler.HandleWith | src/runtime/server/api/send.post.ts:14-52 | a truthy honeypot answers "Sent"; a captcha failure is classified; a delivered result is exactly the sender's result for the stripped body |
| SendHandler.HoneypotTouchesNothing | src/runtime/server/api/send.post.ts:18-20 | a filled honeypot gives the same reply for every captcha client and transport |
| SendHandler.CaptchaFailureSendsNothing | src/runtime/server/api/send.post.ts:23 | a failed captcha check fails the request without reaching any transport |
| SendHandler.SendsStrippedBody | src/runtime/server/api/send.post.ts:23-29 | `sendMail` receives the stripped body; its result is returned and its failure classified |
| SendHandler.NullCaptchaReplyIsServerError | src/runtime/server/api/send.post.ts:22-51 | a captcha provider answering `null` makes the request fail with a 500 carrying the property-read `TypeError` message |
| SendHandler.MissingSenderIsServerError | src/runtime/server/api/send.post.ts:46-51 | a `sendMail` rejection for want of a sender reaches the client as a 500 carrying that message |
| SesTransport.Endpoint | src/runtime/server/transports/ses.edge.ts:25-28 | a configured endpoint is used; otherwise the regional SES v2 URL |
| SesTransport.MergedDestination | src/runtime/server/utils/compatibility.ts:239-255 | the posted destination is the built destination defu-merged over `commandInput`'s destination |
| SesTransport.MergedListTyped | src/runtime/server/transports/ses.edge.ts:48-50 | merging keeps a recipient list a list or absent, whether it comes from the built request or from the defaults |
| SesTransport.DestinationListsSpreadable | src/runtime/server/transports/ses.edge.ts:48-50 | every destination list of the merged request is a list or falsy, given that `commandInput`'s lists are typed |
| SesTransport.Delivered | src/runtime/server/transports/ses.edge.ts:46-62 | accepted equals the envelope recipients, which are `to`, `cc` and `bcc` in order; nothing is rejected or pending; the sender and message id come from the request and reply, and the response text is the reply JSON stringified |
| SesTransport.InputListsSpreadable | src/runtime/server/transports/ses.edge.ts:48-50 | all three destination lists of the posted request can be spread into the recipient list |
| SesTransport.ErrorReported | src/runtime/server/transports/ses.edge.ts:34-44 | corrected: the error message starts with `"<status> <statusText>: "`, followed by the raw body when that is not JSON |
| SesTransport.Outcome | src/runtime/server/transports/ses.edge.ts:34-62 | a failed request's error is passed on; a reply that is not ok fails with the reply error; a `null` JSON reply fails with the `MessageId` read error; a result exists exactly for an ok reply whose body parses as JSON other than `null`, and it is built from that JSON |
| SesTransport.SendSesEdgeAsWritten | src/runtime/server/transports/ses.edge.ts:18-63 | as written: a result accepts exactly its envelope recipients and comes from the request's sender; a failed request's error is passed on; a reply that is not ok fails with its status line and JSON details, or with the body-used error when the body is not JSON |
| SesTransport.SendSesEdge | src/runtime/server/transports/ses.edge.ts:18-63 | corrected: a result accepts exactly its envelope recipients, rejects none, and comes from the request's sender |
| SesTransport.OutcomesDiffer | src/runtime/server/transports/ses.edge.ts:34-44 | the as-written and corrected handling of one exchange differ exactly on a failed reply whose body is not JSON |
| SesTransport.CorrectionOnlyTouchesNonJsonErrors | src/runtime/server/transports/ses.edge.ts:34-44 | the corrected and as-written edge senders agree on every exchange except a failed reply whose body is not JSON |
| SesTransport.NonJsonErrorLosesStatus | src/runtime/server/transports/ses.edge.ts:36-42 | as written, a failed reply whose body is not JSON fails with the body-used error instead of its status |
| SesTransport.FailedReplyReportsStatus | src/runtime/server/transports/ses.edge.ts:34-44 | corrected, every failed reply reports its status line and details; for JSON bodies it agrees with the code as written |
| SesTransport.AcceptedAreFormattedRecipients | src/runtime/server/transports/ses.edge.ts:48-58 | without `commandInput`, the accepted list is the formatted `to`, `cc` and `bcc` addresses, in that order |
| SesTransport.BuiltDestinationLists | src/runtime/server/utils/compatibility.ts:239-243 | the built destination holds the formatted `to`, `cc` and `bcc` lists under `ToAddresses`, `CcAddresses` and `BccAddresses` |
| SesTransport.NoCommandInputDestination | src/runtime/server/utils/compatibility.ts:239-255 | without `commandInput`, the posted destination is the one built from the options |
| SesTransport.Wrapped | src/runtime/server/transports/ses.ts:25-27 | the wrapped error starts with the SES prefix and carries the message, or the error's text when the message is empty |
| SesTransport.Dispatched | src/runtime/server/transports/ses.ts:14-27 | a result passes through unchanged; a failure is replaced by its wrapped form |
| SesTransport.SendSes | src/runtime/server/transports/ses.ts:13-28 | as written, over the as-written edge sender: a result passes through unchanged from the sender the edge flag picks; every failure is that sender's failure wrapped with the SES prefix |
| SesTransport.SendSesCorrected | src/runtime/server/transports/ses.ts:13-28 | corrected: the dispatcher over the corrected edge sender; on the Node path it equals the as-written dispatcher |
| SesTransport.EdgeFlagPicksSender | src/runtime/server/transports/ses.ts:15-22 | the edge path never calls the Node sender, and the Node path never posts |
| SesTransport.DispatchedNonJsonFailureLosesStatus | src/runtime/server/transports/ses.ts:24-27 | as written, through the dispatcher, a failed edge reply whose body is not JSON fails with the prefixed body-used error |
| SesTransport.NonJsonReplyMessage | src/runtime/server/transports/ses.edge.ts:34-44 | corrected, a failed reply with a non-JSON body fails the edge sender with the status line followed by the raw body |
| SesTransport.WrappedStatusMessage | src/runtime/server/transports/ses.ts:25-27 | wrapping a status-line error puts the SES prefix right before the status line |
| SesTransport.DispatchedFailureKeepsStatus | src/runtime/server/transports/ses.ts:13-28 | corrected, through the dispatcher, a failed edge reply's message is the prefix, the status line and the body |

## Left out

- Network, clocks and the runtime configuration store are parameters of the model. These include the SMTP transports (`smtp.ts`, `smtp.node.ts`, `smtp.edge.ts`), the Node SES sender (`ses.node.ts`), the edge client's request signing, and the captcha provider call.
- `stream.ts`, `module.ts`, `routeRules.ts`, `server-api.ts`, `useMailer.ts` and `types.ts` are not part of this model. They are module wiring, a client composable and type declarations, and `sendMail` never reaches `stream.ts`.
- `readBody` is not modelled. The handler starts from the parsed body, and the 400 for malformed JSON is left out.
- Numbers are integers. No fractional number or `NaN` takes part in any branch of the core.
- Address.IsAddressField: every address field (`to`, `cc`, `bcc`, `reply`, `replyTo`, and `from` for the worker-mailer translation) and every list element is required to be falsy, a string or an object, as the TypeScript types declare. The error paths of other JSON values are excluded on purpose and not modelled: `toAddressString(null)` (from a list such as `to: [null]`) and `toUser` of a number or boolean throw a `TypeError`, and `toAddressString` of a number or boolean returns `undefined`. The send handler passes the request body to `sendMail` without the schema, so such bodies can reach the translators.
- MailOptions.WellTyped: it requires `Address.IsAddressField` of every address field, so the translators are modelled only on bodies whose addresses have their declared types; the same holds for `SesTransport.EdgeArgsTyped`, which includes it.
- Spreading a string or an array into an object is excluded by preconditions (`Spreadable`) that match the TypeScript parameter types. The SES `commandInput` destination lists are likewise required to be lists or absent (`EdgeArgsTyped`).
- Address.IsAddress: the nodemailer and SES translators require `from` to be a string or an object. This leaves out a missing `from`, for which `toAddressString(undefined)` throws a `TypeError` (src/runtime/server/utils/compatibility.ts:187 and :238), and a list `from`, which `toAddressString` formats as `undefined`.
- Captcha.PrettyIssues: zod's `prettifyError` decoration (markers and paths) is not modelled. The message is the issue messages, one per line.
- JSON text is not modelled. `JSON.stringify` and `JSON.parse` are parameters, and the runtime's error for reading a body twice is a parameter too.
- `defu`'s special handling of the `__proto__` and `constructor` keys is modelled only as skipping those keys. A merger function argument is not modelled, because the code never passes one.
- Mail.SchemaBodyHasRecipient: it states that the recipient check passes, not that `sendMail` returns no recipient error. A transport may return any error, including one with the same message.
- SesTransport.SendSesEdge: its own contract covers only successful results. The error path is stated by `FailedReplyReportsStatus`, and the accepted list by `AcceptedAreFormattedRecipients`.
- MailTypes.PropertyReadError: the `TypeError` message follows the V8 wording; other JavaScript engines word it differently.

## Findings

| source | as written | input that shows it | evidently intended | confidence | as-written member | corrected member |
|---|---|---|---|---|---|---|
| src/runtime/server/transports/ses.edge.ts:36-42 | when `response.json()` fails, the fallback calls `response.text()` on the body `json()` already consumed, so it raises the runtime's body-used error and the status and body are lost | SES answers `500 Internal Server Error` with the plain-text body `upstream timeout` | fail with `"500 Internal Server Error: upstream timeout"` | not executed | SesTransport.NonJsonErrorLosesStatus | SesTransport.FailedReplyReportsStatus |
