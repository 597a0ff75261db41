# fcm-notifications — a Dafny model of the notification routes and service

This project models the logic of a small Express service that relays push
notifications to Firebase Cloud Messaging (FCM):

- `FCMService` (`src/services/fcm.service.ts`) turns a `NotificationPayload`
  into the provider's message shape — notification title and body, a string
  `data` record and a device `token` — or builds a topic message, and returns
  the provider's response or re-raises its error.
- The test routes (`src/routes/test.routes.ts`): bulk send to a list of
  tokens with per-token accounting; the scheduled notification with its delay
  clamp; the notification-type table; and the token-format validator.

The provider SDK is an oracle `Provider = Message -> Outcome`, where an
outcome is `Sent(response)` or `Failed(error)`. Clock readings such as
`Date.now()`, ISO dates and locale time strings are parameters. In the bulk
loop they are functions of the iteration index, because the source reads the
clock afresh on every pass. Request-body fields are `Option`s, with `None`
standing for an absent field (for `tokens`, also for `null` or any value that
is not an array). A string field fails the source's `!field`
guard when it is absent or empty (`JsText.Truthy`).

Modules, one per source component:

| module | file | models |
|---|---|---|
| `Wrappers` | wrappers.dfy | `Option` |
| `JsText` | js_text.dfy | JavaScript `toString` of integers and booleans, falsiness, UTF-16 `length` |
| `FcmService` | fcm_service.dfy | `sendNotification`, `sendToTopic` |
| `BulkSend` | bulk_send.dfy | `POST /bulk-send` |
| `ScheduledNotification` | scheduled_notification.dfy | `POST /scheduled-notification` |
| `NotificationTypes` | notification_types.dfy | `POST /notification-types` |
| `TokenValidation` | token_validation.dfy | `POST /validate-token` |

The bulk send sends one token at a time, never retries, and cannot be
cancelled; the model does the same.

## Model

| member | source | states |
|---|---|---|
| JsText.NumberToString | src/services/fcm.service.ts:24-25 | `toString` of an integer is non-empty, starts with `-` exactly for negatives, and is decimal digits after the first character |
| JsText.NumberToStringCanonical | src/services/fcm.service.ts:24-25 | `toString` of an integer is in canonical form: decimal digits with no leading zero, preceded by `-` only for nonzero values; it is "0" exactly for zero |
| JsText.NumberToStringRoundTrip | src/services/fcm.service.ts:24-25 | every integer's decimal string parses back to that integer |
| JsText.NumberToStringInjective | src/routes/test.routes.ts:38-39 | distinct integers give distinct decimal strings |
| JsText.BoolToString | src/services/fcm.service.ts:26 | `read.toString()` yields a string that parses back to the same boolean ("true"/"false") |
| JsText.Truthy | src/routes/test.routes.ts:235 | the `!field` guard rejects a string field exactly when it is absent or empty |
| JsText.Utf16Length | src/routes/test.routes.ts:245 | `length` counts UTF-16 units: at least the character count and at most twice it |
| JsText.Utf16LengthOfChar | src/routes/test.routes.ts:245 | one character has `length` 1, or 2 when it lies above U+FFFF (a surrogate pair), so "😀".length is 2 |
| JsText.Utf16LengthAppend | src/routes/test.routes.ts:245 | `length` of a concatenation is the sum of the lengths; with the one-character case this fixes `length` on every string |
| JsText.Utf16LengthOfBmp | src/routes/test.routes.ts:245 | for text inside the Basic Multilingual Plane, `length` equals the character count |
| FcmService.DeviceMessage | src/services/fcm.service.ts:18-30 | title to `notification.title`, description to `notification.body`, token to `token`; `data` has exactly the keys id/type/read/issuedDate, with id and type as decimal strings, read as "true"/"false" and issuedDate verbatim |
| FcmService.DeviceMessageLossless | src/services/fcm.service.ts:18-30 | the payload can be read back from its device message, so no field is lost in stringification |
| FcmService.SendNotification | src/services/fcm.service.ts:17-40 | one provider call on the payload's device message; success and error come back unchanged |
| FcmService.TopicMessage | src/services/fcm.service.ts:45-58 | title and body copied, `data` passed through or `{}` when absent, addressed to the topic and never to a device token |
| FcmService.SendToTopic | src/services/fcm.service.ts:45-67 | one provider call on the topic message; success and error come back unchanged |
| BulkSend.BulkPayload | src/routes/test.routes.ts:33-42 | the i-th payload carries the i-th token, id `clock(i) + i`, type 2, unread, the iteration's ISO date, title `title (i+1/n)` and description `description - Message i+1` |
| BulkSend.BulkCounterRoundTrip | src/routes/test.routes.ts:39 | the i-th description is `description - Message ` followed by a counter that reads back as i+1 |
| BulkSend.BulkMessagesDistinct | src/routes/test.routes.ts:34-42 | no two iterations of one batch build the same message |
| BulkSend.BulkIdsIncrease | src/routes/test.routes.ts:36 | with a clock that never runs backwards, ids strictly increase along the batch |
| BulkSend.BulkMessagesOnePerToken | src/routes/test.routes.ts:32-45 | a batch has one payload per token; the message built from the i-th is addressed to the i-th token, and no two of the messages are alike |
| BulkSend.SendNext | src/routes/test.routes.ts:43-49 | one pass of the loop hands the next payload to `sendNotification` and files the outcome for that token: `results` grows by the response on success, `errors` by the error message on failure |
| BulkSend.FileNext | src/routes/test.routes.ts:44-49 | filing one more attempt appends it to `results` if it succeeded and to `errors` if it failed, and leaves the other list unchanged |
| BulkSend.PartitionCounts | src/routes/test.routes.ts:44-59 | `results` and `errors` together are exactly as long as the token list |
| BulkSend.PositionsCharacterised | src/routes/test.routes.ts:44-49 | the positions filed as successes or failures are strictly increasing and are exactly those with that outcome |
| BulkSend.ExactlyOneList | src/routes/test.routes.ts:44-49 | every token position is in exactly one of the two lists |
| BulkSend.SuccessesInInputOrder | src/routes/test.routes.ts:45-46 | `results` is the successful attempts in input order, each with its token and the provider's response |
| BulkSend.FailuresInInputOrder | src/routes/test.routes.ts:47-48 | `errors` is the failed attempts in input order, each with its token and the provider error's message |
| BulkSend.SendAll | src/routes/test.routes.ts:28-50 | `sendNotification` receives exactly the batch's payloads, each once and in input order, with no stop at a failure; `results` and `errors` are the successes and failures of those sends |
| BulkSend.BulkSend | src/routes/test.routes.ts:10-59 | a missing or empty token list gives 400 with no send; otherwise the batch's payloads are sent (title and description defaulted when absent), with `total` = token count = `successful + failed`, and each count the length of its list |
| ScheduledNotification.ClampDelay | src/routes/test.routes.ts:90 | the delay always lies in [1,60], an in-range request is kept, and values below or above are raised to 1 or lowered to 60 |
| ScheduledNotification.ClampDelayMonotoneIdempotent | src/routes/test.routes.ts:90 | clamping preserves order and clamping twice changes nothing |
| ScheduledNotification.ScheduleNotification | src/routes/test.routes.ts:69-110 | a missing or empty token gives 400; otherwise the acknowledged delay is the clamp of the request (default 5), and the deferred payload has type 3, is unread, and keeps the title with the description suffixed by the send time |
| NotificationTypes.LookupType | src/routes/test.routes.ts:144-179 | exactly the five names have entries; each name's numeric type is its position in info, warning, error, success, urgent; its category is the name; priority is high and action_required present exactly for warning, error and urgent |
| NotificationTypes.LookupTypeInjective | src/routes/test.routes.ts:144-179 | distinct names have distinct numeric types |
| NotificationTypes.TypedPayload | src/routes/test.routes.ts:191-199 | the payload takes the entry's title, description and numeric type, is unread, and has id `now` and the handler's ISO date |
| NotificationTypes.SendEntry | src/routes/test.routes.ts:191-211 | exactly one message goes to the provider. On success the reply is 200 with "<name> notification sent successfully", the payload, the entry's data and the response; on a provider error it is 500 with the error's message |
| NotificationTypes.SendTypedNotification | src/routes/test.routes.ts:129-211 | a missing token or unknown name gives 400 and nothing is sent, with the list of available types; a known name sends exactly its entry's message and relays the response (with payload and message text) or the error message |
| NotificationTypes.PropertyLookup | src/routes/test.routes.ts:181-182 | `notificationTypes[name]` is an own entry exactly for the five names and an inherited member exactly for `Object.prototype` names |
| NotificationTypes.SendTypedNotificationAsWritten | src/routes/test.routes.ts:181-189 | as written, only names that are neither table entries nor inherited members are rejected as invalid; every inherited name gives 500 with nothing sent |
| NotificationTypes.InheritedNameEscapesValidation | src/routes/test.routes.ts:181-189 | "toString" is not a type, yet as written it yields 500, where the intended handler yields 400 |
| NotificationTypes.AsWrittenAgreesElsewhere | src/routes/test.routes.ts:181-189 | outside the inherited names, the handler as written and the intended handler agree |
| TokenValidation.AllTokenChars | src/routes/test.routes.ts:246 | true exactly when every character is in `[A-Za-z0-9_-]` |
| TokenValidation.MatchesTokenPattern | src/routes/test.routes.ts:246 | `/^[A-Za-z0-9_-]+$/` matches exactly a non-empty string of token characters, which therefore has no space |
| TokenValidation.ValidateToken | src/routes/test.routes.ts:232-267 | a missing or empty token gives 400; otherwise isValid = length check and character check, length is the UTF-16 length with minimum 140, and the format check holds exactly when there is no space |
| TokenValidation.ValidTokenCharacterised | src/routes/test.routes.ts:245-251 | a token is valid exactly when it has at least 140 characters, all in `[A-Za-z0-9_-]` |
| TokenValidation.ValidTokenHasNoSpace | src/routes/test.routes.ts:251-263 | a valid token always passes the "no spaces" format check |

## Left out

- `src/app.ts` and `src/routes/fcm.routes.ts`: HTTP wiring and presence checks, with no logic beyond what the service models.
- The provider SDK call: it is the `Provider` oracle. It is a function of the message. This loses nothing in a bulk send, because `BulkMessagesDistinct` shows every call there gets a different message.
- Console logging in the service and the routes.
- The timer of the scheduled notification. That covers `setTimeout`, replying before sending, and the fire-and-forget send whose failure is only logged. The deferred payload is modelled; its delivery is not.
- The `scheduledFor` field of the acknowledgement: it is clock arithmetic on `Date.now()`.
- The health endpoint: process uptime and environment variables.
- The outer `try`/`catch` returning 500 in the bulk and scheduled handlers: no modelled step can throw there.
- The `hasColonPrefix` value of the validator (test.routes.ts:247): it is computed and never used, so it cannot affect the reply.
- Fixed reply texts and literals: they carry no logic. They include the `message` strings "Bulk send completed", "Missing tokens array", "Missing FCM token", "Invalid notification type", "Missing token to validate" and "Token validation complete", and the validator's `note`, `checks.format.note` and `allowed` description. The `example` and `availableTypes` bodies of the missing-field 400 replies and the constant `success` flags of bulk records are also left out.
- JavaScript `number` edge cases: ids, types and delays are integers. `NaN`, fractions, and the exponent notation `toString` uses from 1e21 upward are not modelled.
- Request values of the wrong JSON type, such as a number as token or non-string array elements: fields are typed. `None` stands for an absent field, and for `tokens` also for `null` or a non-array value.
- An explicit `null` in `title`, `description`, `delaySeconds` or `type`. JavaScript applies a destructuring default only to `undefined`, so the source keeps the `null`: it builds "null (1/n)" as a bulk title, clamps `null` to 1, and rejects type `null` with 400. The model has no `null` value; it gives these fields only "absent" (the default applies) or a value of the field's type.
- Lone surrogates: strings are sequences of Unicode scalar values, so a JSON string with an unpaired surrogate such as `"\ud800"`, which JavaScript keeps and counts as one unit of `length`, cannot be represented.
- NotificationTypes.UndefinedTypeErrorMessage: the TypeError text is the one current V8 engines produce; older engines word it differently.

## Findings

| source | as written | input that shows it | evidently intended | confidence | as-written member | corrected member |
|---|---|---|---|---|---|---|
| src/routes/test.routes.ts:181-189 | the type is looked up with `notificationTypes[type]` on an object literal, so `Object.prototype` names yield a truthy value, pass the guard, leave `payload.type` undefined, and `payload.type.toString()` (src/services/fcm.service.ts:25) throws, giving 500 | `{"token": "t", "type": "toString"}` (also "constructor", "__proto__", "valueOf", ...) | every name outside the five types is answered 400 "Invalid notification type" before any send | high (not executed) | NotificationTypes.SendTypedNotificationAsWritten, NotificationTypes.InheritedNameEscapesValidation | NotificationTypes.SendTypedNotification |
