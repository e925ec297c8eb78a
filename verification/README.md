# AWS Health notification handlers — a Dafny model

The repository's Lambda function receives an AWS Health event from EventBridge.
It formats a notification and publishes it to an SNS topic. This project models
the two handler revisions in `modules/eventbridge/lambda`:

- `index.js`, the main revision. It reads eleven event fields plus the
  `ENVIRONMENT` variable. Any field that is missing or falsy gets a placeholder.
  It picks a status emoji, renders a subject and a plain-text body, and publishes
  once. It then returns a 200 response carrying the SNS message id, or rethrows
  the publish error. With no `detail` it crashes before publishing.
- `index-debug.js`, the troubleshooting revision. It rejects a missing `detail`
  explicitly and reads only service, status and environment. It sends a short
  test message. It never throws: every failure becomes a 500 response carrying
  the error's message.

Modules:

- `Js` models JavaScript primitive values (`undefined`, `null`, booleans, integral
  numbers, strings). It gives the truthiness rule behind `||` and the text `${v}`
  interpolates. `Decimal` writes integral numbers as decimal text.
- `HealthEvent` holds the event shape and `Extract`, which applies the `||`
  placeholders.
- `Platform` holds the environment variables and the host values (Node version
  and clock). It also reduces the SNS publish to its request and an outcome,
  either a message id or an error.
- `Text` handles line joining and splitting, plus prefix and suffix stripping.
- `Notification` models `index.js`: the emoji, the body template line by line,
  the subject, and `Handle`. `ParseBody` and `ParseSubject` read a notification
  back. Lemmas show that these parsers invert the rendering, which proves the
  notification carries every extracted value whenever the values are
  single-line (the description may span lines) and the status is one word.
- `DebugNotification` models `index-debug.js`: `HandleDebug` and the test
  message with its inverse `ParseMessage`.
- `Revisions` relates the two handlers. `Scenarios` holds concrete events.

The publish call is an input to each handler (`Published(id)` or
`PublishFailed(error)`). Each handler returns the publish request it made, if
any, together with its outcome. "Nothing was published" can therefore be stated
directly. Rendering is a pure function of the extracted values, so it is
deterministic by construction.

Notes on the code:

- Classification compares the raw status exactly, case included, with `'closed'`
  and `'open'`; every other value gets the bell (`index.js:20`).
- The subject is `environment + " Health Alert: " + service + " " + status`,
  with the status as received and no event type (`index.js:49`).
- The description placeholder is `No description available`, while every other
  field's placeholder is `Unknown` (`index.js:10`).
- Neither revision renders HTML, sends a fallback notification or truncates the
  subject.
- The debug revision returns failures as 500 responses instead of throwing them
  (`index-debug.js:68-81`).

## Model

| member | source | states |
|---|---|---|
| Js.TruthyIffNotFalsy | modules/eventbridge/lambda/index.js:6-16 | a value is truthy exactly when it is not one of undefined, null, false, 0, "" |
| Js.OrReplacesExactlyFalsy | modules/eventbridge/lambda/index.js:6-16 | `a \|\| b` keeps any value outside the falsy list and replaces every falsy one by `b` |
| HealthEvent.Extract | modules/eventbridge/lambda/index.js:6-16 | each of service, statusCode, eventTypeCode, eventTypeCategory, eventArn, startTime, endTime, time, region and account is `'Unknown'` when falsy and the given value otherwise; the description is the first entry's `latestDescription`, and `'No description available'` when the list is missing or empty or that value is falsy; every extracted value is truthy |
| HealthEvent.FirstDescription | modules/eventbridge/lambda/index.js:10 | the optional chain gives undefined when the description list is missing or empty, and the first entry's `latestDescription` otherwise |
| HealthEvent.ExtractIdempotent | modules/eventbridge/lambda/index.js:6-16 | a property of the placeholders only (neither handler extracts twice): every placeholder is truthy, so extracting again from extracted values changes nothing |
| Js.ToText | modules/eventbridge/lambda/index.js:27-43 | `${v}` keeps a string as it is, writes a number as a numeral that reads back as that number, writes `true`/`false` for booleans, and never gives empty text for a truthy value |
| Platform.EnvironmentName | modules/eventbridge/lambda/index.js:17 | the environment is `ENVIRONMENT` when set and non-empty, `'UNKNOWN'` otherwise, and never empty |
| Notification.StatusEmoji | modules/eventbridge/lambda/index.js:20 | ✅ exactly for the string `'closed'`, ⚠️ exactly for `'open'`, 🔔 for every other status value |
| Notification.ClassificationIsCaseSensitive | modules/eventbridge/lambda/index.js:20 | `'Closed'`, `'CLOSED'`, `'Open'` and `'Unknown'` all get 🔔 |
| Decimal.FromNat | modules/eventbridge/lambda/index.js:23-46 | the text of a numeric field is non-empty, all digits, with a leading zero only for 0 |
| Decimal.FromIntRoundTrip | modules/eventbridge/lambda/index.js:23-46 | the text interpolated for an integral number reads back as that number |
| Decimal.FromIntInjective | modules/eventbridge/lambda/index.js:23-46 | different integral numbers are shown as different text |
| Notification.Render | modules/eventbridge/lambda/index.js:20-46 | the slots are filled as the template names them: the emoji is ✅ exactly for raw status `'closed'` and ⚠️ exactly for `'open'`, the header carries the environment, and Service, Status, Type, Category, Detected, Started, Ended, the description, Event ARN, Region and Account carry the text of service, statusCode, eventTypeCode, eventTypeCategory, time, startTime, endTime, the first latestDescription, eventArn, region and account; every slot is non-empty when the extracted fields are all truthy |
| Notification.Body | modules/eventbridge/lambda/index.js:23-46 | the body begins with the status emoji; when the values are well formed its lines are, in order: header, rule, Event Summary (service, status, type, category), Timeline (detected, started, ended), Description heading, the description's own lines, Details (ARN, region, account), rule, footer |
| Notification.Subject | modules/eventbridge/lambda/index.js:49 | the subject is the environment, then `" Health Alert: "`, then the service, then one space and the status, with nothing else |
| Notification.BodyRoundTrip | modules/eventbridge/lambda/index.js:23-46 | every value placed in the body reads back unchanged, a multi-line description included |
| Notification.ParseBodySound | modules/eventbridge/lambda/index.js:23-46 | text the body parser accepts is exactly the body rendered from the values it returns |
| Notification.ParseBodyCharacterization | modules/eventbridge/lambda/index.js:23-46 | a text parses to given values if and only if it is their rendered body and they are well formed |
| Notification.SubjectRoundTrip | modules/eventbridge/lambda/index.js:49 | the subject is the environment, `" Health Alert: "`, the service, a space and the status, and service and status read back from it |
| Notification.Compose | modules/eventbridge/lambda/index.js:17-59 | the publish request goes to the configured topic; for every input its subject is the environment, `" Health Alert: "`, the service, a space and the status; its message reads back as the rendered extracted values whenever those are well formed; its subject reads back as service and status whenever the status is one word |
| Notification.Handle | modules/eventbridge/lambda/index.js:6-71 | without `detail` nothing is published and the handler throws; otherwise exactly one request is published, and it is the one `Compose` describes; `Published(id)` gives status 200 with message id `id`; a publish error is rethrown unchanged and no 200 is returned |
| Notification.MissingDetailIgnoresPublish | modules/eventbridge/lambda/index.js:6 | without `detail` the outcome is the same whatever the publish would have answered, and no request is made |
| Notification.HandlePublishesExtractedFields | modules/eventbridge/lambda/index.js:6-59 | when the rendered values are well formed (all single-line except the description) and the status is one word, the published body reads back as the rendering of the extracted fields, and the subject as the environment, service and status |
| Notification.PublishedEmojiReflectsStatus | modules/eventbridge/lambda/index.js:20-23 | the published body starts with ✅ iff the raw status is `'closed'` and with ⚠️ iff it is `'open'` |
| DebugNotification.TextOf | modules/eventbridge/lambda/index-debug.js:25-38 | the test message's values are the environment name, the service and status each `'Unknown'` when falsy and their text otherwise (so never empty), the host's `process.version` and the clock reading |
| DebugNotification.Message | modules/eventbridge/lambda/index-debug.js:32-41 | the test message starts with a line break, and for single-line values its lines are exactly the template's ten lines |
| DebugNotification.MessageRoundTrip | modules/eventbridge/lambda/index-debug.js:32-41 | the test message carries the environment, service, status, runtime and timestamp, and each reads back unchanged |
| DebugNotification.ParseMessageSound | modules/eventbridge/lambda/index-debug.js:32-41 | text the message parser accepts is exactly the message built from the values it returns |
| DebugNotification.Compose | modules/eventbridge/lambda/index-debug.js:25-51 | the publish request goes to the configured topic, uses the main revision's subject format, and its message reads back as the environment, defaulted service and status, runtime and timestamp whenever they are single-line |
| DebugNotification.ParseMessageCharacterization | modules/eventbridge/lambda/index-debug.js:32-41 | a text parses to given values if and only if it is the test message built from them and they are single-line |
| DebugNotification.HandleDebug | modules/eventbridge/lambda/index-debug.js:9-81 | the status code is always 200 or 500; without `detail` nothing is published and the response is 500 with `'Invalid event structure: missing detail object'`; with `detail` the request published is the one `DebugNotification.Compose` describes; 200 exactly when `detail` is present and the publish succeeds, echoing the message id, runtime, environment and the defaulted service and status; a publish error gives 500 with that error's message |
| DebugNotification.HandleDebugPublishesFields | modules/eventbridge/lambda/index-debug.js:25-41 | when the environment, service, status, runtime and timestamp are single-line, the published message reads back as the defaulted service and status, the environment, and the host's runtime and clock reading |
| Revisions.SameSubject | modules/eventbridge/lambda/index-debug.js:43 | the debug revision sends the same subject line as the main revision for the same event and configuration |
| Revisions.FailuresBecomeResponses | modules/eventbridge/lambda/index-debug.js:68-81 | both revisions publish under the same condition; a 200 of one is a 200 of the other with the same message id; what the main revision throws, the debug revision returns as a 500 carrying the same message (for a missing `detail`, the validation message); the echoed service and status are the main revision's extracted values |
| Scenarios.RebootEvent | modules/eventbridge/lambda/index.js:6-49 | an open EC2 event with a null end time gives subject `<env> Health Alert: EC2 open` and a body with ⚠️, the description, and `Unknown` as end time |
| Scenarios.RebootExtracted | modules/eventbridge/lambda/index.js:6-16 | for that event only the null end time is replaced by `Unknown` |
| Scenarios.EmptyDetail | modules/eventbridge/lambda/index.js:6-16 | an empty `detail` yields `Unknown` everywhere and `No description available` for the description, and the notification is still published |

## Left out

- The AWS SDK: loading it (`require`), building the client and the network call. The publish outcome is an input. In `index-debug.js` a failure to load the SDK would also become a 500. That path is not modelled, because it depends on the deployment rather than on the event.
- `console.log` and `console.error` output and error stacks. They are I/O with no effect on the result.
- `JSON.stringify`: response bodies are records with the same fields.
- `process.version` and `new Date().toISOString()` are host inputs (`Platform.Host`). Their values are not constrained.
- The exact TypeError that `index.js` throws for a missing `detail` is reduced to `DetailUnreadable`. Only "fails before publishing" is modelled.
- Field values that are objects or arrays, non-integral numbers, `NaN`, and numbers JavaScript prints in exponent form (magnitude 10^21 and above). `Num` carries an integer, shown as plain decimal text.
- Js.ToText: the text of a number is exact only up to magnitude 2^53. Above that, JavaScript writes the shortest digits that identify the double and pads them with zeros (`${2**60}` is `1152921504606847000`), while the model writes the exact digits, so its read-back clause holds of JavaScript only up to 2^53. `Num` also admits integers that are not JavaScript numbers at all, such as 2^53+1.
- A `detail` that is present but a falsy non-object (`false`, `0`, `""`). The model only distinguishes present from undefined or null. For such a value `index.js` would read undefined fields without throwing, while `index-debug.js` rejects it.
- An `eventDescription` that is not an array is treated as missing. This matches JavaScript for strings and numbers, but not for objects with a key `"0"`.
- Strings are sequences of Unicode code points, not UTF-16 code units.
- The SNS subject-length limit. It is enforced by SNS, and a rejected subject is a `PublishFailed` outcome.
- Notification.SubjectRoundTrip: the subject parser recovers service and status only when the status text contains no space. This is a limit of the inverse, not of the subject the handler builds.
- Notification.BodyRoundTrip: values read back only when all of them except the description are single-line. The body the handler builds is modelled for all values.
- DebugNotification.MessageRoundTrip: values read back only when they are single-line.
- Notification.HandlePublishesExtractedFields: the read-back is proved only for well-formed values and a one-word status, the same limits as the two round trips above.
- DebugNotification.HandleDebugPublishesFields: the read-back is proved only for single-line values, the limit of DebugNotification.MessageRoundTrip.
