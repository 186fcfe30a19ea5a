# CloudWatch alarm to Slack relay

An AWS Lambda handler receives an SNS event whose message is usually a
CloudWatch alarm notification encoded as JSON. It turns the event's first
record into a Slack incoming-webhook payload and posts that payload to the
webhook configured in the `SLACK_HOOK` environment variable. It then answers
with a Lambda result `{statusCode, body}`.

- An SNS record with a message that decodes to an alarm becomes one Slack
  attachment. The attachment has the keys `fallback`, `title` and `text`,
  taken from `AlarmName`, `AlarmDescription` and `NewStateReason`.
- `color` is added when the alarm has a `NewStateValue`: red `#e60000` for
  `ALARM`, green `#36a64f` for any other state.
- `author` is added when the trigger allows it. It reads
  "Namespace: … || Metric: … on <name> <value>" and uses the first dimension
  only.
- `pretext` is added when the record has a subject.
- A message that decodes to anything without the three required fields falls
  back to a plain `text` payload, "<Subject>: <Message>".
- A message that cannot be decoded at all makes the handler raise.
- A record from any other event source is rejected with status 500.

The project has four modules:

- `Wrappers` (`wrappers.dfy`): `Option` and `Result`.
- `PyJson` (`pyjson.dfy`): the Python values `json.loads` produces, and the
  Python operations the handler applies to them. A dict is an ordered list of
  entries, because a Python dict keeps insertion order. The operations are
  `d[k]`, `d.update({k: v})`, `v[0]` and `str(v)`/`repr(v)`.
- `AlarmRelay` (`relay.dfy`):
  - Pure functions that say what the payload is: `Attachment`,
    `FallbackText` and `PayloadOf`.
  - Methods that build it step by step, as the handler does, and are proved
    to produce exactly that: `BuildAttachment`, `AddColour`, `AddAuthor`,
    `AddPretext` and `LambdaHandler`.
  - Lemmas about the payload's shape.
- `AlarmExample` (`example.dfy`): the handler's demonstration event, the RDS
  high-connections alarm, worked through to its exact payload.

The outside world is passed in as parameters:

- The parser behind `json.loads` is the function `loads`. It returns `None`
  where the parser raises.
- The value of `SLACK_HOOK` is the string `webhook`.
- The webhook's answer to the POST is `reply`: a status code, or `None`
  where `requests.post` raises.

The handler returns an `Outcome` and the HTTP request it would make, if any.
The `Outcome` is either a result, or the exception that escapes.

`json.loads` sits at lambda_function.py:20, outside the `try` that opens at
line 22. So a message that is not valid JSON, or is not a str, makes the
handler raise instead of taking the text fallback. `PayloadOf` gives
`Err(MessageNotDecodable)`, and `LambdaHandler` gives
`Raised(MessageNotDecodable)` with nothing posted.

## Model

| member | source | states |
|---|---|---|
| AlarmRelay.LambdaHandler | lambda_function.py:7-105 | No records: raises. Another event source: status 500 with the incompatibility message, nothing posted. Undecodable message: raises before posting. Otherwise it posts exactly `PayloadOf` to the webhook with JSON content type, if and only if the webhook is non-empty. It returns 200 with the payload, the hook and the response text, which is the status code or "No event sent - Failed". If the POST raises, the failure escapes. |
| AlarmRelay.BuildAttachment | lambda_function.py:22-67 | Adds the three required entries, then colour, author and pretext in turn. The result is exactly `Attachment(msg, subject)`. |
| AlarmRelay.AddColour | lambda_function.py:43-52 | Appends `color` only when `NewStateValue` exists. A failed lookup leaves the attachment unchanged. No other key is added. |
| AlarmRelay.AddAuthor | lambda_function.py:55-60 | Appends `author` exactly when the author line was built. No other key is added. |
| AlarmRelay.AddPretext | lambda_function.py:62-67 | Appends the subject as `pretext` exactly when the record has a subject. |
| AlarmRelay.Attachment | lambda_function.py:22-67 | An attachment exists if and only if the message is a dict with `AlarmName`, `AlarmDescription` and `NewStateReason`. |
| AlarmRelay.PayloadOf | lambda_function.py:16-20 | No message: empty payload. Otherwise an error exactly when the message cannot be decoded. |
| AlarmRelay.Decode | lambda_function.py:20 | A message that is not a str is never decoded (`json.loads` raises `TypeError`). |
| AlarmRelay.RequiredEntriesRule | lambda_function.py:23-27 | The attachment starts with a dict of exactly `fallback`, `title` and `text`, holding the message's three required values. |
| AlarmRelay.AttachmentParts | lambda_function.py:43-67 | Each optional entry has at most one key: `color` exactly when the message has `NewStateValue`, `author` exactly when the author line was built, and `pretext` exactly when there is a subject. |
| AlarmRelay.AttachmentLookup | lambda_function.py:22-67 | Looking up any key in the attachment gives the entry it was added from. |
| AlarmRelay.AttachmentKeySet | lambda_function.py:22-67 | The keys are exactly the three required ones, plus `color` when there is a state, `author` when there is an author line, and `pretext` when there is a subject. |
| AlarmRelay.AttachmentKeysBounded | lambda_function.py:23-67 | No key outside the six attachment keys ever appears. |
| AlarmRelay.AttachmentIsDict | lambda_function.py:23-67 | No key appears twice: the entries form a genuine dict. |
| AlarmRelay.AttachmentRequiredFields | lambda_function.py:23-27 | `fallback`, `title` and `text` are the message's `AlarmName`, `AlarmDescription` and `NewStateReason`, whatever else the message holds. |
| AlarmRelay.ColourRule | lambda_function.py:43-52 | Red if and only if `NewStateValue` is the str "ALARM". Green if and only if it is present with any other value. `color` is present if and only if `NewStateValue` is. |
| AlarmRelay.AuthorRule | lambda_function.py:55-60 | `author` is present if and only if the author line could be built, and then holds that line. |
| AlarmRelay.PretextRule | lambda_function.py:62-67 | `pretext` is present if and only if the record has a subject, and holds the subject. |
| AlarmRelay.AuthorLine | lambda_function.py:29-41 | An author line exists if and only if every look-up succeeds: the trigger is a dict with `Namespace` and `MetricName`, its `Dimensions` is a non-empty list, and the first dimension is a dict with `name` and `value`. |
| AlarmRelay.AuthorLineRule | lambda_function.py:32-36 | The line reads "Namespace: <ns> \|\| Metric: <metric> on <name> <value>", with each value as `str()` shows it, and uses the first dimension only. |
| AlarmRelay.Colour | lambda_function.py:45-48 | Red if and only if the state is the str "ALARM"; green for every other value. |
| AlarmRelay.ColourEntry | lambda_function.py:43-52 | At most one entry. It is present if and only if the message is a dict with `NewStateValue`, and then it is `color` set to red or green. |
| AlarmRelay.FallbackText | lambda_function.py:70-73 | The text starts with `str(Subject)` and ": " when there is a subject. It ends with the raw message when the message is a str. It is empty when the record has neither. |
| AlarmRelay.AttachmentPath | lambda_function.py:18-27 | A decodable alarm message yields a payload of exactly one attachment under the single key `attachments`, carrying the required fields. |
| AlarmRelay.TextFallbackPath | lambda_function.py:68-77 | A decodable message without the required fields yields only `text`: "<Subject>: " when there is a subject, then the raw message. |
| PyJson.Subscript | lambda_function.py:24-35 | `v[k]` succeeds if and only if `v` is a dict holding `k`. |
| PyJson.At0 | lambda_function.py:35-36 | `v[0]` succeeds if and only if `v` is a non-empty list or str. |
| PyJson.Str | lambda_function.py:32-36 | `str()` of a str is the str itself. |
| PyJson.GetDefined | lambda_function.py:24-26 | `d[k]` succeeds if and only if `k` is a key of `d`. |
| PyJson.GetFound | lambda_function.py:24-36 | What `d[k]` finds is the value of the first entry under `k`. |
| PyJson.Update | lambda_function.py:50-67 | `d.update({k: v})` keeps the length when `k` is already a key, and adds exactly one entry otherwise. |
| PyJson.GetUpdate | lambda_function.py:50 | After `d.update({k: v})`, `k` maps to `v` and every other key keeps its value. |
| PyJson.KeysUpdate | lambda_function.py:58-60 | Updating adds `k` to the keys and removes none. |
| PyJson.UpdateNewKey | lambda_function.py:65-67 | Updating with a new key appends it, so insertion order is kept. |
| PyJson.UpdateKeepsDict | lambda_function.py:50 | Updating a dict leaves its keys distinct. |
| PyJson.Repr | lambda_function.py:32-36 | `repr` of a list is bracketed by `[` `]`, of a dict by `{` `}`, and of a str by the same quote character at both ends. |
| PyJson.Quote | lambda_function.py:70-73 | A str is quoted with `"` exactly when it holds a single quote and no double quote, and with `'` otherwise; the closing quote matches the opening one. |
| PyJson.Decimal | lambda_function.py:98 | `str(i)` of an int is non-empty, starts with '-' exactly when `i` is negative, is otherwise made of decimal digits only, and has no leading zero: its digits start with '0' only when they are exactly "0". |
| PyJson.DecimalRoundTrip | lambda_function.py:98 | Reading back the digits gives the int: `int(str(i)) == i`. |
| AlarmExample.ExamplePayload | lambda_function.py:109-134 | For the demonstration event, with a parser that reads its message as the demonstration alarm, the payload is the exact six-entry attachment. The colour is red, the author line is "Namespace: AWS/RDS \|\| Metric: DatabaseConnections on DBClusterIdentifier svc-ca-backend-prod-cluster", and the pretext is the subject. |
| AlarmExample.DemoPayload | lambda_function.py:111-121 | The same for the demonstration alarm with any texts and any subject. |
| AlarmExample.DemoAttachmentRule | lambda_function.py:23-67 | The demonstration alarm gets all six attachment entries, in insertion order. |
| AlarmExample.DemoAuthorLine | lambda_function.py:31-36 | The demonstration alarm's author line, built from its trigger and its only dimension. |

## Left out

- Reading `SLACK_HOOK`: the webhook is a parameter. An unset variable makes `os.environ` raise `KeyError`; that case is not modelled. An empty value is modelled: it is falsy, so nothing is posted.
- Malformed events: the model takes a list of records, each with a str `EventSource` and a dict `Sns`. So the following are not modelled:
  - an event without `Records`, which raises `KeyError` at lambda_function.py:11;
  - a record without `EventSource` (a `KeyError` at line 13), or an `aws:sns` record without `Sns` (a `KeyError` at line 18); a record from another source gets 500 whatever its `Sns` holds, as in the model;
  - an `Sns` value that is not a dict;
  - an `EventSource` that is not a str, for example null, which the source answers with status 500.
- `json.loads` and its JSON grammar: the parser is the parameter `loads`, and the model does not require its dicts to have distinct keys. Where they repeat, the model's `d[k]` takes the first entry. That is not Python's behaviour: `json.loads` keeps the last value of a repeated JSON key, so a parser faithful to Python never returns repeated keys.
- `json.dumps`: the POST data is the payload dict and the body keeps its three formatted values, rather than the serialised JSON text.
- `requests.post`: only its result or its exception is modelled, through `reply`. The request is returned as a `Post` carrying URL, content type and payload.
- The `print` calls: they only log.
- Everything after event record 0: the handler never reads other records.
- The `context` argument: it is unused.
- PyJson.Repr: Python escapes non-printable non-ASCII characters; the model writes every character from a space upward as itself, except 0x7F, the quote character and the backslash, which it escapes.
- Floats: a float is kept as the text `str()` shows for it, since no arithmetic is done on it.
- AlarmExample.ExamplePayload: the message's raw JSON text is any text the parser reads as the demonstration alarm. The model does not check that the literal on line 121 parses to it.
