# Server provisioning webhook — Dafny model

This project models the request path of a webhook service that turns
reservation events into bare-metal host lifecycle actions: a start event
provisions a host (patches its image and SSH keys), an end event or the
deletion of an active reservation deprovisions it (clears its image). It
covers the endpoint's classification and dispatch (`handle_webhook` in
app/api.py), the two handlers that call the host-patch and audit-log services
(`handle_provision_event`, `handle_deprovision_event` in app/utils.py), and
the pure helpers they use: the timestamp normaliser `parse_timestamp`, the
custom-parameter helpers, `get_image_details`, the SSH-key selection rule and
`create_success_response`.

Modules, one per component:

- `Wrappers` — `Option` and `Result` (an `Err` carries an exception's text).
- `Text` — the Python string operations used: `replace`, `rsplit(c, 1)`,
  slicing, `ljust`, `lower` (ASCII), `str(int)`.
- `Models` — the payload shapes of app/models.py as datatypes, the event-type
  constants, and `UndeclaredFields`: the two attributes app/utils.py reads
  that the payload class does not declare.
- `Timestamps` — `parse_timestamp`: the string rewrite (`Normalise`) and the
  parse, with `datetime.fromisoformat` as an abstract partial parser
  `fromIso: string -> Option<Instant>`.
- `CustomParameters` — `parse_custom_parameters`, `get_custom_parameter`,
  `has_custom_parameters`, with `json.loads` as an abstract partial decoder.
- `Responses` — the JSON bodies and HTTP errors, and `create_success_response`.
- `Provisioning` — `get_image_details` and the SSH-key selection.
- `Handlers` — a `Services` class stands for the patch and audit-log services:
  it answers with a fixed `Outcome` (returned a boolean, or raised) and records
  every call in a ghost `trace`. Each handler is a method over it, proved
  against a pure function (`ProvisionRun`, `DeprovisionRun`) that gives the
  handler's result and the calls it makes.
- `Webhook` — `handle_webhook` as a pure classification (`Classify`), the
  mapping of a handler result to a response (`Conclude`), and a method
  `HandleWebhook` that runs at most one handler on a `Services` object.

Configuration values (the provisioning timeout, whether a signing secret is
set, the image tables and defaults) are parameters. The signature comparison
is a boolean input.

Where the code and its own comments disagree, the model follows the code:

- app/utils.py:188 and :194 read `payload.operating_system` and
  `payload.ssh_public_key`, but app/models.py:13-55 declares neither field,
  and app/config.py:102-114 exports no `OS_IMAGES`, `OS_CHECKSUMS` or
  `PROVISION_*` setting. Reading any of them raises inside the handler's
  `try`, which returns `False`. The model takes these values as explicit
  inputs (`UndeclaredFields`, `images: Option<ImageConfig>`), so the helper
  logic is modelled as written. `Handlers.ProvisionFailsAsDeclared` shows
  that with the payload class as declared, every start event fails before any
  service call. `ssh_public_key` is read only when the key list is empty.
- app/models.py:5-6 and :17 document a strict mode that requires `imageUrl`
  and `checksumUrl` for provisioning, and app/api.py:6 and :57 refer to it.
  The handler never reads those fields (app/utils.py:181-213), so the strict
  mode is not modelled.
- `parse_timestamp` documents that it raises `ValueError`
  (app/utils.py:87-88). `handle_webhook` does not catch it (app/api.py:92-94),
  so it escapes the endpoint (`Response.Unhandled`). Ordering a naive against
  an offset-aware datetime at app/api.py:97 raises `TypeError`, which escapes
  the same way.

## Model

| member | source | states |
|---|---|---|
| `Text.Replace` | app/utils.py:92 | `replace` of one character: the result holds no occurrence of it when the replacement does not, and is the input unchanged when the input has none |
| `Text.RSplit` | app/utils.py:99-100 | `rsplit(c, 1)` unpacked into two parts: absent exactly when `c` does not occur; otherwise head + c + tail is the input and the tail holds no `c` |
| `Text.RSplitAt` | app/utils.py:99-100 | the split is at the last occurrence: any head + c + tail with no `c` in the tail is the split found |
| `Text.IntToString` | app/utils.py:255 | `str(n)` is never empty |
| `Timestamps.WithUtcOffset` | app/utils.py:92 | after the first step no `Z` remains; a string without `Z` is unchanged |
| `Timestamps.Microseconds` | app/utils.py:102 | the fraction becomes exactly six characters: its first six when it has at least six (truncation, not rounding), otherwise itself followed by `0`s |
| `Timestamps.Normalise` | app/utils.py:92-110 | without a `.` the text reaches the parser with only `Z` rewritten; it fails only when both `.` and `+` occur, and the failure names the `Z`-rewritten text |
| `Timestamps.ParseTimestamp` | app/utils.py:77-114 | succeeds exactly when the rewrite succeeds and `fromisoformat` accepts the rewritten text, with that parser's value; every failure is `Invalid timestamp format: <text>` naming a text without `Z` |
| `Timestamps.NormaliseHasNoZ` | app/utils.py:92-114 | no `Z` survives the rewrite, on the success and on the error path |
| `Timestamps.NoFractionOnlyOffsetRewritten` | app/utils.py:92-111 | a string without `.` reaches the parser with only `Z` rewritten to `+00:00` |
| `Timestamps.PositiveOffsetKept` | app/utils.py:97-103 | with a `+`, the text before the last `.` and the offset after the last `+` are kept verbatim; only the fraction is fixed to six digits |
| `Timestamps.NoPlusEverythingAfterDotIsFraction` | app/utils.py:104-109 | with a `.` and no `+`, everything after the last `.` is treated as the fraction, offset included |
| `Timestamps.NoDotBeforeOffsetFails` | app/utils.py:97-114 | with a `.` only after the last `+`, unpacking the split raises and the error names the `Z`-rewritten text |
| `Timestamps.UtcDesignatorAfterFraction` | app/utils.py:92-103 | `<datetime>.<fraction>Z` becomes `<datetime>.<six digits>+00:00` |
| `Timestamps.NanosecondsTruncated` | app/utils.py:95-103 | `.123456789Z` becomes `.123456+00:00` |
| `Timestamps.ShortFractionPadded` | app/utils.py:95-103 | `.5Z` becomes `.500000+00:00` |
| `Timestamps.NegativeOffsetTruncated` | app/utils.py:104-109 | `.5-05:00` becomes `.5-05:0`: a negative offset is cut by the truncation |
| `CustomParameters.Parse` | app/utils.py:25-42 | `{}` for `None`, empty or undecodable text, otherwise the decoded value; it never fails |
| `CustomParameters.Get` | app/utils.py:45-57 | on an object, the stored value for a present key and the default otherwise; on any other decoded value, an `AttributeError` |
| `CustomParameters.Has` | app/utils.py:60-74 | true exactly when the text is non-empty, decodes, and the decoded value is truthy |
| `CustomParameters.HasMatchesParse` | app/utils.py:70-74 | `has_custom_parameters` is the truthiness of what `parse_custom_parameters` returns |
| `CustomParameters.LookupAfterParse` | app/utils.py:35-57 | a lookup after parsing gives the stored value when the text decodes to an object with that key; the default for an object without it or a falsy or undecodable text; an `AttributeError` when it decodes to a non-object |
| `Responses.CreateSuccessResponse` | app/utils.py:144-150 | a `success` body carrying the user id (or null) whose message names exactly the given resource |
| `Responses.ProvisionedMessage` | app/utils.py:148 | the provisioning message reads `Successfully provisioned server '<name>'` |
| `Responses.SuccessMessageInjective` | app/utils.py:148 | two success messages for one action are equal only for the same resource |
| `Provisioning.GetImageDetails` | app/utils.py:153-170 | the default triple for an empty or absent slug; otherwise image and checksum each from its table under the lower-cased slug, falling back separately; the checksum type is always the default |
| `Provisioning.ImageLookupCaseInsensitive` | app/utils.py:162-166 | slugs equal up to case select the same image details |
| `Provisioning.ImageLookupOfLowered` | app/utils.py:162 | a slug and its lower-case form select the same image details |
| `Provisioning.TablesFallBackIndependently` | app/utils.py:165-166 | a slug in the image table only gets its image and the default checksum |
| `Provisioning.SelectSshKeys` | app/utils.py:191-199 | a non-empty key list is used unchanged; else the legacy key alone if set; else no keys; the legacy attribute is read only when the list is empty |
| `Provisioning.SelectedKeysWereSupplied` | app/utils.py:191-196 | every selected key came from the list or is the legacy key |
| `Handlers.UserIdOrUnknown` | app/utils.py:184 | the user id when it is set and non-empty, otherwise `unknown` |
| `Handlers.ProvisionPatch` | app/utils.py:186-213 | the patch is prepared exactly when the undeclared attributes and image settings can be read; it targets the resource with the selected image, keys and checksum, `wait_for_completion` false, the configured timeout and the defaulted user id |
| `Handlers.ProvisionLog` | app/utils.py:217-226 | the audit entry after a provisioning patch: the webhook id as text, `EVENT_START`, success, status 200, no retries, metadata with the resource, defaulted user id and event id, and a response that starts `Provisioning initiated for server '<name>'` and says nothing more without an OS |
| `Handlers.ProvisionRun` | app/utils.py:173-238 | true exactly when the patch was prepared, the patch returned true and the audit log did not raise; the patch is the first call and the only one when it did not return true; the audit log follows exactly when it did |
| `Handlers.HandleProvisionEvent` | app/utils.py:173-238 | returns `ProvisionRun`'s result and appends exactly its calls to the trace |
| `Handlers.ProvisionResultIsPatchResult` | app/utils.py:202-231 | when the audit log does not raise, the result equals the patch result, and exactly one patch is made |
| `Handlers.ProvisionFailsAsDeclared` | app/utils.py:186-188 | with the payload class as declared, provisioning returns false with no service call |
| `Handlers.DeprovisionTarget` | app/utils.py:248-260 | a target for either payload shape and none for any other; a deletion payload's event id is never empty |
| `Handlers.DeprovisionLog` | app/utils.py:272-281 | the audit entry after a deprovisioning patch: `EVENT_END` for either payload shape, success, status 200, no retries, the target's identifiers, and the response `Deprovisioning completed for server '<name>'` |
| `Handlers.DeprovisionRun` | app/utils.py:241-293 | no call and false for an unrecognised payload; otherwise exactly one patch with no image, then an audit log exactly when the patch returned true and the event id is non-empty; the result is the patch result unless that log raised |
| `Handlers.HandleDeprovisionEvent` | app/utils.py:241-293 | returns `DeprovisionRun`'s result and appends exactly its calls to the trace |
| `Handlers.DeletionAlwaysLogged` | app/utils.py:253-281 | after a successful patch for a deletion payload the audit log is always attempted |
| `Webhook.SignatureRejected` | app/utils.py:133-134 | a request is rejected exactly when a non-empty secret is configured and the signature check fails |
| `Webhook.AtOrBefore` | app/api.py:97 | `a <= b` on datetimes: defined only for two naive or two aware values, otherwise the `TypeError`; then true exactly when `a` is not later |
| `Webhook.Before` | app/api.py:97 | `a < b` on datetimes: defined only for two naive or two aware values, otherwise the `TypeError`; then true exactly when `a` is earlier |
| `Webhook.ReservationActive` | app/api.py:97 | `start <= now < end` holds exactly for same-kind instants in the half-open window; it is false exactly when `now` is before `start`, or at or after a comparable `end` |
| `Webhook.ParseWindow` | app/api.py:92-94 | the three timestamps parse, in the order event time, start, end, and the first failure is the one reported |
| `Webhook.ClassifyDeletion` | app/api.py:87-116 | a deletion event deprovisions exactly when all three times parse and the reservation is active |
| `Webhook.Classify` | app/api.py:36-125 | a failed signature check with a secret set is answered 401; the provision handler is chosen exactly for a server start event, the deprovision handler exactly for a server end event or a deletion inside the active window |
| `Webhook.DeletionReleasedName` | app/api.py:101-104 | a message from which a resource name is read is the release message for that name |
| `Webhook.DeletionReleasedRoundTrip` | app/api.py:101-104 | the release message for a resource gives back that resource's name |
| `Webhook.Conclude` | app/api.py:56-110 | a handler's true result gives a success body: for start and end it names the resource and carries the payload's own user id (or null); for a released deletion it names the resource and has no user id; false gives HTTP 500; an immediate answer is passed through |
| `Webhook.HandleWebhook` | app/api.py:25-125 | the response and trace are those of the one handler chosen, or the immediate answer with no call; a request makes at most one patch |
| `Webhook.AtMostOnePatch` | app/api.py:55-110 | a handler's calls hold at most one patch |
| `Webhook.RejectedBeforeClassification` | app/utils.py:133-139 | with a secret set, a failed signature gives 401 whatever the payload |
| `Webhook.NoSecretNoCheck` | app/utils.py:133 | without a secret the signature result does not matter |
| `Webhook.NonServerNeverHandled` | app/api.py:48-53 | a non-server resource gets a success "no action" body whatever its event type |
| `Webhook.OtherStandardEventIgnored` | app/api.py:80-81 | a server event other than start or end is answered `ignored` |
| `Webhook.OtherDeletionEventIgnored` | app/api.py:118-119 | a deletion-shaped payload with another event type is answered `ignored`, with no resource-type check |
| `Webhook.UnknownShapeAnswered` | app/api.py:121-125 | an unrecognised payload gets an `error` body, not an exception |
| `Webhook.MalformedEventTimeEscapes` | app/api.py:92 | an unparsable event time escapes as the `parse_timestamp` error |
| `Webhook.DeletedAtStartDeprovisions` | app/api.py:97-104 | a deletion at exactly `start` deprovisions |
| `Webhook.DeletedAtEndNoAction` | app/api.py:97-116 | a deletion at exactly `end` takes no action |
| `Webhook.DeletedBeforeStartNoAction` | app/api.py:97-116 | a deletion before `start` takes no action |

## Left out

- Request transport: FastAPI routing, reading the request body, logging, and
  the framework's own body validation. FastAPI rejects a body of neither shape
  before `handle_webhook` runs; the model keeps the endpoint's own
  `Unrecognised` branch as written.
- The `/healthz` handler (app/api.py:128-131): a constant body with no inputs.
- app/config.py: environment reading, logger setup, the health-log filter and
  Kubernetes client loading. Its values are parameters.
- `kubernetes.patch_baremetalhost`, `notification.send_webhook_log` and
  `security.verify_signature` are not part of this model; their answers are
  inputs. The secret write, the patch contents, the background status watch
  and the outcome notification all happen inside them. The repository's
  services/kubernetes copy.py takes `ssh_key`, not the `ssh_keys` keyword the
  handler passes; the module the handler imports is not part of this model.
- `Handlers.Services`: each service answers every call the same way. A request
  makes at most one patch and one audit-log call, so one answer each covers
  every run.
- `datetime.fromisoformat` and `json.loads`: abstract partial functions.
  `Instant` keeps only the order and whether a value is offset-aware.
- `Text.Lower`: folds ASCII letters only, not full Unicode `str.lower`.
- `CustomParameters.Truthy`: JSON numbers are reals; `NaN` and `Infinity`,
  which `json.loads` accepts, are not represented.
- Pydantic validation and field aliases of app/models.py.
- The payload serialised into an audit-log entry is recorded as the payload
  value itself, not its JSON text.
