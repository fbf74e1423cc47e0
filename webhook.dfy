/**
 * `handle_webhook` (app/api.py:25-125): the signature check, then a decision
 * tree over the payload shape and event type that either answers at once or
 * hands the request to one of the two handlers and turns its boolean result
 * into a response.
 *
 * The signature comparison (`security.verify_signature`) and
 * `datetime.fromisoformat` are inputs: `signatureValid` and `fromIso`.
 */
module Webhook {
  import opened Wrappers
  import opened Models
  import opened Timestamps
  import opened Responses
  import opened Provisioning
  import opened Handlers

  /** What the endpoint does with a request once classified. */
  datatype Action =
    | Answer(response: Response)                 // answered without calling a handler
    | Provision(p: WebhookPayload)               // EVENT_START for a server
    | EndReservation(p: WebhookPayload)          // EVENT_END for a server
    | ReleaseDeleted(e: EventWebhookPayload)     // EVENT_DELETED while the reservation is active

  /** `verify_webhook_signature` rejects only when a secret is configured and the check fails. */
  function SignatureRejected(secret: Option<string>, signatureValid: bool): (r: bool)
    ensures r <==> secret.Some? && secret.value != "" && !signatureValid
  {
    TruthyText(secret) && !signatureValid
  }

  const Unauthorized := HttpError(401, "Invalid webhook signature")

  /** The `TypeError` Python raises when ordering a naive against an aware `datetime`. */
  const MixedOffsets := "TypeError: can't compare offset-naive and offset-aware datetimes"

  /** `a <= b` on datetimes. */
  function AtOrBefore(a: Instant, b: Instant): (r: Result<bool>)
    ensures r.Ok? <==> a.offsetAware == b.offsetAware
    ensures r.Ok? ==> (r.value <==> a.micros <= b.micros)
  {
    if a.offsetAware != b.offsetAware then Err(MixedOffsets) else Ok(a.micros <= b.micros)
  }

  /** `a < b` on datetimes. */
  function Before(a: Instant, b: Instant): (r: Result<bool>)
    ensures r.Ok? <==> a.offsetAware == b.offsetAware
    ensures r.Ok? ==> (r.value <==> a.micros < b.micros)
  {
    if a.offsetAware != b.offsetAware then Err(MixedOffsets) else Ok(a.micros < b.micros)
  }

  /**
   * The chained comparison `start <= now < end` (api.py:97): the half-open
   * window, evaluated left to right and stopping at the first false.
   */
  function ReservationActive(start: Instant, now: Instant, end: Instant): (r: Result<bool>)
    ensures r == Ok(true) <==>
      start.offsetAware == now.offsetAware == end.offsetAware && start.micros <= now.micros < end.micros
    ensures r == Ok(false) <==>
      start.offsetAware == now.offsetAware
      && (now.micros < start.micros || (now.offsetAware == end.offsetAware && end.micros <= now.micros))
  {
    match AtOrBefore(start, now)
    case Err(m) => Err(m)
    case Ok(started) => if !started then Ok(false) else Before(now, end)
  }

  /** The three timestamps of a deletion event parsed in the source's order: `now`, `start`, `end`. */
  function ParseWindow(e: EventWebhookPayload, fromIso: string -> Option<Instant>): (r: Result<(Instant, Instant, Instant)>)
    ensures r.Ok? <==>
      ParseTimestamp(e.timestamp, fromIso).Ok? && ParseTimestamp(e.data.start, fromIso).Ok?
      && ParseTimestamp(e.data.end, fromIso).Ok?
    ensures r.Ok? ==>
      r.value == (ParseTimestamp(e.timestamp, fromIso).value, ParseTimestamp(e.data.start, fromIso).value,
                  ParseTimestamp(e.data.end, fromIso).value)
    ensures ParseTimestamp(e.timestamp, fromIso).Err? ==> r == Err(ParseTimestamp(e.timestamp, fromIso).error)
    ensures ParseTimestamp(e.timestamp, fromIso).Ok? && ParseTimestamp(e.data.start, fromIso).Err? ==>
      r == Err(ParseTimestamp(e.data.start, fromIso).error)
    ensures (ParseTimestamp(e.timestamp, fromIso).Ok? && ParseTimestamp(e.data.start, fromIso).Ok?
             && ParseTimestamp(e.data.end, fromIso).Err?) ==>
      r == Err(ParseTimestamp(e.data.end, fromIso).error)
  {
    match ParseTimestamp(e.timestamp, fromIso)
    case Err(m) => Err(m)
    case Ok(now) =>
      match ParseTimestamp(e.data.start, fromIso)
      case Err(m) => Err(m)
      case Ok(start) =>
        match ParseTimestamp(e.data.end, fromIso)
        case Err(m) => Err(m)
        case Ok(end) => Ok((now, start, end))
  }

  const NotActive := Json("success", "No action taken (Reservation not active).", Absent)
  const UnknownShape := Json("error", "Unknown payload structure.", Absent)

  /** The body for a standard payload whose resource is not a server. */
  function NoActionFor(resourceType: string): Response {
    Json("success", "No action needed for resource type '" + resourceType + "'.", Absent)
  }

  /** The body for a standard payload with an unhandled event type. */
  function IgnoredEvent(eventType: string): Response {
    Json("ignored", "Event '" + eventType + "' not handled.", Absent)
  }

  const IgnoredDeletionEvent := Json("ignored", "Event type not handled.", Absent)

  /** An `EVENT_DELETED` payload: deprovision only while the reservation is active (api.py:87-116). */
  function ClassifyDeletion(e: EventWebhookPayload, fromIso: string -> Option<Instant>): (a: Action)
    ensures a.ReleaseDeleted? <==>
      ParseWindow(e, fromIso).Ok? &&
      var (now, start, end) := ParseWindow(e, fromIso).value;
      ReservationActive(start, now, end) == Ok(true)
    ensures a.ReleaseDeleted? ==> a.e == e
    ensures !a.Provision? && !a.EndReservation?
  {
    match ParseWindow(e, fromIso)
    case Err(m) => Answer(Unhandled(m))
    case Ok((now, start, end)) =>
      match ReservationActive(start, now, end)
      case Err(m) => Answer(Unhandled(m))
      case Ok(active) => if active then ReleaseDeleted(e) else Answer(NotActive)
  }

  /** The classification part of `handle_webhook` (api.py:36-125). */
  function Classify(secret: Option<string>, signatureValid: bool, payload: Payload,
                    fromIso: string -> Option<Instant>): (a: Action)
    ensures SignatureRejected(secret, signatureValid) ==> a == Answer(Unauthorized)
    ensures a.Provision? <==>
      !SignatureRejected(secret, signatureValid) && payload.Standard?
      && payload.standard.resourceType == ServerType && payload.standard.eventType == EventStart
    ensures a.EndReservation? <==>
      !SignatureRejected(secret, signatureValid) && payload.Standard?
      && payload.standard.resourceType == ServerType && payload.standard.eventType == EventEnd
    ensures a.ReleaseDeleted? <==>
      !SignatureRejected(secret, signatureValid) && payload.Deletion?
      && payload.deletion.eventType == EventDeleted
      && ParseWindow(payload.deletion, fromIso).Ok?
      && var (now, start, end) := ParseWindow(payload.deletion, fromIso).value;
         ReservationActive(start, now, end) == Ok(true)
    ensures a.Provision? || a.EndReservation? ==> payload == Standard(a.p)
    ensures a.ReleaseDeleted? ==> payload == Deletion(a.e)
  {
    if SignatureRejected(secret, signatureValid) then Answer(Unauthorized)
    else
      match payload
      case Standard(p) =>
        if p.resourceType != ServerType then Answer(NoActionFor(p.resourceType))
        else if p.eventType == EventStart then Provision(p)
        else if p.eventType == EventEnd then EndReservation(p)
        else Answer(IgnoredEvent(p.eventType))
      case Deletion(e) =>
        if e.eventType != EventDeleted then Answer(IgnoredDeletionEvent)
        else ClassifyDeletion(e, fromIso)
      case Unrecognised => Answer(UnknownShape)
  }

  /** The message announcing that a deleted, active reservation is being released. */
  function DeletionReleasedMessage(name: string): string {
    "Deprovisioning initiated for '" + name + "' (Active Reservation Deleted)."
  }

  /** The resource a release message names, if it is one. */
  function DeletionReleasedName(message: string): (r: Option<string>)
    ensures r.Some? ==> message == DeletionReleasedMessage(r.value)
  {
    var prefix, suffix := "Deprovisioning initiated for '", "' (Active Reservation Deleted).";
    if |prefix| + |suffix| <= |message| && message[..|prefix|] == prefix
       && message[|message| - |suffix|..] == suffix
    then
      var name := message[|prefix|..|message| - |suffix|];
      assert message == prefix + name + suffix;
      Some(name)
    else None
  }

  /** The release message determines the resource it names. */
  lemma DeletionReleasedRoundTrip(name: string)
    ensures DeletionReleasedName(DeletionReleasedMessage(name)) == Some(name)
  {
    var prefix, suffix := "Deprovisioning initiated for '", "' (Active Reservation Deleted).";
    var m := DeletionReleasedMessage(name);
    assert m == prefix + name + suffix;
    assert m[..|prefix|] == prefix;
    assert m[|m| - |suffix|..] == suffix;
    assert m[|prefix|..|m| - |suffix|] == name;
  }

  /** The response once the chosen handler has returned `ok` (api.py:58-78, 100-110). */
  function Conclude(a: Action, ok: bool): (r: Response)
    ensures a.Answer? ==> r == a.response
    ensures !a.Answer? ==> (r.Json? <==> ok) && (r.Json? ==> r.status == "success")
    ensures !a.Answer? && !ok ==> r.HttpError? && r.code == 500
    ensures a.Provision? && ok ==> ResourceNamed("provision", r.message) == Some(a.p.resourceName)
    ensures a.EndReservation? && ok ==> ResourceNamed("deprovision", r.message) == Some(a.p.resourceName)
    ensures (a.Provision? || a.EndReservation?) && ok ==>
      r.userId == if a.p.userId.Some? then Str(a.p.userId.value) else Null
    ensures a.ReleaseDeleted? && ok ==>
      r.userId == Absent && DeletionReleasedName(r.message) == Some(a.e.data.resource.name)
  {
    match a
    case Answer(response) => response
    case Provision(p) =>
      if ok then CreateSuccessResponse("provision", p.resourceName, p.userId)
      else HttpError(500, "Failed to provision server '" + p.resourceName + "'. Missing config or K8s error.")
    case EndReservation(p) =>
      if ok then CreateSuccessResponse("deprovision", p.resourceName, p.userId)
      else HttpError(500, "Failed to deprovision server '" + p.resourceName + "'.")
    case ReleaseDeleted(e) =>
      var name := e.data.resource.name;
      if ok then
        DeletionReleasedRoundTrip(name);
        Json("success", DeletionReleasedMessage(name), Absent)
      else HttpError(500, "Failed to deprovision server '" + name + "'.")
  }

  /**
   * The signature is checked before the payload is looked at: with a secret
   * configured, a failed check is answered 401 and no handler is chosen.
   */
  lemma RejectedBeforeClassification(secret: string, payload: Payload, fromIso: string -> Option<Instant>)
    requires secret != ""
    ensures Classify(Some(secret), false, payload, fromIso) == Answer(Unauthorized)
  {
  }

  /** Without a configured secret the signature result is never consulted. */
  lemma NoSecretNoCheck(secret: Option<string>, payload: Payload, fromIso: string -> Option<Instant>)
    requires !TruthyText(secret)
    ensures Classify(secret, false, payload, fromIso) == Classify(secret, true, payload, fromIso)
  {
  }

  /** The resource-type check comes before event dispatch: a non-server resource is never handled, whatever its event. */
  lemma NonServerNeverHandled(secret: Option<string>, signatureValid: bool, p: WebhookPayload,
                              fromIso: string -> Option<Instant>)
    requires !SignatureRejected(secret, signatureValid) && p.resourceType != ServerType
    ensures Classify(secret, signatureValid, Standard(p), fromIso) == Answer(NoActionFor(p.resourceType))
  {
  }

  /** A server event other than start or end is answered "ignored". */
  lemma OtherStandardEventIgnored(secret: Option<string>, signatureValid: bool, p: WebhookPayload,
                                  fromIso: string -> Option<Instant>)
    requires !SignatureRejected(secret, signatureValid) && p.resourceType == ServerType
    requires p.eventType != EventStart && p.eventType != EventEnd
    ensures Classify(secret, signatureValid, Standard(p), fromIso) == Answer(IgnoredEvent(p.eventType))
  {
  }

  /** A deletion-shaped payload with another event type is "ignored"; no resource-type check applies. */
  lemma OtherDeletionEventIgnored(secret: Option<string>, signatureValid: bool, e: EventWebhookPayload,
                                  fromIso: string -> Option<Instant>)
    requires !SignatureRejected(secret, signatureValid) && e.eventType != EventDeleted
    ensures Classify(secret, signatureValid, Deletion(e), fromIso) == Answer(IgnoredDeletionEvent)
  {
  }

  /** An unrecognised payload shape gets an error body, not an exception. */
  lemma UnknownShapeAnswered(secret: Option<string>, signatureValid: bool, fromIso: string -> Option<Instant>)
    requires !SignatureRejected(secret, signatureValid)
    ensures Classify(secret, signatureValid, Unrecognised, fromIso) == Answer(UnknownShape)
  {
  }

  /** A deletion whose event time does not parse escapes as the `ValueError` of `parse_timestamp`. */
  lemma MalformedEventTimeEscapes(secret: Option<string>, signatureValid: bool, e: EventWebhookPayload,
                                  fromIso: string -> Option<Instant>)
    requires !SignatureRejected(secret, signatureValid) && e.eventType == EventDeleted
    requires ParseTimestamp(e.timestamp, fromIso).Err?
    ensures Classify(secret, signatureValid, Deletion(e), fromIso)
            == Answer(Unhandled(ParseTimestamp(e.timestamp, fromIso).error))
  {
  }

  /** The window is closed at its start: a deletion at exactly `start` deprovisions. */
  lemma DeletedAtStartDeprovisions(secret: Option<string>, signatureValid: bool, e: EventWebhookPayload,
                                   fromIso: string -> Option<Instant>, start: Instant, end: Instant)
    requires !SignatureRejected(secret, signatureValid) && e.eventType == EventDeleted
    requires ParseTimestamp(e.timestamp, fromIso) == Ok(start)
    requires ParseTimestamp(e.data.start, fromIso) == Ok(start) && ParseTimestamp(e.data.end, fromIso) == Ok(end)
    requires start.offsetAware == end.offsetAware && start.micros < end.micros
    ensures Classify(secret, signatureValid, Deletion(e), fromIso) == ReleaseDeleted(e)
  {
  }

  /** The window is open at its end: a deletion at exactly `end` takes no action. */
  lemma DeletedAtEndNoAction(secret: Option<string>, signatureValid: bool, e: EventWebhookPayload,
                             fromIso: string -> Option<Instant>, start: Instant, end: Instant)
    requires !SignatureRejected(secret, signatureValid) && e.eventType == EventDeleted
    requires ParseTimestamp(e.timestamp, fromIso) == Ok(end)
    requires ParseTimestamp(e.data.start, fromIso) == Ok(start) && ParseTimestamp(e.data.end, fromIso) == Ok(end)
    requires start.offsetAware == end.offsetAware
    ensures Classify(secret, signatureValid, Deletion(e), fromIso) == Answer(NotActive)
  {
  }

  /** A deletion before the reservation starts takes no action. */
  lemma DeletedBeforeStartNoAction(secret: Option<string>, signatureValid: bool, e: EventWebhookPayload,
                                   fromIso: string -> Option<Instant>, now: Instant, start: Instant, end: Instant)
    requires !SignatureRejected(secret, signatureValid) && e.eventType == EventDeleted
    requires ParseTimestamp(e.timestamp, fromIso) == Ok(now)
    requires ParseTimestamp(e.data.start, fromIso) == Ok(start) && ParseTimestamp(e.data.end, fromIso) == Ok(end)
    requires start.offsetAware == now.offsetAware && now.micros < start.micros
    ensures Classify(secret, signatureValid, Deletion(e), fromIso) == Answer(NotActive)
  {
  }

  /** The calls a handler run can add hold at most one patch. */
  lemma {:induction false} AtMostOnePatch(calls: seq<Call>)
    requires |calls| <= 2 && (|calls| == 2 ==> calls[1].WebhookLog?)
    ensures PatchCount(calls) <= 1
  {
    if |calls| == 2 {
      assert calls[1..][1..] == [];
      assert PatchCount(calls[1..]) == 0;
    } else if |calls| == 1 {
      assert calls[1..] == [];
    }
  }

  /**
   * `handle_webhook`: classify, run at most one handler, and answer. Every
   * service call the request causes comes from that one handler.
   */
  method HandleWebhook(env: Services, secret: Option<string>, signatureValid: bool, payload: Payload,
                       fromIso: string -> Option<Instant>, extra: UndeclaredFields,
                       images: Option<ImageConfig>, timeout: int) returns (r: Response)
    modifies env`trace
    ensures var a := Classify(secret, signatureValid, payload, fromIso);
      match a
      case Answer(response) => r == response && env.trace == old(env.trace)
      case Provision(p) =>
        var run := ProvisionRun(p, extra, images, timeout, env.patchAnswer, env.logAnswer);
        r == Conclude(a, run.result) && env.trace == old(env.trace) + run.calls
      case EndReservation(p) =>
        var run := DeprovisionRun(Standard(p), env.patchAnswer, env.logAnswer);
        r == Conclude(a, run.result) && env.trace == old(env.trace) + run.calls
      case ReleaseDeleted(e) =>
        var run := DeprovisionRun(Deletion(e), env.patchAnswer, env.logAnswer);
        r == Conclude(a, run.result) && env.trace == old(env.trace) + run.calls
    ensures |old(env.trace)| <= |env.trace| && PatchCount(env.trace[|old(env.trace)|..]) <= 1
  {
    var a := Classify(secret, signatureValid, payload, fromIso);
    ghost var before := env.trace;
    match a
    case Answer(response) =>
      r := response;
      assert env.trace[|before|..] == [];
    case Provision(p) =>
      var ok := HandleProvisionEvent(env, p, extra, images, timeout);
      r := Conclude(a, ok);
      assert env.trace[|before|..] == ProvisionRun(p, extra, images, timeout, env.patchAnswer, env.logAnswer).calls;
      AtMostOnePatch(env.trace[|before|..]);
    case EndReservation(p) =>
      var ok := HandleDeprovisionEvent(env, Standard(p));
      r := Conclude(a, ok);
      assert env.trace[|before|..] == DeprovisionRun(Standard(p), env.patchAnswer, env.logAnswer).calls;
      AtMostOnePatch(env.trace[|before|..]);
    case ReleaseDeleted(e) =>
      var ok := HandleDeprovisionEvent(env, Deletion(e));
      r := Conclude(a, ok);
      assert env.trace[|before|..] == DeprovisionRun(Deletion(e), env.patchAnswer, env.logAnswer).calls;
      AtMostOnePatch(env.trace[|before|..]);
  }
}
