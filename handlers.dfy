/**
 * `handle_provision_event` and `handle_deprovision_event`
 * (app/utils.py:173-293): each calls the host-patch service and, only when
 * the patch succeeds, the webhook audit-log service, inside a `try` whose
 * `except` turns any exception into `False`.
 *
 * The two services (`kubernetes.patch_baremetalhost`,
 * `notification.send_webhook_log`) are not part of this model: a `Services`
 * object stands for them, answers every call with a fixed `Outcome`, and
 * records each call in a ghost trace.
 */
module Handlers {
  import opened Wrappers
  import opened Text
  import opened Models
  import opened Provisioning

  /** What a service call did: returned a boolean, or raised. */
  datatype Outcome = Returned(ok: bool) | Raised

  /** The keyword arguments a provisioning patch passes besides the host name and image URL. */
  datatype ProvisionArgs = ProvisionArgs(
    sshKeys: seq<string>,
    checksum: string,
    checksumType: string,
    waitForCompletion: bool,
    webhookId: string,
    userId: string,
    eventId: string,
    timeout: int)

  /** The `metadata` dictionary of an audit-log entry. */
  datatype Metadata = Metadata(resourceName: string, userId: Option<string>, eventId: string)

  /** The arguments of one `send_webhook_log` call; `payloadData` is the payload it serialises. */
  datatype LogEntry = LogEntry(
    webhookId: string,
    eventType: string,
    success: bool,
    payloadData: Payload,
    statusCode: int,
    response: string,
    retryCount: int,
    metadata: Metadata)

  /**
   * One call to a service. A `Patch` with `args == None` passed only the host
   * name and `image_url`; `imageUrl == None` asks for deprovisioning.
   */
  datatype Call =
    | Patch(bmhName: string, imageUrl: Option<string>, args: Option<ProvisionArgs>)
    | WebhookLog(entry: LogEntry)

  /** The external services, with the answers they give and the calls made to them. */
  class Services {
    ghost var trace: seq<Call>
    const patchAnswer: Outcome
    const logAnswer: Outcome

    constructor (patchAnswer: Outcome, logAnswer: Outcome)
      ensures trace == []
      ensures this.patchAnswer == patchAnswer && this.logAnswer == logAnswer
    {
      this.patchAnswer := patchAnswer;
      this.logAnswer := logAnswer;
      trace := [];
    }

    /** `kubernetes.patch_baremetalhost`. */
    method PatchBaremetalhost(bmhName: string, imageUrl: Option<string>, args: Option<ProvisionArgs>) returns (out: Outcome)
      modifies this`trace
      ensures trace == old(trace) + [Patch(bmhName, imageUrl, args)]
      ensures out == patchAnswer
    {
      trace := trace + [Patch(bmhName, imageUrl, args)];
      out := patchAnswer;
    }

    /** `notification.send_webhook_log`. */
    method SendWebhookLog(entry: LogEntry) returns (out: Outcome)
      modifies this`trace
      ensures trace == old(trace) + [WebhookLog(entry)]
      ensures out == logAnswer
    {
      trace := trace + [WebhookLog(entry)];
      out := logAnswer;
    }
  }

  /** The result of a handler and the service calls it made, in order. */
  datatype Run = Run(result: bool, calls: seq<Call>)

  /** Number of patch calls in a sequence of calls. */
  function PatchCount(calls: seq<Call>): nat {
    if calls == [] then 0 else (if calls[0].Patch? then 1 else 0) + PatchCount(calls[1..])
  }

  // ---------------------------------------------------------------- provision

  /** `payload.user_id or "unknown"`. */
  function UserIdOrUnknown(p: WebhookPayload): (r: string)
    ensures r != ""
    ensures TruthyText(p.userId) ==> r == p.userId.value
    ensures !TruthyText(p.userId) ==> r == "unknown"
  {
    if TruthyText(p.userId) then p.userId.value else "unknown"
  }

  /**
   * The patch call `handle_provision_event` makes (utils.py:188-213), or the
   * exception raised while computing its arguments: the `operating_system`
   * or `ssh_public_key` attribute is missing, or the image settings are
   * absent from configuration (`images == None`).
   */
  function ProvisionPatch(p: WebhookPayload, extra: UndeclaredFields, images: Option<ImageConfig>, timeout: int): (r: Result<Call>)
    ensures r.Ok? <==> extra.operatingSystem.Present? && images.Some? && SelectSshKeys(p.sshKeys, extra.sshPublicKey).Ok?
    ensures r.Ok? ==>
      var details := GetImageDetails(extra.operatingSystem.value, images.value);
      && r.value.Patch?
      && r.value.bmhName == p.resourceName
      && r.value.imageUrl == Some(details.imageUrl)
      && r.value.args.Some?
      && var args := r.value.args.value;
      && args.sshKeys == SelectSshKeys(p.sshKeys, extra.sshPublicKey).value
      && args.checksum == details.checksum
      && args.checksumType == images.value.checksumType
      && !args.waitForCompletion
      && args.timeout == timeout
      && args.webhookId == IntToString(p.webhookId)
      && args.userId == UserIdOrUnknown(p)
      && args.eventId == p.eventId
  {
    match extra.operatingSystem
    case Missing => Err("AttributeError: operating_system")
    case Present(slug) =>
      match images
      case None => Err("AttributeError: image settings")
      case Some(cfg) =>
        var details := GetImageDetails(slug, cfg);
        match SelectSshKeys(p.sshKeys, extra.sshPublicKey)
        case Err(e) => Err(e)
        case Ok(keys) =>
          Ok(Patch(p.resourceName, Some(details.imageUrl),
                   Some(ProvisionArgs(keys, details.checksum, details.checksumType, false,
                                      IntToString(p.webhookId), UserIdOrUnknown(p), p.eventId, timeout))))
  }

  /** The audit-log entry sent after a successful provisioning patch (utils.py:217-226). */
  function ProvisionLog(p: WebhookPayload, operatingSystem: Option<string>): (r: LogEntry)
    ensures r.webhookId == IntToString(p.webhookId) && r.eventType == EventStart && r.success
    ensures r.payloadData == Standard(p) && r.statusCode == 200 && r.retryCount == 0
    ensures r.metadata == Metadata(p.resourceName, Some(UserIdOrUnknown(p)), p.eventId)
    ensures "Provisioning initiated for server '" + p.resourceName + "'" <= r.response
    ensures !TruthyText(operatingSystem) ==> r.response == "Provisioning initiated for server '" + p.resourceName + "'"
  {
    var osNote := if TruthyText(operatingSystem) then " (OS: " + operatingSystem.value + ")" else "";
    LogEntry(IntToString(p.webhookId), EventStart, true, Standard(p), 200,
             "Provisioning initiated for server '" + p.resourceName + "'" + osNote, 0,
             Metadata(p.resourceName, Some(UserIdOrUnknown(p)), p.eventId))
  }

  /**
   * What `handle_provision_event` returns and which calls it makes, given the
   * services' answers.
   */
  function ProvisionRun(p: WebhookPayload, extra: UndeclaredFields, images: Option<ImageConfig>, timeout: int,
                        patchAnswer: Outcome, logAnswer: Outcome): (r: Run)
    ensures r.result <==> ProvisionPatch(p, extra, images, timeout).Ok? && patchAnswer == Returned(true) && !logAnswer.Raised?
    ensures ProvisionPatch(p, extra, images, timeout).Err? ==> r.calls == []
    ensures ProvisionPatch(p, extra, images, timeout).Ok? ==>
      && 1 <= |r.calls| <= 2
      && r.calls[0] == ProvisionPatch(p, extra, images, timeout).value
      && (|r.calls| == 2 <==> patchAnswer == Returned(true))
      && (|r.calls| == 2 ==> r.calls[1].WebhookLog? && r.calls[1].entry.eventType == EventStart)
  {
    match ProvisionPatch(p, extra, images, timeout)
    case Err(_) => Run(false, [])
    case Ok(patch) =>
      if patchAnswer != Returned(true) then Run(false, [patch])
      else
        var log := WebhookLog(ProvisionLog(p, extra.operatingSystem.value));
        Run(!logAnswer.Raised?, [patch, log])
  }

  /** `handle_provision_event(payload, raw_payload)`. */
  method HandleProvisionEvent(env: Services, p: WebhookPayload, extra: UndeclaredFields,
                              images: Option<ImageConfig>, timeout: int) returns (ok: bool)
    modifies env`trace
    ensures var run := ProvisionRun(p, extra, images, timeout, env.patchAnswer, env.logAnswer);
            ok == run.result && env.trace == old(env.trace) + run.calls
  {
    var prepared := ProvisionPatch(p, extra, images, timeout);
    if prepared.Err? {
      return false;
    }
    var patch := prepared.value;
    var patched := env.PatchBaremetalhost(patch.bmhName, patch.imageUrl, patch.args);
    if patched != Returned(true) {
      return false;
    }
    var logged := env.SendWebhookLog(ProvisionLog(p, extra.operatingSystem.value));
    if logged.Raised? {
      return false;
    }
    // A log call that returns False only produces a warning.
    return true;
  }

  /** The provisioning result is the patch result whenever the audit-log call does not raise. */
  lemma ProvisionResultIsPatchResult(p: WebhookPayload, extra: UndeclaredFields, images: Option<ImageConfig>, timeout: int,
                                     patchAnswer: Outcome, logAnswer: Outcome)
    requires ProvisionPatch(p, extra, images, timeout).Ok? && !logAnswer.Raised?
    ensures ProvisionRun(p, extra, images, timeout, patchAnswer, logAnswer).result == (patchAnswer == Returned(true))
    ensures PatchCount(ProvisionRun(p, extra, images, timeout, patchAnswer, logAnswer).calls) == 1
  {
    var calls := ProvisionRun(p, extra, images, timeout, patchAnswer, logAnswer).calls;
    if |calls| == 2 {
      assert calls[1..][1..] == [];
      assert PatchCount(calls[1..]) == 0;
    } else {
      assert calls[1..] == [];
    }
  }

  /**
   * With the payload class as declared in app/models.py, which has no
   * `operating_system` field, provisioning always fails before any call.
   */
  lemma ProvisionFailsAsDeclared(p: WebhookPayload, images: Option<ImageConfig>, timeout: int,
                                 patchAnswer: Outcome, logAnswer: Outcome)
    ensures ProvisionRun(p, AsDeclared, images, timeout, patchAnswer, logAnswer) == Run(false, [])
  {
  }

  // -------------------------------------------------------------- deprovision

  /** The identifiers `handle_deprovision_event` reads from either payload shape. */
  datatype Target = Target(resourceName: string, eventId: string, webhookId: string, userId: Option<string>)

  /** utils.py:248-260: the target of a deprovisioning, or `None` for a payload of neither type. */
  function DeprovisionTarget(payload: Payload): (r: Option<Target>)
    ensures r.None? <==> payload.Unrecognised?
    ensures payload.Deletion? ==> r.value.eventId != ""
  {
    match payload
    case Standard(p) => Some(Target(p.resourceName, p.eventId, IntToString(p.webhookId), p.userId))
    case Deletion(e) => Some(Target(e.data.resource.name, IntToString(e.data.id), e.webhookId, e.data.keycloakId))
    case Unrecognised => None
  }

  /** The audit-log entry sent after a successful deprovisioning patch (utils.py:272-281). */
  function DeprovisionLog(payload: Payload, t: Target): (r: LogEntry)
    ensures r.webhookId == t.webhookId && r.eventType == EventEnd && r.success
    ensures r.payloadData == payload && r.statusCode == 200 && r.retryCount == 0
    ensures r.metadata == Metadata(t.resourceName, t.userId, t.eventId)
    ensures r.response == "Deprovisioning completed for server '" + t.resourceName + "'"
  {
    LogEntry(t.webhookId, EventEnd, true, payload, 200,
             "Deprovisioning completed for server '" + t.resourceName + "'", 0,
             Metadata(t.resourceName, t.userId, t.eventId))
  }

  /**
   * What `handle_deprovision_event` returns and which calls it makes, given
   * the services' answers.
   */
  function DeprovisionRun(payload: Payload, patchAnswer: Outcome, logAnswer: Outcome): (r: Run)
    ensures payload.Unrecognised? ==> r == Run(false, [])
    ensures !payload.Unrecognised? ==>
      var t := DeprovisionTarget(payload).value;
      && r.result == (patchAnswer == Returned(true) && !(t.eventId != "" && logAnswer.Raised?))
      && 1 <= |r.calls| <= 2
      && r.calls[0] == Patch(t.resourceName, None, None)
      && (|r.calls| == 2 <==> patchAnswer == Returned(true) && t.eventId != "")
      && (|r.calls| == 2 ==> r.calls[1].WebhookLog? && r.calls[1].entry.eventType == EventEnd)
  {
    match DeprovisionTarget(payload)
    case None => Run(false, [])
    case Some(t) =>
      var patch := Patch(t.resourceName, None, None);
      if patchAnswer != Returned(true) then Run(false, [patch])
      else if t.eventId == "" then Run(true, [patch])
      else Run(!logAnswer.Raised?, [patch, WebhookLog(DeprovisionLog(payload, t))])
  }

  /** `handle_deprovision_event(payload, raw_payload)`. */
  method HandleDeprovisionEvent(env: Services, payload: Payload) returns (ok: bool)
    modifies env`trace
    ensures var run := DeprovisionRun(payload, env.patchAnswer, env.logAnswer);
            ok == run.result && env.trace == old(env.trace) + run.calls
  {
    var target := DeprovisionTarget(payload);
    if target.None? {
      return false;
    }
    var t := target.value;
    var patched := env.PatchBaremetalhost(t.resourceName, None, None);
    if patched.Raised? {
      return false;
    }
    ok := patched.ok;
    if ok && t.eventId != "" {
      var logged := env.SendWebhookLog(DeprovisionLog(payload, t));
      if logged.Raised? {
        return false;
      }
    }
  }

  /** A deletion payload's event id is `str(data.id)`, never empty, so a successful patch is always logged. */
  lemma DeletionAlwaysLogged(e: EventWebhookPayload, logAnswer: Outcome)
    ensures |DeprovisionRun(Deletion(e), Returned(true), logAnswer).calls| == 2
  {
  }
}
