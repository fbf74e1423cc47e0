/**
 * The two webhook payload shapes (app/models.py) as plain values. Pydantic
 * validation and field aliasing are not modelled: a payload here is one that
 * has already been accepted as one of the two shapes, or `Unrecognised`.
 */
module Models {
  import opened Wrappers

  /** Event type names shared by app/api.py and app/utils.py. */
  const EventStart := "EVENT_START"
  const EventEnd := "EVENT_END"
  const EventDeleted := "EVENT_DELETED"

  /** The only resource type the endpoint acts on. */
  const ServerType := "Server"

  /** A start/end event for one reserved resource (`WebhookPayload`). */
  datatype WebhookPayload = WebhookPayload(
    eventType: string,
    timestamp: string,
    eventId: string,
    webhookId: int,
    userId: Option<string>,
    username: Option<string>,
    email: Option<string>,
    sshKeys: Option<seq<string>>,
    imageUrl: Option<string>,
    checksumUrl: Option<string>,
    imageFormat: Option<string>,
    eventTitle: Option<string>,
    eventDescription: Option<string>,
    eventStart: string,
    eventEnd: string,
    customParameters: Option<string>,
    resourceId: int,
    resourceName: string,
    resourceType: string,
    resourceSpecs: Option<string>,
    resourceLocation: Option<string>,
    siteId: Option<string>,
    siteName: Option<string>)

  /** The resource of a deleted reservation (`EventResourceInfo`). */
  datatype EventResourceInfo = EventResourceInfo(
    name: string,
    id: int,
    specs: Option<string>,
    location: Option<string>)

  /** The `data` object of a deletion event (`EventData`). */
  datatype EventData = EventData(
    id: int,
    start: string,
    end: string,
    customParameters: Option<string>,
    resource: EventResourceInfo,
    keycloakId: Option<string>)

  /** A reservation-deleted event (`EventWebhookPayload`). */
  datatype EventWebhookPayload = EventWebhookPayload(
    eventType: string,
    timestamp: string,
    webhookId: string,
    data: EventData)

  /** What the endpoint receives: one of the two shapes, or neither. */
  datatype Payload =
    | Standard(standard: WebhookPayload)
    | Deletion(deletion: EventWebhookPayload)
    | Unrecognised

  /**
   * An attribute read that Python resolves at run time. `Missing` stands for an
   * attribute the payload class does not declare: reading it raises
   * `AttributeError`.
   */
  datatype Attr<T> = Missing | Present(value: T)

  /**
   * The two attributes app/utils.py reads from a `WebhookPayload` that
   * app/models.py does not declare: `operating_system` (utils.py:188) and
   * `ssh_public_key` (utils.py:194). With the payload class as declared both
   * are `Missing`; see `AsDeclared`.
   */
  datatype UndeclaredFields = UndeclaredFields(
    operatingSystem: Attr<Option<string>>,
    sshPublicKey: Attr<Option<string>>)

  /** The undeclared attributes as the payload class at models.py:13-55 provides them. */
  const AsDeclared := UndeclaredFields(Missing, Missing)

  /** Python truthiness of an optional string: `None` and `""` are false. */
  predicate TruthyText(s: Option<string>) {
    s.Some? && s.value != ""
  }
}
