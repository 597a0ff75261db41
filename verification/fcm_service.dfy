/** `FCMService`: turns a notification payload (or topic arguments) into the
    provider's message shape and hands it to the provider. The provider's
    `messaging().send` is an opaque oracle from messages to outcomes; the service
    returns its response, or re-raises its error, unchanged. */
module FcmService {
  import opened Wrappers
  import JsText

  /** `NotificationPayload`; `notificationType` is the source's `type` field. */
  datatype Payload = Payload(
    token: string,
    id: int,
    notificationType: int,
    title: string,
    description: string,
    read: bool,
    issuedDate: string)

  datatype Notification = Notification(title: string, body: string)

  /** A message carries exactly one of `token` (a device) or `topic`. */
  datatype Target = Device(token: string) | Topic(name: string)

  datatype Message = Message(notification: Notification, data: map<string, string>, target: Target)

  datatype ProviderError = ProviderError(message: string)

  /** What one provider call yields: a response string or a thrown error. */
  datatype Outcome = Sent(response: string) | Failed(error: ProviderError)

  /** The provider SDK's send, as a function of the message it is given. */
  type Provider = Message -> Outcome

  /** The keys of a device message's `data` record. */
  const PayloadDataKeys: set<string> := {"id", "type", "read", "issuedDate"}

  /** The message `sendNotification` builds from a payload. */
  function DeviceMessage(p: Payload): (m: Message)
    ensures m.target == Device(p.token)
    ensures m.notification.title == p.title && m.notification.body == p.description
    ensures m.data.Keys == PayloadDataKeys
    ensures m.data["id"] == JsText.NumberToString(p.id)
    ensures m.data["type"] == JsText.NumberToString(p.notificationType)
    ensures m.data["read"] == (if p.read then "true" else "false")
    ensures m.data["issuedDate"] == p.issuedDate
  {
    Message(
      Notification(p.title, p.description),
      map["id" := JsText.NumberToString(p.id),
          "type" := JsText.NumberToString(p.notificationType),
          "read" := JsText.BoolToString(p.read),
          "issuedDate" := p.issuedDate],
      Device(p.token))
  }

  /** Reads a payload back out of a device message, if it has that shape. */
  function PayloadOf(m: Message): Option<Payload> {
    if m.target.Device? && PayloadDataKeys <= m.data.Keys then
      match (JsText.ParseInteger(m.data["id"]), JsText.ParseInteger(m.data["type"]), JsText.ParseBool(m.data["read"]))
      case (Some(id), Some(kind), Some(read)) =>
        Some(Payload(m.target.token, id, kind, m.notification.title, m.notification.body, read, m.data["issuedDate"]))
      case _ => None
    else None
  }

  /** The device message loses nothing: every payload field can be recovered
      from it, so the numeric and boolean fields are faithfully stringified. */
  lemma DeviceMessageLossless(p: Payload)
    ensures PayloadOf(DeviceMessage(p)) == Some(p)
  {
    JsText.NumberToStringRoundTrip(p.id);
    JsText.NumberToStringRoundTrip(p.notificationType);
  }

  /** `sendNotification`: one provider call with the payload's message; its
      response or error comes back unchanged. */
  function SendNotification(p: Payload, provider: Provider): (r: Outcome)
    ensures r == provider(DeviceMessage(p))
  {
    provider(DeviceMessage(p))
  }

  /** The message `sendToTopic` builds; `data` defaults to the empty record.
      It is addressed to the topic, so never to a device token. */
  function TopicMessage(topic: string, title: string, description: string, data: Option<map<string, string>>): (m: Message)
    ensures m.target == Topic(topic)
    ensures m.notification.title == title && m.notification.body == description
    ensures data.Some? ==> m.data == data.value
    ensures data.None? ==> m.data == map[]
  {
    Message(Notification(title, description), data.GetOr(map[]), Topic(topic))
  }

  /** `sendToTopic`: one provider call with the topic message; its response or
      error comes back unchanged. */
  function SendToTopic(topic: string, title: string, description: string, data: Option<map<string, string>>, provider: Provider): (r: Outcome)
    ensures r == provider(TopicMessage(topic, title, description, data))
  {
    provider(TopicMessage(topic, title, description, data))
  }
}
