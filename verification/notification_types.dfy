/** `POST /api/test/notification-types`: looks the requested type name up in a
    fixed table of five entries and sends the matching notification.

    The handler reads the table with `notificationTypes[type]` on a plain object
    literal, so names inherited from `Object.prototype` ("toString",
    "constructor", "__proto__", ...) also yield a truthy value and pass the
    "Invalid notification type" guard. That value has no `type` field, and
    `sendNotification` then throws a TypeError on `payload.type.toString()`
    before reaching the provider, so the request ends in a 500 instead of the
    intended 400. `SendTypedNotificationAsWritten` models that lookup;
    `SendTypedNotification` is the intended behaviour, own entries only. */
module NotificationTypes {
  import opened Wrappers
  import JsText
  import opened FcmService

  const DefaultTypeName: string := "info"

  /** The table's keys, in declaration order (`Object.keys`). */
  const TypeNames: seq<string> := ["info", "warning", "error", "success", "urgent"]

  datatype TypeEntry = TypeEntry(title: string, description: string, notificationType: int, data: map<string, string>)

  /** The fixed table. The numeric type of a name is its one-based position in
      `TypeNames`, and its `category` datum is the name itself. */
  function LookupType(name: string): (e: Option<TypeEntry>)
    ensures e.Some? <==> name in TypeNames
    ensures e.Some? ==>
      && 1 <= e.value.notificationType <= |TypeNames|
      && TypeNames[e.value.notificationType - 1] == name
      && "category" in e.value.data && e.value.data["category"] == name
      && "priority" in e.value.data
      && (e.value.data["priority"] == "high" <==> name in {"warning", "error", "urgent"})
      && ("action_required" in e.value.data <==> name in {"warning", "error", "urgent"})
  {
    if name == "info" then
      Some(TypeEntry("\U{2139}\U{FE0F} Information", "This is an informational notification", 1,
                     map["priority" := "normal", "category" := "info"]))
    else if name == "warning" then
      Some(TypeEntry("\U{26A0}\U{FE0F} Warning", "This is a warning notification", 2,
                     map["priority" := "high", "category" := "warning", "action_required" := "false"]))
    else if name == "error" then
      Some(TypeEntry("\U{274C} Error", "This is an error notification", 3,
                     map["priority" := "high", "category" := "error", "action_required" := "true"]))
    else if name == "success" then
      Some(TypeEntry("\U{2705} Success", "Operation completed successfully!", 4,
                     map["priority" := "normal", "category" := "success"]))
    else if name == "urgent" then
      Some(TypeEntry("\U{1F6A8} Urgent", "This requires immediate attention!", 5,
                     map["priority" := "high", "category" := "urgent", "action_required" := "true"]))
    else None
  }

  /** Distinct names get distinct numeric types. */
  lemma LookupTypeInjective(a: string, b: string)
    requires LookupType(a).Some? && LookupType(b).Some?
    requires LookupType(a).value.notificationType == LookupType(b).value.notificationType
    ensures a == b
  {
  }

  datatype TypesReply =
    | MissingToken
    | InvalidType(availableTypes: seq<string>)
    | TypeSent(message: string, payload: Payload, additionalData: map<string, string>, response: string)
    | ServerError(message: string)
  {
    function Status(): int {
      match this
      case MissingToken => 400
      case InvalidType(_) => 400
      case TypeSent(_, _, _, _) => 200
      case ServerError(_) => 500
    }
  }

  /** A handled request: the reply and the messages handed to the provider,
      in call order. */
  datatype Handled = Handled(reply: TypesReply, sent: seq<Message>)

  /** The payload sent for a table entry; `now` and `stamp` are `Date.now()`
      and the ISO date read by the handler. */
  function TypedPayload(token: string, entry: TypeEntry, now: int, stamp: string): (p: Payload)
    ensures p.token == token && p.id == now && !p.read && p.issuedDate == stamp
    ensures p.notificationType == entry.notificationType
    ensures p.title == entry.title && p.description == entry.description
  {
    Payload(token, now, entry.notificationType, entry.title, entry.description, false, stamp)
  }

  /** Once an entry is found: exactly one send, of the entry's payload; a
      success is answered 200 with the payload, the entry's extra data and the
      provider's response, a provider error 500 with its message. */
  function SendEntry(token: string, typeName: string, entry: TypeEntry, now: int, stamp: string,
                     provider: Provider): (h: Handled)
    ensures h.sent == [DeviceMessage(TypedPayload(token, entry, now, stamp))]
    ensures h.reply.TypeSent? <==> provider(h.sent[0]).Sent?
    ensures h.reply.TypeSent? ==>
      h.reply == TypeSent(typeName + " notification sent successfully", TypedPayload(token, entry, now, stamp),
                          entry.data, provider(h.sent[0]).response)
    ensures !h.reply.TypeSent? ==>
      h.reply == ServerError(provider(h.sent[0]).error.message) && h.reply.Status() == 500
  {
    var payload := TypedPayload(token, entry, now, stamp);
    var sent := [DeviceMessage(payload)];
    match SendNotification(payload, provider)
    case Sent(response) =>
      Handled(TypeSent(typeName + " notification sent successfully", payload, entry.data, response), sent)
    case Failed(error) =>
      Handled(ServerError(error.message), sent)
  }

  /** The intended handler: a missing token or an unknown name is rejected with
      400 before any send; a known name is sent once with its table entry. */
  function SendTypedNotification(token: Option<string>, typeName: Option<string>,
                                 now: int, stamp: string, provider: Provider): (h: Handled)
    ensures h.reply.MissingToken? <==> !JsText.Truthy(token)
    ensures h.reply.InvalidType? <==> JsText.Truthy(token) && typeName.GetOr(DefaultTypeName) !in TypeNames
    ensures h.reply.InvalidType? ==> h.reply.availableTypes == TypeNames
    ensures (h.reply.MissingToken? || h.reply.InvalidType?) ==> h.reply.Status() == 400 && h.sent == []
    ensures h.reply.TypeSent? || h.reply.ServerError? ==>
      var name := typeName.GetOr(DefaultTypeName);
      var entry := LookupType(name).value;
      var payload := TypedPayload(token.value, entry, now, stamp);
      var m := DeviceMessage(payload);
      && name in TypeNames
      && TypeNames[payload.notificationType - 1] == name
      && h.sent == [m]
      && (h.reply.TypeSent? <==> provider(m).Sent?)
      && (h.reply.TypeSent? ==>
            && h.reply.message == name + " notification sent successfully"
            && h.reply.payload == payload
            && h.reply.additionalData == entry.data
            && h.reply.response == provider(m).response)
      && (h.reply.ServerError? ==> h.reply.message == provider(m).error.message)
  {
    if !JsText.Truthy(token) then Handled(MissingToken, [])
    else
      var name := typeName.GetOr(DefaultTypeName);
      match LookupType(name)
      case None => Handled(InvalidType(TypeNames), [])
      case Some(entry) => SendEntry(token.value, name, entry, now, stamp, provider)
  }

  /** The property names an object literal inherits from `Object.prototype`. */
  const InheritedNames: set<string> := {
    "constructor", "hasOwnProperty", "isPrototypeOf", "propertyIsEnumerable",
    "toString", "toLocaleString", "valueOf", "__proto__",
    "__defineGetter__", "__defineSetter__", "__lookupGetter__", "__lookupSetter__"}

  /** What `notificationTypes[name]` evaluates to. */
  datatype Property = Own(entry: TypeEntry) | Inherited | Undefined

  function PropertyLookup(name: string): (p: Property)
    ensures p.Own? <==> name in TypeNames
    ensures p.Inherited? <==> name in InheritedNames
  {
    match LookupType(name)
    case Some(entry) => Own(entry)
    case None => if name in InheritedNames then Inherited else Undefined
  }

  /** The message of the TypeError `payload.type.toString()` throws when
      `type` is undefined. */
  const UndefinedTypeErrorMessage: string := "Cannot read properties of undefined (reading 'toString')"

  /** The handler as written: only an `undefined` lookup is rejected. An
      inherited member passes the guard, and `sendNotification` throws on its
      undefined `type` before the provider is called. */
  function SendTypedNotificationAsWritten(token: Option<string>, typeName: Option<string>,
                                          now: int, stamp: string, provider: Provider): (h: Handled)
    ensures h.reply.MissingToken? <==> !JsText.Truthy(token)
    ensures h.reply.InvalidType? <==>
      JsText.Truthy(token) && typeName.GetOr(DefaultTypeName) !in TypeNames
      && typeName.GetOr(DefaultTypeName) !in InheritedNames
    ensures JsText.Truthy(token) && typeName.GetOr(DefaultTypeName) in InheritedNames ==>
      h.reply == ServerError(UndefinedTypeErrorMessage) && h.reply.Status() == 500 && h.sent == []
    ensures (h.reply.MissingToken? || h.reply.InvalidType?) ==> h.reply.Status() == 400 && h.sent == []
  {
    if !JsText.Truthy(token) then Handled(MissingToken, [])
    else
      var name := typeName.GetOr(DefaultTypeName);
      match PropertyLookup(name)
      case Undefined => Handled(InvalidType(TypeNames), [])
      case Inherited => Handled(ServerError(UndefinedTypeErrorMessage), [])
      case Own(entry) => SendEntry(token.value, name, entry, now, stamp, provider)
  }

  /** The discrepancy: "toString" is not a notification type, yet the handler
      as written answers 500 instead of rejecting it with 400. */
  lemma InheritedNameEscapesValidation(now: int, stamp: string, provider: Provider)
    ensures "toString" !in TypeNames
    ensures SendTypedNotificationAsWritten(Some("token"), Some("toString"), now, stamp, provider).reply.Status() == 500
    ensures SendTypedNotification(Some("token"), Some("toString"), now, stamp, provider).reply.Status() == 400
  {
  }

  /** Outside the inherited names the two handlers agree. */
  lemma AsWrittenAgreesElsewhere(token: Option<string>, typeName: Option<string>,
                                 now: int, stamp: string, provider: Provider)
    requires typeName.GetOr(DefaultTypeName) !in InheritedNames
    ensures SendTypedNotificationAsWritten(token, typeName, now, stamp, provider)
         == SendTypedNotification(token, typeName, now, stamp, provider)
  {
  }
}
