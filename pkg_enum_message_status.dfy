/** pkg/enum/message_status.go: the public copy of the message status, without
    the marshalling side. */
module PkgEnumMessageStatus {
  import opened Wrappers
  import opened GoStrings
  import opened Pointers
  import opened EnumJson
  import EnumMessageStatus

  type MessageStatus = string

  const StatusProcessed: MessageStatus := "PROCESSED"
  const StatusDelivering: MessageStatus := "DELIVERING"
  const StatusWaiting: MessageStatus := "WAITING"
  const StatusDelivered: MessageStatus := "DELIVERED"
  const StatusFailed: MessageStatus := "FAILED"
  const StatusDropped: MessageStatus := "DROPPED"
  const StatusDuplicate: MessageStatus := "DUPLICATE"

  const AllStatuses: seq<MessageStatus> :=
    [StatusProcessed, StatusDelivering, StatusWaiting, StatusDelivered, StatusFailed, StatusDropped, StatusDuplicate]

  /** Exactly the seven names are accepted, and returned as given. */
  function ParseMessageStatus(status: string): (r: Returned<MessageStatus>)
    ensures r.Success() <==> status in AllStatuses
    ensures r.Success() ==> r.value == status
    ensures !r.Success() ==> r == Returned("", Some("invalid message status"))
  {
    match status
    case "PROCESSED" => Returned(status, None)
    case "DELIVERING" => Returned(status, None)
    case "WAITING" => Returned(status, None)
    case "DELIVERED" => Returned(status, None)
    case "FAILED" => Returned(status, None)
    case "DROPPED" => Returned(status, None)
    case "DUPLICATE" => Returned(status, None)
    case _ => Returned("", Some("invalid message status"))
  }

  /** The public parser is the internal one: same names, same error. */
  lemma AgreesWithEnum(status: string)
    ensures ParseMessageStatus(status) == EnumMessageStatus.ParseMessageStatus(status)
  {
  }

  function UnmarshalEffect(data: string): Effect<MessageStatus> {
    Lenient(data, ParseMessageStatus)
  }

  method UnmarshalJSON(ms: Ref<MessageStatus>, bytes: string) returns (err: Option<string>)
    modifies ms
    ensures err == UnmarshalEffect(bytes).Error()
    ensures ms.value == UnmarshalEffect(bytes).Apply(old(ms.value))
  {
    err := Perform(ms, UnmarshalEffect(bytes));
  }

  /** Null is a no-op; a status is accepted bare or quoted; a rejected input
      leaves the receiver as it was, and success writes one of the seven names. */
  lemma UnmarshalCases(data: string, current: MessageStatus)
    ensures UnmarshalEffect("null") == Keep(None)
    ensures data in AllStatuses ==> UnmarshalEffect(data) == Assign(data)
    ensures data in AllStatuses ==> UnmarshalEffect(Quoted(data)) == Assign(data)
    ensures UnmarshalEffect(data).Assign? ==> UnmarshalEffect(data).value in AllStatuses
    ensures UnmarshalEffect(data).Error().Some? ==> UnmarshalEffect(data).Apply(current) == current
  {
    if data in AllStatuses {
      assert Plain(data);
      LenientQuoted(data, ParseMessageStatus);
    }
  }
}
