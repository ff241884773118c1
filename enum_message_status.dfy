/** enum/message_status.go: the status of a message, as one of seven names. */
module EnumMessageStatus {
  import opened Wrappers
  import opened GoStrings
  import opened Pointers
  import opened EnumJson

  type MessageStatus = string

  const StatusProcessed: MessageStatus := "PROCESSED"
  const StatusDelivering: MessageStatus := "DELIVERING"
  const StatusWaiting: MessageStatus := "WAITING"
  const StatusDelivered: MessageStatus := "DELIVERED"
  const StatusFailed: MessageStatus := "FAILED"
  const StatusDropped: MessageStatus := "DROPPED"
  const StatusDuplicate: MessageStatus := "DUPLICATE"

  const AllStatuses: seq<MessageStatus> :=
    [StatusProcessed, StatusDelivering, StatusWaiting, StatusDelivered, StatusFailed, StatusDropped, StatusDuplicate]

  /** `jsonNull` of enum/constants.go. */
  const JsonNull := "null"

  /** Case-sensitive: exactly the seven names are accepted, and returned as given. */
  function ParseMessageStatus(status: string): (r: Returned<MessageStatus>)
    ensures r.Success() <==> status in AllStatuses
    ensures r.Success() ==> r.value == status
    ensures !r.Success() ==> r == Returned("", Some("invalid message status"))
  {
    if status == StatusProcessed || status == StatusDelivering || status == StatusWaiting
       || status == StatusDelivered || status == StatusFailed || status == StatusDropped
       || status == StatusDuplicate
    then Returned(status, None)
    else Returned("", Some("invalid message status"))
  }

  /** The literal compared with is `jsonNull`, the string null. */
  function UnmarshalEffect(data: string): Effect<MessageStatus> {
    Lenient(data, ParseMessageStatus)
  }

  method UnmarshalJSON(ms: Ref<MessageStatus>, bytes: string) returns (err: Option<string>)
    modifies ms
    ensures err == UnmarshalEffect(bytes).Error()
    ensures ms.value == UnmarshalEffect(bytes).Apply(old(ms.value))
  {
    err := Perform(ms, UnmarshalEffect(bytes));
  }

  function String(ms: MessageStatus): string { ms }

  /** `fmt.Sprintf(`"%s"`, ms.String())`: quoted without escaping; it cannot fail. */
  function MarshalJSON(ms: MessageStatus): (r: Returned<string>)
    ensures r.Success() && r.value == Quoted(String(ms))
  {
    Returned("\"" + String(ms) + "\"", None)
  }

  lemma PlainStatuses(ms: MessageStatus)
    requires ms in AllStatuses
    ensures Plain(ms)
  {
  }

  /** A marshalled status unmarshals to itself. */
  lemma MarshalRoundTrip(ms: MessageStatus)
    requires ms in AllStatuses
    ensures UnmarshalEffect(MarshalJSON(ms).value) == Assign(ms)
  {
    PlainStatuses(ms);
    LenientQuoted(ms, ParseMessageStatus);
  }

  /** Unmarshalling never writes anything but one of the seven statuses,
      and an error leaves the receiver as it was. */
  lemma UnmarshalWritesOnlyStatuses(data: string, current: MessageStatus)
    ensures UnmarshalEffect(JsonNull) == Keep(None)
    ensures UnmarshalEffect(data).Assign? ==> UnmarshalEffect(data).value in AllStatuses
    ensures UnmarshalEffect(data).Error().Some? ==> UnmarshalEffect(data).Apply(current) == current
    ensures UnmarshalEffect(data).Error().Some? ==> UnmarshalEffect(data).Error() == Some("invalid message status")
  {
  }
}
