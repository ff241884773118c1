/** pkg/enum/circuit_breaker_status.go: the public copy of the circuit
    breaker status, without the marshalling side. */
module PkgEnumCircuitBreakerStatus {
  import opened Wrappers
  import opened GoStrings
  import opened Pointers
  import opened EnumJson
  import EnumCircuitBreakerStatus

  type CircuitBreakerStatus = string

  const CircuitBreakerStatusOpen := "OPEN"
  const CircuitBreakerStatusRepublishing := "REPUBLISHING"
  const CircuitBreakerStatusCooldown := "COOLDOWN"
  const CircuitBreakerStatusChecking := "CHECKING"

  const AllStatuses: seq<CircuitBreakerStatus> :=
    [CircuitBreakerStatusOpen, CircuitBreakerStatusRepublishing, CircuitBreakerStatusCooldown, CircuitBreakerStatusChecking]

  function ParseCircuitBreakerStatus(s: string): (r: Returned<CircuitBreakerStatus>)
    ensures r.Success() <==> s in AllStatuses
    ensures r.Success() ==> r.value == s
    ensures !r.Success() ==> r == Returned("", Some("could not parse '" + s + "' as circuitBreakerStatus"))
  {
    match s
    case "OPEN" => Returned(s, None)
    case "REPUBLISHING" => Returned(s, None)
    case "COOLDOWN" => Returned(s, None)
    case "CHECKING" => Returned(s, None)
    case _ => Returned("", Some("could not parse '" + s + "' as circuitBreakerStatus"))
  }

  /** The public parser is the internal one. */
  lemma AgreesWithEnum(s: string)
    ensures ParseCircuitBreakerStatus(s) == EnumCircuitBreakerStatus.ParseCircuitBreakerStatus(s)
  {
  }

  function UnmarshalEffect(data: string): Effect<CircuitBreakerStatus> {
    Lenient(data, ParseCircuitBreakerStatus)
  }

  method UnmarshalJSON(cbStatus: Ref<CircuitBreakerStatus>, bytes: string) returns (err: Option<string>)
    modifies cbStatus
    ensures err == UnmarshalEffect(bytes).Error()
    ensures cbStatus.value == UnmarshalEffect(bytes).Apply(old(cbStatus.value))
  {
    err := Perform(cbStatus, UnmarshalEffect(bytes));
  }

  /** Null is a no-op; a quoted input decodes as the bare one; success writes
      one of the four names and an error leaves the receiver as it was. */
  lemma UnmarshalCases(data: string, current: CircuitBreakerStatus)
    ensures UnmarshalEffect("null") == Keep(None)
    ensures Plain(data) ==> UnmarshalEffect(Quoted(data)) == ParseEffect(data, ParseCircuitBreakerStatus)
    ensures UnmarshalEffect(data).Assign? ==> UnmarshalEffect(data).value in AllStatuses
    ensures UnmarshalEffect(data).Error().Some? ==> UnmarshalEffect(data).Apply(current) == current
  {
    if Plain(data) {
      LenientQuoted(data, ParseCircuitBreakerStatus);
    }
  }
}
