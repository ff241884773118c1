/** enum/circuit_breaker_status.go: the state of a subscription's circuit breaker. */
module EnumCircuitBreakerStatus {
  import opened Wrappers
  import opened GoStrings
  import opened Pointers
  import opened EnumJson

  type CircuitBreakerStatus = string

  const CircuitBreakerStatusOpen := "OPEN"
  const CircuitBreakerStatusRepublishing := "REPUBLISHING"
  const CircuitBreakerStatusCooldown := "COOLDOWN"
  const CircuitBreakerStatusChecking := "CHECKING"

  const AllStatuses: seq<CircuitBreakerStatus> :=
    [CircuitBreakerStatusOpen, CircuitBreakerStatusRepublishing, CircuitBreakerStatusCooldown, CircuitBreakerStatusChecking]

  function ParseCircuitBreakerStatus(s: string): (r: Returned<CircuitBreakerStatus>)
    ensures r.Success() <==> s in AllStatuses
    ensures r.Success() ==> r.value == s
    ensures !r.Success() ==> r == Returned("", Some("could not parse '" + s + "' as circuitBreakerStatus"))
  {
    if s == CircuitBreakerStatusOpen || s == CircuitBreakerStatusRepublishing
       || s == CircuitBreakerStatusCooldown || s == CircuitBreakerStatusChecking
    then Returned(s, None)
    else Returned("", Some("could not parse '" + s + "' as circuitBreakerStatus"))
  }

  function UnmarshalEffect(data: string): Effect<CircuitBreakerStatus> {
    Lenient(data, ParseCircuitBreakerStatus)
  }

  method UnmarshalJSON(cbStatus: Ref<CircuitBreakerStatus>, bytes: string) returns (err: Option<string>)
    modifies cbStatus
    ensures err == UnmarshalEffect(bytes).Error()
    ensures cbStatus.value == UnmarshalEffect(bytes).Apply(old(cbStatus.value))
  {
    err := Perform(cbStatus, UnmarshalEffect(bytes));
  }

  function String(cbStatus: CircuitBreakerStatus): string { cbStatus }

  function MarshalJSON(cbStatus: CircuitBreakerStatus): (r: Returned<string>)
    ensures r.Success() && r.value == Quoted(String(cbStatus))
  {
    Returned("\"" + String(cbStatus) + "\"", None)
  }

  /** A marshalled status unmarshals to itself. */
  lemma MarshalRoundTrip(cbStatus: CircuitBreakerStatus)
    requires cbStatus in AllStatuses
    ensures UnmarshalEffect(MarshalJSON(cbStatus).value) == Assign(cbStatus)
  {
    assert Plain(cbStatus);
    LenientQuoted(cbStatus, ParseCircuitBreakerStatus);
  }

  /** Null is a no-op; a quoted name decodes as the bare name; a rejected
      name leaves the receiver as it was. */
  lemma UnmarshalCases(data: string, current: CircuitBreakerStatus)
    ensures UnmarshalEffect("null") == Keep(None)
    ensures Plain(data) ==> UnmarshalEffect(Quoted(data)) == ParseEffect(data, ParseCircuitBreakerStatus)
    ensures UnmarshalEffect(data).Assign? ==> UnmarshalEffect(data).value in AllStatuses
    ensures UnmarshalEffect(data).Error().Some? ==> UnmarshalEffect(data).Apply(current) == current
  {
    if Plain(data) {
      LenientQuoted(data, ParseCircuitBreakerStatus);
    }
  }
}
