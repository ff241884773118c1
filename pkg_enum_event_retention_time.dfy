/** pkg/enum/event_retention_time.go: retention times as records of a name
    and a duration. */
module PkgEnumEventRetentionTime {
  import opened Wrappers
  import opened GoStrings
  import opened Pointers
  import opened EnumJson
  import opened Durations

  datatype TTL = TTL(topic: string, retentionTimeInMs: int)

  const Ttl7Days := TTL("TTL_7_DAYS", 604800000)
  const Ttl5Days := TTL("TTL_5_DAYS", 432000000)
  const Ttl3Days := TTL("TTL_3_DAYS", 259200000)
  const Ttl1Day := TTL("TTL_1_DAY", 86400000)
  const Ttl1Hour := TTL("TTL_1_HOUR", 3600000)
  const TtlDefault := TTL("DEFAULT", 604800000)

  /** `TTL{}`, the zero value. */
  const NoTtl := TTL("", 0)

  const AllTtls: seq<TTL> := [Ttl7Days, Ttl5Days, Ttl3Days, Ttl1Day, Ttl1Hour, TtlDefault]

  /** A name is accepted only as the topic of one of the six constants,
      and that constant is returned; anything else gives `TTL{}` and an error. */
  function ParseEventRetentionTime(s: string): (r: Returned<TTL>)
    ensures r.Success() ==> r.value in AllTtls && r.value.topic == s
    ensures !r.Success() ==> r == Returned(NoTtl, Some("could not parse '" + s + "' as eventRetentionTime"))
  {
    if s == "TTL_7_DAYS" then Returned(Ttl7Days, None)
    else if s == "TTL_5_DAYS" then Returned(Ttl5Days, None)
    else if s == "TTL_3_DAYS" then Returned(Ttl3Days, None)
    else if s == "TTL_1_DAY" then Returned(Ttl1Day, None)
    else if s == "TTL_1_HOUR" then Returned(Ttl1Hour, None)
    else if s == "DEFAULT" then Returned(TtlDefault, None)
    else Returned(NoTtl, Some("could not parse '" + s + "' as eventRetentionTime"))
  }

  /** Each constant is found by its topic. */
  lemma ParseTopic(c: TTL)
    requires c in AllTtls
    ensures ParseEventRetentionTime(c.topic) == Returned(c, None)
  {
  }

  /** Matching is on the whole record: a record with a known topic but
      another duration is not a known constant and is shown as seven days. */
  function RoverString(ttl: TTL): (r: string)
    ensures RoverMillis(r).Some? && RoverMillis(r).value > 0
    ensures ttl != Ttl5Days && ttl != Ttl3Days && ttl != Ttl1Day && ttl != Ttl1Hour ==> r == "7d"
  {
    if ttl == Ttl7Days then "7d"
    else if ttl == Ttl5Days then "5d"
    else if ttl == Ttl3Days then "3d"
    else if ttl == Ttl1Day then "1d"
    else if ttl == Ttl1Hour then "1h"
    else "7d"
  }

  /** The rover string of every constant denotes its own duration; DEFAULT,
      `TTL{}` and every other record are shown as seven days. */
  lemma RoverAgreesWithDuration(ttl: TTL)
    ensures ttl in AllTtls ==> RoverMillis(RoverString(ttl)) == Some(ttl.retentionTimeInMs)
    ensures ttl !in AllTtls[..5] ==> RoverString(ttl) == "7d"
  {
  }

  lemma RoverExamples()
    ensures RoverString(TtlDefault) == "7d" && RoverString(NoTtl) == "7d"
    ensures RoverString(TTL("TTL_5_DAYS", 1)) == "7d"
  {
  }

  /** The durations are the named numbers of days or hours, and DEFAULT lasts seven days. */
  lemma NamedDurations()
    ensures Ttl7Days.retentionTimeInMs == 7 * MillisPerDay && Ttl5Days.retentionTimeInMs == 5 * MillisPerDay
    ensures Ttl3Days.retentionTimeInMs == 3 * MillisPerDay && Ttl1Day.retentionTimeInMs == MillisPerDay
    ensures Ttl1Hour.retentionTimeInMs == MillisPerHour
    ensures TtlDefault.retentionTimeInMs == Ttl7Days.retentionTimeInMs
  {
  }

  function UnmarshalEffect(data: string): Effect<TTL> {
    Lenient(data, ParseEventRetentionTime)
  }

  method UnmarshalJSON(ttl: Ref<TTL>, bytes: string) returns (err: Option<string>)
    modifies ttl
    ensures err == UnmarshalEffect(bytes).Error()
    ensures ttl.value == UnmarshalEffect(bytes).Apply(old(ttl.value))
  {
    err := Perform(ttl, UnmarshalEffect(bytes));
  }

  /** `fmt.Sprintf(`"%s"`, ttl.Topic)`; it cannot fail. */
  function MarshalJSON(ttl: TTL): (r: Returned<string>)
    ensures r.Success() && r.value == Quoted(ttl.topic)
  {
    Returned("\"" + ttl.topic + "\"", None)
  }

  /** Every constant survives marshalling and unmarshalling. */
  lemma MarshalRoundTrip(c: TTL)
    requires c in AllTtls
    ensures UnmarshalEffect(MarshalJSON(c).value) == Assign(c)
  {
    assert Plain(c.topic);
    LenientQuoted(c.topic, ParseEventRetentionTime);
  }

  /** Null is a no-op, and a rejected name leaves the receiver as it was. */
  lemma UnmarshalCases(data: string, current: TTL)
    ensures UnmarshalEffect("null") == Keep(None)
    ensures UnmarshalEffect(data).Assign? ==> UnmarshalEffect(data).value in AllTtls
    ensures UnmarshalEffect(data).Error().Some? ==> UnmarshalEffect(data).Apply(current) == current
  {
  }
}
