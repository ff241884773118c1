/** enum/event_retention_time.go: retention times as named strings, their
    Kafka topics and durations, and their JSON and rover forms. */
module EnumEventRetentionTime {
  import opened Wrappers
  import opened Pointers
  import opened EnumJson
  import JsonString
  import Strconv
  import opened Durations

  type EventRetentionTime = string

  const Ttl7Days: EventRetentionTime := "TTL_7_DAYS"
  const Ttl5Days: EventRetentionTime := "TTL_5_DAYS"
  const Ttl3Days: EventRetentionTime := "TTL_3_DAYS"
  const Ttl1Day: EventRetentionTime := "TTL_1_DAY"
  const Ttl1Hour: EventRetentionTime := "TTL_1_HOUR"
  const TtlDefault: EventRetentionTime := "DEFAULT"

  /** The topic a retention time publishes to and how long it keeps events. */
  datatype Retention = Retention(topic: string, retentionInMs: int)

  const EventRetentionTimes: map<EventRetentionTime, Retention> := map[
    Ttl7Days := Retention("subscribed", 604800000),
    Ttl5Days := Retention("subscribed_5d", 432000000),
    Ttl3Days := Retention("subscribed_3d", 259200000),
    Ttl1Day := Retention("subscribed_1d", 86400000),
    Ttl1Hour := Retention("subscribed_1h", 3600000),
    TtlDefault := Retention("subscribed", 604800000)
  ]

  predicate IsKnown(s: string) {
    s == Ttl7Days || s == Ttl5Days || s == Ttl3Days || s == Ttl1Day || s == Ttl1Hour || s == TtlDefault
  }

  /** What `ParseEventRetentionTime` computes: a name of the table is
      returned as it is; anything else gives the default with an error. */
  function Parse(s: string): (r: Returned<EventRetentionTime>)
    ensures r.Success() <==> IsKnown(s)
    ensures r.Success() ==> r.value == s
    ensures !r.Success() ==> r == Returned(TtlDefault, Some("could not parse '" + s + "' as EventRetentionTime"))
  {
    if s in EventRetentionTimes then Returned(s, None)
    else Returned(TtlDefault, Some("could not parse '" + s + "' as EventRetentionTime"))
  }

  /** The search over the table's keys. Go visits a map in no fixed order;
      the key is chosen arbitrarily here, so the result is the same for
      every order. */
  method ParseEventRetentionTime(s: string) returns (r: Returned<EventRetentionTime>)
    ensures r == Parse(s)
  {
    var keys := EventRetentionTimes.Keys;
    while keys != {}
      invariant keys <= EventRetentionTimes.Keys
      invariant s !in EventRetentionTimes.Keys - keys
      decreases keys
    {
      var key :| key in keys;
      if key == s {
        return Returned(key, None);
      }
      keys := keys - {key};
    }
    r := Returned(TtlDefault, Some("could not parse '" + s + "' as EventRetentionTime"));
  }

  function UnmarshalEffect(data: string): Effect<EventRetentionTime> {
    Lenient(data, Parse)
  }

  method UnmarshalJSON(ttl: Ref<EventRetentionTime>, bytes: string) returns (err: Option<string>)
    modifies ttl
    ensures err == UnmarshalEffect(bytes).Error()
    ensures ttl.value == UnmarshalEffect(bytes).Apply(old(ttl.value))
  {
    err := Perform(ttl, UnmarshalEffect(bytes));
  }

  /** `json.Marshal` of the string never fails, and what it writes is a JSON
      string that reads back as the name. */
  function MarshalJSON(ttl: EventRetentionTime): (r: Returned<string>)
    ensures r.err.None? && |r.value| >= 2 && r.value[0] == '"'
    ensures Strconv.Unquote(r.value) == Returned(ttl, None)
  {
    JsonString.UnquoteMarshal(ttl);
    Returned(JsonString.Marshal(ttl), None)
  }

  /** Every retention time has a rover duration of whole days or hours; a
      name outside the table is shown as seven days. */
  function ToRoverConfigString(ttl: EventRetentionTime): (r: string)
    ensures RoverMillis(r).Some? && RoverMillis(r).value > 0
    ensures !IsKnown(ttl) ==> r == "7d"
  {
    if ttl == Ttl7Days then "7d"
    else if ttl == Ttl5Days then "5d"
    else if ttl == Ttl3Days then "3d"
    else if ttl == Ttl1Day then "1d"
    else if ttl == Ttl1Hour then "1h"
    else if ttl == TtlDefault then "7d"
    else "7d"
  }

  /** Every entry of the table keeps events for its named duration, and
      DEFAULT is the seven-day entry. */
  lemma RetentionDurations()
    ensures EventRetentionTimes[Ttl7Days].retentionInMs == 7 * MillisPerDay
    ensures EventRetentionTimes[Ttl5Days].retentionInMs == 5 * MillisPerDay
    ensures EventRetentionTimes[Ttl3Days].retentionInMs == 3 * MillisPerDay
    ensures EventRetentionTimes[Ttl1Day].retentionInMs == MillisPerDay
    ensures EventRetentionTimes[Ttl1Hour].retentionInMs == MillisPerHour
    ensures EventRetentionTimes[TtlDefault] == EventRetentionTimes[Ttl7Days]
  {
  }

  /** The rover string of a retention time denotes the same duration as
      the table, and every value outside the table maps to seven days. */
  lemma RoverAgreesWithTable(ttl: EventRetentionTime)
    ensures ttl in EventRetentionTimes ==> RoverMillis(ToRoverConfigString(ttl)) == Some(EventRetentionTimes[ttl].retentionInMs)
    ensures ttl !in EventRetentionTimes ==> ToRoverConfigString(ttl) == "7d"
  {
  }

  /** Marshalling then unmarshalling restores every name of the table and
      rejects, without writing, every other string. */
  lemma MarshalRoundTrip(ttl: EventRetentionTime)
    ensures IsKnown(ttl) ==> UnmarshalEffect(MarshalJSON(ttl).value) == Assign(ttl)
    ensures !IsKnown(ttl) ==> UnmarshalEffect(MarshalJSON(ttl).value).Keep?
  {
    LenientMarshal(ttl, Parse);
  }

  /** The literal null never changes the receiver. */
  lemma UnmarshalNull()
    ensures UnmarshalEffect("null") == Keep(None)
  {
  }

  /** The constants marshal as their names in double quotes. */
  lemma MarshalConstant(ttl: EventRetentionTime)
    requires IsKnown(ttl)
    ensures MarshalJSON(ttl).value == "\"" + ttl + "\""
  {
    JsonString.MarshalPlainAscii(ttl);
  }
}
