/** enum/delivery_type.go: how events reach a subscriber. */
module EnumDeliveryType {
  import opened Wrappers
  import opened GoStrings
  import opened Pointers
  import opened EnumJson
  import opened EnumUnmarshalHelper

  type DeliveryType = string

  const DeliveryTypeSse: DeliveryType := "server_sent_event"
  const DeliveryTypeCallback: DeliveryType := "callback"

  /** `sse` in any case is the canonical server_sent_event; the two full
      names are accepted in any case and returned as given. */
  function ParseDeliveryType(s: string): (r: Returned<DeliveryType>)
    ensures r.Success() <==> ToLower(s) == "sse" || ToLower(s) == DeliveryTypeSse || ToLower(s) == DeliveryTypeCallback
    ensures ToLower(s) == "sse" ==> r == Returned(DeliveryTypeSse, None)
    ensures r.Success() && ToLower(s) != "sse" ==> r.value == s
    ensures r.Success() ==> ToLower(r.value) == DeliveryTypeSse || ToLower(r.value) == DeliveryTypeCallback
    ensures !r.Success() ==> r == Returned("", Some("could not parse '" + s + "' as delivery type"))
  {
    var lower := ToLower(s);
    if lower == "sse" then Returned(DeliveryTypeSse, None)
    else if lower == "server_sent_event" || lower == "callback" then Returned(s, None)
    else Returned("", Some("could not parse '" + s + "' as delivery type"))
  }

  lemma LowerOfLower(s: string)
    ensures ToLower(ToLower(s)) == ToLower(s)
  {
  }

  /** Parsing what the parser returned changes nothing. */
  lemma ParseIdempotent(s: string)
    requires ParseDeliveryType(s).Success()
    ensures ParseDeliveryType(ParseDeliveryType(s).value) == ParseDeliveryType(s)
  {
    var v := ParseDeliveryType(s).value;
    LowerOfLower(s);
    if ToLower(s) == "sse" {
      forall i | 0 <= i < |DeliveryTypeSse| ensures !IsAsciiUpper(DeliveryTypeSse[i]) {}
      ToLowerNoCapitals(DeliveryTypeSse);
    }
  }

  /** `SSE` is canonicalised; `CALLBACK` is accepted and keeps its case. */
  lemma ParseExamples()
    ensures ParseDeliveryType("SSE") == Returned(DeliveryTypeSse, None)
    ensures ParseDeliveryType("CALLBACK") == Returned("CALLBACK", None)
    ensures ParseDeliveryType("invalid").err.Some?
  {
    assert ToLower("SSE") == "sse";
    assert ToLower("CALLBACK") == "callback";
    assert ToLower("invalid") == "invalid";
  }

  /** `UnmarshalJSON` is `UnmarshalEnum` with this parser. */
  function UnmarshalEffect(data: string): Effect<DeliveryType> {
    EnumEffect(data, ParseDeliveryType)
  }

  method UnmarshalJSON(t: Ref<DeliveryType>, bytes: string) returns (err: Option<string>)
    modifies t
    ensures err == UnmarshalEffect(bytes).Error()
    ensures t.value == UnmarshalEffect(bytes).Apply(old(t.value))
  {
    err := UnmarshalEnum(bytes, t, ParseDeliveryType);
  }

  function String(t: DeliveryType): string { t }

  function MarshalJSON(t: DeliveryType): (r: Returned<string>)
    ensures r.Success() && r.value == Quoted(String(t))
  {
    Returned("\"" + String(t) + "\"", None)
  }

  /** Both constants survive marshalling and unmarshalling. */
  lemma MarshalRoundTrip(t: DeliveryType)
    requires t == DeliveryTypeSse || t == DeliveryTypeCallback
    ensures UnmarshalEffect(MarshalJSON(t).value) == Assign(t)
  {
    forall i | 0 <= i < |t| ensures !IsAsciiUpper(t[i]) && t[i] != '"' && t[i] != '\\' && t[i] != '\n' {}
    EnumQuoted(t, ParseDeliveryType);
    ToLowerNoCapitals(t);
  }
}
