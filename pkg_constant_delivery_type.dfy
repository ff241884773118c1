/** pkg/constant/delivery_type.go: the public delivery type. Its
    `UnmarshalJSON` hands the raw JSON text to the parser without removing
    the quotes of a JSON string; `UnmarshalEffectAsWritten` models that, and
    `UnmarshalEffect` the decoding that strips quotes like the other enum types. */
module PkgConstantDeliveryType {
  import opened Wrappers
  import opened GoStrings
  import opened Pointers
  import opened EnumJson
  import JsonString
  import EnumDeliveryType

  type DeliveryType = string

  const DeliveryTypeSse := "server_sent_event"
  const DeliveryTypeCallback := "callback"

  /** `sse` in any case is the canonical server_sent_event; the two full
      names are accepted in any case and returned as given. */
  function ParseDeliveryType(s: string): (r: Returned<DeliveryType>)
    ensures r.Success() <==> ToLower(s) == "sse" || ToLower(s) == DeliveryTypeSse || ToLower(s) == DeliveryTypeCallback
    ensures ToLower(s) == "sse" ==> r == Returned(DeliveryTypeSse, None)
    ensures r.Success() && ToLower(s) != "sse" ==> r.value == s
    ensures r.Success() ==> ToLower(r.value) == DeliveryTypeSse || ToLower(r.value) == DeliveryTypeCallback
    ensures !r.Success() ==> r == Returned("", Some("could not parse '" + s + "' as delivery type"))
  {
    var lower := ToLower(s);
    if lower == "sse" then Returned(DeliveryTypeSse, None)
    else if lower == "server_sent_event" || lower == "callback" then Returned(s, None)
    else Returned("", Some("could not parse '" + s + "' as delivery type"))
  }

  /** The public parser is the one of the internal enum package. */
  lemma AgreesWithEnum(s: string)
    ensures ParseDeliveryType(s) == EnumDeliveryType.ParseDeliveryType(s)
  {
  }

  /** The decision as the source writes it: null is a no-op and anything
      else goes to the parser untouched, so input that opens with a quote
      is always refused. */
  function UnmarshalEffectAsWritten(data: string): (e: Effect<DeliveryType>)
    ensures data == "null" ==> e == Keep(None)
    ensures e.Assign? ==> ToLower(e.value) == DeliveryTypeSse || ToLower(e.value) == DeliveryTypeCallback
    ensures |data| > 0 && data[0] == '"' ==> e == Keep(Some("could not parse '" + data + "' as delivery type"))
  {
    if data == "null" then Keep(None) else ParseEffect(data, ParseDeliveryType)
  }

  /** What `json.Marshal` writes for `callback` is turned down by the
      decoder as written, since the quote characters reach the parser. */
  lemma AsWrittenRejectsJsonString(t: DeliveryType)
    requires t == DeliveryTypeCallback
    ensures JsonString.Marshal(t) == Quoted(t)
    ensures UnmarshalEffectAsWritten(Quoted(t))
         == Keep(Some("could not parse '" + Quoted(t) + "' as delivery type"))
  {
    forall i | 0 <= i < |t| ensures 'a' <= t[i] <= 'z' {}
    JsonString.MarshalPlainAscii(t);
    AsWrittenRejectsEveryJsonString(t);
  }

  /** No JSON string at all is accepted by the decoder as written. */
  lemma AsWrittenRejectsEveryJsonString(s: string)
    ensures UnmarshalEffectAsWritten(JsonString.Marshal(s)).Keep?
    ensures UnmarshalEffectAsWritten(JsonString.Marshal(s)).err.Some?
  {
    var m := JsonString.Marshal(s);
    var lower := ToLower(m);
    assert lower[0] == '"';
    assert lower != "sse" && lower != "server_sent_event" && lower != "callback" by {
      assert "sse"[0] != '"' && "server_sent_event"[0] != '"' && "callback"[0] != '"';
    }
  }

  /** The intended decision: the shape shared with the other enum types,
      which removes the quotes of a JSON string before parsing. */
  function UnmarshalEffect(data: string): Effect<DeliveryType> {
    Lenient(data, ParseDeliveryType)
  }

  /** On input that is not wrapped in quotes the corrected decoder agrees
      with the one as written. */
  lemma CorrectionOnlyTouchesQuoted(data: string)
    requires !(HasPrefix(data, "\"") && HasSuffix(data, "\""))
    ensures UnmarshalEffect(data) == UnmarshalEffectAsWritten(data)
  {
  }

  lemma MarshalDecodesAsParsed(t: DeliveryType)
    ensures UnmarshalEffect(JsonString.Marshal(t)) == ParseEffect(t, ParseDeliveryType)
  {
    LenientMarshal(t, ParseDeliveryType);
  }

  /** Every JSON string decodes as the string it encodes, so both constants
      survive `json.Marshal` and unmarshalling. */
  lemma MarshalRoundTrip(t: DeliveryType)
    requires t == DeliveryTypeSse || t == DeliveryTypeCallback
    ensures UnmarshalEffect(JsonString.Marshal(t)) == Assign(t)
  {
    forall i | 0 <= i < |t| ensures !IsAsciiUpper(t[i]) {}
    ToLowerNoCapitals(t);
    assert ParseDeliveryType(t) == Returned(t, None);
    MarshalDecodesAsParsed(t);
  }

  /** The decoder as written: null is a no-op, a bare `SSE` is
      canonicalised, its JSON string is refused, and an error leaves the
      receiver as it was. */
  lemma UnmarshalCases(sse: string, data: string, current: DeliveryType)
    requires sse == "SSE"
    ensures UnmarshalEffectAsWritten("null") == Keep(None)
    ensures UnmarshalEffectAsWritten(sse) == Assign(DeliveryTypeSse)
    ensures UnmarshalEffectAsWritten(Quoted(sse)).Keep?
    ensures UnmarshalEffectAsWritten(data).Error().Some? ==> UnmarshalEffectAsWritten(data).Apply(current) == current
  {
    assert ToLower(sse) == "sse";
  }

  /** The corrected decoder: null is a no-op, the JSON string of `SSE` is
      canonicalised, and an error leaves the receiver as it was. */
  lemma CorrectedUnmarshalCases(data: string, current: DeliveryType)
    ensures UnmarshalEffect("null") == Keep(None)
    ensures UnmarshalEffect(JsonString.Marshal("SSE")) == Assign(DeliveryTypeSse)
    ensures UnmarshalEffect(data).Error().Some? ==> UnmarshalEffect(data).Apply(current) == current
  {
    LenientMarshal("SSE", ParseDeliveryType);
    assert ToLower("SSE") == "sse";
  }

  /** `UnmarshalJSON` as the source writes it. */
  method UnmarshalJSON(t: Ref<DeliveryType>, bytes: string) returns (err: Option<string>)
    modifies t
    ensures err == UnmarshalEffectAsWritten(bytes).Error()
    ensures t.value == UnmarshalEffectAsWritten(bytes).Apply(old(t.value))
  {
    err := Perform(t, UnmarshalEffectAsWritten(bytes));
  }

  /** `UnmarshalJSON` as evidently intended: quotes are stripped first. */
  method UnmarshalJSONCorrected(t: Ref<DeliveryType>, bytes: string) returns (err: Option<string>)
    modifies t
    ensures err == UnmarshalEffect(bytes).Error()
    ensures t.value == UnmarshalEffect(bytes).Apply(old(t.value))
  {
    err := Perform(t, UnmarshalEffect(bytes));
  }

  function String(t: DeliveryType): string { t }
}
