/** enum/responsefilter_mode.go: whether a response filter keeps or drops the listed fields. */
module EnumResponseFilterMode {
  import opened Wrappers
  import opened GoStrings
  import opened Pointers
  import opened EnumJson

  type ResponseFilterMode = string

  const ResponseFilterModeInclude: ResponseFilterMode := "INCLUDE"
  const ResponseFilterModeExclude: ResponseFilterMode := "EXCLUDE"

  /** s and word are equal up to ASCII case. */
  predicate EqualFold(s: string, word: string) {
    |s| == |word| && forall i :: 0 <= i < |s| ==> LowerAscii(s[i]) == LowerAscii(word[i])
  }

  /** Accepted in any case; the input is returned in the case it was given. */
  function ParseResponseFilterMode(s: string): (r: Returned<ResponseFilterMode>)
    ensures r.Success() ==> r.value == s
    ensures !r.Success() ==> r == Returned("", Some("could not parse '" + s + "' as response-filter-mode"))
  {
    var lower := ToLower(s);
    if lower == "include" || lower == "exclude" then Returned(s, None)
    else Returned("", Some("could not parse '" + s + "' as response-filter-mode"))
  }

  lemma LowerIsFold(s: string, word: string)
    requires forall i :: 0 <= i < |word| ==> 'a' <= word[i] <= 'z'
    ensures ToLower(s) == word <==> EqualFold(s, word)
  {
    if EqualFold(s, word) {
      assert forall i :: 0 <= i < |s| ==> LowerAscii(word[i]) == word[i];
      assert ToLower(s) == word;
    }
  }

  /** The parser accepts exactly the strings equal to INCLUDE or EXCLUDE up to case. */
  lemma ParseAcceptsEitherCase(s: string)
    ensures ParseResponseFilterMode(s).Success() <==> EqualFold(s, "include") || EqualFold(s, "exclude")
  {
    LowerIsFold(s, "include");
    LowerIsFold(s, "exclude");
  }

  /** A mixed-case name is accepted and not canonicalised. */
  lemma ParseKeepsCase()
    ensures ParseResponseFilterMode("Include") == Returned("Include", None)
  {
    assert ToLower("Include") == "include";
  }

  function UnmarshalEffect(data: string): Effect<ResponseFilterMode> {
    Lenient(data, ParseResponseFilterMode)
  }

  method UnmarshalJSON(m: Ref<ResponseFilterMode>, bytes: string) returns (err: Option<string>)
    modifies m
    ensures err == UnmarshalEffect(bytes).Error()
    ensures m.value == UnmarshalEffect(bytes).Apply(old(m.value))
  {
    err := Perform(m, UnmarshalEffect(bytes));
  }

  function String(m: ResponseFilterMode): string { m }

  function MarshalJSON(m: ResponseFilterMode): (r: Returned<string>)
    ensures r.Success() && r.value == Quoted(String(m))
  {
    Returned("\"" + String(m) + "\"", None)
  }

  /** Both modes survive marshalling and unmarshalling. */
  lemma MarshalRoundTrip(m: ResponseFilterMode)
    requires m == ResponseFilterModeInclude || m == ResponseFilterModeExclude
    ensures UnmarshalEffect(MarshalJSON(m).value) == Assign(m)
  {
    var lower := if m == ResponseFilterModeInclude then "include" else "exclude";
    forall i | 0 <= i < |m| ensures m[i] != '"' && m[i] != '\\' && m[i] != '\n' && LowerAscii(m[i]) == lower[i] {}
    assert ToLower(m) == lower;
    LenientQuoted(m, ParseResponseFilterMode);
  }

  /** Null is a no-op and a rejected mode leaves the receiver as it was. */
  lemma UnmarshalCases(data: string, current: ResponseFilterMode)
    ensures UnmarshalEffect("null") == Keep(None)
    ensures UnmarshalEffect(data).Error().Some? ==> UnmarshalEffect(data).Apply(current) == current
    ensures Plain(data) && data != "null" ==> UnmarshalEffect(Quoted(data)) == UnmarshalEffect(data)
  {
    if Plain(data) && data != "null" {
      LenientQuoted(data, ParseResponseFilterMode);
    }
  }
}
