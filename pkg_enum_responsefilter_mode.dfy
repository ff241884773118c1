/** pkg/enum/responsefilter_mode.go: the public copy of the response filter
    mode, without the marshalling side. */
module PkgEnumResponseFilterMode {
  import opened Wrappers
  import opened GoStrings
  import opened Pointers
  import opened EnumJson
  import EnumResponseFilterMode

  type ResponseFilterMode = string

  const ResponseFilterModeInclude := "INCLUDE"
  const ResponseFilterModeExclude := "EXCLUDE"

  /** Accepted in any case; the input is returned in the case it was given. */
  function ParseResponseFilterMode(s: string): (r: Returned<ResponseFilterMode>)
    ensures r.Success() ==> r.value == s
    ensures !r.Success() ==> r == Returned("", Some("could not parse '" + s + "' as response-filter-mode"))
  {
    match ToLower(s)
    case "include" => Returned(s, None)
    case "exclude" => Returned(s, None)
    case _ => Returned("", Some("could not parse '" + s + "' as response-filter-mode"))
  }

  /** The public parser is the internal one, so it accepts exactly the
      strings equal to include or exclude up to ASCII case. */
  lemma AgreesWithEnum(s: string)
    ensures ParseResponseFilterMode(s) == EnumResponseFilterMode.ParseResponseFilterMode(s)
    ensures ParseResponseFilterMode(s).Success() <==>
      EnumResponseFilterMode.EqualFold(s, "include") || EnumResponseFilterMode.EqualFold(s, "exclude")
  {
    EnumResponseFilterMode.ParseAcceptsEitherCase(s);
  }

  function UnmarshalEffect(data: string): Effect<ResponseFilterMode> {
    Lenient(data, ParseResponseFilterMode)
  }

  method UnmarshalJSON(m: Ref<ResponseFilterMode>, bytes: string) returns (err: Option<string>)
    modifies m
    ensures err == UnmarshalEffect(bytes).Error()
    ensures m.value == UnmarshalEffect(bytes).Apply(old(m.value))
  {
    err := Perform(m, UnmarshalEffect(bytes));
  }

  function String(m: ResponseFilterMode): string { m }

  /** Null is a no-op; a quoted mode decodes as the bare one; an error
      leaves the receiver as it was. */
  lemma UnmarshalCases(data: string, current: ResponseFilterMode)
    ensures UnmarshalEffect("null") == Keep(None)
    ensures Plain(data) ==> UnmarshalEffect(Quoted(data)) == ParseEffect(data, ParseResponseFilterMode)
    ensures UnmarshalEffect(data).Assign? ==> ToLower(UnmarshalEffect(data).value) in {"include", "exclude"}
    ensures UnmarshalEffect(data).Error().Some? ==> UnmarshalEffect(data).Apply(current) == current
  {
    if Plain(data) {
      LenientQuoted(data, ParseResponseFilterMode);
    }
  }

  /** Both modes are accepted whether or not they arrive quoted. */
  lemma UnmarshalModes(m: ResponseFilterMode)
    requires m == ResponseFilterModeInclude || m == ResponseFilterModeExclude
    ensures UnmarshalEffect(Quoted(m)) == Assign(m)
    ensures UnmarshalEffect(m) == Assign(m)
  {
    assert Plain(m);
    LenientQuoted(m, ParseResponseFilterMode);
    if m == ResponseFilterModeInclude {
      assert ToLower("INCLUDE") == "include";
    } else {
      assert ToLower("EXCLUDE") == "exclude";
    }
  }
}
