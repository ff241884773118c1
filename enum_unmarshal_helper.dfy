/** enum/unmarshal_helper.go: the generic `UnmarshalEnum` the newer enum types use. */
module EnumUnmarshalHelper {
  import opened Wrappers
  import opened GoStrings
  import opened Strconv
  import opened Pointers
  import opened EnumJson

  /** What `UnmarshalEnum(bytes, target, parse)` does: null is a no-op; a
      string of at least two characters quoted at both ends is unquoted,
      and an unquoting error is returned; the result (or the input as it
      is) is parsed, and only a successful parse writes the target. */
  function EnumEffect<T>(data: string, parse: string -> Returned<T>): Effect<T> {
    if data == "null" then Keep(None)
    else if |data| >= 2 && data[0] == '"' && data[|data| - 1] == '"' then
      var u := Unquote(data);
      if u.err.Some? then Keep(u.err) else ParseEffect(u.value, parse)
    else ParseEffect(data, parse)
  }

  method UnmarshalEnum<T>(bytes: string, target: Ref<T>, parse: string -> Returned<T>) returns (err: Option<string>)
    modifies target
    ensures err == EnumEffect(bytes, parse).Error()
    ensures target.value == EnumEffect(bytes, parse).Apply(old(target.value))
  {
    err := Perform(target, EnumEffect(bytes, parse));
  }

  lemma EnumNull<T>(parse: string -> Returned<T>)
    ensures EnumEffect("null", parse) == Keep(None)
  {
  }

  /** A malformed quoted string is an error, and the target keeps its value. */
  lemma EnumBadQuotes<T>(data: string, parse: string -> Returned<T>)
    requires |data| >= 2 && data[0] == '"' && data[|data| - 1] == '"'
    requires Unquote(data).err.Some?
    ensures EnumEffect(data, parse) == Keep(Some(ErrSyntax))
  {
  }

  /** A lone double quote is not unquoted: the parser sees it as it is. */
  lemma EnumLoneQuote<T>(parse: string -> Returned<T>)
    ensures EnumEffect("\"", parse) == ParseEffect("\"", parse)
  {
  }

  /** The quoted and the bare form of a name decode alike. */
  lemma EnumQuoted<T>(t: string, parse: string -> Returned<T>)
    requires Plain(t)
    ensures EnumEffect(Quoted(t), parse) == ParseEffect(t, parse)
  {
    UnquoteQuoted(t);
  }

  /** The target is written exactly when the parser accepts what is left
      after unquoting, and then with what the parser returned. */
  lemma EnumWrites<T>(data: string, parse: string -> Returned<T>)
    requires data != "null"
    ensures var s := if |data| >= 2 && data[0] == '"' && data[|data| - 1] == '"' then Unquote(data) else Returned(data, None);
            EnumEffect(data, parse).Assign? <==> s.err.None? && parse(s.value).err.None?
    ensures EnumEffect(data, parse).Assign? ==> EnumEffect(data, parse).value == parse(
              if |data| >= 2 && data[0] == '"' && data[|data| - 1] == '"' then Unquote(data).value else data).value
  {
  }
}
