/** The decoding steps the enum types share: parse a string and assign the
    result, and the tolerant `UnmarshalJSON` shape that strips surrounding
    double quotes and ignores an unquoting error. */
module EnumJson {
  import opened Wrappers
  import opened GoStrings
  import opened Strconv
  import JsonString
  import opened Pointers

  /** `v, err := parse(data); if err != nil { return err }; *target = v`. */
  function ParseEffect<T>(data: string, parse: string -> Returned<T>): (e: Effect<T>)
    ensures e.Keep? <==> parse(data).err.Some?
    ensures e.Keep? ==> e.err == parse(data).err
    ensures e.Assign? ==> e.value == parse(data).value
  {
    var p := parse(data);
    if p.err.Some? then Keep(p.err) else Assign(p.value)
  }

  /** The shape of `UnmarshalJSON` in the files that write
      `strings.HasPrefix(data, `"`) && strings.HasSuffix(data, `"`)`:
      the literal null is a no-op; a string with a double quote at both
      ends (a lone `"` included) is replaced by its unquoted form, or by
      the empty string when unquoting fails, and the error is dropped. */
  function Lenient<T>(data: string, parse: string -> Returned<T>): Effect<T> {
    if data == "null" then Keep(None)
    else if HasPrefix(data, "\"") && HasSuffix(data, "\"") then
      ParseEffect(Unquote(data).value, parse)
    else ParseEffect(data, parse)
  }

  lemma LenientNull<T>(parse: string -> Returned<T>)
    ensures Lenient("null", parse) == Keep(None)
  {
  }

  /** Surrounding quotes are transparent: a quoted name decodes as the bare name. */
  lemma LenientQuoted<T>(t: string, parse: string -> Returned<T>)
    requires Plain(t)
    ensures Lenient(Quoted(t), parse) == ParseEffect(t, parse)
  {
    UnquoteQuoted(t);
  }

  /** When unquoting fails its error is ignored and the empty string is parsed. */
  lemma LenientBadQuotes<T>(data: string, parse: string -> Returned<T>)
    requires |data| > 0 && data[0] == '"' && data[|data| - 1] == '"'
    requires Unquote(data).err.Some?
    ensures Lenient(data, parse) == ParseEffect("", parse)
  {
  }

  /** A lone double quote starts and ends with a quote, fails to unquote, and the empty string is parsed. */
  lemma LenientLoneQuote<T>(parse: string -> Returned<T>)
    ensures Lenient("\"", parse) == ParseEffect("", parse)
  {
    UnquoteLoneQuote();
  }

  /** Whatever `json.Marshal` writes for a string decodes as that string. */
  lemma LenientMarshal<T>(s: string, parse: string -> Returned<T>)
    ensures Lenient(JsonString.Marshal(s), parse) == ParseEffect(s, parse)
  {
    JsonString.UnquoteMarshal(s);
  }
}
