/** `strconv.Unquote` for a string that opens with a double quote: the only
    form the enum decoders hand it. */
module Strconv {
  import opened Wrappers
  import opened GoStrings

  /** The message of `strconv.ErrSyntax`. */
  const ErrSyntax := "invalid syntax"

  predicate IsHexDigit(c: char) {
    '0' <= c <= '9' || 'a' <= c <= 'f' || 'A' <= c <= 'F'
  }

  predicate IsOctalDigit(c: char) { '0' <= c <= '7' }

  function HexValue(c: char): (v: nat)
    requires IsHexDigit(c)
    ensures v < 16
  {
    if '0' <= c <= '9' then c as int - '0' as int
    else if 'a' <= c <= 'f' then c as int - 'a' as int + 10
    else c as int - 'A' as int + 10
  }

  /** The value of a hexadecimal numeral read left to right, as `unhex` does. */
  function HexNumber(s: string): (r: Option<nat>)
    ensures r.Some? <==> forall i :: 0 <= i < |s| ==> IsHexDigit(s[i])
  {
    if s == [] then Some(0)
    else
      match HexNumber(s[..|s| - 1])
      case None => None
      case Some(v) => if IsHexDigit(s[|s| - 1]) then Some(16 * v + HexValue(s[|s| - 1])) else None
  }

  /** A code point that `utf8.ValidRune` accepts. */
  predicate ValidRune(v: int) {
    0 <= v < 0xD800 || 0xE000 <= v <= 0x10FFFF
  }

  /** `strconv.UnquoteChar(r, '"')`: the first character of r decoded, with
      the number of characters it takes. None is `ErrSyntax`; it is also
      returned for a `\x` or octal escape of a byte 0x80 or above, which
      makes a raw byte that is not a character of its own. */
  function UnquoteChar(r: string): (res: Option<(char, nat)>)
    requires |r| > 0 && r[0] != '"'
    ensures res.Some? ==> 1 <= res.value.1 <= |r|
    ensures res.Some? && r[0] != '\\' ==> res.value == (r[0], 1)
  {
    if r[0] != '\\' then Some((r[0], 1))
    else if |r| < 2 then None
    else
      var c := r[1];
      if c == 'a' then Some(('\U{7}', 2))
      else if c == 'b' then Some(('\U{8}', 2))
      else if c == 'f' then Some(('\U{C}', 2))
      else if c == 'n' then Some(('\n', 2))
      else if c == 'r' then Some(('\r', 2))
      else if c == 't' then Some(('\t', 2))
      else if c == 'v' then Some(('\U{B}', 2))
      else if c == 'x' || c == 'u' || c == 'U' then
        var size := if c == 'x' then 2 else if c == 'u' then 4 else 8;
        if |r| < 2 + size then None
        else
          match HexNumber(r[2..2 + size])
          case None => None
          case Some(v) =>
            if c == 'x' then (if v < 0x80 then Some((v as char, 2 + size)) else None)
            else if ValidRune(v) then Some((v as char, 2 + size))
            else None
      else if IsOctalDigit(c) then
        if |r| < 4 || !IsOctalDigit(r[2]) || !IsOctalDigit(r[3]) then None
        else
          var v := 64 * (c as int - '0' as int) + 8 * (r[2] as int - '0' as int) + (r[3] as int - '0' as int);
          if v < 0x80 then Some((v as char, 4)) else None
      else if c == '\\' then Some(('\\', 2))
      else if c == '"' then Some(('"', 2))
      else None
  }

  /** The characters after the opening quote, decoded, when they are
      escapes and ordinary characters up to a closing quote that ends the
      string; None when a raw newline comes first, an escape is malformed,
      the closing quote is missing or anything follows it. */
  function Body(r: string): (res: Option<string>)
    decreases |r|
  {
    if r == [] then None
    else if r[0] == '"' then (if |r| == 1 then Some("") else None)
    else if r[0] == '\n' then None
    else
      match UnquoteChar(r)
      case None => None
      case Some(step) =>
        match Body(r[step.1..])
        case None => None
        case Some(rest) => Some([step.0] + rest)
  }

  /** `strconv.Unquote(s)` for an s that opens with a double quote. On failure
      Go returns the empty string with `ErrSyntax`. */
  function Unquote(s: string): (r: Returned<string>)
    requires |s| > 0 && s[0] == '"'
    ensures r.err.Some? ==> r == Returned("", Some(ErrSyntax))
  {
    match Body(s[1..])
    case Some(t) => Returned(t, None)
    case None => Returned("", Some(ErrSyntax))
  }

  lemma {:induction false} PlainBody(t: string)
    requires Plain(t)
    ensures Body(t + "\"") == Some(t)
    decreases |t|
  {
    if t == [] {
      assert t + "\"" == "\"";
    } else {
      var r := t + "\"";
      assert r[0] == t[0];
      assert r[1..] == t[1..] + "\"";
      PlainBody(t[1..]);
      assert [t[0]] + t[1..] == t;
    }
  }

  /** Quoting a string that needs no escapes and unquoting it gives it back. */
  lemma UnquoteQuoted(t: string)
    requires Plain(t)
    ensures Unquote(Quoted(t)) == Returned(t, None)
  {
    assert Quoted(t)[1..] == t + "\"";
    PlainBody(t);
  }

  /** A lone double quote is not a quoted string. */
  lemma UnquoteLoneQuote()
    ensures Unquote("\"") == Returned("", Some(ErrSyntax))
  {
    assert "\""[1..] == "";
  }
}
