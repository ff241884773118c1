/** How `json.Marshal` writes a Go string: between double quotes, with
    `"` and `\` backslash-escaped, the control characters \b \f \n \r \t
    escaped by letter, every other control character and the HTML-sensitive
    `<` `>` `&` written as \u00XX, and U+2028 and U+2029 written as the
    escapes \u2028 and \u2029 (the encoder's behaviour since Go 1.22). */
module JsonString {
  import opened Wrappers
  import opened GoStrings
  import opened Strconv

  function HexDigit(n: nat): (c: char)
    requires n < 16
    ensures IsHexDigit(c) && HexValue(c) == n
  {
    if n < 10 then ('0' as int + n) as char else ('a' as int + n - 10) as char
  }

  function EscapeChar(c: char): (e: string)
    ensures |e| > 0 && e[0] != '"' && e[0] != '\n'
  {
    if c == '"' then "\\\""
    else if c == '\\' then "\\\\"
    else if c == '\U{8}' then "\\b"
    else if c == '\U{C}' then "\\f"
    else if c == '\n' then "\\n"
    else if c == '\r' then "\\r"
    else if c == '\t' then "\\t"
    else if c as int < 0x20 || c == '<' || c == '>' || c == '&' then
      ['\\', 'u', '0', '0', HexDigit(c as int / 16), HexDigit(c as int % 16)]
    else if c == '\U{2028}' then "\\u2028"
    else if c == '\U{2029}' then "\\u2029"
    else [c]
  }

  function Escape(s: string): string {
    if s == [] then [] else EscapeChar(s[0]) + Escape(s[1..])
  }

  /** `json.Marshal(s)` for a string s; it cannot fail. */
  function Marshal(s: string): (r: string)
    ensures |r| >= 2 && r[0] == '"' && r[|r| - 1] == '"'
  {
    "\"" + Escape(s) + "\""
  }

  lemma HexNumber4(s: string)
    requires |s| == 4 && forall i :: 0 <= i < 4 ==> IsHexDigit(s[i])
    ensures HexNumber(s) == Some(4096 * HexValue(s[0]) + 256 * HexValue(s[1]) + 16 * HexValue(s[2]) + HexValue(s[3]))
  {
    assert s[..3][..2][..1][..0] == [];
    assert HexNumber(s[..1]) == Some(HexValue(s[0]));
    assert s[..2][..1] == s[..1];
    assert HexNumber(s[..2]) == Some(16 * HexValue(s[0]) + HexValue(s[1]));
    assert s[..3][..2] == s[..2];
    assert HexNumber(s[..3]) == Some(256 * HexValue(s[0]) + 16 * HexValue(s[1]) + HexValue(s[2]));
    assert s[..3] == s[..|s| - 1];
  }

  /** Each escape the encoder writes is read back by `strconv.UnquoteChar`
      as the one character it stands for. */
  lemma UnquoteEscapeChar(c: char, rest: string)
    ensures UnquoteChar(EscapeChar(c) + rest) == Some((c, |EscapeChar(c)|))
  {
    var e := EscapeChar(c);
    var r := e + rest;
    if |e| == 6 {
      assert r[..6] == e;
      assert r[2..6] == e[2..6];
      HexNumber4(e[2..6]);
      if c == '\U{2028}' || c == '\U{2029}' {
        assert HexNumber(r[2..6]) == Some(c as int);
      } else {
        assert HexNumber(r[2..6]) == Some(16 * (c as int / 16) + c as int % 16);
      }
    } else if |e| == 2 {
      assert r[..2] == e;
    } else {
      assert r[0] == c;
    }
  }

  lemma {:induction false} BodyOfEscape(s: string)
    ensures Body(Escape(s) + "\"") == Some(s)
    decreases |s|
  {
    if s == [] {
      assert Escape(s) + "\"" == "\"";
    } else {
      var e := EscapeChar(s[0]);
      var r := Escape(s) + "\"";
      assert r == e + (Escape(s[1..]) + "\"");
      UnquoteEscapeChar(s[0], Escape(s[1..]) + "\"");
      assert r[|e|..] == Escape(s[1..]) + "\"";
      BodyOfEscape(s[1..]);
      assert [s[0]] + s[1..] == s;
    }
  }

  /** `strconv.Unquote` inverts `json.Marshal` on every string. */
  lemma UnquoteMarshal(s: string)
    ensures Unquote(Marshal(s)) == Returned(s, None)
  {
    assert Marshal(s)[1..] == Escape(s) + "\"";
    BodyOfEscape(s);
  }

  lemma {:induction false} EscapePlainAscii(s: string)
    requires forall i :: 0 <= i < |s| ==> ('A' <= s[i] <= 'Z' || 'a' <= s[i] <= 'z' || '0' <= s[i] <= '9' || s[i] == '_')
    ensures Escape(s) == s
    decreases |s|
  {
    if s != [] {
      EscapePlainAscii(s[1..]);
      assert [s[0]] + s[1..] == s;
    }
  }

  /** A name made of ASCII letters, digits and underscores is written as it is, between quotes. */
  lemma MarshalPlainAscii(s: string)
    requires forall i :: 0 <= i < |s| ==> ('A' <= s[i] <= 'Z' || 'a' <= s[i] <= 'z' || '0' <= s[i] <= '9' || s[i] == '_')
    ensures Marshal(s) == Quoted(s)
  {
    EscapePlainAscii(s);
  }
}
