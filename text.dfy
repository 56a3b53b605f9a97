/** The few string operations the source relies on: `str.lower`, the `in` test
    for substrings, `str(int)`, and `repr` of strings and of string dicts. */
module Text {

  import opened Wrappers

  /** `str.lower` on one character, restricted to ASCII letters. */
  function LowerChar(c: char): char
  {
    if 'A' <= c <= 'Z' then (c as int + 32) as char else c
  }

  /** `s.lower()`: every character mapped through LowerChar, nothing else changed. */
  function Lower(s: string): (r: string)
    ensures |r| == |s|
    ensures forall i :: 0 <= i < |s| ==> r[i] == LowerChar(s[i])
  {
    if s == [] then [] else [LowerChar(s[0])] + Lower(s[1..])
  }

  /** Python's `sub in s` for two strings. */
  predicate Contains(s: string, sub: string)
  {
    exists i :: 0 <= i <= |s| && OccursAt(s, sub, i)
  }

  /** `sub` appears in `s` starting at index `i`. */
  predicate OccursAt(s: string, sub: string, i: nat)
  {
    i + |sub| <= |s| && s[i..i + |sub|] == sub
  }

  function DigitChar(d: nat): char
    requires d < 10
  {
    ('0' as int + d) as char
  }

  /** `str(n)` for a natural number: decimal digits, most significant first. */
  function NatToString(n: nat): (s: string)
    ensures |s| >= 1
    ensures forall i :: 0 <= i < |s| ==> '0' <= s[i] <= '9'
    ensures n > 0 ==> s[0] != '0'
  {
    if n < 10 then [DigitChar(n)] else NatToString(n / 10) + [DigitChar(n % 10)]
  }

  /** `str(i)` for any integer. */
  function IntToString(i: int): (s: string)
    ensures |s| >= 1
    ensures (s[0] == '-') <==> i < 0
  {
    if i < 0 then "-" + NatToString(-i) else NatToString(i)
  }

  /** The value of a string of decimal digits. */
  function DigitsValue(s: string): nat
    requires forall i :: 0 <= i < |s| ==> '0' <= s[i] <= '9'
  {
    if s == [] then 0 else DigitsValue(s[..|s| - 1]) * 10 + (s[|s| - 1] as int - '0' as int)
  }

  /** Reading the digits back gives the number. */
  lemma {:induction false} NatToStringRoundTrip(n: nat)
    ensures DigitsValue(NatToString(n)) == n
    decreases n
  {
    if n >= 10 {
      NatToStringRoundTrip(n / 10);
      var s := NatToString(n);
      assert s[..|s| - 1] == NatToString(n / 10);
    }
  }

  /** `int(s)` for what IntToString writes. */
  function ParseInt(s: string): int
    requires |s| >= 1
    requires forall i :: 1 <= i < |s| ==> '0' <= s[i] <= '9'
    requires s[0] == '-' || '0' <= s[0] <= '9'
  {
    if s[0] == '-' then -(DigitsValue(s[1..]) as int) else DigitsValue(s)
  }

  lemma IntToStringRoundTrip(i: int)
    ensures ParseInt(IntToString(i)) == i
  {
    if i < 0 {
      NatToStringRoundTrip(-i);
      assert IntToString(i)[1..] == NatToString(-i);
    } else {
      NatToStringRoundTrip(i);
    }
  }

  // ------------------------------------------------------------ repr

  function HexDigit(d: nat): char
    requires d < 16
  {
    if d < 10 then ('0' as int + d) as char else ('a' as int + d - 10) as char
  }

  function HexValue(c: char): (v: Option<nat>)
    ensures v.Some? ==> v.value < 16
  {
    if '0' <= c <= '9' then Some(c as int - '0' as int)
    else if 'a' <= c <= 'f' then Some(c as int - 'a' as int + 10)
    else None
  }

  lemma HexRoundTrip(d: nat)
    requires d < 16
    ensures HexValue(HexDigit(d)) == Some(d)
  {
  }

  /** The quote `repr` puts around a string: double quotes when the string holds
      a single quote and no double quote, single quotes otherwise. */
  function ReprQuote(s: string): (q: char)
    ensures q == '\'' || q == '"'
  {
    if '\'' in s && '"' !in s then '"' else '\''
  }

  /** How `repr` writes one character inside quotes `q`. */
  function Escape(c: char, q: char): string
  {
    if c == '\\' then "\\\\"
    else if c == q then ['\\', q]
    else if c == '\n' then "\\n"
    else if c == '\r' then "\\r"
    else if c == '\t' then "\\t"
    else if c < ' ' || c as int == 0x7f then ['\\', 'x', HexDigit(c as int / 16), HexDigit(c as int % 16)]
    else [c]
  }

  function EscapeAll(s: string, q: char): string
  {
    if s == [] then [] else Escape(s[0], q) + EscapeAll(s[1..], q)
  }

  /** `repr(s)` for a string. */
  function StrRepr(s: string): string
  {
    [ReprQuote(s)] + EscapeAll(s, ReprQuote(s)) + [ReprQuote(s)]
  }

  /** Reads the inside of a quoted literal back; None when it is not one
      (a bare closing quote, or an unknown escape). */
  function Unescape(t: string, q: char): Option<string>
    decreases |t|
  {
    if t == [] then Some([])
    else if t[0] == q then None
    else if t[0] != '\\' then Prefix(t[0], Unescape(t[1..], q))
    else if |t| >= 2 && SimpleEscape(t[1], q).Some? then Prefix(SimpleEscape(t[1], q).value, Unescape(t[2..], q))
    else if |t| >= 4 && t[1] == 'x' && HexValue(t[2]).Some? && HexValue(t[3]).Some? then
      Prefix((HexValue(t[2]).value * 16 + HexValue(t[3]).value) as char, Unescape(t[4..], q))
    else None
  }

  function SimpleEscape(e: char, q: char): Option<char>
  {
    if e == '\\' then Some('\\')
    else if e == q then Some(q)
    else if e == 'n' then Some('\n')
    else if e == 'r' then Some('\r')
    else if e == 't' then Some('\t')
    else None
  }

  function Prefix(c: char, r: Option<string>): Option<string>
  {
    match r
    case Some(s) => Some([c] + s)
    case None => None
  }

  /** One escaped character is read back as that character. */
  lemma UnescapeEscape(c: char, rest: string, q: char)
    requires q == '\'' || q == '"'
    ensures Unescape(Escape(c, q) + rest, q) == Prefix(c, Unescape(rest, q))
  {
    var t := Escape(c, q) + rest;
    if c == '\\' || c == q || c == '\n' || c == '\r' || c == '\t' {
      assert t[2..] == rest;
    } else if c < ' ' || c as int == 0x7f {
      HexRoundTrip(c as int / 16);
      HexRoundTrip(c as int % 16);
      assert t[4..] == rest;
    } else {
      assert t[1..] == rest;
    }
  }

  lemma {:induction false} UnescapeEscapeAll(s: string, q: char)
    requires q == '\'' || q == '"'
    ensures Unescape(EscapeAll(s, q), q) == Some(s)
  {
    if s != [] {
      UnescapeEscapeAll(s[1..], q);
      UnescapeEscape(s[0], EscapeAll(s[1..], q), q);
      assert [s[0]] + s[1..] == s;
    }
  }

  /** `repr` writes a well-formed literal: its own quote at both ends, and an
      inside that reads back as the string. */
  lemma ReprRoundTrip(s: string)
    ensures var r := StrRepr(s);
            && |r| >= 2 && r[0] == ReprQuote(s) && r[|r| - 1] == ReprQuote(s)
            && Unescape(r[1..|r| - 1], ReprQuote(s)) == Some(s)
  {
    var r := StrRepr(s);
    assert r[1..|r| - 1] == EscapeAll(s, ReprQuote(s));
    UnescapeEscapeAll(s, ReprQuote(s));
  }

  /** `repr` of a `dict[str, str]` given as its items in insertion order.
      As in a Python dict, the keys of `items` are taken to be distinct; a
      sequence with a repeated key would be rendered twice where the dict
      would keep only the last value. */
  function DictRepr(items: seq<(string, string)>): (r: string)
    ensures |r| >= 2 && r[0] == '{' && r[|r| - 1] == '}'
    ensures r == "{}" <==> items == []
  {
    "{" + ItemsRepr(items) + "}"
  }

  function ItemsRepr(items: seq<(string, string)>): (r: string)
    ensures r == [] <==> items == []
  {
    if items == [] then ""
    else
      var first := StrRepr(items[0].0) + ": " + StrRepr(items[0].1);
      if |items| == 1 then first else first + ", " + ItemsRepr(items[1..])
  }
}
