/** JSON string escaping, and reading an escaped string back. */
module JsonText {
  /** A hexadecimal digit, in lower case. */
  function HexDigit(n: nat): char
    requires n < 16
  {
    ['0', '1', '2', '3', '4', '5', '6', '7', '8', '9', 'a', 'b', 'c', 'd', 'e', 'f'][n]
  }

  /** One character inside a JSON string. */
  function EscapeChar(c: char): (r: string)
    ensures r != ""
  {
    match c
    case '"' => "\\\""
    case '\\' => "\\\\"
    case '\n' => "\\n"
    case '\r' => "\\r"
    case '\t' => "\\t"
    case _ =>
      if c as int < 0x20 then "\\u00" + [HexDigit(c as int / 16), HexDigit(c as int % 16)] else [c]
  }

  function Escape(s: string): string {
    if s == "" then "" else EscapeChar(s[0]) + Escape(s[1..])
  }

  lemma {:induction false} EscapeJoin(a: string, b: string)
    ensures Escape(a + b) == Escape(a) + Escape(b)
  {
    hide EscapeChar;
    if a == "" {
      assert a + b == b;
    } else {
      EscapeJoin(a[1..], b);
      assert (a + b)[1..] == a[1..] + b && (a + b)[0] == a[0];
      Assoc(EscapeChar(a[0]), Escape(a[1..]), Escape(b));
    }
  }

  lemma Assoc(a: string, b: string, c: string)
    ensures a + (b + c) == a + b + c
  {
  }

  method JsonEscape(s: string) returns (out: string)
    ensures out == Escape(s)
  {
    hide EscapeChar;
    out := "";
    for i := 0 to |s|
      invariant out == Escape(s[..i])
    {
      EscapeJoin(s[..i], [s[i]]);
      assert s[..i + 1] == s[..i] + [s[i]];
      assert [s[i]][1..] == "" && EscapeChar(s[i]) + "" == EscapeChar(s[i]);
      out := out + EscapeChar(s[i]);
    }
    assert s[..|s|] == s;
  }

  // ----- Reading a string, section 7 of RFC 8259 -----

  /** What follows an opening quote: the string's value and what is left after its closing quote. */
  datatype Reading = Malformed | Read(value: string, rest: string)

  /** The value of a hexadecimal digit, or -1. */
  function HexValue(c: char): (v: int)
    ensures -1 <= v < 16
  {
    if '0' <= c <= '9' then c as int - '0' as int
    else if 'a' <= c <= 'f' then c as int - 'a' as int + 10
    else if 'A' <= c <= 'F' then c as int - 'A' as int + 10
    else -1
  }

  /** The code unit four hexadecimal digits spell, or -1. */
  function HexFour(s: string): (v: int)
    requires |s| == 4
    ensures -1 <= v < 0x1_0000
  {
    var a, b, c, d := HexValue(s[0]), HexValue(s[1]), HexValue(s[2]), HexValue(s[3]);
    if a < 0 || b < 0 || c < 0 || d < 0 then -1 else ((a * 16 + b) * 16 + c) * 16 + d
  }

  /** The character a one-letter escape stands for. */
  function Short(c: char): (r: string)
    ensures |r| <= 1
  {
    match c
    case '"' => "\""
    case '\\' => "\\"
    case '/' => "/"
    case 'b' => [8 as char]
    case 'f' => [12 as char]
    case 'n' => "\n"
    case 'r' => "\r"
    case 't' => "\t"
    case _ => ""
  }

  /** The first character of a string's text, and the text after it. Surrogate pairs are not read. */
  function ReadChar(s: string): (r: Reading)
    requires s != "" && s[0] != '"'
    ensures r.Read? ==> |r.value| == 1 && |r.rest| < |s|
  {
    if s[0] as int < 0x20 then Malformed
    else if s[0] != '\\' then Read([s[0]], s[1..])
    else if |s| >= 2 && |Short(s[1])| == 1 then Read(Short(s[1]), s[2..])
    else if |s| >= 6 && s[1] == 'u' && 0 <= HexFour(s[2..6]) < 0xD800 then Read([HexFour(s[2..6]) as char], s[6..])
    else Malformed
  }

  function ReadString(s: string): Reading
    decreases |s|
  {
    if s == "" then Malformed
    else if s[0] == '"' then Read("", s[1..])
    else
      match ReadChar(s)
      case Malformed => Malformed
      case Read(c, after) =>
        match ReadString(after)
        case Malformed => Malformed
        case Read(value, rest) => Read(c + value, rest)
  }

  lemma HexDigits(n: nat)
    requires n < 16
    ensures HexValue(HexDigit(n)) == n
  {
  }

  lemma CharReads(c: char, after: string)
    ensures EscapeChar(c)[0] != '"' && ReadChar(EscapeChar(c) + after) == Read([c], after)
  {
    var e := EscapeChar(c);
    var s := e + after;
    if c as int < 0x20 && c != '\n' && c != '\r' && c != '\t' {
      var n := c as int;
      HexDigits(n / 16);
      HexDigits(n % 16);
      assert s[2..6] == ['0', '0', HexDigit(n / 16), HexDigit(n % 16)];
      assert HexFour(s[2..6]) == n;
      assert s[6..] == after;
    } else if |e| == 2 {
      assert s[2..] == after;
    } else {
      assert s[1..] == after;
    }
  }

  /** An escaped string reads back as the string it came from, whatever follows its closing quote. */
  lemma {:induction false} EscapedReads(s: string, rest: string)
    ensures ReadString(Escape(s) + ("\"" + rest)) == Read(s, rest)
  {
    hide EscapeChar;
    hide ReadChar;
    var end := "\"" + rest;
    if s == "" {
      assert Escape(s) + end == end && end[1..] == rest;
    } else {
      var after := Escape(s[1..]) + end;
      EscapedReads(s[1..], rest);
      CharReads(s[0], after);
      assert Escape(s) + end == EscapeChar(s[0]) + after;
      assert [s[0]] + s[1..] == s;
    }
  }
}
