/** The JavaScript string primitives the two stages rely on, restated over
    `seq<char>`: the `\s` character class, ASCII case mapping,
    `lastIndexOf`, `trim`, `parseInt`, number-to-text and `join`. */
module JsText {

  /** The ECMAScript white-space and line-terminator characters: the regular
      expression class `\s`, the set `trim` removes and `parseInt` skips. */
  predicate IsJsSpace(c: char) {
    || c == '\t' || c == '\n' || c == '\U{B}' || c == '\U{C}' || c == '\r' || c == ' '
    || c == '\U{A0}' || c == '\U{1680}' || ('\U{2000}' <= c <= '\U{200A}')
    || c == '\U{2028}' || c == '\U{2029}' || c == '\U{202F}' || c == '\U{205F}'
    || c == '\U{3000}' || c == '\U{FEFF}'
  }

  predicate IsAsciiLower(c: char) { 'a' <= c <= 'z' }

  predicate IsAsciiUpper(c: char) { 'A' <= c <= 'Z' }

  predicate IsAsciiDigit(c: char) { '0' <= c <= '9' }

  predicate IsAsciiAlnum(c: char) { IsAsciiLower(c) || IsAsciiUpper(c) || IsAsciiDigit(c) }

  /** `toUpperCase` of one character, restricted to ASCII letters. */
  function UpperChar(c: char): (r: char)
    ensures !IsAsciiLower(r)
    ensures IsAsciiLower(c) ==> IsAsciiUpper(r)
    ensures !IsAsciiLower(c) ==> r == c
  {
    if IsAsciiLower(c) then (c as int - 32) as char else c
  }

  /** `toLowerCase` of one character, restricted to ASCII letters. */
  function LowerChar(c: char): (r: char)
    ensures !IsAsciiUpper(r)
    ensures IsAsciiUpper(c) ==> IsAsciiLower(r)
    ensures !IsAsciiUpper(c) ==> r == c
  {
    if IsAsciiUpper(c) then (c as int + 32) as char else c
  }

  /** `toLowerCase` of a string, restricted to ASCII letters. */
  function ToLowerAscii(s: string): (r: string)
    ensures |r| == |s|
    ensures forall i :: 0 <= i < |s| ==> r[i] == LowerChar(s[i])
  {
    if s == [] then [] else [LowerChar(s[0])] + ToLowerAscii(s[1..])
  }

  /** `toUpperCase` of a string, restricted to ASCII letters. */
  function ToUpperAscii(s: string): (r: string)
    ensures |r| == |s|
    ensures forall i :: 0 <= i < |s| ==> r[i] == UpperChar(s[i])
  {
    if s == [] then [] else [UpperChar(s[0])] + ToUpperAscii(s[1..])
  }

  /** `s.lastIndexOf(c)`: the index of the last occurrence of `c`, or -1. */
  function LastIndexOf(s: string, c: char): (r: int)
    ensures -1 <= r < |s|
    ensures r >= 0 ==> s[r] == c
    ensures forall i :: r < i < |s| ==> s[i] != c
  {
    if s == [] then -1
    else if s[|s| - 1] == c then |s| - 1
    else LastIndexOf(s[..|s| - 1], c)
  }

  /** `s` without its leading white space. */
  function TrimStart(s: string): (r: string)
    ensures |r| <= |s| && r == s[|s| - |r|..]
    ensures r == [] || !IsJsSpace(r[0])
    ensures forall i :: 0 <= i < |s| - |r| ==> IsJsSpace(s[i])
  {
    if s != [] && IsJsSpace(s[0]) then TrimStart(s[1..]) else s
  }

  /** `s` without its trailing white space. */
  function TrimEnd(s: string): (r: string)
    ensures |r| <= |s| && r == s[..|r|]
    ensures r == [] || !IsJsSpace(r[|r| - 1])
    ensures forall i :: |r| <= i < |s| ==> IsJsSpace(s[i])
  {
    if s != [] && IsJsSpace(s[|s| - 1]) then TrimEnd(s[..|s| - 1]) else s
  }

  /** `s.trim()`. */
  function Trim(s: string): string {
    TrimEnd(TrimStart(s))
  }

  /** Trimming keeps a prefix that neither starts nor ends with white space. */
  lemma TrimKeepsPrefix(s: string, p: string)
    requires p != [] && p <= s
    requires !IsJsSpace(p[0]) && !IsJsSpace(p[|p| - 1])
    ensures p <= Trim(s)
  {
    assert s[0] == p[0];
    assert s[|p| - 1] == p[|p| - 1];
    var r := TrimEnd(TrimStart(s));
    assert r[..|p|] == s[..|p|];
  }

  // ----- numbers -------------------------------------------------------------

  /** A JavaScript number as `parseInt` produces it: `NaN` or an integer.
      Integers are unbounded here (see README). */
  datatype JsNumber = NaN | Num(value: int)

  predicate IsRadixDigit(c: char, hex: bool) {
    IsAsciiDigit(c) || (hex && (('a' <= c <= 'f') || ('A' <= c <= 'F')))
  }

  function DigitValue(c: char): (r: nat)
    ensures r < 16
  {
    if IsAsciiDigit(c) then c as int - '0' as int
    else if 'a' <= c <= 'f' then c as int - 'a' as int + 10
    else if 'A' <= c <= 'F' then c as int - 'A' as int + 10
    else 0
  }

  /** The longest prefix of `s` made of digits of the radix. */
  function LeadingDigits(s: string, hex: bool): (r: string)
    ensures |r| <= |s| && r == s[..|r|]
    ensures forall i :: 0 <= i < |r| ==> IsRadixDigit(r[i], hex)
    ensures |r| < |s| ==> !IsRadixDigit(s[|r|], hex)
  {
    if s != [] && IsRadixDigit(s[0], hex) then [s[0]] + LeadingDigits(s[1..], hex) else []
  }

  /** The value of a digit string, most significant digit first. */
  function DigitsValue(d: string, hex: bool): nat {
    if d == [] then 0
    else DigitsValue(d[..|d| - 1], hex) * (if hex then 16 else 10) + DigitValue(d[|d| - 1])
  }

  /** `parseInt(s)` with no radix argument: leading white space is skipped, an
      optional sign is read, and the magnitude follows. */
  function ParseInt(s: string): JsNumber {
    var t := TrimStart(s);
    if t != [] && t[0] == '-' then Negate(ParseMagnitude(t[1..]))
    else if t != [] && t[0] == '+' then ParseMagnitude(t[1..])
    else ParseMagnitude(t)
  }

  /** A `0x`/`0X` prefix selects base 16; the longest run of digits that
      follows is the value, and no digits at all gives `NaN`. */
  function ParseMagnitude(u: string): JsNumber {
    if |u| >= 2 && u[0] == '0' && (u[1] == 'x' || u[1] == 'X') then
      DigitsNumber(LeadingDigits(u[2..], true), true)
    else
      DigitsNumber(LeadingDigits(u, false), false)
  }

  function DigitsNumber(d: string, hex: bool): JsNumber {
    if d == [] then NaN else Num(DigitsValue(d, hex))
  }

  function Negate(x: JsNumber): JsNumber {
    match x
    case NaN => NaN
    case Num(v) => Num(-v)
  }

  function DigitChar(d: nat): (c: char)
    requires d < 10
    ensures IsAsciiDigit(c) && DigitValue(c) == d
  {
    ('0' as int + d) as char
  }

  /** Decimal text of a natural number, as `${n}` prints it. */
  function NatToString(n: nat): (r: string)
    ensures r != []
    ensures forall i :: 0 <= i < |r| ==> IsAsciiDigit(r[i])
    ensures n > 0 ==> r[0] != '0'
  {
    if n < 10 then [DigitChar(n)] else NatToString(n / 10) + [DigitChar(n % 10)]
  }

  /** Decimal text of an integer, as `${n}` prints it. */
  function IntToString(n: int): string {
    if n < 0 then "-" + NatToString(-n) else NatToString(n)
  }

  /** `${x}` for a number `parseInt` produced. */
  function NumberText(x: JsNumber): string {
    match x
    case NaN => "NaN"
    case Num(n) => IntToString(n)
  }

  lemma {:induction false} DigitsValueOfNatToString(n: nat)
    ensures DigitsValue(NatToString(n), false) == n
  {
    if n >= 10 {
      var d := NatToString(n);
      assert d[..|d| - 1] == NatToString(n / 10);
      DigitsValueOfNatToString(n / 10);
    }
  }

  /** A run of digits is the whole digit run of itself followed by
      anything that does not start with a digit. */
  lemma {:induction false} LeadingDigitsOfDigits(d: string, rest: string)
    requires forall i :: 0 <= i < |d| ==> IsAsciiDigit(d[i])
    requires rest == [] || !IsAsciiDigit(rest[0])
    ensures LeadingDigits(d + rest, false) == d
  {
    if d == [] {
      assert d + rest == rest;
    } else {
      assert (d + rest)[0] == d[0];
      assert (d + rest)[1..] == d[1..] + rest;
      LeadingDigitsOfDigits(d[1..], rest);
    }
  }

  lemma LeadingDigitsOfNatText(n: nat, rest: string)
    requires rest == [] || !IsAsciiDigit(rest[0])
    ensures LeadingDigits(NatToString(n) + rest, false) == NatToString(n)
  {
    LeadingDigitsOfDigits(NatToString(n), rest);
  }

  lemma ParseMagnitudeOfNatText(n: nat, rest: string)
    requires rest == [] || (!IsAsciiDigit(rest[0]) && rest[0] != 'x' && rest[0] != 'X')
    ensures ParseMagnitude(NatToString(n) + rest) == Num(n)
  {
    var d := NatToString(n);
    var s := d + rest;
    assert !(|s| >= 2 && s[0] == '0' && (s[1] == 'x' || s[1] == 'X')) by {
      if |s| >= 2 && s[0] == '0' {
        assert s[0] == d[0];
        assert n == 0;
        assert s[1] == rest[0];
      }
    }
    LeadingDigitsOfNatText(n, rest);
    DigitsValueOfNatToString(n);
  }

  /** Text that starts with a digit is parsed as a magnitude alone. */
  lemma ParseIntOfDigitText(s: string)
    requires s != [] && IsAsciiDigit(s[0])
    ensures ParseInt(s) == ParseMagnitude(s)
  {
    assert TrimStart(s) == s;
  }

  /** `parseInt` reads back the decimal text of any natural number, whatever
      non-digit text (other than a hexadecimal marker) follows it. */
  lemma ParseIntOfNatText(n: nat, rest: string)
    requires rest == [] || (!IsAsciiDigit(rest[0]) && rest[0] != 'x' && rest[0] != 'X')
    ensures ParseInt(NatToString(n) + rest) == Num(n)
  {
    var s := NatToString(n) + rest;
    assert s[0] == NatToString(n)[0];
    ParseIntOfDigitText(s);
    ParseMagnitudeOfNatText(n, rest);
  }

  /** A leading minus sign negates the magnitude that follows it. */
  lemma ParseIntOfNegated(u: string)
    ensures ParseInt("-" + u) == Negate(ParseMagnitude(u))
  {
    var s := "-" + u;
    assert s[0] == '-';
    assert TrimStart(s) == s;
    assert s[1..] == u;
  }

  lemma ParseMagnitudeOfNat(n: nat)
    ensures ParseMagnitude(NatToString(n)) == Num(n)
  {
    ParseMagnitudeOfNatText(n, []);
    assert NatToString(n) + [] == NatToString(n);
  }

  /** `parseInt` reads back the decimal text of any integer. */
  lemma ParseIntOfIntText(n: int)
    ensures ParseInt(IntToString(n)) == Num(n)
  {
    if n < 0 {
      var m: nat := -n;
      assert IntToString(n) == "-" + NatToString(m);
      ParseIntOfNegated(NatToString(m));
      ParseMagnitudeOfNat(m);
    } else {
      assert IntToString(n) == NatToString(n) + [];
      ParseIntOfNatText(n, []);
    }
  }

  /** Every line followed by `sep`, as repeated `+=` of `line + sep` builds it. */
  function Terminated(lines: seq<string>, sep: string): string {
    if lines == [] then "" else lines[0] + sep + Terminated(lines[1..], sep)
  }

  lemma {:induction false} TerminatedAppend(a: seq<string>, b: seq<string>, sep: string)
    ensures Terminated(a + b, sep) == Terminated(a, sep) + Terminated(b, sep)
  {
    if a == [] {
      assert a + b == b;
    } else {
      assert (a + b)[1..] == a[1..] + b;
      TerminatedAppend(a[1..], b, sep);
    }
  }

  lemma TerminatedSingle(line: string, sep: string)
    ensures Terminated([line], sep) == line + sep
  {
    assert Terminated([line], sep) == line + sep + Terminated([], sep);
  }

  /** Terminating every line is joining them and terminating the last. */
  lemma {:induction false} TerminatedIsJoin(lines: seq<string>, sep: string)
    requires lines != []
    ensures Terminated(lines, sep) == Join(lines, sep) + sep
  {
    if |lines| > 1 {
      TerminatedIsJoin(lines[1..], sep);
    }
  }

  /** A join of non-empty lines starts with the first line's first character
      and ends with the last line's last character. */
  lemma {:induction false} JoinEnds(lines: seq<string>, sep: string)
    requires lines != [] && forall i :: 0 <= i < |lines| ==> lines[i] != []
    ensures var j := Join(lines, sep);
            var last := lines[|lines| - 1];
            j != [] && j[0] == lines[0][0] && j[|j| - 1] == last[|last| - 1]
  {
    if |lines| > 1 {
      JoinEnds(lines[1..], sep);
    }
  }

  /** Trimming a line and its line break leaves the line, when the line
      neither starts nor ends with white space. */
  lemma TrimTerminatedLine(s: string)
    requires s != [] && !IsJsSpace(s[0]) && !IsJsSpace(s[|s| - 1])
    ensures Trim(s + "\n") == s
  {
    var t := s + "\n";
    assert TrimStart(t) == t;
    assert t[..|t| - 1] == s;
  }

  /** `lines.join(sep)`. */
  function Join(lines: seq<string>, sep: string): string {
    if lines == [] then ""
    else if |lines| == 1 then lines[0]
    else lines[0] + sep + Join(lines[1..], sep)
  }
}
