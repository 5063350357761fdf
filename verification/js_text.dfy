/** The few JavaScript string primitives the core relies on, written out:
    `String.prototype.trim`, `String.prototype.split` with a one-character
    separator, `parseInt(s, 10)` and the decimal rendering of an integer
    inside a template literal. */
module JsText {
  import opened Options

  /** WhiteSpace and LineTerminator code points of ECMA-262: what `trim`
      removes and what `parseInt` skips before the number. */
  predicate IsSpace(c: char) {
    || c == '\t' || c == '\n' || c == '\U{000B}' || c == '\U{000C}' || c == '\r'
    || c == ' ' || c == '\U{00A0}' || c == '\U{1680}'
    || ('\U{2000}' <= c <= '\U{200A}')
    || c == '\U{2028}' || c == '\U{2029}' || c == '\U{202F}' || c == '\U{205F}'
    || c == '\U{3000}' || c == '\U{FEFF}'
  }

  predicate AllSpace(s: string) {
    forall i :: 0 <= i < |s| ==> IsSpace(s[i])
  }

  predicate IsDigit(c: char) {
    '0' <= c <= '9'
  }

  predicate AllDigits(s: string) {
    forall i :: 0 <= i < |s| ==> IsDigit(s[i])
  }

  /** Drops the leading white space. */
  function TrimStart(s: string): string {
    if s != [] && IsSpace(s[0]) then TrimStart(s[1..]) else s
  }

  /** Drops the trailing white space. */
  function TrimEnd(s: string): string {
    if s != [] && IsSpace(s[|s| - 1]) then TrimEnd(s[..|s| - 1]) else s
  }

  /** `TrimStart` removes a prefix made of white space, and stops at the
      first other character. */
  lemma {:induction false} TrimStartShape(s: string)
    ensures var r := TrimStart(s);
      && |r| <= |s| && r == s[|s| - |r|..]
      && AllSpace(s[..|s| - |r|])
      && (r == [] || !IsSpace(r[0]))
  {
    if s != [] && IsSpace(s[0]) {
      TrimStartShape(s[1..]);
      var r := TrimStart(s);
      assert s[..|s| - |r|] == [s[0]] + s[1..][..|s| - 1 - |r|];
    }
  }

  /** `TrimEnd` removes a suffix made of white space, and stops at the last
      other character. */
  lemma {:induction false} TrimEndShape(s: string)
    ensures var r := TrimEnd(s);
      && |r| <= |s| && r == s[..|r|]
      && AllSpace(s[|r|..])
      && (r == [] || !IsSpace(r[|r| - 1]))
  {
    if s != [] && IsSpace(s[|s| - 1]) {
      var t := s[..|s| - 1];
      TrimEndShape(t);
      var r := TrimEnd(s);
      assert s[|r|..] == t[|r|..] + [s[|s| - 1]];
    }
  }

  /** `s.trim()`. */
  function Trim(s: string): string {
    TrimEnd(TrimStart(s))
  }

  /** A trimmed string neither starts nor ends with white space. */
  lemma TrimEnds(s: string)
    ensures var r := Trim(s);
      |r| <= |s| && (r == [] || (!IsSpace(r[0]) && !IsSpace(r[|r| - 1])))
  {
    var t := TrimStart(s);
    var r := TrimEnd(t);
    TrimStartShape(s);
    TrimEndShape(t);
    if r != [] {
      assert r[0] == t[0];
    }
  }

  lemma {:induction false} TrimStartPadded(lead: string, s: string)
    requires AllSpace(lead)
    requires s == [] || !IsSpace(s[0])
    ensures TrimStart(lead + s) == s
  {
    if lead != [] {
      assert (lead + s)[1..] == lead[1..] + s;
      TrimStartPadded(lead[1..], s);
    }
  }

  lemma {:induction false} TrimEndPadded(s: string, trail: string)
    requires AllSpace(trail)
    requires s == [] || !IsSpace(s[|s| - 1])
    ensures TrimEnd(s + trail) == s
  {
    if trail != [] {
      var t := trail[..|trail| - 1];
      assert (s + trail)[..|s + trail| - 1] == s + t;
      TrimEndPadded(s, t);
    }
  }

  /** Trimming removes exactly the white space around the text and nothing
      inside it: a string padded on both sides trims back to its core. */
  lemma TrimPadded(lead: string, core: string, trail: string)
    requires AllSpace(lead) && AllSpace(trail)
    requires core == [] || (!IsSpace(core[0]) && !IsSpace(core[|core| - 1]))
    ensures Trim(lead + core + trail) == core
  {
    if core == [] {
      assert lead + core + trail == lead + trail;
      assert AllSpace(lead + trail);
      TrimStartPadded(lead + trail, []);
      assert lead + trail + [] == lead + trail;
    } else {
      assert lead + core + trail == lead + (core + trail);
      TrimStartPadded(lead, core + trail);
      TrimEndPadded(core, trail);
    }
  }

  /** Trimming twice is trimming once. */
  lemma TrimIdempotent(s: string)
    ensures Trim(Trim(s)) == Trim(s)
  {
    var r := Trim(s);
    TrimEnds(s);
    TrimPadded([], r, []);
    assert [] + r + [] == r;
  }

  /** `s.split(sep)` for a one-character separator: the pieces between the
      separators, so `n` separators give `n + 1` pieces and `""` gives `[""]`. */
  function Split(s: string, sep: char): (parts: seq<string>)
    ensures |parts| >= 1
    ensures forall i :: 0 <= i < |parts| ==> sep !in parts[i]
  {
    if s == [] then [[]]
    else
      var rest := Split(s[1..], sep);
      if s[0] == sep then [[]] + rest else [[s[0]] + rest[0]] + rest[1..]
  }

  /** `parts.join(sep)`: the inverse of `Split`. */
  function Join(parts: seq<string>, sep: char): (s: string)
    requires |parts| >= 1
  {
    if |parts| == 1 then parts[0] else parts[0] + [sep] + Join(parts[1..], sep)
  }

  /** Splitting loses nothing: joining the pieces gives the string back. */
  lemma {:induction false} JoinSplit(s: string, sep: char)
    ensures Join(Split(s, sep), sep) == s
  {
    if s != [] {
      var rest := Split(s[1..], sep);
      JoinSplit(s[1..], sep);
      if s[0] == sep {
        assert ([[]] + rest)[1..] == rest;
      } else {
        var parts := [[s[0]] + rest[0]] + rest[1..];
        if |rest| > 1 {
          assert parts[1..] == rest[1..];
          assert Join(rest, sep) == rest[0] + [sep] + Join(rest[1..], sep);
        }
      }
    }
  }

  lemma {:induction false} SplitAppend(a: string, b: string, sep: char)
    requires sep !in a
    ensures Split(a + [sep] + b, sep) == [a] + Split(b, sep)
  {
    if a == [] {
      assert (a + [sep] + b)[1..] == b;
    } else {
      assert (a + [sep] + b)[1..] == a[1..] + [sep] + b;
      SplitAppend(a[1..], b, sep);
      assert [a[0]] + a[1..] == a;
    }
  }

  lemma {:induction false} SplitNoSep(a: string, sep: char)
    requires sep !in a
    ensures Split(a, sep) == [a]
  {
    if a != [] {
      SplitNoSep(a[1..], sep);
      assert [a[0]] + a[1..] == a;
    }
  }

  /** Joining pieces that hold no separator and splitting again gives the
      same pieces back. */
  lemma {:induction false} SplitJoin(parts: seq<string>, sep: char)
    requires |parts| >= 1
    requires forall i :: 0 <= i < |parts| ==> sep !in parts[i]
    ensures Split(Join(parts, sep), sep) == parts
  {
    if |parts| == 1 {
      SplitNoSep(parts[0], sep);
    } else {
      SplitJoin(parts[1..], sep);
      SplitAppend(parts[0], Join(parts[1..], sep), sep);
      assert [parts[0]] + parts[1..] == parts;
    }
  }

  /** The longest prefix of decimal digits. */
  function DigitPrefix(s: string): (d: string)
    ensures |d| <= |s| && d == s[..|d|]
    ensures AllDigits(d)
    ensures |d| == |s| || !IsDigit(s[|d|])
  {
    if s != [] && IsDigit(s[0]) then [s[0]] + DigitPrefix(s[1..]) else []
  }

  function DigitValue(c: char): nat
    requires IsDigit(c)
  {
    c as int - '0' as int
  }

  /** The number a string of decimal digits denotes, most significant first. */
  function DigitsValue(d: string): nat
    requires AllDigits(d)
  {
    if d == [] then 0 else 10 * DigitsValue(d[..|d| - 1]) + DigitValue(d[|d| - 1])
  }

  /** The longest run of decimal digits at the start of `body`, as a number;
      `None` when `body` does not start with a digit. */
  function ParseDigits(body: string): (r: Option<nat>)
    ensures r == None <==> body == [] || !IsDigit(body[0])
  {
    var digits := DigitPrefix(body);
    if digits == [] then None else Some(DigitsValue(digits))
  }

  /** An optional sign followed by digits. */
  function ParseSigned(t: string): (r: Option<int>)
  {
    if t != [] && t[0] == '-' then
      match ParseDigits(t[1..])
      case None => None
      case Some(v) => Some(-(v as int))
    else if t != [] && t[0] == '+' then
      match ParseDigits(t[1..])
      case None => None
      case Some(v) => Some(v)
    else
      match ParseDigits(t)
      case None => None
      case Some(v) => Some(v)
  }

  /** `parseInt(s, 10)`: skip leading white space, read an optional sign, then
      the longest run of decimal digits; `None` (NaN) when there is none.
      The source's numbers are doubles; here they are unbounded integers. */
  function ParseInt(s: string): (r: Option<int>)
  {
    ParseSigned(TrimStart(s))
  }

  /** Text without a digit is NaN. */
  lemma ParseIntNoDigit(s: string)
    requires forall i :: 0 <= i < |s| ==> !IsDigit(s[i])
    ensures ParseInt(s) == None
  {
    TrimStartShape(s);
    var t := TrimStart(s);
    assert forall i :: 0 <= i < |t| ==> t[i] == s[|s| - |t| + i];
  }

  function DigitChar(k: nat): (c: char)
    requires k < 10
    ensures IsDigit(c) && DigitValue(c) == k
  {
    ('0' as int + k) as char
  }

  /** The decimal digits of a natural number, without leading zeros. */
  function Decimal(n: nat): (d: string)
    ensures d != [] && AllDigits(d)
  {
    if n < 10 then [DigitChar(n)] else Decimal(n / 10) + [DigitChar(n % 10)]
  }

  /** What `${n}` renders for an integer `n`. */
  function IntString(n: int): (s: string)
    ensures s != [] && (s[0] == '-' || IsDigit(s[0]))
  {
    if n < 0 then "-" + Decimal(-n) else Decimal(n)
  }

  /** The rendering of a number holds no separator the source splits on. */
  lemma IntStringHasNoSeparator(n: int, sep: char)
    requires sep != '-' && !IsDigit(sep)
    ensures sep !in IntString(n)
  {
    var d := if n < 0 then Decimal(-n) else Decimal(n);
    assert AllDigits(d);
    assert sep !in d;
  }

  lemma {:induction false} DecimalValue(n: nat)
    ensures DigitsValue(Decimal(n)) == n
  {
    if n >= 10 {
      var d := Decimal(n);
      assert d[..|d| - 1] == Decimal(n / 10);
      DecimalValue(n / 10);
    }
  }

  lemma {:induction false} LeadingZeroValue(d: string)
    requires AllDigits(d)
    ensures AllDigits("0" + d) && DigitsValue("0" + d) == DigitsValue(d)
  {
    if d != [] {
      var z := "0" + d;
      assert z[..|z| - 1] == "0" + d[..|d| - 1];
      LeadingZeroValue(d[..|d| - 1]);
    }
  }

  lemma {:induction false} DigitPrefixOf(d: string, rest: string)
    requires AllDigits(d)
    requires rest == [] || !IsDigit(rest[0])
    ensures DigitPrefix(d + rest) == d
  {
    if d != [] {
      assert (d + rest)[1..] == d[1..] + rest;
      DigitPrefixOf(d[1..], rest);
      assert [d[0]] + d[1..] == d;
    }
  }

  lemma ParseDigitString(d: string, rest: string)
    requires d != [] && AllDigits(d)
    requires rest == [] || !IsDigit(rest[0])
    ensures ParseDigits(d + rest) == Some(DigitsValue(d))
  {
    DigitPrefixOf(d, rest);
  }

  lemma ParseMinus(t: string)
    requires t != [] && t[0] == '-'
    ensures ParseDigits(t[1..]).Some? ==> ParseInt(t) == Some(-(ParseDigits(t[1..]).value as int))
  {
    assert !IsSpace(t[0]);
    assert TrimStart(t) == t;
  }

  lemma ParseNegative(d: string, rest: string)
    requires d != [] && AllDigits(d)
    requires rest == [] || !IsDigit(rest[0])
    ensures ParseInt("-" + d + rest) == Some(-(DigitsValue(d) as int))
  {
    var s := "-" + d + rest;
    assert s[0] == '-';
    assert s[1..] == d + rest;
    ParseDigitString(d, rest);
    ParseMinus(s);
  }

  lemma ParseUnsigned(d: string, rest: string)
    requires d != [] && AllDigits(d)
    requires rest == [] || !IsDigit(rest[0])
    ensures ParseInt(d + rest) == Some(DigitsValue(d))
  {
    var s := d + rest;
    assert IsDigit(s[0]);
    assert TrimStart(s) == s;
    ParseDigitString(d, rest);
  }

  /** `parseInt` reads back what `${n}` writes, whatever non-digit text
      follows it. */
  lemma ParseIntString(n: int, rest: string)
    requires rest == [] || !IsDigit(rest[0])
    ensures ParseInt(IntString(n) + rest) == Some(n)
  {
    if n < 0 {
      var d := Decimal(-n);
      assert IntString(n) == "-" + d;
      DecimalValue(-n);
      ParseNegative(d, rest);
    } else {
      var d := Decimal(n);
      assert IntString(n) == d;
      DecimalValue(n);
      ParseUnsigned(d, rest);
    }
  }

  /** A zero-padded number such as `"07"` parses to its value too. */
  lemma ParseIntZeroPadded(n: nat, rest: string)
    requires rest == [] || !IsDigit(rest[0])
    ensures ParseInt("0" + Decimal(n) + rest) == Some(n)
  {
    LeadingZeroValue(Decimal(n));
    ParseUnsigned("0" + Decimal(n), rest);
    DecimalValue(n);
  }

  /** Trailing text is ignored: `"150ml"` reads as 150. */
  lemma ParseIntIgnoresUnit()
    ensures ParseInt("150ml") == Some(150)
  {
    ParseUnsigned("150", "ml");
    assert "150" + "ml" == "150ml";
    assert DigitsValue("150") == 150 by {
      assert "150"[..2] == "15";
      assert "15"[..1] == "1";
    }
  }

  /** Leading white space never changes what `parseInt` reads. */
  lemma ParseIntSkipsSpace(lead: string, s: string)
    requires AllSpace(lead)
    ensures ParseInt(lead + s) == ParseInt(s)
  {
    var t := TrimStart(s);
    TrimStartShape(s);
    var k := |s| - |t|;
    assert s == s[..k] + t;
    assert lead + s == (lead + s[..k]) + t;
    assert AllSpace(lead + s[..k]);
    TrimStartPadded(lead + s[..k], t);
  }
}
