/**
 * Go's `strconv.Itoa` and `strconv.ParseInt(s, 0, 0)` on a 64-bit platform:
 * base 0 lets the literal's prefix choose the base (`0x`, `0o`, `0b`, a
 * leading `0` for octal, decimal otherwise) and the result must fit in int64.
 */
module GoStrconv {
  import opened Wrappers

  const MinInt64: int := -0x8000_0000_0000_0000
  const MaxInt64: int := 0x7fff_ffff_ffff_ffff
  const MaxUint64: int := 0xffff_ffff_ffff_ffff

  predicate InInt64(n: int)
  {
    MinInt64 <= n <= MaxInt64
  }

  function DigitChar(d: nat): (c: char)
    requires d < 10
    ensures '0' <= c <= '9'
  {
    ('0' as int + d) as char
  }

  /** The decimal digits of `n`, without leading zeros. */
  function Decimal(n: nat): (s: string)
    ensures |s| >= 1
    ensures forall i :: 0 <= i < |s| ==> '0' <= s[i] <= '9'
    ensures n > 0 ==> s[0] != '0'
    ensures n == 0 ==> s == "0"
  {
    if n < 10 then [DigitChar(n)] else Decimal(n / 10) + [DigitChar(n % 10)]
  }

  /** `strconv.Itoa`. */
  function Itoa(n: int): (s: string)
    ensures |s| >= 1
    ensures n < 0 <==> s[0] == '-'
    ensures forall i :: 0 < i < |s| ==> '0' <= s[i] <= '9'
  {
    if n < 0 then "-" + Decimal(-n) else Decimal(n)
  }

  /** The value of one digit character in bases up to 36, as strconv reads it. */
  function DigitValue(c: char): Option<nat>
  {
    if '0' <= c <= '9' then Some(c as int - '0' as int)
    else if 'a' <= c <= 'z' then Some(c as int - 'a' as int + 10)
    else if 'A' <= c <= 'Z' then Some(c as int - 'A' as int + 10)
    else None
  }

  /** The value of a run of digits in `base`, or None when a character is not such a digit. */
  function DigitsValue(s: string, base: nat): Option<nat>
    decreases |s|
  {
    if |s| == 0 then Some(0)
    else
      var last := s[|s| - 1];
      match DigitsValue(s[..|s| - 1], base)
      case None => None
      case Some(high) =>
        match DigitValue(last)
        case Some(d) => if d < base then Some(Shift(high, base, d)) else None
        case None => None
  }

  /** One more digit `d` after the value `high`. */
  function Shift(high: nat, base: nat, d: nat): nat
  {
    high * base + d
  }

  /** Go's `lower(c)` on an ASCII byte: `c | 0x20` for the letters. */
  function LowerAscii(c: char): char
  {
    if 'A' <= c <= 'Z' then (c as int + 32) as char else c
  }

  /** Base 0: the literal's prefix picks the base; the digits that follow it. */
  function LiteralBase(s: string): (r: (nat, string))
    requires |s| > 0
    ensures r.0 in {2, 8, 10, 16}
  {
    if s[0] != '0' then (10, s)
    else if |s| >= 3 && LowerAscii(s[1]) == 'b' then (2, s[2..])
    else if |s| >= 3 && LowerAscii(s[1]) == 'o' then (8, s[2..])
    else if |s| >= 3 && LowerAscii(s[1]) == 'x' then (16, s[2..])
    else (8, s[1..])
  }

  /** `strconv.ParseUint(s, 0, 64)`, without digit-separating underscores. */
  function ParseUint(s: string): (r: Option<nat>)
    ensures r.Some? ==> r.value <= MaxUint64
  {
    if |s| == 0 then None
    else
      var (base, body) := LiteralBase(s);
      var digits := DigitsValue(body, base);
      if digits.Some? && digits.value <= MaxUint64 then digits else None
  }

  /** `strconv.ParseInt(s, 0, 0)`: an optional sign, a base-0 literal, and the int64 range check. */
  function ParseInt(s: string): (r: Option<int>)
    ensures r.Some? ==> InInt64(r.value)
    ensures s == "" ==> r == None
  {
    if |s| == 0 then None
    else
      var neg := s[0] == '-';
      var body := if s[0] == '+' || s[0] == '-' then s[1..] else s;
      match ParseUint(body)
      case None => None
      case Some(un) =>
        if !neg && un >= 0x8000_0000_0000_0000 then None
        else if neg && un > 0x8000_0000_0000_0000 then None
        else Some(if neg then 0 - un as int else un as int)
  }

  // ---------------------------------------------------------------------------
  // The reason strconv gives for a rejected literal

  /** `strconv.ErrSyntax` and `strconv.ErrRange`. */
  datatype NumError = ErrSyntax | ErrRange

  /** What strconv reads from a literal: its value, or why it was rejected. */
  datatype Parsed = Value(n: int) | Failed(err: NumError)

  function NumErrorText(e: NumError): string
  {
    match e
    case ErrSyntax => "invalid syntax"
    case ErrRange => "value out of range"
  }

  /**
   * strconv's digit loop, left to right from the value `n`: a character that is
   * not a digit of `base` is a syntax error, and a digit that takes the value
   * past 64 bits is a range error, whichever comes first.
   */
  function Scan(s: string, base: nat, n: nat): Parsed
    decreases |s|
  {
    if |s| == 0 then Value(n)
    else match DigitValue(s[0])
      case None => Failed(ErrSyntax)
      case Some(d) =>
        if d >= base then Failed(ErrSyntax)
        else if Shift(n, base, d) > MaxUint64 then Failed(ErrRange)
        else Scan(s[1..], base, Shift(n, base, d))
  }

  /** `strconv.ParseUint(s, 0, 64)` with its error reason. */
  function ParseUintParsed(s: string): Parsed
  {
    if |s| == 0 then Failed(ErrSyntax)
    else
      var (base, body) := LiteralBase(s);
      Scan(body, base, 0)
  }

  /**
   * `strconv.ParseInt(s, 0, 0)` with its error reason: the unsigned part's
   * error is kept, and a magnitude beyond int64 is a range error.
   */
  function ParseIntParsed(s: string): Parsed
  {
    if |s| == 0 then Failed(ErrSyntax)
    else
      var neg := s[0] == '-';
      var body := if s[0] == '+' || s[0] == '-' then s[1..] else s;
      match ParseUintParsed(body)
      case Failed(e) => Failed(e)
      case Value(un) =>
        if !neg && un >= 0x8000_0000_0000_0000 then Failed(ErrRange)
        else if neg && un > 0x8000_0000_0000_0000 then Failed(ErrRange)
        else Value(if neg then 0 - un else un)
  }

  // ---------------------------------------------------------------------------
  // strconv.Quote, as the error text writes the literal

  const LowerHex: string := "0123456789abcdef"

  /** A character `strconv.Quote` writes as an escape sequence (of the ASCII ones). */
  predicate NeedsEscape(c: char)
  {
    c == '"' || c == '\\' || (c as int) < 32 || c as int == 127
  }

  /** How `strconv.Quote` writes one character. */
  function EscapedChar(c: char): (r: string)
    ensures NeedsEscape(c) ==> |r| >= 2 && r[0] == '\\'
    ensures !NeedsEscape(c) ==> r == [c]
  {
    var k := c as int;
    if c == '"' then "\\\""
    else if c == '\\' then "\\\\"
    else if k == 7 then "\\a"
    else if k == 8 then "\\b"
    else if k == 12 then "\\f"
    else if c == '\n' then "\\n"
    else if c == '\r' then "\\r"
    else if c == '\t' then "\\t"
    else if k == 11 then "\\v"
    else if k < 32 || k == 127 then ['\\', 'x', LowerHex[k / 16], LowerHex[k % 16]]
    else [c]
  }

  function Escaped(s: string): string
    decreases |s|
  {
    if |s| == 0 then "" else EscapedChar(s[0]) + Escaped(s[1..])
  }

  /** `strconv.Quote`: the escaped text between double quotes. */
  function Quote(s: string): (r: string)
    ensures |r| >= 2 && r[0] == '"' && r[|r| - 1] == '"'
  {
    "\"" + Escaped(s) + "\""
  }

  /** A literal with nothing to escape is quoted as it stands. */
  lemma {:induction false} QuotePlain(s: string)
    requires forall i :: 0 <= i < |s| ==> !NeedsEscape(s[i])
    ensures Quote(s) == "\"" + s + "\""
  {
    EscapedPlain(s);
  }

  lemma {:induction false} EscapedPlain(s: string)
    requires forall i :: 0 <= i < |s| ==> !NeedsEscape(s[i])
    ensures Escaped(s) == s
    decreases |s|
  {
    if |s| > 0 {
      EscapedPlain(s[1..]);
      assert [s[0]] + s[1..] == s;
    }
  }

  lemma QuoteDecimal(n: nat)
    ensures Quote(Decimal(n)) == "\"" + Decimal(n) + "\""
  {
    QuotePlain(Decimal(n));
  }

  /** A double quote inside the literal is written escaped. */
  lemma QuoteEscapesQuote()
    ensures Quote("a\"b") == "\"a\\\"b\""
  {
    assert "a\"b"[1..] == "\"b" && "\"b"[1..] == "b" && "b"[1..] == "";
  }

  /** The digit loop without the 64-bit check. */
  ghost function Accumulate(s: string, base: nat, n: nat): Option<nat>
    decreases |s|
  {
    if |s| == 0 then Some(n)
    else match DigitValue(s[0])
      case None => None
      case Some(d) => if d < base then Accumulate(s[1..], base, Shift(n, base, d)) else None
  }

  lemma {:induction false} AccumulateSnoc(s: string, c: char, base: nat, n: nat)
    ensures Accumulate(s + [c], base, n) ==
            match Accumulate(s, base, n)
            case None => None
            case Some(high) =>
              match DigitValue(c)
              case Some(d) => if d < base then Some(Shift(high, base, d)) else None
              case None => None
  {
    if |s| > 0 {
      assert (s + [c])[0] == s[0] && (s + [c])[1..] == s[1..] + [c];
      match DigitValue(s[0])
      case None =>
      case Some(d) =>
        if d < base {
          AccumulateSnoc(s[1..], c, base, Shift(n, base, d));
        }
    } else {
      assert (s + [c])[1..] == [];
    }
  }

  /** Reading the digits left to right gives the value `DigitsValue` builds from the right. */
  lemma {:induction false} AccumulateIsDigitsValue(s: string, base: nat)
    ensures Accumulate(s, base, 0) == DigitsValue(s, base)
    decreases |s|
  {
    if |s| > 0 {
      var p := s[..|s| - 1];
      AccumulateIsDigitsValue(p, base);
      AccumulateSnoc(p, s[|s| - 1], base, 0);
      assert p + [s[|s| - 1]] == s;
    }
  }

  lemma {:induction false} AccumulateGrows(s: string, base: nat, n: nat)
    requires base >= 1
    ensures Accumulate(s, base, n).Some? ==> Accumulate(s, base, n).value >= n
    decreases |s|
  {
    if |s| > 0 {
      match DigitValue(s[0])
      case None =>
      case Some(d) =>
        if d < base {
          assert Shift(n, base, d) >= n by {
            assert n * base >= n * 1;
          }
          AccumulateGrows(s[1..], base, Shift(n, base, d));
        }
    }
  }

  /**
   * The loop with the early 64-bit check accepts exactly the literals whose
   * whole value fits in 64 bits, with that value; over valid digits it only
   * ever reports a range error.
   */
  lemma {:induction false} ScanAgrees(s: string, base: nat, n: nat)
    requires base >= 1 && n <= MaxUint64
    ensures Scan(s, base, n).Value? <==>
            Accumulate(s, base, n).Some? && Accumulate(s, base, n).value <= MaxUint64
    ensures Scan(s, base, n).Value? ==> Scan(s, base, n).n == Accumulate(s, base, n).value
    ensures Accumulate(s, base, n).Some? ==> Scan(s, base, n) != Failed(ErrSyntax)
    decreases |s|
  {
    if |s| > 0 {
      match DigitValue(s[0])
      case None =>
      case Some(d) =>
        if d < base {
          var m := Shift(n, base, d);
          if m > MaxUint64 {
            AccumulateGrows(s[1..], base, m);
          } else {
            ScanAgrees(s[1..], base, m);
          }
        }
    }
  }

  /** The unsigned parse with its reason accepts exactly what `ParseUint` accepts. */
  lemma ParseUintAgrees(s: string)
    ensures ParseUintParsed(s).Value? <==> ParseUint(s).Some?
    ensures ParseUintParsed(s).Value? ==> ParseUintParsed(s).n == ParseUint(s).value
    ensures |s| > 0 && DigitsValue(LiteralBase(s).1, LiteralBase(s).0).Some? ==>
            ParseUintParsed(s) != Failed(ErrSyntax)
  {
    if |s| > 0 {
      var (base, body) := LiteralBase(s);
      ScanAgrees(body, base, 0);
      AccumulateIsDigitsValue(body, base);
    }
  }

  /**
   * `ParseIntParsed` gives a value exactly when `ParseInt` does, and the same
   * one; when `ParseInt` rejects a literal, it gives the reason.
   */
  lemma ParseIntAgrees(s: string)
    ensures ParseIntParsed(s).Value? <==> ParseInt(s).Some?
    ensures ParseIntParsed(s).Value? ==> ParseIntParsed(s).n == ParseInt(s).value
  {
    if |s| > 0 {
      ParseUintAgrees(if s[0] == '+' || s[0] == '-' then s[1..] else s);
    }
  }

  /** A decimal literal, signed or not, whose value lies outside int64 is a range error. */
  lemma OutOfRangeDecimal(n: nat)
    requires n > MaxInt64
    ensures ParseIntParsed(Decimal(n)) == Failed(ErrRange)
    ensures n > -MinInt64 ==> ParseIntParsed("-" + Decimal(n)) == Failed(ErrRange)
  {
    var d := Decimal(n);
    DecimalLiteral(n);
    ParseUintAgrees(d);
    assert |d| > 0;
    if n <= MaxUint64 {
      assert ParseUintParsed(d) == Value(n);
    } else {
      assert ParseUintParsed(d).Failed? && ParseUintParsed(d).err != ErrSyntax;
    }
    assert ("-" + d)[0] == '-' && ("-" + d)[1..] == d;
  }

  /** A literal with a character that is no digit, before any digit overflows, is a syntax error. */
  lemma BadDigitIsSyntax(s: string, c: char)
    requires |s| > 0 && s[0] != '0' && s[0] != '+' && s[0] != '-'
    requires forall i :: 0 <= i < |s| ==> '0' <= s[i] <= '9'
    requires DigitsValue(s, 10).Some? && DigitsValue(s, 10).value <= MaxUint64
    requires DigitValue(c).None?
    ensures ParseIntParsed(s + [c]) == Failed(ErrSyntax)
  {
    var t := s + [c];
    assert t[0] == s[0] && LiteralBase(t) == (10, t);
    AccumulateIsDigitsValue(s, 10);
    ScanSuffix(s, [c], 10, 0);
  }

  /** After valid digits that fit, the loop goes on with their value. */
  lemma {:induction false} ScanSuffix(s: string, rest: string, base: nat, n: nat)
    requires base >= 1 && n <= MaxUint64
    requires Accumulate(s, base, n).Some? && Accumulate(s, base, n).value <= MaxUint64
    ensures Scan(s + rest, base, n) == Scan(rest, base, Accumulate(s, base, n).value)
    decreases |s|
  {
    if |s| > 0 {
      assert (s + rest)[0] == s[0] && (s + rest)[1..] == s[1..] + rest;
      var d := DigitValue(s[0]).value;
      var m := Shift(n, base, d);
      AccumulateGrows(s[1..], base, m);
      ScanSuffix(s[1..], rest, base, m);
    } else {
      assert s + rest == rest;
    }
  }

  lemma {:induction false} DecimalValue(n: nat)
    ensures DigitsValue(Decimal(n), 10) == Some(n)
  {
    var s := Decimal(n);
    if n < 10 {
      assert s[..0] == "";
    } else {
      DecimalValue(n / 10);
      assert s[..|s| - 1] == Decimal(n / 10);
    }
  }

  /** The base-0 reading of the decimal digits of `m` is decimal and gives `m`. */
  lemma DecimalLiteral(m: nat)
    ensures var d := Decimal(m);
            d[0] != '+' && d[0] != '-' && DigitsValue(LiteralBase(d).1, LiteralBase(d).0) == Some(m)
            && (m <= MaxUint64 ==> ParseUint(d) == Some(m)) && (m > MaxUint64 ==> ParseUint(d) == None)
  {
    var d := Decimal(m);
    DecimalValue(m);
    if d[0] == '0' {
      assert m == 0 && d == "0";
      assert d[1..] == "";
      assert LiteralBase(d) == (8, "");
    } else {
      assert LiteralBase(d) == (10, d);
    }
  }

  /** Reading back what Itoa writes returns the same int64. */
  lemma ItoaRoundTrip(n: int)
    requires InInt64(n)
    ensures ParseInt(Itoa(n)) == Some(n)
  {
    var m: nat := if n < 0 then -n else n;
    var d := Decimal(m);
    DecimalLiteral(m);
    var s := Itoa(n);
    if n < 0 {
      assert s[0] == '-' && s[1..] == d;
    } else {
      assert s == d && s[0] != '+' && s[0] != '-';
    }
  }
}
