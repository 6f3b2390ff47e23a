/**
 * The small pieces of C string handling and formatting that the two front
 * ends rely on: reading a NUL-terminated buffer, skipping leading spaces,
 * substring search, `%d`/`%u`/`%x` numerals, `%-8s` padding and the
 * line-by-line report text.
 */
module Text {
  import opened Registers

  const NUL: Byte := 0
  const SPACE: Byte := 0x20

  /**
   * A NUL-terminated buffer read as C reads it (`printf("%s")`,
   * `operator<<(const char*)`, `std::string(const char*)`, `strstr`): the
   * bytes before the first NUL, or all of them if there is none.
   */
  function CString(s: seq<Byte>): (r: seq<Byte>)
    ensures |r| <= |s|
  {
    if s == [] || s[0] == NUL then [] else [s[0]] + CString(s[1..])
  }

  /**
   * What the pointer walk `while (*p == ' ') p++;` leaves: the buffer from
   * its first byte that is not a space.
   */
  function SkipSpaces(s: seq<Byte>): (r: seq<Byte>)
    ensures |r| <= |s|
  {
    if s != [] && s[0] == SPACE then SkipSpaces(s[1..]) else s
  }

  /** A C string is the bytes before the first NUL: a NUL-free prefix cut at a NUL or the end. */
  lemma {:induction false} CStringIsPrefix(s: seq<Byte>)
    ensures var r := CString(s);
      && r == s[..|r|] && NUL !in r && (|r| < |s| ==> s[|r|] == NUL)
  {
    if s != [] && s[0] != NUL {
      CStringIsPrefix(s[1..]);
    }
  }

  /** A NUL written after the buffer changes nothing that is read from it. */
  lemma {:induction false} CStringTerminated(s: seq<Byte>)
    ensures CString(s + [NUL]) == CString(s)
  {
    if s != [] {
      assert (s + [NUL])[1..] == s[1..] + [NUL];
      CStringTerminated(s[1..]);
    }
  }

  /** The pointer walk stops at the first byte that is not a space: everything before it is a space. */
  lemma {:induction false} SkipSpacesIsSuffix(s: seq<Byte>)
    ensures var r := SkipSpaces(s);
      && r == s[|s| - |r|..]
      && (forall i :: 0 <= i < |s| - |r| ==> s[i] == SPACE)
      && (r != [] ==> r[0] != SPACE)
  {
    if s != [] && s[0] == SPACE {
      SkipSpacesIsSuffix(s[1..]);
    }
  }

  /** The walk never passes a NUL: skipping spaces in a terminated buffer keeps the terminator. */
  lemma {:induction false} SkipSpacesTerminated(s: seq<Byte>)
    ensures SkipSpaces(s + [NUL]) == SkipSpaces(s) + [NUL]
  {
    if s != [] {
      assert (s + [NUL])[1..] == s[1..] + [NUL];
      SkipSpacesTerminated(s[1..]);
    }
  }

  /**
   * Reading a buffer with a NUL appended after skipping its leading spaces:
   * `k` spaces are skipped and the text runs from there to the first NUL or
   * the end of the buffer.
   */
  lemma TrimmedText(raw: seq<Byte>) returns (k: nat)
    ensures var b := CString(SkipSpaces(raw + [NUL]));
      && k + |b| <= |raw|
      && (forall i :: 0 <= i < k ==> raw[i] == SPACE)
      && (k < |raw| ==> raw[k] != SPACE)
      && b == raw[k..k + |b|]
      && NUL !in b
      && (k + |b| < |raw| ==> raw[k + |b|] == NUL)
  {
    var t := SkipSpaces(raw);
    SkipSpacesTerminated(raw);
    CStringTerminated(t);
    SkipSpacesIsSuffix(raw);
    CStringIsPrefix(t);
    k := |raw| - |t|;
    var b := CString(t);
    assert t[..|b|] == raw[k..k + |b|];
  }

  /** Bytes written to a text stream, one character each. */
  function Chars(b: seq<Byte>): string
  {
    seq(|b|, i requires 0 <= i < |b| => b[i] as char)
  }

  /** `strstr(hay, needle) != NULL`, or `hay.find(needle) != npos`. */
  predicate Contains(hay: string, needle: string)
  {
    exists i :: 0 <= i <= |hay| - |needle| && OccursAt(hay, needle, i)
  }

  predicate OccursAt(hay: string, needle: string, i: nat)
    requires i + |needle| <= |hay|
  {
    hay[i..i + |needle|] == needle
  }

  /** The digit character for `d` in bases up to 16, lower case. */
  function Digit(d: nat): (c: char)
    requires d < 16
    ensures '0' <= c <= '9' || 'a' <= c <= 'f'
  {
    if d < 10 then ('0' as int + d) as char else ('a' as int + d - 10) as char
  }

  /** The numeral of `n` in `base` without leading zeros, lower-case digits. */
  function Numeral(n: nat, base: nat): (s: string)
    requires 2 <= base <= 16
    ensures |s| >= 1
    ensures n >= base ==> s[0] != '0'
    decreases n
  {
    if n < base then [Digit(n)] else Numeral(n / base, base) + [Digit(n % base)]
  }

  /** The value of one digit character. */
  function DigitValue(c: char): (d: nat)
  {
    if '0' <= c <= '9' then c as int - '0' as int
    else if 'a' <= c <= 'f' then c as int - 'a' as int + 10
    else 0
  }

  /** Reads a numeral back: the inverse of `Numeral`. */
  function NumeralValue(s: string, base: nat): nat
  {
    if s == [] then 0 else NumeralValue(s[..|s| - 1], base) * base + DigitValue(s[|s| - 1])
  }

  /** Printing a number and reading it back gives the number: no two values print alike. */
  lemma {:induction false} NumeralRoundTrip(n: nat, base: nat)
    requires 2 <= base <= 16
    ensures NumeralValue(Numeral(n, base), base) == n
    decreases n
  {
    if n < base {
      DigitRoundTrip(n);
      NumeralValueSnoc([], Digit(n), base);
    } else {
      NumeralRoundTrip(n / base, base);
      NumeralStep(n, base);
    }
  }

  /** The last digit of a numeral adds `n % base` to the value of the others. */
  lemma NumeralStep(n: nat, base: nat)
    requires 2 <= base <= 16 && n >= base
    requires NumeralValue(Numeral(n / base, base), base) == n / base
    ensures NumeralValue(Numeral(n, base), base) == n
  {
    var q, d := n / base, n % base;
    NumeralValueSnoc(Numeral(q, base), Digit(d), base);
    DigitRoundTrip(d);
    DivMod(n, base);
  }

  lemma DigitRoundTrip(d: nat)
    requires d < 16
    ensures DigitValue(Digit(d)) == d
  {
  }

  lemma NumeralValueSnoc(s: string, c: char, base: nat)
    ensures NumeralValue(s + [c], base) == NumeralValue(s, base) * base + DigitValue(c)
  {
    assert (s + [c])[..|s|] == s;
  }

  lemma DivMod(n: nat, base: nat)
    requires 2 <= base
    ensures (n / base) * base + n % base == n
  {
  }

  /** `%u`, `%d` of a non-negative value, and `operator<<` of an integer. */
  function Decimal(n: nat): string
  {
    Numeral(n, 10)
  }

  /** `%d` and `operator<<` of a C `int`. */
  function SignedDecimal(i: int): string
  {
    if i < 0 then "-" + Decimal(-i) else Decimal(i)
  }

  /** `%x`. */
  function Hex(n: nat): string
  {
    Numeral(n, 16)
  }

  /**
   * `%-<width>s`: the string left-justified, padded with spaces to `width`
   * characters, never truncated.
   */
  function PadRight(s: string, width: nat): (r: string)
    ensures |r| == if |s| < width then width else |s|
    ensures r[..|s|] == s
    ensures forall i :: |s| <= i < |r| ==> r[i] == ' '
  {
    if |s| < width then s + seq(width - |s|, _ => ' ') else s
  }

  function YesNo(b: bool): string
  {
    if b then "Yes" else "No"
  }

  /** A report written line by line: every line followed by the line ending. */
  function Render(lines: seq<string>, eol: string): string
  {
    if lines == [] then "" else lines[0] + eol + Render(lines[1..], eol)
  }

  /** Writing two blocks of lines one after the other writes their texts one after the other. */
  lemma {:induction false} RenderAppend(a: seq<string>, b: seq<string>, eol: string)
    ensures Render(a + b, eol) == Render(a, eol) + Render(b, eol)
  {
    if a != [] {
      assert (a + b)[1..] == a[1..] + b;
      RenderAppend(a[1..], b, eol);
    } else {
      assert a + b == b;
    }
  }
}
