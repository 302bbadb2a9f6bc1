/**
 * The JavaScript built-ins the core calls on strings: `trim`, the `\d`
 * character class, `split` on one character, `Number.parseInt` and the
 * decimal rendering of an integer in a template string. Strings are
 * sequences of characters.
 */
module JsBuiltins {
  import opened Wrappers

  /** WhiteSpace and LineTerminator characters of ECMA-262 (sections 12.2
      and 12.3): what `trim` removes and what `parseInt` skips. */
  predicate IsWhitespace(c: char) {
    || c == '\t' || c == '\n' || c == '\U{000B}' || c == '\U{000C}' || c == '\r'
    || c == ' ' || c == '\U{00A0}' || c == '\U{1680}' || ('\U{2000}' <= c <= '\U{200A}')
    || c == '\U{2028}' || c == '\U{2029}' || c == '\U{202F}' || c == '\U{205F}'
    || c == '\U{3000}' || c == '\U{FEFF}'
  }

  /** The regular-expression class `\d`: ASCII digits only. */
  predicate IsDigit(c: char) {
    '0' <= c <= '9'
  }

  /** `s.startsWith(prefix)`. */
  predicate StartsWith(s: string, prefix: string) {
    |prefix| <= |s| && s[..|prefix|] == prefix
  }

  predicate AllDigits(s: string) {
    forall i :: 0 <= i < |s| ==> IsDigit(s[i])
  }

  lemma WhitespaceIsNotDigit(c: char)
    ensures IsWhitespace(c) ==> !IsDigit(c)
  {
  }

  /** Leading whitespace removed. */
  function TrimStart(s: string): (r: string)
    ensures |r| <= |s|
    ensures forall i :: 0 <= i < |s| - |r| ==> IsWhitespace(s[i])
    ensures r == [] || !IsWhitespace(r[0])
  {
    if |s| > 0 && IsWhitespace(s[0]) then TrimStart(s[1..]) else s
  }

  /** What `TrimStart` keeps is a suffix of its input. */
  lemma {:induction false} TrimStartIsSuffix(s: string)
    ensures TrimStart(s) == s[|s| - |TrimStart(s)|..]
  {
    if |s| > 0 && IsWhitespace(s[0]) {
      TrimStartIsSuffix(s[1..]);
    }
  }

  /** Trailing whitespace removed. */
  function TrimEnd(s: string): (r: string)
    ensures |r| <= |s| && r == s[..|r|]
    ensures forall i :: |r| <= i < |s| ==> IsWhitespace(s[i])
    ensures r == [] || !IsWhitespace(r[|r| - 1])
  {
    if |s| > 0 && IsWhitespace(s[|s| - 1]) then TrimEnd(s[..|s| - 1]) else s
  }

  /** `String.prototype.trim`. */
  function Trim(s: string): string {
    TrimEnd(TrimStart(s))
  }

  /** `s.replace(/\D/g, '')`: the digits of `s`, in order. */
  function KeepDigits(s: string): string {
    if s == [] then []
    else (if IsDigit(s[0]) then [s[0]] else []) + KeepDigits(s[1..])
  }

  lemma {:induction false} KeepDigitsShape(s: string)
    ensures AllDigits(KeepDigits(s))
    ensures |KeepDigits(s)| <= |s|
    ensures AllDigits(s) ==> KeepDigits(s) == s
  {
    if s != [] {
      KeepDigitsShape(s[1..]);
    }
  }

  lemma {:induction false} KeepDigitsAppend(a: string, b: string)
    ensures KeepDigits(a + b) == KeepDigits(a) + KeepDigits(b)
  {
    if a == [] {
      assert a + b == b;
    } else {
      var head := if IsDigit(a[0]) then [a[0]] else [];
      assert (a + b)[0] == a[0] && (a + b)[1..] == a[1..] + b;
      assert KeepDigits(a + b) == head + KeepDigits(a[1..] + b);
      KeepDigitsAppend(a[1..], b);
      assert KeepDigits(a) == head + KeepDigits(a[1..]);
    }
  }

  lemma {:induction false} KeepDigitsOfWhitespace(s: string)
    requires forall i :: 0 <= i < |s| ==> IsWhitespace(s[i])
    ensures KeepDigits(s) == []
  {
    if s != [] {
      WhitespaceIsNotDigit(s[0]);
      KeepDigitsOfWhitespace(s[1..]);
    }
  }

  lemma KeepDigitsOfTrimStart(s: string)
    ensures KeepDigits(TrimStart(s)) == KeepDigits(s)
  {
    var t := TrimStart(s);
    var w := s[..|s| - |t|];
    TrimStartIsSuffix(s);
    assert s == w + t;
    KeepDigitsOfWhitespace(w);
    KeepDigitsAppend(w, t);
  }

  lemma KeepDigitsOfTrimEnd(s: string)
    ensures KeepDigits(TrimEnd(s)) == KeepDigits(s)
  {
    var u := TrimEnd(s);
    var w := s[|u|..];
    assert s == u + w;
    KeepDigitsOfWhitespace(w);
    KeepDigitsAppend(u, w);
  }

  /** Trimming never removes a digit, so it does not change what `\D`-stripping keeps. */
  lemma KeepDigitsOfTrim(s: string)
    ensures KeepDigits(Trim(s)) == KeepDigits(s)
  {
    KeepDigitsOfTrimStart(s);
    KeepDigitsOfTrimEnd(TrimStart(s));
  }

  // ---------------------------------------------------------------------
  // split and join on one separator character

  /** `s.split(sep)` for a one-character separator: the pieces between
      separators, empty pieces included; `""` gives `[""]`. */
  function Split(s: string, sep: char): (parts: seq<string>)
    ensures |parts| >= 1
  {
    if s == [] then [[]]
    else
      var rest := Split(s[1..], sep);
      if s[0] == sep then [[]] + rest else [[s[0]] + rest[0]] + rest[1..]
  }

  /** `parts.join(sep)`. */
  function Join(parts: seq<string>, sep: char): string
    requires |parts| >= 1
  {
    if |parts| == 1 then parts[0] else parts[0] + [sep] + Join(parts[1..], sep)
  }

  lemma {:induction false} SplitPiecesHaveNoSeparator(s: string, sep: char)
    ensures forall p :: p in Split(s, sep) ==> sep !in p
  {
    if s != [] {
      SplitPiecesHaveNoSeparator(s[1..], sep);
    }
  }

  /** Joining the pieces back gives the original string. */
  lemma {:induction false} JoinSplit(s: string, sep: char)
    ensures Join(Split(s, sep), sep) == s
  {
    if s != [] {
      var rest := Split(s[1..], sep);
      JoinSplit(s[1..], sep);
      if s[0] == sep {
        assert Split(s, sep)[1..] == rest;
      } else {
        var parts := Split(s, sep);
        assert parts[1..] == rest[1..];
        if |rest| > 1 {
          assert rest[1..] == rest[1..];
        }
      }
    }
  }

  lemma {:induction false} SplitNoSeparator(a: string, sep: char)
    requires sep !in a
    ensures Split(a, sep) == [a]
  {
    if a != [] {
      assert sep !in a[1..] by {
        forall c | c in a[1..] ensures c != sep {
          assert c in a;
        }
      }
      SplitNoSeparator(a[1..], sep);
      assert [a[0]] + a[1..] == a;
    }
  }

  /** Two separator-free pieces joined by the separator split back apart. */
  lemma SplitTwo(a: string, b: string, sep: char)
    requires sep !in a && sep !in b
    ensures Split(a + [sep] + b, sep) == [a, b]
  {
    assert a + [sep] + b == a + ([sep] + b);
    SplitAfterPiece(a, [sep] + b, sep);
    assert ([sep] + b)[1..] == b;
    SplitNoSeparator(b, sep);
    assert a + [] == a;
  }

  lemma {:induction false} SplitAfterPiece(a: string, tail: string, sep: char)
    requires sep !in a
    ensures Split(a + tail, sep) == [a + Split(tail, sep)[0]] + Split(tail, sep)[1..]
  {
    if a != [] {
      assert (a + tail)[1..] == a[1..] + tail;
      assert sep !in a[1..] by {
        forall c | c in a[1..] ensures c != sep {
          assert c in a;
        }
      }
      SplitAfterPiece(a[1..], tail, sep);
      assert (a + tail)[0] == a[0] && a[0] != sep;
      assert [a[0]] + (a[1..] + Split(tail, sep)[0]) == a + Split(tail, sep)[0];
    } else {
      var parts := Split(tail, sep);
      assert a + tail == tail;
      assert a + parts[0] == parts[0];
      assert [parts[0]] + parts[1..] == parts;
    }
  }

  /** Splitting a join of separator-free pieces gives the pieces back. */
  lemma {:induction false} SplitJoin(parts: seq<string>, sep: char)
    requires |parts| >= 1
    requires forall p :: p in parts ==> sep !in p
    ensures Split(Join(parts, sep), sep) == parts
  {
    if |parts| == 1 {
      SplitNoSeparator(parts[0], sep);
    } else {
      var tail := Join(parts[1..], sep);
      assert forall p :: p in parts[1..] ==> p in parts;
      SplitJoin(parts[1..], sep);
      assert parts[0] in parts;
      assert Join(parts, sep) == parts[0] + ([sep] + tail);
      SplitAfterPiece(parts[0], [sep] + tail, sep);
      var marked := [sep] + tail;
      assert marked[0] == sep && marked[1..] == tail;
      assert Split(marked, sep) == [[]] + Split(tail, sep);
      assert Split(marked, sep)[0] == [] && Split(marked, sep)[1..] == parts[1..];
      assert parts[0] + [] == parts[0];
      assert [parts[0]] + parts[1..] == parts;
    }
  }

  // ---------------------------------------------------------------------
  // Number.parseInt

  /** `parseInt(s)` (the radix left out) or `parseInt(s, 10)`. */
  datatype Radix = DefaultRadix | Decimal

  /** The value of `c` as a digit of `base` (10 or 16), if it is one. */
  function DigitIn(c: char, base: nat): Option<nat> {
    if '0' <= c <= '9' && (c as int) - ('0' as int) < base then Some((c as int) - ('0' as int))
    else if base == 16 && 'a' <= c <= 'f' then Some((c as int) - ('a' as int) + 10)
    else if base == 16 && 'A' <= c <= 'F' then Some((c as int) - ('A' as int) + 10)
    else None
  }

  predicate AllDigitsIn(s: string, base: nat) {
    forall i :: 0 <= i < |s| ==> DigitIn(s[i], base).Some?
  }

  /** The longest prefix of `s` made of digits of `base`. */
  function LeadingDigits(s: string, base: nat): (r: string)
    ensures |r| <= |s| && r == s[..|r|] && AllDigitsIn(r, base)
    ensures |r| == |s| || DigitIn(s[|r|], base).None?
  {
    if s != [] && DigitIn(s[0], base).Some? then [s[0]] + LeadingDigits(s[1..], base) else []
  }

  lemma {:induction false} LeadingDigitsOfDigits(s: string, base: nat)
    requires AllDigitsIn(s, base)
    ensures LeadingDigits(s, base) == s
  {
    if s != [] {
      LeadingDigitsOfDigits(s[1..], base);
    }
  }

  /** The number that a string of digits of `base` denotes. */
  function DigitsValue(s: string, base: nat): nat
    requires AllDigitsIn(s, base)
  {
    if s == [] then 0
    else DigitsValue(s[..|s| - 1], base) * base + DigitIn(s[|s| - 1], base).value
  }

  /** The text after an optional leading sign. */
  function Unsigned(t: string): string {
    if |t| > 0 && (t[0] == '-' || t[0] == '+') then t[1..] else t
  }

  predicate HexPrefixed(body: string) {
    |body| >= 2 && body[0] == '0' && (body[1] == 'x' || body[1] == 'X')
  }

  /** The longest run of digits of `base` at the start of `text`, negated when
      `negative`; `None` (NaN) when there is none. */
  function ParseDigits(text: string, base: nat, negative: bool): Option<int> {
    var digits := LeadingDigits(text, base);
    if digits == [] then None
    else
      var n: int := DigitsValue(digits, base);
      Some(if negative then -n else n)
  }

  /** `Number.parseInt` on an integral result: skip leading whitespace, take an
      optional sign, with the radix left out accept a `0x`/`0X` prefix and read
      hexadecimal, then read the longest run of digits. `None` is `NaN`. */
  function ParseInt(s: string, radix: Radix): Option<int> {
    var t := TrimStart(s);
    var body := Unsigned(t);
    var hex := radix == DefaultRadix && HexPrefixed(body);
    ParseDigits(if hex then body[2..] else body, if hex then 16 else 10, |t| > 0 && t[0] == '-')
  }

  // ---------------------------------------------------------------------
  // Decimal rendering

  function DigitChar(d: nat): (c: char)
    requires d < 10
    ensures IsDigit(c) && DigitIn(c, 10) == Some(d)
  {
    (('0' as int) + d) as char
  }

  /** The decimal digits of `n`, without leading zeros. */
  function DecimalString(n: nat): string
    decreases n
  {
    if n < 10 then [DigitChar(n)] else DecimalString(n / 10) + [DigitChar(n % 10)]
  }

  /** How a number is written into a template string. */
  function IntToString(i: int): string {
    if i < 0 then "-" + DecimalString(-i) else DecimalString(i)
  }

  lemma {:induction false} DecimalStringShape(n: nat)
    ensures |DecimalString(n)| >= 1 && AllDigitsIn(DecimalString(n), 10) && AllDigits(DecimalString(n))
    ensures DecimalString(n)[0] == '0' ==> n == 0 && |DecimalString(n)| == 1
    ensures DigitsValue(DecimalString(n), 10) == n
    decreases n
  {
    if n >= 10 {
      DecimalStringShape(n / 10);
      var s := DecimalString(n);
      assert s[..|s| - 1] == DecimalString(n / 10);
    }
  }

  /** A digit string without a redundant leading zero parses to its value,
      with either radix. */
  lemma ParseDigitString(s: string, radix: Radix)
    requires |s| >= 1 && AllDigitsIn(s, 10) && AllDigits(s)
    requires s[0] == '0' ==> |s| == 1
    ensures ParseInt(s, radix) == Some(DigitsValue(s, 10))
  {
    WhitespaceIsNotDigit(s[0]);
    assert TrimStart(s) == s;
    assert Unsigned(s) == s && !HexPrefixed(s);
    LeadingDigitsOfDigits(s, 10);
  }

  /** Reading back the decimal rendering of a natural number gives the number,
      with either radix. */
  lemma ParseDecimalString(n: nat, radix: Radix)
    ensures ParseInt(DecimalString(n), radix) == Some(n)
  {
    DecimalStringShape(n);
    ParseDigitString(DecimalString(n), radix);
  }

  /** The two radix forms agree unless the unsigned text starts with `0x`/`0X`. */
  lemma ParseIntRadixAgree(s: string)
    requires !HexPrefixed(Unsigned(TrimStart(s)))
    ensures ParseInt(s, DefaultRadix) == ParseInt(s, Decimal)
  {
  }
}
