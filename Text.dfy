/**
 * String helpers that both halves of the system rely on: Go's strings and
 * strconv packages and the JavaScript string built-ins used by the web client.
 * Each is defined once here and used by the modules that model the callers.
 */
module Text {
  import opened Wrappers

  /** The sets of characters the trimming built-ins remove. */
  datatype CharClass = Slash | GoSpace | JsSpace

  predicate InClass(k: CharClass, c: char)
  {
    match k
    case Slash => c == '/'
    case GoSpace => GoIsSpace(c)
    case JsSpace => JsIsSpace(c)
  }

  /** `strings.TrimRight`-style removal of trailing characters of class `k`. */
  function TrimEnd(s: string, k: CharClass): (r: string)
    ensures r <= s
    decreases |s|
  {
    if |s| > 0 && InClass(k, s[|s| - 1]) then TrimEnd(s[..|s| - 1], k) else s
  }

  /** TrimEnd stops at a character outside the class, and everything it removed is in it. */
  lemma {:induction false} TrimEndRemoves(s: string, k: CharClass)
    ensures var r := TrimEnd(s, k);
      && (r == [] || !InClass(k, r[|r| - 1]))
      && forall i :: |r| <= i < |s| ==> InClass(k, s[i])
    decreases |s|
  {
    if |s| > 0 && InClass(k, s[|s| - 1]) {
      TrimEndRemoves(s[..|s| - 1], k);
    }
  }

  /** Removal of leading characters of class `k`. */
  function TrimStart(s: string, k: CharClass): (r: string)
    ensures |r| <= |s| && r == s[|s| - |r|..]
    decreases |s|
  {
    if |s| > 0 && InClass(k, s[0]) then TrimStart(s[1..], k) else s
  }

  /** TrimStart stops at a character outside the class, and everything it removed is in it. */
  lemma {:induction false} TrimStartRemoves(s: string, k: CharClass)
    ensures var r := TrimStart(s, k);
      && (r == [] || !InClass(k, r[0]))
      && forall i :: 0 <= i < |s| - |r| ==> InClass(k, s[i])
    decreases |s|
  {
    if |s| > 0 && InClass(k, s[0]) {
      TrimStartRemoves(s[1..], k);
      assert forall i :: 1 <= i < |s| ==> s[i] == s[1..][i - 1];
    }
  }

  /**
   * `strings.TrimRight(s, "/")` in Go and `s.replace(/\/+$/, '')` in
   * JavaScript: every trailing slash is removed.
   */
  function TrimTrailingSlashes(s: string): string
  {
    TrimEnd(s, Slash)
  }

  /** Go's `unicode.IsSpace`, used by `strings.TrimSpace`. */
  predicate GoIsSpace(c: char)
  {
    var n := c as int;
    (0x09 <= n <= 0x0D) || n == 0x20 || n == 0x85 || n == 0xA0 || n == 0x1680
    || (0x2000 <= n <= 0x200A) || n == 0x2028 || n == 0x2029 || n == 0x202F
    || n == 0x205F || n == 0x3000
  }

  /** The JavaScript `\s` class and the characters `String.prototype.trim` removes. */
  predicate JsIsSpace(c: char)
  {
    var n := c as int;
    (0x09 <= n <= 0x0D) || n == 0x20 || n == 0xA0 || n == 0x1680
    || (0x2000 <= n <= 0x200A) || n == 0x2028 || n == 0x2029 || n == 0x202F
    || n == 0x205F || n == 0x3000 || n == 0xFEFF
  }

  /** Trimming both ends never lengthens, and leaves no character of the class at either end. */
  lemma TrimBothEnds(s: string, k: CharClass)
    ensures var t := TrimEnd(TrimStart(s, k), k);
      && |t| <= |s|
      && (t != "" ==> !InClass(k, t[0]) && !InClass(k, t[|t| - 1]))
  {
    var u := TrimStart(s, k);
    TrimStartRemoves(s, k);
    TrimEndRemoves(u, k);
    var t := TrimEnd(u, k);
    if t != "" {
      assert t[0] == u[0];
    }
  }

  /** `strings.TrimSpace`: a non-empty result neither starts nor ends with white space. */
  function GoTrimSpace(s: string): (t: string)
    ensures |t| <= |s|
    ensures t != "" ==> !GoIsSpace(t[0]) && !GoIsSpace(t[|t| - 1])
  {
    TrimBothEnds(s, GoSpace);
    TrimEnd(TrimStart(s, GoSpace), GoSpace)
  }

  /** `strings.TrimSpace` only removes characters: one absent from the input stays absent. */
  lemma GoTrimSpaceSubstring(s: string, c: char)
    requires c !in s
    ensures c !in GoTrimSpace(s)
  {
    TrimKeepsAbsent(s, GoSpace, c);
  }

  /** Trimming both ends only removes characters. */
  lemma TrimKeepsAbsent(s: string, k: CharClass, c: char)
    requires c !in s
    ensures c !in TrimEnd(TrimStart(s, k), k)
  {
    var u := TrimStart(s, k);
    var t := TrimEnd(u, k);
    var off := |s| - |u|;
    assert t <= u && u == s[off..];
    forall i | 0 <= i < |t| ensures t[i] != c {
      assert t[i] == u[i] == s[off + i];
      assert s[off + i] in s;
    }
  }

  /** `String.prototype.trim`: a non-empty result neither starts nor ends with white space. */
  function JsTrim(s: string): (t: string)
    ensures |t| <= |s|
    ensures t != "" ==> !JsIsSpace(t[0]) && !JsIsSpace(t[|t| - 1])
  {
    TrimBothEnds(s, JsSpace);
    TrimEnd(TrimStart(s, JsSpace), JsSpace)
  }

  /** A JavaScript string is falsy after `trim()` exactly when it is all white space. */
  lemma JsTrimEmptyIffBlank(s: string)
    ensures JsTrim(s) == [] <==> forall i :: 0 <= i < |s| ==> JsIsSpace(s[i])
  {
    var t := TrimStart(s, JsSpace);
    TrimStartRemoves(s, JsSpace);
    TrimEndRemoves(t, JsSpace);
    if JsTrim(s) == [] {
      assert t == [];
    } else {
      assert t != [] && !JsIsSpace(t[0]);
      assert s[|s| - |t|] == t[0];
    }
  }

  /** `strings.Split(s, sep)` in Go and `s.split(sep)` in JavaScript for a one-character separator. */
  function Split(s: string, sep: char): (parts: seq<string>)
    ensures |parts| >= 1
    ensures forall i :: 0 <= i < |parts| ==> sep !in parts[i]
    decreases |s|
  {
    if |s| == 0 then [""]
    else
      var rest := Split(s[1..], sep);
      if s[0] == sep then [""] + rest else [[s[0]] + rest[0]] + rest[1..]
  }

  /** The inverse of Split: the parts glued back with the separator. */
  function Join(parts: seq<string>, sep: char): string
    requires |parts| >= 1
    decreases |parts|
  {
    if |parts| == 1 then parts[0] else parts[0] + [sep] + Join(parts[1..], sep)
  }

  /** Splitting then joining gives back the input, and no part contains the separator. */
  lemma {:induction false} SplitJoin(s: string, sep: char)
    ensures Join(Split(s, sep), sep) == s
    ensures forall p :: p in Split(s, sep) ==> sep !in p
    decreases |s|
  {
    if |s| > 0 {
      var rest := Split(s[1..], sep);
      SplitJoin(s[1..], sep);
      if s[0] == sep {
        assert Split(s, sep) == [""] + rest;
        assert Split(s, sep)[1..] == rest;
      } else {
        var parts := Split(s, sep);
        assert parts == [[s[0]] + rest[0]] + rest[1..];
        if |rest| == 1 {
          assert parts == [[s[0]] + rest[0]];
        } else {
          assert parts[1..] == rest[1..];
          assert Join(rest, sep) == rest[0] + [sep] + Join(rest[1..], sep);
        }
        forall p | p in parts ensures sep !in p {
          if p != [s[0]] + rest[0] {
            assert p in rest;
          } else {
            assert rest[0] in rest;
          }
        }
      }
    }
  }

  /** A string without the separator splits into itself alone. */
  lemma {:induction false} SplitFree(s: string, sep: char)
    requires sep !in s
    ensures Split(s, sep) == [s]
    decreases |s|
  {
    if |s| > 0 {
      assert s[0] in s && sep !in s[1..];
      SplitFree(s[1..], sep);
      assert [s[0]] + s[1..] == s;
    }
  }

  /** Splitting at the first separator: the part before it, then the split of the rest. */
  lemma {:induction false} SplitAtSeparator(a: string, b: string, sep: char)
    requires sep !in a
    ensures Split(a + [sep] + b, sep) == [a] + Split(b, sep)
    decreases |a|
  {
    var s := a + [sep] + b;
    if |a| == 0 {
      assert s[1..] == b;
    } else {
      assert s[1..] == a[1..] + [sep] + b;
      assert sep !in a[1..];
      SplitAtSeparator(a[1..], b, sep);
      assert [a[0]] + a[1..] == a;
    }
  }

  /** Joining separator-free parts then splitting gives back the parts. */
  lemma {:induction false} JoinSplit(parts: seq<string>, sep: char)
    requires |parts| >= 1
    requires forall p :: p in parts ==> sep !in p
    ensures Split(Join(parts, sep), sep) == parts
    decreases |parts|
  {
    assert parts[0] in parts;
    if |parts| == 1 {
      SplitFree(parts[0], sep);
    } else {
      assert forall p :: p in parts[1..] ==> p in parts;
      JoinSplit(parts[1..], sep);
      SplitAtSeparator(parts[0], Join(parts[1..], sep), sep);
      assert [parts[0]] + parts[1..] == parts;
    }
  }

  /** The number of characters of `s` that equal `c`. */
  function Count(s: string, c: char): nat
  {
    if |s| == 0 then 0 else (if s[0] == c then 1 else 0) + Count(s[1..], c)
  }

  /** A string with k separators splits into exactly k + 1 parts. */
  lemma {:induction false} SplitCount(s: string, sep: char)
    ensures |Split(s, sep)| == Count(s, sep) + 1
    decreases |s|
  {
    if |s| > 0 {
      SplitCount(s[1..], sep);
    }
  }

  // ---------------------------------------------------------------------
  // Decimal integers: Go's fmt "%d" / JavaScript String(n) and the parsers
  // strconv.Atoi (Go) and parseInt (JavaScript).
  // ---------------------------------------------------------------------

  const MinInt64: int := -0x8000_0000_0000_0000
  const MaxInt64: int := 0x7FFF_FFFF_FFFF_FFFF

  function DigitChar(d: nat): (c: char)
    requires d < 10
  {
    ['0', '1', '2', '3', '4', '5', '6', '7', '8', '9'][d]
  }

  /** The value of `c` as a digit in the given radix (10 or 16), if it is one. */
  function DigitValue(c: char, radix: nat): Option<nat>
  {
    if '0' <= c <= '9' && (c as int) - ('0' as int) < radix then Some((c as int) - ('0' as int))
    else if radix == 16 && 'a' <= c <= 'f' then Some((c as int) - ('a' as int) + 10)
    else if radix == 16 && 'A' <= c <= 'F' then Some((c as int) - ('A' as int) + 10)
    else None
  }

  predicate AllDigits(s: string, radix: nat)
  {
    forall i :: 0 <= i < |s| ==> DigitValue(s[i], radix).Some?
  }

  /** The number a string of digits denotes, most significant digit first. */
  function DigitsValue(s: string, radix: nat): nat
    requires AllDigits(s, radix)
  {
    if |s| == 0 then 0
    else DigitsValue(s[..|s| - 1], radix) * radix + DigitValue(s[|s| - 1], radix).value
  }

  /** The decimal digits of a natural number, with no leading zero. */
  function NatDigits(n: nat): string
  {
    if n < 10 then [DigitChar(n)] else NatDigits(n / 10) + [DigitChar(n % 10)]
  }

  /** `fmt.Sprintf("%d", n)` and JavaScript `String(n)` for an integer n. */
  function Decimal(n: int): string
  {
    if n < 0 then "-" + NatDigits(-n) else NatDigits(n)
  }

  lemma DigitCharValue(d: nat)
    requires d < 10
    ensures DigitValue(DigitChar(d), 10) == Some(d)
  {
  }

  /** The digits of n are decimal digits, start with a digit, and denote n. */
  lemma {:induction false} NatDigitsValue(n: nat)
    ensures |NatDigits(n)| >= 1
    ensures AllDigits(NatDigits(n), 10)
    ensures DigitsValue(NatDigits(n), 10) == n
    decreases n
  {
    var s := NatDigits(n);
    if n < 10 {
      DigitCharValue(n);
    } else {
      NatDigitsValue(n / 10);
      DigitCharValue(n % 10);
      var p := NatDigits(n / 10);
      assert s == p + [DigitChar(n % 10)];
      assert s[..|s| - 1] == p;
      forall i | 0 <= i < |s| ensures DigitValue(s[i], 10).Some? {
        if i < |p| { assert s[i] == p[i]; }
      }
    }
  }

  /** `strconv.Atoi`: an optional sign, then one or more decimal digits, within int64. */
  function Atoi(s: string): (r: Option<int>)
    ensures r.Some? ==> MinInt64 <= r.value <= MaxInt64
  {
    if |s| == 0 then None
    else
      var body := if s[0] == '+' || s[0] == '-' then s[1..] else s;
      if |body| == 0 || !AllDigits(body, 10) then None
      else
        var v := if s[0] == '-' then -(DigitsValue(body, 10) as int) else DigitsValue(body, 10);
        if MinInt64 <= v <= MaxInt64 then Some(v) else None
  }

  lemma DecimalShape(n: int)
    ensures n < 0 ==> Decimal(n) == "-" + NatDigits(-n)
    ensures n >= 0 ==> Decimal(n) == NatDigits(n)
  {
  }

  lemma AtoiNegative(s: string, m: nat)
    requires s == "-" + NatDigits(m) && m <= -MinInt64
    ensures Atoi(s) == Some(-(m as int))
  {
    NatDigitsValue(m);
    assert s[1..] == NatDigits(m);
  }

  lemma AtoiNatural(s: string, m: nat)
    requires s == NatDigits(m) && m <= MaxInt64
    ensures Atoi(s) == Some(m as int)
  {
    NatDigitsValue(m);
    assert DigitValue(s[0], 10).Some?;
  }

  /** Atoi parses back every int64 that "%d" prints. */
  lemma AtoiDecimal(n: int)
    requires MinInt64 <= n <= MaxInt64
    ensures Atoi(Decimal(n)) == Some(n)
  {
    DecimalShape(n);
    if n < 0 {
      AtoiNegative(Decimal(n), -n);
    } else {
      AtoiNatural(Decimal(n), n);
    }
  }

  /** The longest prefix of `s` made of digits of the radix. */
  function DigitPrefix(s: string, radix: nat): (r: string)
    ensures r <= s && AllDigits(r, radix)
    ensures |r| < |s| ==> DigitValue(s[|r|], radix).None?
  {
    if |s| > 0 && DigitValue(s[0], radix).Some? then
      var rest := DigitPrefix(s[1..], radix);
      [s[0]] + rest
    else []
  }

  /**
   * JavaScript `parseInt(s)` without a radix: leading white space is skipped,
   * an optional sign is read, a `0x`/`0X` prefix selects hexadecimal, and the
   * longest run of digits is converted; no digit at all gives NaN (None).
   */
  function ParseIntJs(s: string): (r: Option<int>)
    ensures (forall i :: 0 <= i < |s| ==> JsIsSpace(s[i])) ==> r.None?
    ensures |s| > 0 && !JsIsSpace(s[0]) && s[0] != '-' && s[0] != '+' && DigitValue(s[0], 10).None? ==> r.None?
  {
    TrimStartRemoves(s, JsSpace);
    ParseSigned(TrimStart(s, JsSpace))
  }

  /** parseInt after the white space: an optional sign, then the magnitude. */
  function ParseSigned(t: string): Option<int>
  {
    var negative := |t| > 0 && t[0] == '-';
    var u := if |t| > 0 && (t[0] == '-' || t[0] == '+') then t[1..] else t;
    match ParseMagnitude(u)
    case None => None
    case Some(m) => Some(if negative then -(m as int) else m)
  }

  /** parseInt's magnitude: `0x`/`0X` selects hexadecimal, then the longest digit run. */
  function ParseMagnitude(u: string): Option<nat>
  {
    var hex := |u| >= 2 && u[0] == '0' && (u[1] == 'x' || u[1] == 'X');
    var radix := if hex then 16 else 10;
    var digits := DigitPrefix(if hex then u[2..] else u, radix);
    if digits == [] then None else Some(DigitsValue(digits, radix))
  }

  lemma DigitPrefixOfDigits(s: string, radix: nat)
    requires AllDigits(s, radix)
    ensures DigitPrefix(s, radix) == s
  {
  }

  lemma TrimStartKeeps(s: string, k: CharClass)
    requires |s| > 0 && !InClass(k, s[0])
    ensures TrimStart(s, k) == s
  {
  }

  /** A decimal numeral never starts with the `0x` prefix. */
  lemma NatDigitsNotHex(n: nat)
    ensures var d := NatDigits(n); !(|d| >= 2 && d[0] == '0' && (d[1] == 'x' || d[1] == 'X'))
  {
    var d := NatDigits(n);
    NatDigitsValue(n);
    if |d| >= 2 {
      assert DigitValue(d[1], 10).Some?;
    }
  }

  /** A non-empty run of decimal digits without a hex prefix parses to its value. */
  lemma ParseMagnitudeOfDigits(d: string)
    requires |d| >= 1 && AllDigits(d, 10)
    requires !(|d| >= 2 && d[0] == '0' && (d[1] == 'x' || d[1] == 'X'))
    ensures ParseMagnitude(d) == Some(DigitsValue(d, 10))
  {
    DigitPrefixOfDigits(d, 10);
  }

  /** The magnitude parser reads back the digits of every natural number. */
  lemma ParseMagnitudeDigits(n: nat)
    ensures ParseMagnitude(NatDigits(n)) == Some(n)
  {
    NatDigitsValue(n);
    NatDigitsNotHex(n);
    ParseMagnitudeOfDigits(NatDigits(n));
  }

  lemma ParseSignedNegative(s: string, m: nat)
    requires s == "-" + NatDigits(m)
    ensures ParseSigned(s) == Some(-(m as int))
  {
    ParseMagnitudeDigits(m);
    assert s[0] == '-' && s[1..] == NatDigits(m);
  }

  lemma ParseSignedNatural(s: string, m: nat)
    requires s == NatDigits(m)
    ensures ParseSigned(s) == Some(m as int)
  {
    ParseMagnitudeDigits(m);
    NatDigitsValue(m);
    assert DigitValue(s[0], 10).Some?;
  }

  /** The signed parser reads back every decimal numeral. */
  lemma ParseSignedDecimal(n: int)
    ensures ParseSigned(Decimal(n)) == Some(n)
  {
    DecimalShape(n);
    if n < 0 {
      ParseSignedNegative(Decimal(n), -n);
    } else {
      ParseSignedNatural(Decimal(n), n);
    }
  }

  /** Text that does not start with white space goes to the signed parser unchanged. */
  lemma ParseIntJsNoSpace(s: string)
    requires |s| > 0 && !JsIsSpace(s[0])
    ensures ParseIntJs(s) == ParseSigned(s)
  {
    TrimStartKeeps(s, JsSpace);
  }

  /** A decimal numeral starts with a sign or a digit. */
  lemma DecimalStart(n: int)
    ensures |Decimal(n)| > 0 && !JsIsSpace(Decimal(n)[0])
  {
    DecimalShape(n);
    var m: nat := if n < 0 then -n else n;
    NatDigitsValue(m);
    assert DigitValue(NatDigits(m)[0], 10).Some?;
  }

  /** parseInt reads back every integer that String(n) writes. */
  lemma ParseIntDecimal(n: int)
    ensures ParseIntJs(Decimal(n)) == Some(n)
  {
    DecimalStart(n);
    ParseIntJsNoSpace(Decimal(n));
    ParseSignedDecimal(n);
  }

  /** JavaScript `.length`: astral characters take two UTF-16 code units. */
  function Utf16Length(s: string): (n: nat)
    ensures |s| <= n <= 2 * |s|
  {
    if |s| == 0 then 0 else (if s[0] as int > 0xFFFF then 2 else 1) + Utf16Length(s[1..])
  }

  /** For text in the Basic Multilingual Plane the UTF-16 length is the character count. */
  lemma {:induction false} Utf16LengthBmp(s: string)
    requires forall i :: 0 <= i < |s| ==> s[i] as int <= 0xFFFF
    ensures Utf16Length(s) == |s|
  {
    if |s| > 0 {
      Utf16LengthBmp(s[1..]);
    }
  }

  /**
   * Upper-casing of one character (ASCII letters; everything else is kept):
   * the result is never a lower-case ASCII letter, a lower-case letter
   * becomes the upper-case letter 32 code points below, and every other
   * character stays.
   */
  function UpperChar(c: char): (u: char)
    ensures !('a' <= u <= 'z')
    ensures 'a' <= c <= 'z' ==> 'A' <= u <= 'Z' && c as int - u as int == 'a' as int - 'A' as int
    ensures !('a' <= c <= 'z') ==> u == c
  {
    if 'a' <= c <= 'z' then (c as int - 32) as char else c
  }

  /** `toUpperCase()`: character by character, keeping the length, and leaving no lower-case ASCII letter. */
  function ToUpper(s: string): (r: string)
    ensures |r| == |s|
    ensures forall i :: 0 <= i < |s| ==> r[i] == UpperChar(s[i])
    ensures forall i :: 0 <= i < |r| ==> !('a' <= r[i] <= 'z')
  {
    seq(|s|, i requires 0 <= i < |s| => UpperChar(s[i]))
  }

  /** Upper-casing twice is upper-casing once, and it commutes with taking a prefix. */
  lemma ToUpperIdempotent(s: string, n: nat)
    ensures ToUpper(ToUpper(s)) == ToUpper(s)
    ensures ToUpper(Prefix(s, n)) == Prefix(ToUpper(s), n)
  {
    var u := ToUpper(s);
    assert forall i :: 0 <= i < |u| ==> UpperChar(u[i]) == u[i];
  }

  /** JavaScript `s.slice(0, n)` for n >= 0. */
  function Prefix<T>(s: seq<T>, n: nat): (r: seq<T>)
    ensures r <= s && |r| == if |s| < n then |s| else n
  {
    if |s| <= n then s else s[..n]
  }
}
