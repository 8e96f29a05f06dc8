/**
 * The JavaScript built-ins the wallpaper engine leans on: `startsWith`,
 * `substring`, `slice(0, n)`, `split` on a one-character separator,
 * `split(p).join(r)`, `replace` with a string pattern, `trim`, `Number.parseInt`
 * without a radix (a `0x` prefix reads hexadecimal) and number-to-string
 * conversion follow the ECMAScript library functions; `toLowerCase` maps the
 * ASCII letters only.
 */
module Js {

  datatype Option<+T> = None | Some(value: T)

  /** A template literal renders a missing value as the text "undefined". */
  function Text(o: Option<string>): string {
    match o
    case Some(s) => s
    case None => "undefined"
  }

  predicate StartsWith(s: string, prefix: string) {
    |prefix| <= |s| && s[..|prefix|] == prefix
  }

  predicate EndsWith(s: string, suffix: string) {
    |suffix| <= |s| && s[|s| - |suffix|..] == suffix
  }

  function Clamp(i: int, n: nat): (r: nat)
    ensures r <= n
    ensures 0 <= i <= n ==> r == i
  {
    if i < 0 then 0 else if i > n then n else i
  }

  /** `s.substring(start, end)`: both bounds are clamped to [0, |s|] and swapped when reversed. */
  function Substring(s: string, start: int, end: int): (r: string)
    ensures |r| <= |s|
    ensures 0 <= start <= end <= |s| ==> r == s[start..end]
  {
    var a, b := Clamp(start, |s|), Clamp(end, |s|);
    if a <= b then s[a..b] else s[b..a]
  }

  /** `s.substring(start)`. */
  function SubstringFrom(s: string, start: int): (r: string)
    ensures 0 <= start <= |s| ==> r == s[start..]
    ensures start > |s| ==> r == ""
  {
    Substring(s, start, |s|)
  }

  /** `a.slice(0, n)`: a negative `n` counts back from the end of `a`. */
  function SliceTo<T>(a: seq<T>, n: int): (r: seq<T>)
    ensures |r| <= |a| && r == a[..|r|]
    ensures n >= 0 ==> |r| == (if n < |a| then n else |a|)
    ensures n < 0 ==> |r| == (if |a| + n > 0 then |a| + n else 0)
  {
    var end := if n >= 0 then (if n < |a| then n else |a|)
               else (if |a| + n > 0 then |a| + n else 0);
    a[..end]
  }

  function Min(a: int, b: int): int { if a < b then a else b }

  // ---------------------------------------------------------------------------
  // Case (ASCII only) and white space

  function LowerChar(c: char): char {
    if 'A' <= c <= 'Z' then (c as int + 32) as char else c
  }

  /** `s.toLowerCase()` on the ASCII letters. */
  function ToLower(s: string): (r: string)
    ensures |r| == |s|
    ensures forall i :: 0 <= i < |s| ==> r[i] == LowerChar(s[i])
  {
    seq(|s|, i requires 0 <= i < |s| => LowerChar(s[i]))
  }

  /**
   * The white space and line terminators `trim` and `parseInt` skip: tab, line
   * feed, vertical tab, form feed, carriage return, the space separators (space,
   * no-break space, ogham mark, U+2000 to U+200A, narrow no-break space, medium
   * mathematical space, ideographic space), the line and paragraph separators and
   * the byte order mark.
   */
  predicate IsSpace(c: char) {
    || '\t' <= c <= '\r'
    || c == ' ' || c == '\U{A0}' || c == '\U{1680}' || '\U{2000}' <= c <= '\U{200A}'
    || c == '\U{2028}' || c == '\U{2029}' || c == '\U{202F}' || c == '\U{205F}'
    || c == '\U{3000}' || c == '\U{FEFF}'
  }

  function TrimStart(s: string): (r: string)
    ensures |r| <= |s| && r == s[|s| - |r|..]
    ensures r != [] ==> !IsSpace(r[0])
    ensures forall i :: 0 <= i < |s| - |r| ==> IsSpace(s[i])
  {
    if s != [] && IsSpace(s[0]) then TrimStart(s[1..]) else s
  }

  function TrimEnd(s: string): (r: string)
    ensures |r| <= |s| && r == s[..|r|]
    ensures r != [] ==> !IsSpace(r[|r| - 1])
    ensures forall i :: |r| <= i < |s| ==> IsSpace(s[i])
  {
    if s != [] && IsSpace(s[|s| - 1]) then TrimEnd(s[..|s| - 1]) else s
  }

  /** `s.trim()`. */
  function Trim(s: string): (r: string)
    ensures r != [] ==> !IsSpace(r[0]) && !IsSpace(r[|r| - 1])
  {
    TrimEnd(TrimStart(s))
  }

  // ---------------------------------------------------------------------------
  // split / join

  /** `s.split(sep)` for a one-character separator: the pieces between separators, empty ones included. */
  function Split(s: string, sep: char): (parts: seq<string>)
    ensures |parts| >= 1
    ensures forall i :: 0 <= i < |parts| ==> sep !in parts[i]
  {
    if s == [] then [""]
    else
      var rest := Split(s[1..], sep);
      if s[0] == sep then [""] + rest else [[s[0]] + rest[0]] + rest[1..]
  }

  /** `parts.join(sep)`. */
  function Join(parts: seq<string>, sep: string): string {
    if parts == [] then ""
    else if |parts| == 1 then parts[0]
    else parts[0] + sep + Join(parts[1..], sep)
  }

  /** Joining the pieces of a split with the same separator gives back the string. */
  lemma {:induction false} JoinSplit(s: string, sep: char)
    ensures Join(Split(s, sep), [sep]) == s
  {
    if s != [] {
      var rest := Split(s[1..], sep);
      JoinSplit(s[1..], sep);
      if s[0] == sep {
        assert Split(s, sep) == [""] + rest;
        assert ([""] + rest)[1..] == rest;
        assert Join([""] + rest, [sep]) == "" + [sep] + Join(rest, [sep]);
        assert s == [s[0]] + s[1..];
      } else {
        var parts := [[s[0]] + rest[0]] + rest[1..];
        assert Split(s, sep) == parts;
        if |rest| == 1 {
          assert Join(rest, [sep]) == rest[0];
          assert s == [s[0]] + s[1..];
        } else {
          assert parts[1..] == rest[1..];
          assert Join(parts, [sep]) == [s[0]] + rest[0] + [sep] + Join(rest[1..], [sep]);
          assert Join(rest, [sep]) == rest[0] + [sep] + Join(rest[1..], [sep]);
          assert s == [s[0]] + s[1..];
        }
      }
    }
  }

  /** `parts.filter(s => s.length > 0)`. */
  function NonEmpty(parts: seq<string>): (r: seq<string>)
    ensures |r| <= |parts|
    ensures forall i :: 0 <= i < |r| ==> r[i] != "" && r[i] in parts
  {
    if parts == [] then []
    else if parts[0] == "" then NonEmpty(parts[1..])
    else [parts[0]] + NonEmpty(parts[1..])
  }

  /** `s.split(pattern).join(replacement)`: every non-overlapping occurrence, scanned left to right, is replaced. */
  function ReplaceAll(s: string, pattern: string, replacement: string): string
    requires pattern != []
  {
    if s == [] then []
    else if StartsWith(s, pattern) then replacement + ReplaceAll(s[|pattern|..], pattern, replacement)
    else [s[0]] + ReplaceAll(s[1..], pattern, replacement)
  }

  /** `s.replace(pattern, replacement)` with a string pattern: only the first occurrence is replaced. */
  function ReplaceFirst(s: string, pattern: string, replacement: string): string
    requires pattern != []
  {
    if s == [] then []
    else if StartsWith(s, pattern) then replacement + s[|pattern|..]
    else [s[0]] + ReplaceFirst(s[1..], pattern, replacement)
  }

  const Amp := "&amp;"

  /** HTML-escaping of ampersands, the encoding that `&amp;` unescaping undoes. */
  function EscapeAmp(s: string): (r: string)
    ensures |r| >= |s|
  {
    if s == [] then []
    else if s[0] == '&' then Amp + EscapeAmp(s[1..])
    else [s[0]] + EscapeAmp(s[1..])
  }

  /** Replacing every `&amp;` by `&` undoes the escaping of every ampersand. */
  lemma {:induction false} UnescapeEscaped(s: string)
    ensures ReplaceAll(EscapeAmp(s), Amp, "&") == s
  {
    if s != [] {
      UnescapeEscaped(s[1..]);
      var e := EscapeAmp(s[1..]);
      if s[0] == '&' {
        assert EscapeAmp(s) == Amp + e;
        assert StartsWith(Amp + e, Amp) by { assert (Amp + e)[..|Amp|] == Amp; }
        assert (Amp + e)[|Amp|..] == e;
        assert ReplaceAll(Amp + e, Amp, "&") == "&" + ReplaceAll(e, Amp, "&");
      } else {
        assert EscapeAmp(s) == [s[0]] + e;
        assert !StartsWith([s[0]] + e, Amp) by { assert ([s[0]] + e)[0] != Amp[0]; }
        assert ([s[0]] + e)[1..] == e;
      }
      assert s == [s[0]] + s[1..];
    }
  }

  /** A string without the pattern is left as it is by either replacement. */
  lemma {:induction false} ReplaceWithoutOccurrence(s: string, pattern: string, replacement: string)
    requires pattern != []
    requires forall i :: 0 <= i <= |s| ==> !StartsWith(s[i..], pattern)
    ensures ReplaceAll(s, pattern, replacement) == s
    ensures ReplaceFirst(s, pattern, replacement) == s
  {
    if s != [] {
      assert !StartsWith(s[0..], pattern);
      assert s[0..] == s;
      forall i | 0 <= i <= |s[1..]| ensures !StartsWith(s[1..][i..], pattern) {
        assert s[1..][i..] == s[i + 1..];
      }
      ReplaceWithoutOccurrence(s[1..], pattern, replacement);
      assert s == [s[0]] + s[1..];
    }
  }

  // ---------------------------------------------------------------------------
  // Numbers and their decimal text

  predicate IsDigit(c: char) { '0' <= c <= '9' }

  function DigitChar(d: nat): (c: char)
    requires d < 10
    ensures IsDigit(c) && c as int - '0' as int == d
  {
    ('0' as int + d) as char
  }

  /** The decimal text of a natural number, without leading zeros. */
  function NatToString(n: nat): (r: string)
    ensures |r| >= 1
    ensures forall i :: 0 <= i < |r| ==> IsDigit(r[i])
    ensures n < 10 <==> |r| == 1
    ensures 10 <= n < 100 ==> |r| == 2
  {
    if n < 10 then [DigitChar(n)] else NatToString(n / 10) + [DigitChar(n % 10)]
  }

  /** The number a template literal shows for an integer. */
  function IntToString(i: int): (r: string)
    ensures |r| >= 1
    ensures i >= 0 ==> r == NatToString(i)
    ensures i < 0 ==> r == "-" + NatToString(-i)
  {
    if i < 0 then "-" + NatToString(-i) else NatToString(i)
  }

  /** The value of a string of decimal digits. */
  function DecimalValue(s: string): nat
    requires forall i :: 0 <= i < |s| ==> IsDigit(s[i])
  {
    if s == [] then 0
    else
      assert IsDigit(s[|s| - 1]);
      DecimalValue(s[..|s| - 1]) * 10 + (s[|s| - 1] as int - '0' as int) as nat
  }

  lemma {:induction false} DecimalOfNatToString(n: nat)
    ensures DecimalValue(NatToString(n)) == n
  {
    if n >= 10 {
      var r := NatToString(n);
      DecimalOfNatToString(n / 10);
      assert r[..|r| - 1] == NatToString(n / 10);
    }
  }

  /** Length of the longest prefix of `s` made of decimal digits. */
  function DigitRun(s: string): (n: nat)
    ensures n <= |s|
    ensures forall i :: 0 <= i < n ==> IsDigit(s[i])
    ensures n < |s| ==> !IsDigit(s[n])
  {
    if s != [] && IsDigit(s[0]) then 1 + DigitRun(s[1..]) else 0
  }

  /** A hexadecimal digit in either case. */
  predicate IsHexDigit(c: char) { IsDigit(c) || 'a' <= c <= 'f' || 'A' <= c <= 'F' }

  function HexDigitValue(c: char): (d: nat)
    requires IsHexDigit(c)
    ensures d < 16
  {
    if IsDigit(c) then (c as int - '0' as int) as nat
    else if 'a' <= c <= 'f' then (c as int - 'a' as int + 10) as nat
    else (c as int - 'A' as int + 10) as nat
  }

  /** The value of a string of hexadecimal digits. */
  function HexValue(s: string): nat
    requires forall i :: 0 <= i < |s| ==> IsHexDigit(s[i])
  {
    if s == [] then 0
    else
      assert IsHexDigit(s[|s| - 1]);
      HexValue(s[..|s| - 1]) * 16 + HexDigitValue(s[|s| - 1])
  }

  /** Length of the longest prefix of `s` made of hexadecimal digits. */
  function HexRun(s: string): (n: nat)
    ensures n <= |s|
    ensures forall i :: 0 <= i < n ==> IsHexDigit(s[i])
    ensures n < |s| ==> !IsHexDigit(s[n])
  {
    if s != [] && IsHexDigit(s[0]) then 1 + HexRun(s[1..]) else 0
  }

  /** `0x` or `0X`: without a radix, `parseInt` then reads base 16. */
  predicate HasHexPrefix(u: string) {
    |u| >= 2 && u[0] == '0' && (u[1] == 'x' || u[1] == 'X')
  }

  /**
   * `Number.parseInt(s)` without a radix: leading white space, an optional sign,
   * then either `0x`/`0X` and the longest run of hexadecimal digits, or the longest
   * run of decimal digits; NaN (here None) when that run is empty.
   */
  function ParseInt(s: string): Option<int> {
    var t := TrimStart(s);
    var negative := t != [] && t[0] == '-';
    var u := if t != [] && (t[0] == '-' || t[0] == '+') then t[1..] else t;
    var v: Option<nat> :=
      if HasHexPrefix(u) then
        var n := HexRun(u[2..]);
        if n == 0 then None else Some(HexValue(u[2..][..n]))
      else
        var n := DigitRun(u);
        if n == 0 then None else Some(DecimalValue(u[..n]));
    match v
    case None => None
    case Some(x) => var r: int := if negative then -(x as int) else x as int; Some(r)
  }

  /**
   * A width such as "640w" parses to its leading number: parsing reads back what
   * NatToString wrote, unless the number is 0 and an `x` follows it.
   */
  lemma ParseIntReadsNumber(n: nat, suffix: string)
    requires suffix == [] || !IsDigit(suffix[0])
    requires n == 0 ==> suffix == [] || (suffix[0] != 'x' && suffix[0] != 'X')
    ensures ParseInt(NatToString(n) + suffix) == Some(n)
  {
    var d := NatToString(n);
    var s := d + suffix;
    assert s[0] == d[0];
    if n >= 10 {
      assert s[1] == d[1];
    } else if n > 0 {
      assert d[0] != '0';
    } else {
      assert |d| == 1 && (suffix == [] || s[1] == suffix[0]);
    }
    DigitRunOfDigits(d, suffix);
    ParseIntOfDigits(s);
    assert s[..|d|] == d;
    DecimalOfNatToString(n);
  }

  /** A string starting with a decimal digit, but not with `0x`, parses to the value of its leading digit run. */
  lemma ParseIntOfDigits(s: string)
    requires s != [] && IsDigit(s[0]) && !HasHexPrefix(s)
    ensures ParseInt(s) == Some(DecimalValue(s[..DigitRun(s)]) as int)
  {
    assert !IsSpace(s[0]) && s[0] != '-' && s[0] != '+';
    assert TrimStart(s) == s;
  }

  /** A string opening with `0x` or `0X` parses as the hexadecimal digit run after the prefix. */
  lemma ParseIntOfHex(s: string)
    requires HasHexPrefix(s)
    ensures var n := HexRun(s[2..]); ParseInt(s) == if n == 0 then None else Some(HexValue(s[2..][..n]) as int)
  {
    assert !IsSpace(s[0]) && s[0] != '-' && s[0] != '+';
    assert TrimStart(s) == s;
  }

  /** `parseInt("0x10")` is 16, and `parseInt("0x")` is NaN: the prefix needs a digit after it. */
  lemma ParseIntReadsHexPrefix()
    ensures ParseInt("0x10") == Some(16)
    ensures ParseInt("0x") == None
  {
    var s := "0x10";
    ParseIntOfHex(s);
    assert s[2..] == "10";
    assert HexRun("10"[1..]) == 1 by { assert "10"[1..] == "0"; assert "0"[1..] == []; }
    assert "10"[..2] == "10" && "10"[..1] == "1" && "1"[..0] == [];
    assert HexValue("1") == 1;
    assert HexValue("10") == 16;
    ParseIntOfHex("0x");
    assert "0x"[2..] == [];
  }


  lemma {:induction false} DigitRunOfDigits(d: string, suffix: string)
    requires forall i :: 0 <= i < |d| ==> IsDigit(d[i])
    requires suffix == [] || !IsDigit(suffix[0])
    ensures DigitRun(d + suffix) == |d|
  {
    if d != [] {
      assert (d + suffix)[1..] == d[1..] + suffix;
      DigitRunOfDigits(d[1..], suffix);
    } else {
      assert d + suffix == suffix;
    }
  }
}
