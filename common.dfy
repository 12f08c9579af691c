/** Helpers shared by the screens: optional values, JavaScript truthiness of
    optional strings, `String.prototype.trim`, an ASCII `toLowerCase` and
    `String.prototype.includes`. */
module Common {

  datatype Option<T> = None | Some(value: T)

  /** A JavaScript value that may be `undefined`, seen through `x || fallback`:
      present and non-empty strings are truthy. */
  predicate Truthy(s: Option<string>) {
    s.Some? && s.value != ""
  }

  /** `s || fallback` for an optional string. */
  function OrElse(s: Option<string>, fallback: string): string {
    if Truthy(s) then s.value else fallback
  }

  /** The ASCII white-space characters that `trim` removes (the model does
      not cover the Unicode space separators). */
  predicate IsSpace(c: char) {
    c == ' ' || c == '\t' || c == '\n' || c == '\r' || c == '\U{B}' || c == '\U{C}'
  }

  predicate IsBlank(s: string) {
    forall i :: 0 <= i < |s| ==> IsSpace(s[i])
  }

  /** `s` with its leading white space removed. */
  function TrimStart(s: string): string {
    if s != [] && IsSpace(s[0]) then TrimStart(s[1..]) else s
  }

  /** `s` with its trailing white space removed. */
  function TrimEnd(s: string): string {
    if s != [] && IsSpace(s[|s| - 1]) then TrimEnd(s[..|s| - 1]) else s
  }

  /** `String.prototype.trim` */
  function Trim(s: string): string {
    TrimEnd(TrimStart(s))
  }

  /** Trimming the start leaves a suffix that does not start with a space,
      and everything cut off is space. */
  lemma {:induction false} TrimStartSpec(s: string)
    ensures var r := TrimStart(s);
            |r| <= |s| && r == s[|s| - |r|..] && (r == [] || !IsSpace(r[0])) && IsBlank(s[..|s| - |r|])
  {
    if s != [] && IsSpace(s[0]) {
      TrimStartSpec(s[1..]);
      var r := TrimStart(s);
      assert s[..|s| - |r|] == [s[0]] + s[1..][..|s| - 1 - |r|];
    }
  }

  /** Trimming the end leaves a prefix that does not end with a space, and
      everything cut off is space. */
  lemma {:induction false} TrimEndSpec(s: string)
    ensures var r := TrimEnd(s);
            |r| <= |s| && r == s[..|r|] && (r == [] || !IsSpace(r[|r| - 1])) && IsBlank(s[|r|..])
  {
    if s != [] && IsSpace(s[|s| - 1]) {
      var n := |s| - 1;
      TrimEndSpec(s[..n]);
      var r := TrimEnd(s);
      assert s[|r|..] == s[..n][|r|..] + [s[n]];
    }
  }

  /** `trim` yields a contiguous piece of its input with no white space at
      either end, and only white space is cut away. */
  lemma TrimIsSlice(s: string)
    ensures exists i, j :: 0 <= i <= j <= |s| && Trim(s) == s[i..j] && IsBlank(s[..i]) && IsBlank(s[j..])
    ensures Trim(s) == [] || (!IsSpace(Trim(s)[0]) && !IsSpace(Trim(s)[|Trim(s)| - 1]))
  {
    var a := TrimStart(s);
    var i := |s| - |a|;
    var r := TrimEnd(a);
    TrimStartSpec(s);
    TrimEndSpec(a);
    var j := i + |r|;
    assert a == s[i..];
    assert r == s[i..j];
    assert s[j..] == a[|r|..];
    if r != [] {
      assert r[0] == a[0];
    }
  }

  /** `!s.trim()` holds exactly when `s` is empty or all white space. */
  lemma TrimEmptyIffBlank(s: string)
    ensures Trim(s) == "" <==> IsBlank(s)
  {
    TrimIsSlice(s);
    if !IsBlank(s) {
      assert s[..|s|] == s;
    }
  }

  /** Trimming twice is trimming once. */
  lemma TrimIdempotent(s: string)
    ensures Trim(Trim(s)) == Trim(s)
  {
    var r := Trim(s);
    TrimIsSlice(s);
    if r != [] {
      assert TrimStart(r) == r;
      assert TrimEnd(r) == r;
    }
  }

  function LowerChar(c: char): char {
    if 'A' <= c <= 'Z' then (c as int + 32) as char else c
  }

  /** `toLowerCase`, restricted to the ASCII letters. */
  function ToLower(s: string): (r: string)
    ensures |r| == |s|
    ensures forall i :: 0 <= i < |s| ==> r[i] == LowerChar(s[i])
  {
    seq(|s|, i requires 0 <= i < |s| => LowerChar(s[i]))
  }

  /** `needle` occurs in `hay` starting at offset `i`. */
  predicate OccursAt(hay: string, needle: string, i: int) {
    0 <= i <= |hay| - |needle| && hay[i..i + |needle|] == needle
  }

  /** `hay.includes(needle)`: `needle` occurs at some offset of `hay`. */
  predicate Contains(hay: string, needle: string) {
    exists i | 0 <= i <= |hay| :: OccursAt(hay, needle, i)
  }

  /** Every string includes the empty string. */
  lemma ContainsEmpty(hay: string)
    ensures Contains(hay, "")
  {
    assert OccursAt(hay, "", 0);
  }

  /** Every string includes itself. */
  lemma ContainsSelf(hay: string)
    ensures Contains(hay, hay)
  {
    assert OccursAt(hay, hay, 0);
  }

  // ---------------------------------------------------------------------
  // `String(n)` and `Number(s)` on integers
  // ---------------------------------------------------------------------

  /** The value of `Number(s)`: an integer, or NaN. Fractions, exponents and
      hexadecimal literals are outside the model and read as NaN. */
  datatype Num = Finite(value: int) | NaN

  predicate IsDigit(c: char) {
    '0' <= c <= '9'
  }

  predicate AllDigits(s: string) {
    forall i :: 0 <= i < |s| ==> IsDigit(s[i])
  }

  function DigitChar(d: int): char
    requires 0 <= d < 10
  {
    (48 + d) as char
  }

  /** Decimal digits of a natural number, without leading zeros. */
  function NatToString(n: nat): (r: string)
    ensures r != [] && AllDigits(r)
    ensures |r| > 1 ==> r[0] != '0'
  {
    if n < 10 then [DigitChar(n)] else NatToString(n / 10) + [DigitChar(n % 10)]
  }

  /** `String(n)` / `n.toString()` for an integer. */
  function IntToString(n: int): string {
    if n < 0 then "-" + NatToString(-n) else NatToString(n)
  }

  /** The value of a string of decimal digits. */
  function ParseDigits(s: string): nat
    requires AllDigits(s)
  {
    if s == [] then 0 else ParseDigits(s[..|s| - 1]) * 10 + (s[|s| - 1] as int - 48)
  }

  /** `Number(s)`: surrounding white space is ignored, the empty string is
      0, an optionally signed run of decimal digits is its value. */
  function ToNumber(s: string): Num {
    var t := Trim(s);
    if t == "" then Finite(0)
    else if t[0] == '-' && |t| > 1 && AllDigits(t[1..]) then Finite(-(ParseDigits(t[1..]) as int))
    else if t[0] == '+' && |t| > 1 && AllDigits(t[1..]) then Finite(ParseDigits(t[1..]))
    else if AllDigits(t) then Finite(ParseDigits(t))
    else NaN
  }

  lemma {:induction false} ParseNatToString(n: nat)
    ensures ParseDigits(NatToString(n)) == n
    decreases n
  {
    if n >= 10 {
      var r := NatToString(n);
      var init := NatToString(n / 10);
      assert r == init + [DigitChar(n % 10)];
      assert r[..|r| - 1] == init;
      ParseNatToString(n / 10);
    }
  }

  /** A string with no white space at either end is its own trim (a
      helper for `NumberOfString`). */
  lemma TrimUnpadded(s: string)
    requires s == [] || (!IsSpace(s[0]) && !IsSpace(s[|s| - 1]))
    ensures Trim(s) == s
  {
  }

  /** `Number(String(n)) === n` for every integer `n`. */
  lemma NumberOfString(n: int)
    ensures ToNumber(IntToString(n)) == Finite(n)
  {
    var s := IntToString(n);
    if n < 0 {
      var digits := NatToString(-n);
      assert s == "-" + digits && s[1..] == digits;
      assert !IsSpace(s[|s| - 1]) by { assert s[|s| - 1] == digits[|digits| - 1]; }
      TrimUnpadded(s);
      ParseNatToString(-n);
    } else {
      assert !IsDigit('-') && !IsDigit('+');
      assert !IsSpace(s[0]) && !IsSpace(s[|s| - 1]);
      TrimUnpadded(s);
      ParseNatToString(n);
    }
  }
}
