/**
 * The two JavaScript string primitives the validators rely on:
 * `length`, which counts UTF-16 code units, and `trim()`, which strips
 * leading and trailing white space and line terminators (section 22.1.3.32
 * of ECMA-262, with the sets of sections 12.2 and 12.3).
 */
module JsString {

  /** A JavaScript WhiteSpace or LineTerminator code point. */
  predicate IsWhitespace(c: char)
  {
    var n := c as int;
    n == 0x09 || n == 0x0A || n == 0x0B || n == 0x0C || n == 0x0D ||
    n == 0x20 || n == 0xA0 || n == 0x1680 || (0x2000 <= n <= 0x200A) ||
    n == 0x2028 || n == 0x2029 || n == 0x202F || n == 0x205F ||
    n == 0x3000 || n == 0xFEFF
  }

  /** Number of UTF-16 code units of one character. */
  function CodeUnits(c: char): nat
  {
    if c as int >= 0x10000 then 2 else 1
  }

  /** `s.length`: the number of UTF-16 code units of `s`. */
  function Utf16Length(s: string): (n: nat)
    ensures |s| <= n <= 2 * |s|
  {
    if s == [] then 0 else CodeUnits(s[0]) + Utf16Length(s[1..])
  }

  /** In the Basic Multilingual Plane every character is one code unit. */
  lemma {:induction false} BmpLength(s: string)
    requires forall i :: 0 <= i < |s| ==> s[i] as int < 0x10000
    ensures Utf16Length(s) == |s|
  {
    if s != [] {
      BmpLength(s[1..]);
    }
  }

  /** `s` with its leading white space removed. */
  function TrimStart(s: string): (r: string)
    ensures |r| <= |s| && r == s[|s| - |r|..]
    ensures forall k :: 0 <= k < |s| - |r| ==> IsWhitespace(s[k])
    ensures r != [] ==> !IsWhitespace(r[0])
  {
    if s != [] && IsWhitespace(s[0]) then TrimStart(s[1..]) else s
  }

  /** `s` with its trailing white space removed. */
  function TrimEnd(s: string): (r: string)
    ensures |r| <= |s| && r == s[..|r|]
    ensures forall k :: |r| <= k < |s| ==> IsWhitespace(s[k])
    ensures r != [] ==> !IsWhitespace(r[|r| - 1])
  {
    if s != [] && IsWhitespace(s[|s| - 1]) then TrimEnd(s[..|s| - 1]) else s
  }

  /** `s.trim()`. */
  function Trim(s: string): string
  {
    TrimEnd(TrimStart(s))
  }

  /** True when `s` holds some character that is not white space. */
  predicate HasNonWhitespace(s: string)
  {
    exists i :: 0 <= i < |s| && !IsWhitespace(s[i])
  }

  /** `s.trim()` is empty exactly when `s` is blank. */
  lemma TrimEmptyIffBlank(s: string)
    ensures Trim(s) == [] <==> !HasNonWhitespace(s)
  {
    var a := TrimStart(s);
    var b := TrimEnd(a);
    if b == [] {
      assert a == [];
    } else {
      assert !IsWhitespace(a[|b| - 1]);
      assert a[|b| - 1] == s[|s| - |a| + |b| - 1];
    }
  }

  /** The length of `s.trim()` is positive exactly when `s` is not blank. */
  lemma TrimLengthPositiveIffNotBlank(s: string)
    ensures Utf16Length(Trim(s)) > 0 <==> HasNonWhitespace(s)
  {
    TrimEmptyIffBlank(s);
  }
}
