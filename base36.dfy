/**
 * Stream ids: a stream's id is its index in the store written in base 36
 * (`n.toString(36)`), and lookups read it back with `parseInt(id, 36)`.
 */
module Base36 {
  import opened Wrappers

  /** The base-36 digit for `d`: `0`-`9`, then `a`-`z`. */
  function Digit(d: nat): (c: char)
    requires d < 36
    ensures DigitValue(c) == Some(d)
  {
    if d < 10 then (48 + d) as char else (97 + d - 10) as char
  }

  /** The value of a base-36 digit, either case, as `parseInt` reads it; none for any other character. */
  function DigitValue(c: char): (r: Option<nat>)
    ensures r.Some? ==> r.value < 36
  {
    if '0' <= c <= '9' then Some(c as int - 48)
    else if 'a' <= c <= 'z' then Some(c as int - 97 + 10)
    else if 'A' <= c <= 'Z' then Some(c as int - 65 + 10)
    else None
  }

  predicate IsDigit(c: char) {
    DigitValue(c).Some?
  }

  /** `n.toString(36)`: most significant digit first, no leading zeros. */
  function ToBase36(n: nat): (s: string)
    ensures 1 <= |s|
    ensures forall i :: 0 <= i < |s| ==> IsDigit(s[i])
    ensures n > 0 ==> s[0] != '0'
  {
    if n < 36 then [Digit(n)] else ToBase36(n / 36) + [Digit(n % 36)]
  }

  /** The number a string of base-36 digits denotes. */
  function ValueOf(ds: string): nat
    requires forall i :: 0 <= i < |ds| ==> IsDigit(ds[i])
  {
    if ds == [] then 0
    else
      assert IsDigit(ds[|ds| - 1]);
      ValueOf(ds[..|ds| - 1]) * 36 + DigitValue(ds[|ds| - 1]).value
  }

  /** The white space `parseInt` skips before the number (ECMAScript StrWhiteSpaceChar). */
  predicate IsJsSpace(c: char) {
    c == '\t' || c == '\n' || c == '\U{000B}' || c == '\U{000C}' || c == '\r' || c == ' '
    || c == '\U{00A0}' || c == '\U{1680}' || ('\U{2000}' <= c <= '\U{200A}')
    || c == '\U{2028}' || c == '\U{2029}' || c == '\U{202F}' || c == '\U{205F}'
    || c == '\U{3000}' || c == '\U{FEFF}'
  }

  /** The string without its leading white space. */
  function TrimStart(s: string): (r: string)
    ensures |r| <= |s| && r == s[|s| - |r|..]
    ensures r != [] ==> !IsJsSpace(r[0])
  {
    if s != [] && IsJsSpace(s[0]) then TrimStart(s[1..]) else s
  }

  /** The length of the longest prefix of `s` made of base-36 digits. */
  function DigitRun(s: string): (k: nat)
    ensures k <= |s|
    ensures forall i :: 0 <= i < k ==> IsDigit(s[i])
    ensures k < |s| ==> !IsDigit(s[k])
  {
    if s != [] && IsDigit(s[0]) then 1 + DigitRun(s[1..]) else 0
  }

  /**
   * `parseInt(s, 36)`: skip leading white space, read an optional sign, then
   * as many base-36 digits as there are; none (NaN) when there is no digit.
   * Characters after the digits are ignored. A `-0` reads as 0, which is
   * what an array index lookup turns it into.
   */
  function ParseInt36(s: string): (r: Option<int>)
  {
    var t := TrimStart(s);
    var neg := t != [] && t[0] == '-';
    var body := if t != [] && (t[0] == '-' || t[0] == '+') then t[1..] else t;
    var k := DigitRun(body);
    if k == 0 then None
    else
      var v: int := ValueOf(body[..k]);
      var signed: int := if neg then -v else v;
      Some(signed)
  }

  /** Reading back the digits of `n` gives `n`. */
  lemma {:induction false} ValueOfToBase36(n: nat)
    ensures ValueOf(ToBase36(n)) == n
    decreases n
  {
    if n >= 36 {
      var s := ToBase36(n);
      ValueOfToBase36(n / 36);
      assert s[..|s| - 1] == ToBase36(n / 36);
    }
  }

  /** `parseInt(n.toString(36), 36) === n`: every id names the index it was made from. */
  lemma ParseToBase36(n: nat)
    ensures ParseInt36(ToBase36(n)) == Some(n)
  {
    var s := ToBase36(n);
    assert !IsJsSpace(s[0]);
    assert TrimStart(s) == s;
    DigitRunAll(s);
    assert s[..|s|] == s;
    ValueOfToBase36(n);
  }

  lemma {:induction false} DigitRunAll(s: string)
    requires forall i :: 0 <= i < |s| ==> IsDigit(s[i])
    ensures DigitRun(s) == |s|
  {
    if s != [] {
      DigitRunAll(s[1..]);
    }
  }

  /** Different indices get different ids, so no two streams share one. */
  lemma ToBase36Injective(m: nat, n: nat)
    requires ToBase36(m) == ToBase36(n)
    ensures m == n
  {
    ParseToBase36(m);
    ParseToBase36(n);
  }
}
