/**
 * String helpers with JavaScript's meaning: `toLowerCase` on ASCII letters,
 * `indexOf`, `split` on one character, `join`, and number-to-string for
 * non-negative integers.
 */
module Text {
  import opened Wrappers

  /** ASCII lower-casing of one character; every other character is kept. */
  function LowerChar(c: char): (r: char)
    ensures 'A' <= c <= 'Z' ==> r as int == c as int + 32
    ensures !('A' <= c <= 'Z') ==> r == c
    ensures !('A' <= r <= 'Z')
  {
    if 'A' <= c <= 'Z' then (c as int + 32) as char else c
  }

  /** `s.toLowerCase()`, restricted to ASCII letters. */
  function Lower(s: string): (r: string)
    ensures |r| == |s|
    ensures forall i :: 0 <= i < |s| ==> r[i] == LowerChar(s[i])
  {
    seq(|s|, i requires 0 <= i < |s| => LowerChar(s[i]))
  }

  /** Lower-casing twice is lower-casing once, so a stored lowercase key looks itself up. */
  lemma LowerIdempotent(s: string)
    ensures Lower(Lower(s)) == Lower(s)
  {
  }

  /** True when `pat` occurs in `s` starting at position `k`. */
  predicate OccursAt(s: string, pat: string, k: nat) {
    k + |pat| <= |s| && s[k..k + |pat|] == pat
  }

  /**
   * `s.indexOf(pat, from)` for `from <= |s|`: the first position at or after
   * `from` where `pat` occurs, or -1 when there is none.
   */
  function IndexOf(s: string, pat: string, from: nat): (r: int)
    requires from <= |s|
    ensures r == -1 || (from <= r && OccursAt(s, pat, r))
    ensures r == -1 ==> forall k :: from <= k <= |s| ==> !OccursAt(s, pat, k)
    ensures r != -1 ==> forall k :: from <= k < r ==> !OccursAt(s, pat, k)
    decreases |s| - from
  {
    if OccursAt(s, pat, from) then from
    else if from == |s| then -1
    else IndexOf(s, pat, from + 1)
  }

  /** `s.substr(0, n) === p`: `s` begins with `p`. */
  predicate StartsWith(s: string, p: string) {
    |p| <= |s| && s[..|p|] == p
  }

  /** `s.split(sep)` for a one-character separator: the pieces between the separators. */
  function Split(s: string, sep: char): (r: seq<string>)
    ensures |r| >= 1
    ensures forall i :: 0 <= i < |r| ==> sep !in r[i]
  {
    if sep !in s then [s]
    else
      var k := IndexOf(s, [sep], 0);
      assert k != -1 by {
        var j :| 0 <= j < |s| && s[j] == sep;
        assert OccursAt(s, [sep], j);
      }
      assert sep !in s[..k] by {
        forall j | 0 <= j < k ensures s[j] != sep {
          if s[j] == sep { assert OccursAt(s, [sep], j); }
        }
      }
      [s[..k]] + Split(s[k + 1..], sep)
  }

  /** `xs.join(sep)`. */
  function Join(xs: seq<string>, sep: string): string {
    if |xs| == 0 then ""
    else if |xs| == 1 then xs[0]
    else xs[0] + sep + Join(xs[1..], sep)
  }

  /** One step of `split`: the piece before the first separator, then the split of the rest. */
  lemma SplitStep(s: string, sep: char) returns (k: nat)
    requires sep in s
    ensures k < |s| && s[k] == sep
    ensures Split(s, sep) == [s[..k]] + Split(s[k + 1..], sep)
  {
    var i := IndexOf(s, [sep], 0);
    assert i != -1 by {
      var j :| 0 <= j < |s| && s[j] == sep;
      assert OccursAt(s, [sep], j);
    }
    k := i;
    assert OccursAt(s, [sep], k);
  }

  /** One step of `join` on a list of at least two pieces. */
  lemma JoinStep(x: string, xs: seq<string>, sep: string)
    requires |xs| >= 1
    ensures Join([x] + xs, sep) == x + sep + Join(xs, sep)
  {
    assert ([x] + xs)[1..] == xs;
  }

  /** Splitting on a character and joining with it gives back the original string. */
  lemma {:induction false} JoinSplit(s: string, sep: char)
    ensures Join(Split(s, sep), [sep]) == s
    decreases |s|
  {
    if sep in s {
      var k := SplitStep(s, sep);
      var rest := s[k + 1..];
      JoinStep(s[..k], Split(rest, sep), [sep]);
      JoinSplit(rest, sep);
      assert s == s[..k] + [sep] + rest;
    }
  }

  /** The decimal digits of a non-negative number, as `String(n)` writes them. */
  function Decimal(n: nat): (r: string)
    ensures |r| >= 1
    ensures forall i :: 0 <= i < |r| ==> '0' <= r[i] <= '9'
  {
    if n < 10 then [(48 + n) as char] else Decimal(n / 10) + [(48 + n % 10) as char]
  }

  /** The number a string of decimal digits denotes, most significant first. */
  function DecValue(ds: string): nat
    requires forall i :: 0 <= i < |ds| ==> '0' <= ds[i] <= '9'
  {
    if ds == [] then 0 else DecValue(ds[..|ds| - 1]) * 10 + (ds[|ds| - 1] as int - 48)
  }

  /** `String(n)` spells `n`, with no leading zero. */
  lemma {:induction false} DecimalValue(n: nat)
    ensures DecValue(Decimal(n)) == n
    ensures n > 0 ==> Decimal(n)[0] != '0'
    decreases n
  {
    if n >= 10 {
      var s := Decimal(n);
      DecimalValue(n / 10);
      assert s[..|s| - 1] == Decimal(n / 10);
      assert s[0] == Decimal(n / 10)[0];
    }
  }

  /** How JavaScript prints an optional string when it is concatenated: `undefined` for none. */
  function Show(s: Option<string>): (r: string)
    ensures s.Some? ==> r == s.value
    ensures s.None? ==> r == "undefined"
  {
    if s.Some? then s.value else "undefined"
  }
}
