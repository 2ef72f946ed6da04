/**
  String helpers shared by the builders and the schematic: decimal rendering of
  a count (template literals such as `Renderer ${i + 1}`), `Number()` of a digit
  string, the first digit run of a string (`s.match(/\d+/)[0]`) and
  `Array.prototype.join`.
 */
module Text {
  import opened Js

  predicate IsDigit(c: char) { '0' <= c <= '9' }

  predicate AllDigits(s: string) { forall i :: 0 <= i < |s| ==> IsDigit(s[i]) }

  function DigitChar(d: nat): char
    requires d < 10
  {
    "0123456789"[d]
  }

  /** The decimal rendering of `n`, as a template literal prints a non-negative integer. */
  function NatToString(n: nat): (s: string)
    ensures |s| >= 1 && AllDigits(s)
    ensures s[0] == '0' ==> n == 0
    decreases n
  {
    if n < 10 then [DigitChar(n)] else NatToString(n / 10) + [DigitChar(n % 10)]
  }

  /** `Number(s)` for a string made of decimal digits only. */
  function DigitsValue(s: string): nat
    requires AllDigits(s)
  {
    if s == [] then 0 else DigitsValue(s[..|s| - 1]) * 10 + (s[|s| - 1] as int - '0' as int)
  }

  /** Reading back what NatToString printed gives the number again. */
  lemma {:induction false} DigitsValueOfNatToString(n: nat)
    ensures DigitsValue(NatToString(n)) == n
    decreases n
  {
    if n >= 10 {
      var prefix := NatToString(n / 10);
      var s := prefix + [DigitChar(n % 10)];
      assert s[..|s| - 1] == prefix;
      DigitsValueOfNatToString(n / 10);
    }
  }

  /** Distinct numbers print differently. */
  lemma NatToStringInjective(m: nat, n: nat)
    requires NatToString(m) == NatToString(n)
    ensures m == n
  {
    DigitsValueOfNatToString(m);
    DigitsValueOfNatToString(n);
  }

  /** The longest prefix of `s` made of digits. */
  function DigitPrefix(s: string): (d: string)
    ensures |d| <= |s| && d == s[..|d|] && AllDigits(d)
    ensures |d| < |s| ==> !IsDigit(s[|d|])
  {
    if s == [] || !IsDigit(s[0]) then [] else [s[0]] + DigitPrefix(s[1..])
  }

  /** What `s.match(/\d+/)` finds: the leftmost maximal run of digits, or nothing. */
  function FirstDigitRun(s: string): Option<string>
  {
    if s == [] then None
    else if IsDigit(s[0]) then Some(DigitPrefix(s))
    else FirstDigitRun(s[1..])
  }

  /** The run found is non-empty, is made of digits, starts at the first digit of
      `s` and cannot be extended; no run is found exactly when `s` has no digit. */
  lemma {:induction false} FirstDigitRunSpec(s: string)
    ensures FirstDigitRun(s).None? <==> (forall i :: 0 <= i < |s| ==> !IsDigit(s[i]))
    ensures FirstDigitRun(s).Some? ==>
      exists k :: 0 <= k < |s| && IsFirstDigitRunAt(s, k, FirstDigitRun(s).value)
  {
    if s != [] {
      if IsDigit(s[0]) {
        assert IsFirstDigitRunAt(s, 0, DigitPrefix(s));
      } else {
        FirstDigitRunSpec(s[1..]);
        if FirstDigitRun(s[1..]).Some? {
          var d := FirstDigitRun(s[1..]).value;
          var k :| 0 <= k < |s[1..]| && IsFirstDigitRunAt(s[1..], k, d);
          assert IsFirstDigitRunAt(s, k + 1, d);
        } else {
          assert forall i :: 0 <= i < |s| ==> !IsDigit(s[i]) by {
            forall i | 0 <= i < |s| ensures !IsDigit(s[i]) {
              if i > 0 { assert s[i] == s[1..][i - 1]; }
            }
          }
        }
      }
    }
  }

  /** `d` is the digit run that starts at index `k` of `s`, with no digit before it. */
  ghost predicate IsFirstDigitRunAt(s: string, k: nat, d: string)
  {
    && k + |d| <= |s|
    && |d| >= 1
    && s[k..k + |d|] == d
    && AllDigits(d)
    && (forall i :: 0 <= i < k ==> !IsDigit(s[i]))
    && (k + |d| < |s| ==> !IsDigit(s[k + |d|]))
  }

  /** `parts.join(sep)`. */
  function Join(parts: seq<string>, sep: string): string
  {
    if |parts| == 0 then ""
    else if |parts| == 1 then parts[0]
    else parts[0] + sep + Join(parts[1..], sep)
  }
}
