/** The `java.lang.String` operations the plugin uses, on `seq<char>`.
    Case conversion covers ASCII letters only. */
module Text {
  import opened Common

  /** `Character.toLowerCase` on ASCII letters. */
  function LowerChar(c: char): char {
    if 'A' <= c <= 'Z' then (c as int + 32) as char else c
  }

  /** `String.toLowerCase()`. */
  function Lower(s: string): (r: string)
    ensures |r| == |s|
    ensures forall i :: 0 <= i < |s| ==> r[i] == LowerChar(s[i])
  {
    seq(|s|, i requires 0 <= i < |s| => LowerChar(s[i]))
  }

  /** `s.startsWith(p)`. */
  predicate StartsWith(s: string, p: string) {
    p <= s
  }

  /** `t` occurs in `s` at index `i`. */
  predicate OccursAt(s: string, t: string, i: int) {
    0 <= i && i + |t| <= |s| && s[i..i + |t|] == t
  }

  /** `s.indexOf(t, from)`: the first index at or after `from` where `t` occurs. */
  function IndexFrom(s: string, t: string, from: nat): (r: Option<nat>)
    requires from <= |s|
    ensures r.Some? ==> from <= r.value && OccursAt(s, t, r.value)
    ensures r.Some? ==> forall j :: from <= j < r.value ==> !OccursAt(s, t, j)
    ensures r.None? ==> forall j :: from <= j ==> !OccursAt(s, t, j)
    decreases |s| - from
  {
    if from + |t| > |s| then None
    else if s[from..from + |t|] == t then Some(from)
    else if from == |s| then None
    else IndexFrom(s, t, from + 1)
  }

  /** `s.contains(t)`. */
  predicate Contains(s: string, t: string) {
    IndexFrom(s, t, 0).Some?
  }

  lemma ContainsIff(s: string, t: string)
    ensures Contains(s, t) <==> exists i :: OccursAt(s, t, i)
  {
    var r := IndexFrom(s, t, 0);
  }

  /** `s.replace(t, r)` for a literal, non-empty target: every non-overlapping
      occurrence of `t`, scanning left to right, is replaced by `r`. */
  function Replace(s: string, t: string, r: string): string
    requires |t| > 0
    decreases |s|
  {
    if |s| < |t| then s
    else if s[..|t|] == t then r + Replace(s[|t|..], t, r)
    else [s[0]] + Replace(s[1..], t, r)
  }

  /** A replacement whose target starts with a character absent from `s`
      leaves `s` unchanged. */
  lemma {:induction false} ReplaceAbsent(s: string, t: string, r: string)
    requires |t| > 0 && t[0] !in s
    ensures Replace(s, t, r) == s
    decreases |s|
  {
    if |s| >= |t| {
      assert s[..|t|][0] == s[0];
      assert s[..|t|] != t;
      ReplaceAbsent(s[1..], t, r);
      assert [s[0]] + s[1..] == s;
    }
  }

  /** A character absent from `s` and from `r` is absent from the result. */
  lemma {:induction false} ReplaceKeepsAbsent(s: string, t: string, r: string, c: char)
    requires |t| > 0 && c !in s && c !in r
    ensures c !in Replace(s, t, r)
    decreases |s|
  {
    if |s| >= |t| {
      if s[..|t|] == t {
        assert forall i :: 0 <= i < |s[|t|..]| ==> s[|t|..][i] == s[i + |t|];
        ReplaceKeepsAbsent(s[|t|..], t, r, c);
      } else {
        assert forall i :: 0 <= i < |s[1..]| ==> s[1..][i] == s[i + 1];
        ReplaceKeepsAbsent(s[1..], t, r, c);
      }
    }
  }

  function DigitChar(d: nat): char
    requires d < 10
  {
    ('0' as int + d) as char
  }

  predicate IsDigit(c: char) {
    '0' <= c <= '9'
  }

  /** `String.valueOf(long)` for a non-negative value. */
  function NatToString(n: nat): (r: string)
    ensures |r| >= 1
    ensures forall i :: 0 <= i < |r| ==> IsDigit(r[i])
    ensures |r| > 1 ==> r[0] != '0'
    decreases n
  {
    if n < 10 then [DigitChar(n)] else NatToString(n / 10) + [DigitChar(n % 10)]
  }

  /** `String.valueOf(int)` for any value. */
  function IntToString(n: int): (r: string)
    ensures |r| >= 1
  {
    if n < 0 then "-" + NatToString(-n) else NatToString(n)
  }

  /** The value of a string of decimal digits (`Long.parseLong` on digit
      strings); callers check the characters are digits. */
  function ParseDecimal(s: string): int {
    if s == [] then 0
    else ParseDecimal(s[..|s| - 1]) * 10 + (s[|s| - 1] as int - '0' as int)
  }

  /** The decimal rendering is read back to the same number. */
  lemma {:induction false} NatToStringRoundTrip(n: nat)
    ensures ParseDecimal(NatToString(n)) == n
    decreases n
  {
    var r := NatToString(n);
    if n >= 10 {
      NatToStringRoundTrip(n / 10);
      assert r[..|r| - 1] == NatToString(n / 10);
    }
  }

  /** Distinct numbers have distinct decimal renderings. */
  lemma NatToStringInjective(a: nat, b: nat)
    requires NatToString(a) == NatToString(b)
    ensures a == b
  {
    NatToStringRoundTrip(a);
    NatToStringRoundTrip(b);
  }

  /** `String.compareTo(b) <= 0`: lexicographic order on UTF-16 code units. */
  predicate LexLe(a: string, b: string)
    decreases |a|
  {
    if a == [] then true
    else if b == [] then false
    else if a[0] != b[0] then a[0] < b[0]
    else LexLe(a[1..], b[1..])
  }

  lemma {:induction false} LexLeTotal(a: string, b: string)
    ensures LexLe(a, b) || LexLe(b, a)
    decreases |a|
  {
    if a != [] && b != [] && a[0] == b[0] {
      LexLeTotal(a[1..], b[1..]);
    }
  }

  lemma {:induction false} LexLeTransitive(a: string, b: string, c: string)
    requires LexLe(a, b) && LexLe(b, c)
    ensures LexLe(a, c)
    decreases |a|
  {
    if a != [] && b != [] && c != [] && a[0] == b[0] && b[0] == c[0] {
      LexLeTransitive(a[1..], b[1..], c[1..]);
    }
  }

  lemma {:induction false} LexLeAntisymmetric(a: string, b: string)
    requires LexLe(a, b) && LexLe(b, a)
    ensures a == b
    decreases |a|
  {
    if a != [] && b != [] {
      LexLeAntisymmetric(a[1..], b[1..]);
      assert a == [a[0]] + a[1..];
      assert b == [b[0]] + b[1..];
    }
  }
}
