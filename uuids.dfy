/** `java.util.UUID` as a 128-bit number, with its canonical text form
    (8-4-4-4-12 hexadecimal digits) and the hash Java derives from it. */
module Uuids {
  import opened Common

  const UUID_LIMIT: nat := 0x1_0000_0000_0000_0000_0000_0000_0000_0000

  /** The 128 bits of a UUID, most significant half first. */
  type Uuid = n: nat | n < UUID_LIMIT

  function Pow16(k: nat): (r: nat)
    ensures r >= 1
  {
    if k == 0 then 1 else 16 * Pow16(k - 1)
  }

  function HexChar(d: nat): char
    requires d < 16
  {
    if d < 10 then ('0' as int + d) as char else ('a' as int + d - 10) as char
  }

  /** The value of a hexadecimal digit, either case. */
  function HexValue(c: char): Option<nat> {
    if '0' <= c <= '9' then Some(c as int - '0' as int)
    else if 'a' <= c <= 'f' then Some(c as int - 'a' as int + 10)
    else if 'A' <= c <= 'F' then Some(c as int - 'A' as int + 10)
    else None
  }

  lemma HexValueOfHexChar(d: nat)
    requires d < 16
    ensures HexValue(HexChar(d)) == Some(d)
  {
  }

  /** The `k` lowercase hexadecimal digits of `n`, most significant first. */
  function HexDigits(n: nat, k: nat): (r: string)
    requires n < Pow16(k)
    ensures |r| == k
    decreases k
  {
    if k == 0 then [] else HexDigits(n / 16, k - 1) + [HexChar(n % 16)]
  }

  /** A string of hexadecimal digits read as a number; `None` on any other character. */
  function ParseHex(s: string): Option<nat> {
    if s == [] then Some(0)
    else
      match (ParseHex(s[..|s| - 1]), HexValue(s[|s| - 1]))
      case (Some(high), Some(low)) => Some(high * 16 + low)
      case _ => None
  }

  /** A text of `k` digits is worth less than 16^k. */
  lemma {:induction false} ParseHexBound(s: string)
    ensures ParseHex(s).Some? ==> ParseHex(s).value < Pow16(|s|)
    decreases |s|
  {
    if s != [] {
      ParseHexBound(s[..|s| - 1]);
    }
  }

  lemma {:induction false} HexRoundTrip(n: nat, k: nat)
    requires n < Pow16(k)
    ensures ParseHex(HexDigits(n, k)) == Some(n)
    decreases k
  {
    if k > 0 {
      var h := HexDigits(n, k);
      HexRoundTrip(n / 16, k - 1);
      assert h[..|h| - 1] == HexDigits(n / 16, k - 1);
      HexValueOfHexChar(n % 16);
    }
  }

  lemma {:induction false} Pow16Add(a: nat, b: nat)
    ensures Pow16(a + b) == Pow16(a) * Pow16(b)
    decreases a
  {
    if a > 0 {
      Pow16Add(a - 1, b);
    }
  }

  lemma Pow16Of32()
    ensures Pow16(32) == UUID_LIMIT
  {
    assert Pow16(8) == 0x1_0000_0000;
    Pow16Add(8, 8);
    Pow16Add(16, 16);
  }

  /** The 8-4-4-4-12 grouping of 32 digits. */
  function Dashed(h: string): (r: string)
    requires |h| == 32
    ensures |r| == 36
  {
    h[0..8] + "-" + h[8..12] + "-" + h[12..16] + "-" + h[16..20] + "-" + h[20..32]
  }

  /** `UUID.toString()`: 32 lowercase hexadecimal digits grouped 8-4-4-4-12. */
  function UuidText(u: Uuid): (r: string)
    ensures |r| == 36
  {
    Pow16Of32();
    Dashed(HexDigits(u, 32))
  }

  /** The groups of a text between its dashes, in order; a text with `k`
      dashes has `k + 1` groups. */
  function SplitDashes(s: string): (r: seq<string>)
    ensures |r| >= 1
    decreases |s|
  {
    if s == [] then [""]
    else
      var rest := SplitDashes(s[1..]);
      if s[0] == '-' then [""] + rest else [[s[0]] + rest[0]] + rest[1..]
  }

  /** A dash followed by a group without dashes splits off as the last group. */
  lemma {:induction false} SplitLastGroup(p: string, g: string)
    requires '-' !in g
    ensures SplitDashes(p + "-" + g) == SplitDashes(p) + [g]
    decreases |p|
  {
    if p == [] {
      assert p + "-" + g == "-" + g && ("-" + g)[1..] == g;
      SplitNone(g);
    } else {
      SplitLastGroup(p[1..], g);
      assert (p + "-" + g)[1..] == p[1..] + "-" + g;
    }
  }

  /** A text without dashes is a single group. */
  lemma {:induction false} SplitNone(g: string)
    requires '-' !in g
    ensures SplitDashes(g) == [g]
    decreases |g|
  {
    if g != [] {
      SplitNone(g[1..]);
      assert [g[0]] + g[1..] == g;
    }
  }

  const LONG_LIMIT: nat := 0x8000_0000_0000_0000

  /** `Long.parseLong(group, 16)` on a group free of dashes: an optional `+`,
      then at least one hexadecimal digit, worth less than 2^63; `None` where
      Java throws. */
  function ParseLongHex(g: string): (r: Option<nat>)
    ensures r.Some? ==> r.value < LONG_LIMIT
    ensures r.Some? ==> |g| >= 1 && (g[0] == '+' ==> |g| >= 2)
    ensures g != [] && g[0] != '+' && ParseHex(g).Some? && ParseHex(g).value < LONG_LIMIT ==> r == ParseHex(g)
  {
    var digits := if g != [] && g[0] == '+' then g[1..] else g;
    if digits == [] then None
    else match ParseHex(digits)
      case Some(v) => if v < LONG_LIMIT then Some(v) else None
      case None => None
  }

  /** The five parts fit 32, 16, 16, 16 and 48 bits. */
  predicate GroupsFit(a: nat, b: nat, c: nat, d: nat, e: nat) {
    a < 0x1_0000_0000 && b < 0x1_0000 && c < 0x1_0000 && d < 0x1_0000 && e < 0x1_0000_0000_0000
  }

  /** The five parts of `UUID.fromString`, kept to 32, 16, 16, 16 and 48 bits,
      packed most significant first. */
  function Pack(a: nat, b: nat, c: nat, d: nat, e: nat): Uuid
    requires GroupsFit(a, b, c, d, e)
  {
    assert a * 0x1_0000 + b < 0x1_0000_0000_0000;
    assert (a * 0x1_0000 + b) * 0x1_0000 + c < 0x1_0000_0000_0000_0000;
    assert ((a * 0x1_0000 + b) * 0x1_0000 + c) * 0x1_0000 + d < 0x1_0000_0000_0000_0000_0000;
    (((a * 0x1_0000 + b) * 0x1_0000 + c) * 0x1_0000 + d) * 0x1_0000_0000_0000 + e
  }

  /** The low bits of `x` below the power of two `m`, as Java's `& (m - 1)`
      keeps them: `x` with whole multiples of `m` taken away. */
  function LowBits(x: nat, m: nat): (r: nat)
    requires m > 0
    ensures r < m
    ensures x < m ==> r == x
    decreases x
  {
    if x < m then x else LowBits(x - m, m)
  }

  /** `LowBits` is the remainder modulo `m`. */
  lemma {:induction false} LowBitsIsMod(x: nat, m: nat)
    requires m > 0
    ensures LowBits(x, m) == x % m
    decreases x
  {
    if x >= m {
      LowBitsIsMod(x - m, m);
      ModMinus(x, m);
    }
  }

  lemma ModMinus(x: nat, m: nat)
    requires 0 < m <= x
    ensures (x - m) % m == x % m
  {
    var q, r := x / m, x % m;
    assert x == q * m + r;
    assert x - m == (q - 1) * m + r;
    ModUnique(x - m, m, q - 1, r);
  }

  /** A remainder is fixed by any quotient-remainder split. */
  lemma ModUnique(n: int, m: int, q: int, r: int)
    requires m > 0 && 0 <= r < m && n == q * m + r
    ensures n % m == r
  {
    var q', r' := n / m, n % m;
    assert n == q' * m + r';
    MulSub(q, q', m);
    assert (q - q') * m == r' - r;
    if q > q' {
      MulAtLeast(q - q', m);
    } else if q < q' {
      MulAtLeast(q' - q, m);
      MulSub(q', q, m);
    }
  }

  lemma MulSub(a: int, b: int, m: int)
    ensures (a - b) * m == a * m - b * m
  {
  }

  lemma MulAtLeast(k: int, m: int)
    requires k >= 1 && m > 0
    ensures k * m >= m
  {
  }

  /** `UUID.fromString(s)` as Java 9 and later run it: at most 36 characters
      and exactly four dashes; each of the five groups is read by
      `Long.parseLong(group, 16)` and cut to its width. `None` where Java
      throws. The canonical 8-4-4-4-12 layout is one such text; shorter groups
      and a leading `+` are accepted too. */
  function ParseUuid(s: string): Option<Uuid> {
    if |s| > 36 then None
    else
      var g := SplitDashes(s);
      if |g| != 5 then None
      else match ReadGroups(g)
        case None => None
        case Some(v) =>
          Some(Pack(LowBits(v[0], 0x1_0000_0000), LowBits(v[1], 0x1_0000), LowBits(v[2], 0x1_0000),
                    LowBits(v[3], 0x1_0000), LowBits(v[4], 0x1_0000_0000_0000)))
  }

  /** A text is accepted only when it has at most 36 characters and five
      dash-separated groups, each a hexadecimal `long`. */
  lemma ParseUuidAccepts(s: string)
    ensures ParseUuid(s).Some? <==>
      |s| <= 36 && |SplitDashes(s)| == 5 && forall k :: 0 <= k < 5 ==> ParseLongHex(SplitDashes(s)[k]).Some?
  {
    if |s| <= 36 && |SplitDashes(s)| == 5 && forall k :: 0 <= k < 5 ==> ParseLongHex(SplitDashes(s)[k]).Some? {
      var g := SplitDashes(s);
      var v := seq(5, k requires 0 <= k < 5 => ParseLongHex(g[k]).value);
      ReadGroupsAll(g, v);
    }
  }

  /** Every group read by `Long.parseLong(group, 16)`, in order; `None` as
      soon as one of them throws. */
  function ReadGroups(groups: seq<string>): (r: Option<seq<nat>>)
    ensures r.Some? ==> |r.value| == |groups|
    ensures r.Some? ==> forall k :: 0 <= k < |groups| ==> ParseLongHex(groups[k]) == Some(r.value[k])
    ensures r.None? ==> exists k :: 0 <= k < |groups| && ParseLongHex(groups[k]).None?
  {
    if groups == [] then Some([])
    else match ParseLongHex(groups[0])
      case None => None
      case Some(v) =>
        match ReadGroups(groups[1..])
        case None => None
        case Some(rest) => Some([v] + rest)
  }

  /** Groups that all parse are read as their values. */
  lemma ReadGroupsAll(groups: seq<string>, values: seq<nat>)
    requires |groups| == |values|
    requires forall k :: 0 <= k < |groups| ==> ParseLongHex(groups[k]) == Some(values[k])
    ensures ReadGroups(groups) == Some(values)
  {
    var r := ReadGroups(groups);
    if r.None? {
      assert false;
    }
    assert r.value == values;
  }

  /** A typed argument such as `1-1-1-1-1` names a UUID, though not in the
      form `toString` prints it. */
  lemma ShortGroupsAccepted()
    ensures ParseUuid("1-1-1-1-1") == Some(0x0000_0001_0001_0001_0001_0000_0000_0001)
    ensures UuidText(0x0000_0001_0001_0001_0001_0000_0000_0001) != "1-1-1-1-1"
  {
    var s := "1-1-1-1-1";
    FiveOnes();
    assert ParseLongHex("1") == Some(1) by {
      assert "1"[..0] == [];
    }
    ParseUuidOfGroups(s, 1, 1, 1, 1, 1);
  }

  lemma FiveOnes()
    ensures SplitDashes("1-1-1-1-1") == ["1", "1", "1", "1", "1"]
  {
    SplitNone("1");
    SplitLastGroup("1", "1");
    assert "1" + "-" + "1" == "1-1";
    SplitLastGroup("1-1", "1");
    assert "1-1" + "-" + "1" == "1-1-1";
    SplitLastGroup("1-1-1", "1");
    assert "1-1-1" + "-" + "1" == "1-1-1-1";
    SplitLastGroup("1-1-1-1", "1");
    assert "1-1-1-1" + "-" + "1" == "1-1-1-1-1";
  }

  /** Every character `HexDigits` writes is a hexadecimal digit. */
  lemma {:induction false} HexDigitsAreHex(n: nat, k: nat)
    requires n < Pow16(k)
    ensures forall i :: 0 <= i < k ==> HexValue(HexDigits(n, k)[i]).Some?
    decreases k
  {
    if k > 0 {
      HexDigitsAreHex(n / 16, k - 1);
      HexValueOfHexChar(n % 16);
    }
  }

  /** A text of hexadecimal digits reads as a number. */
  lemma {:induction false} ParseHexOfHex(s: string)
    requires forall i :: 0 <= i < |s| ==> HexValue(s[i]).Some?
    ensures ParseHex(s).Some?
    decreases |s|
  {
    if s != [] {
      ParseHexOfHex(s[..|s| - 1]);
    }
  }

  /** Reading two texts of digits one after the other. */
  lemma {:induction false} ParseHexConcat(a: string, b: string)
    requires ParseHex(a).Some? && ParseHex(b).Some?
    ensures ParseHex(a + b) == Some(ParseHex(a).value * Pow16(|b|) + ParseHex(b).value)
    decreases |b|
  {
    if b == [] {
      assert a + b == a;
    } else {
      var init := b[..|b| - 1];
      assert (a + b)[..|a + b| - 1] == a + init;
      ParseHexConcat(a, init);
      var x, y := ParseHex(a).value, ParseHex(init).value;
      var low := HexValue(b[|b| - 1]).value;
      ShiftDigit(x, Pow16(|init|), y, low);
      assert Pow16(|b|) == Pow16(|init|) * 16;
    }
  }

  /** One more digit after a number with `x` in front of it. */
  lemma ShiftDigit(x: int, p: int, y: int, low: int)
    ensures (x * p + y) * 16 + low == x * (p * 16) + (y * 16 + low)
  {
  }

  /** A group of `k` digits, `k` at most 12, reads back under
      `Long.parseLong` as the number it spells. */
  lemma ParseLongOfDigits(g: string)
    requires 1 <= |g| <= 12 && forall i :: 0 <= i < |g| ==> HexValue(g[i]).Some?
    ensures ParseHex(g).Some? && ParseLongHex(g) == ParseHex(g)
  {
    ParseHexOfHex(g);
    ParseHexBound(g);
    Pow16Mono(|g|, 12);
    Pow16Add(8, 4);
    assert Pow16(8) == 0x1_0000_0000;
    assert Pow16(4) == 0x1_0000;
  }

  lemma {:induction false} Pow16Mono(a: nat, b: nat)
    requires a <= b
    ensures Pow16(a) <= Pow16(b)
    decreases b
  {
    if a < b {
      Pow16Mono(a, b - 1);
    }
  }

  /** The text of a UUID splits at its dashes into the five groups of its
      digits. */
  lemma SplitUuidText(u: Uuid)
    ensures Pow16(32) == UUID_LIMIT
    ensures var h := HexDigits(u, 32);
      SplitDashes(UuidText(u)) == [h[0..8], h[8..12], h[12..16], h[16..20], h[20..32]]
  {
    Pow16Of32();
    var h := HexDigits(u, 32);
    HexDigitsAreHex(u, 32);
    var g0, g1, g2, g3, g4 := h[0..8], h[8..12], h[12..16], h[16..20], h[20..32];
    assert forall i :: 0 <= i < 32 ==> h[i] != '-';
    assert '-' !in g0 && '-' !in g1 && '-' !in g2 && '-' !in g3 && '-' !in g4;
    SplitFive(g0, g1, g2, g3, g4);
  }

  /** Five groups without dashes joined by dashes split back into those
      groups. */
  lemma SplitFive(g0: string, g1: string, g2: string, g3: string, g4: string)
    requires '-' !in g0 && '-' !in g1 && '-' !in g2 && '-' !in g3 && '-' !in g4
    ensures SplitDashes(g0 + "-" + g1 + "-" + g2 + "-" + g3 + "-" + g4) == [g0, g1, g2, g3, g4]
  {
    SplitNone(g0);
    SplitLastGroup(g0, g1);
    var p1 := g0 + "-" + g1;
    SplitLastGroup(p1, g2);
    var p2 := p1 + "-" + g2;
    SplitLastGroup(p2, g3);
    var p3 := p2 + "-" + g3;
    SplitLastGroup(p3, g4);
  }

  /** A text of five groups whose values fit their widths is read as those
      values packed. */
  lemma ParseUuidOfGroups(s: string, a: nat, b: nat, c: nat, d: nat, e: nat)
    requires |s| <= 36 && |SplitDashes(s)| == 5
    requires ParseLongHex(SplitDashes(s)[0]) == Some(a) && ParseLongHex(SplitDashes(s)[1]) == Some(b)
    requires ParseLongHex(SplitDashes(s)[2]) == Some(c) && ParseLongHex(SplitDashes(s)[3]) == Some(d)
    requires ParseLongHex(SplitDashes(s)[4]) == Some(e)
    requires GroupsFit(a, b, c, d, e)
    ensures ParseUuid(s) == Some(Pack(a, b, c, d, e))
  {
    ReadGroupsAll(SplitDashes(s), [a, b, c, d, e]);
    assert LowBits(a, 0x1_0000_0000) == a && LowBits(e, 0x1_0000_0000_0000) == e;
    assert LowBits(b, 0x1_0000) == b && LowBits(c, 0x1_0000) == c && LowBits(d, 0x1_0000) == d;
  }

  /** Reading back the text of a UUID gives that UUID. */
  lemma UuidRoundTrip(u: Uuid)
    ensures ParseUuid(UuidText(u)) == Some(u)
  {
    var a, b, c, d, e := UuidTextGroups(u);
    ParseUuidOfGroups(UuidText(u), a, b, c, d, e);
  }

  /** The five groups of a UUID's text, as `Long.parseLong` reads them, pack
      back into the UUID. */
  lemma UuidTextGroups(u: Uuid) returns (a: nat, b: nat, c: nat, d: nat, e: nat)
    ensures |SplitDashes(UuidText(u))| == 5
    ensures ParseLongHex(SplitDashes(UuidText(u))[0]) == Some(a) && ParseLongHex(SplitDashes(UuidText(u))[1]) == Some(b)
    ensures ParseLongHex(SplitDashes(UuidText(u))[2]) == Some(c) && ParseLongHex(SplitDashes(UuidText(u))[3]) == Some(d)
    ensures ParseLongHex(SplitDashes(UuidText(u))[4]) == Some(e)
    ensures GroupsFit(a, b, c, d, e)
    ensures Pack(a, b, c, d, e) == u
  {
    SplitUuidText(u);
    var h := HexDigits(u, 32);
    HexRoundTrip(u, 32);
    HexDigitsAreHex(u, 32);
    a, b, c, d, e := DigitGroups(h);
    var g := SplitDashes(UuidText(u));
    assert g[0] == h[0..8] && g[1] == h[8..12] && g[2] == h[12..16];
    assert g[3] == h[16..20] && g[4] == h[20..32];
  }

  /** The five groups of 32 hexadecimal digits, read by `Long.parseLong`,
      pack into the number the digits spell. */
  lemma DigitGroups(h: string) returns (a: nat, b: nat, c: nat, d: nat, e: nat)
    requires |h| == 32 && forall k :: 0 <= k < 32 ==> HexValue(h[k]).Some?
    ensures ParseLongHex(h[0..8]) == Some(a) && ParseLongHex(h[8..12]) == Some(b)
    ensures ParseLongHex(h[12..16]) == Some(c) && ParseLongHex(h[16..20]) == Some(d)
    ensures ParseLongHex(h[20..32]) == Some(e)
    ensures GroupsFit(a, b, c, d, e) && ParseHex(h) == Some(Pack(a, b, c, d, e))
  {
    a := ParseLongOfSlice(h, 0, 8);
    b := ParseLongOfSlice(h, 8, 12);
    c := ParseLongOfSlice(h, 12, 16);
    d := ParseLongOfSlice(h, 16, 20);
    e := ParseLongOfSlice(h, 20, 32);
    assert h[..8] == h[0..8];
    ParseHexGroups(h, a, b, c, d, e);
  }

  /** A slice of at most 12 hexadecimal digits reads the same under
      `ParseHex` and `Long.parseLong`. */
  lemma ParseLongOfSlice(h: string, i: nat, j: nat) returns (v: nat)
    requires i < j <= |h| && j - i <= 12
    requires forall k :: 0 <= k < |h| ==> HexValue(h[k]).Some?
    ensures ParseHex(h[i..j]) == Some(v) && ParseLongHex(h[i..j]) == Some(v)
  {
    var g := h[i..j];
    assert forall k :: 0 <= k < |g| ==> HexValue(g[k]).Some? by {
      forall k | 0 <= k < |g|
        ensures HexValue(g[k]).Some?
      {
        assert g[k] == h[i + k];
      }
    }
    ParseLongOfDigits(g);
    v := ParseHex(g).value;
  }

  lemma GroupWidths()
    ensures Pow16(4) == 0x1_0000 && Pow16(8) == 0x1_0000_0000 && Pow16(12) == 0x1_0000_0000_0000
  {
    Pow16Add(8, 4);
  }

  /** The 8, 4, 4, 4 and 12 digits of a 32-digit text, each read as a
      number, pack into the number the whole text spells. */
  lemma ParseHexGroups(h: string, a: nat, b: nat, c: nat, d: nat, e: nat)
    requires |h| == 32
    requires ParseHex(h[..8]) == Some(a) && ParseHex(h[8..12]) == Some(b) && ParseHex(h[12..16]) == Some(c)
    requires ParseHex(h[16..20]) == Some(d) && ParseHex(h[20..32]) == Some(e)
    ensures GroupsFit(a, b, c, d, e)
    ensures ParseHex(h) == Some(Pack(a, b, c, d, e))
  {
    assert GroupsFit(a, b, c, d, e) by {
      GroupWidths();
      ParseHexBound(h[..8]);
      ParseHexBound(h[8..12]);
      ParseHexBound(h[12..16]);
      ParseHexBound(h[16..20]);
      ParseHexBound(h[20..32]);
    }
    var ab := a * 0x1_0000 + b;
    var abc := ab * 0x1_0000 + c;
    var abcd := abc * 0x1_0000 + d;
    FirstFourGroups(h, a, b, c, d);
    AppendLastGroup(h, abcd, e);
    PackInSteps(a, b, c, d, e, ab, abc, abcd);
  }

  /** The first 20 digits of a text, read group by group. */
  lemma FirstFourGroups(h: string, a: nat, b: nat, c: nat, d: nat)
    requires |h| >= 20
    requires ParseHex(h[..8]) == Some(a) && ParseHex(h[8..12]) == Some(b) && ParseHex(h[12..16]) == Some(c)
    requires ParseHex(h[16..20]) == Some(d)
    ensures ParseHex(h[..20]) == Some(((a * 0x1_0000 + b) * 0x1_0000 + c) * 0x1_0000 + d)
  {
    AppendGroup(h, 8, 12, a, b);
    AppendGroup(h, 12, 16, a * 0x1_0000 + b, c);
    AppendGroup(h, 16, 20, (a * 0x1_0000 + b) * 0x1_0000 + c, d);
  }

  /** A group of 4 digits after a prefix shifts the prefix's value by 16 bits. */
  lemma AppendGroup(h: string, i: nat, j: nat, vx: nat, vy: nat)
    requires i <= j <= |h| && j - i == 4
    requires ParseHex(h[..i]) == Some(vx) && ParseHex(h[i..j]) == Some(vy)
    ensures ParseHex(h[..j]) == Some(vx * 0x1_0000 + vy)
  {
    assert h[..j] == h[..i] + h[i..j];
    assert Pow16(|h[i..j]|) == 0x1_0000 by {
      GroupWidths();
    }
    ParseHexAppend(h[..i], h[i..j], vx, vy, 0x1_0000);
  }

  /** The last 12 digits of a 32-digit text shift the value of the first 20
      by 48 bits. */
  lemma AppendLastGroup(h: string, vx: nat, vy: nat)
    requires |h| == 32
    requires ParseHex(h[..20]) == Some(vx) && ParseHex(h[20..32]) == Some(vy)
    ensures ParseHex(h) == Some(vx * 0x1_0000_0000_0000 + vy)
  {
    assert h == h[..20] + h[20..32];
    assert Pow16(|h[20..32]|) == 0x1_0000_0000_0000 by {
      GroupWidths();
    }
    ParseHexAppend(h[..20], h[20..32], vx, vy, 0x1_0000_0000_0000);
  }

  /** `ParseHexConcat` with the weight of the second text named. */
  lemma ParseHexAppend(x: string, y: string, vx: nat, vy: nat, weight: nat)
    requires ParseHex(x) == Some(vx) && ParseHex(y) == Some(vy) && Pow16(|y|) == weight
    ensures ParseHex(x + y) == Some(vx * weight + vy)
  {
    ParseHexConcat(x, y);
  }

  /** `Pack` built up one group at a time. */
  lemma PackInSteps(a: nat, b: nat, c: nat, d: nat, e: nat, ab: nat, abc: nat, abcd: nat)
    requires GroupsFit(a, b, c, d, e)
    requires ab == a * 0x1_0000 + b && abc == ab * 0x1_0000 + c && abcd == abc * 0x1_0000 + d
    ensures Pack(a, b, c, d, e) == abcd * 0x1_0000_0000_0000 + e
  {
  }

  /** Different UUIDs have different texts. */
  lemma UuidTextInjective(a: Uuid, b: Uuid)
    requires UuidText(a) == UuidText(b)
    ensures a == b
  {
    UuidRoundTrip(a);
    UuidRoundTrip(b);
  }

  /** `UUID.hashCode()`: the two 64-bit halves xor-ed, then the two 32-bit halves
      of that xor-ed, read as a signed `int`. */
  function UuidHash(u: Uuid): (h: int)
    ensures IsInt32(h)
  {
    var msb := (u / 0x1_0000_0000_0000_0000) as bv64;
    var lsb := (u % 0x1_0000_0000_0000_0000) as bv64;
    var hilo := msb ^ lsb;
    var folded := ((hilo >> 32) ^ hilo) & 0xFFFF_FFFF;
    var unsigned := folded as int;
    if unsigned <= INT_MAX then unsigned else unsigned - 0x1_0000_0000
  }
}
