/** Shared vocabulary: optional values, block coordinates and the Java integer
    arithmetic the plugin relies on. */
module Common {

  /** Java's nullable references: `None` stands for `null`. */
  datatype Option<+T> = None | Some(value: T) {
    function GetOr(default: T): T {
      match this
      case Some(v) => v
      case None => default
    }
  }

  /** Integer block coordinates `(x, y, z)`. */
  datatype Pos = Pos(x: int, y: int, z: int)

  /** `Block.getRelative(dx, dy, dz)` and `Location.add(dx, dy, dz)`. */
  function Relative(p: Pos, d: Pos): Pos {
    Pos(p.x + d.x, p.y + d.y, p.z + d.z)
  }

  /** The square of one coordinate difference. */
  function Square(n: int): (r: nat)
    ensures r == 0 <==> n == 0
  {
    if n == 0 then 0
    else
      assert n * n >= (if n > 0 then n else -n) by {
        if n > 0 {
          assert n * n >= n * 1;
        } else {
          assert n * n == (-n) * (-n) >= (-n) * 1;
        }
      }
      n * n
  }

  /** `Location.distanceSquared` between two block locations. */
  function DistSq(a: Pos, b: Pos): (r: int)
    ensures r >= 0
    ensures r == 0 <==> a == b
  {
    Square(a.x - b.x) + Square(a.y - b.y) + Square(a.z - b.z)
  }

  const INT_MIN: int := -0x8000_0000
  const INT_MAX: int := 0x7FFF_FFFF

  predicate IsInt32(n: int) {
    INT_MIN <= n <= INT_MAX
  }

  /** Two's-complement truncation of an integer to Java's 32-bit `int`. */
  function ToInt32(n: int): (r: int)
    ensures IsInt32(r)
    ensures (r - n) % 0x1_0000_0000 == 0
    ensures IsInt32(n) ==> r == n
  {
    var m := (n - INT_MIN) % 0x1_0000_0000;
    m + INT_MIN
  }

  /** Java's `/` on `long`: the quotient is truncated toward zero. */
  function JavaDiv(a: int, b: int): (q: int)
    requires b > 0
    ensures a >= 0 ==> q == a / b
    ensures a >= 0 ==> q * b <= a < q * b + b
    ensures a < 0 ==> q <= 0 && q * b >= a > q * b - b
  {
    if a >= 0 then a / b else -((-a) / b)
  }

  /** `Math.max(0, JavaDiv(a, b))`: for a negative numerator the result is 0 under
      either rounding. */
  lemma JavaDivClampedIsFloorClamped(a: int, b: int)
    requires b > 0
    ensures (if JavaDiv(a, b) > 0 then JavaDiv(a, b) else 0) == (if a / b > 0 then a / b else 0)
  {
  }

  lemma AppendAssoc<T>(a: seq<T>, b: seq<T>, c: seq<T>)
    ensures a + b + c == a + (b + c)
  {
  }

  /** Removing keys one more at a time. */
  lemma MapRemoveStep<K, V>(m: map<K, V>, a: set<K>, k: K)
    ensures m - a - {k} == m - (a + {k})
  {
  }

  /** Removing the same keys again changes nothing. */
  lemma MapRemoveTwice<K, V>(m: map<K, V>, a: set<K>)
    ensures m - a - a == m - a
  {
  }

  /** The first index from `i` on whose element satisfies `p`. */
  function FirstFrom<T>(s: seq<T>, p: T -> bool, i: nat): (r: Option<nat>)
    requires i <= |s|
    ensures r.Some? ==> i <= r.value < |s| && p(s[r.value]) && forall j :: i <= j < r.value ==> !p(s[j])
    ensures r.None? ==> forall j :: i <= j < |s| ==> !p(s[j])
    decreases |s| - i
  {
    if i == |s| then None
    else if p(s[i]) then Some(i)
    else FirstFrom(s, p, i + 1)
  }

  /** What was appended to `a` is what follows its length. */
  lemma DropPrefix<T>(a: seq<T>, b: seq<T>)
    ensures (a + b)[|a|..] == b
  {
  }

  lemma DropSnoc<T>(s: seq<T>, h: nat, x: T)
    requires h <= |s|
    ensures (s + [x])[h..] == s[h..] + [x]
  {
  }

  /** A map that agrees with `m` everywhere but at `k`, where it holds `v`. */
  lemma MapUpdateMatches<K, V>(m: map<K, V>, m': map<K, V>, k: K, v: V)
    requires k in m && m'.Keys == m.Keys && m'[k] == v
    requires forall p :: p in m && p != k ==> m'[p] == m[p]
    ensures m[k := v] == m'
  {
  }

  /** A second update of the same key overrides the first. */
  lemma MapUpdateTwice<K, V>(m: map<K, V>, k: K, a: V, b: V)
    ensures m[k := a][k := b] == m[k := b]
  {
  }
}
