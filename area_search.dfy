/** Walks through the block world, the vocabulary of the flood fills of the
    bucket and the tree chopper: a walk moves by one of a set of offsets and
    stays on blocks of allowed materials. */
module AreaSearch {
  import opened Common
  import opened Materials
  import opened Game

  /** The offset that leads from `a` to `b`. */
  function Diff(a: Pos, b: Pos): (d: Pos)
    ensures Relative(a, d) == b
  {
    Pos(b.x - a.x, b.y - a.y, b.z - a.z)
  }

  function Last<T>(s: seq<T>): T
    requires |s| > 0
  {
    s[|s| - 1]
  }

  /** `path` is a walk on blocks whose material is in `allowed`, each move an
      offset in `steps`. */
  predicate IsPath(blocks: map<Pos, Material>, allowed: set<Material>, steps: set<Pos>, path: seq<Pos>) {
    |path| >= 1 &&
    (forall i :: 0 <= i < |path| ==> TypeIn(blocks, path[i]) in allowed) &&
    (forall i :: 0 <= i < |path| - 1 ==> Diff(path[i], path[i + 1]) in steps)
  }

  /** `to` can be reached from `from` by a walk. */
  ghost predicate Reachable(blocks: map<Pos, Material>, allowed: set<Material>, steps: set<Pos>, from: Pos, to: Pos) {
    exists path :: IsPath(blocks, allowed, steps, path) && path[0] == from && Last(path) == to
  }

  /** `to` can be reached from `from` by a walk of at most `n` moves. */
  ghost predicate ReachableWithin(blocks: map<Pos, Material>, allowed: set<Material>, steps: set<Pos>, from: Pos,
                                  to: Pos, n: nat) {
    exists path :: IsPath(blocks, allowed, steps, path) && path[0] == from && Last(path) == to && |path| <= n + 1
  }

  /** A walk without its last block is a walk. */
  lemma PathInit(blocks: map<Pos, Material>, allowed: set<Material>, steps: set<Pos>, path: seq<Pos>)
    requires IsPath(blocks, allowed, steps, path) && |path| > 1
    ensures IsPath(blocks, allowed, steps, path[..|path| - 1])
    ensures Relative(path[|path| - 2], Diff(path[|path| - 2], Last(path))) == Last(path)
  {
    var prefix := path[..|path| - 1];
    forall i | 0 <= i < |prefix| - 1
      ensures Diff(prefix[i], prefix[i + 1]) in steps
    {
      assert prefix[i] == path[i] && prefix[i + 1] == path[i + 1];
    }
  }

  /** A walk extended by one allowed step is a walk. */
  lemma PathExtend(blocks: map<Pos, Material>, allowed: set<Material>, steps: set<Pos>, path: seq<Pos>, d: Pos)
    requires IsPath(blocks, allowed, steps, path)
    requires d in steps && TypeIn(blocks, Relative(Last(path), d)) in allowed
    ensures IsPath(blocks, allowed, steps, path + [Relative(Last(path), d)])
  {
    var q := path + [Relative(Last(path), d)];
    assert Diff(q[|path| - 1], q[|path|]) == d;
  }

  /** Every allowed block one step away from a member of `s` is in `t`. */
  predicate ClosedInto(blocks: map<Pos, Material>, allowed: set<Material>, steps: set<Pos>, s: set<Pos>, t: set<Pos>) {
    forall p, d {:trigger TypeIn(blocks, Relative(p, d))} ::
      p in s && d in steps && TypeIn(blocks, Relative(p, d)) in allowed ==> Relative(p, d) in t
  }

  /** A set that holds the start of a walk and every allowed block one step
      away from each of its members holds the whole walk. */
  lemma {:induction false} ClosedContainsPath(blocks: map<Pos, Material>, allowed: set<Material>, steps: set<Pos>,
                                              s: set<Pos>, path: seq<Pos>)
    requires IsPath(blocks, allowed, steps, path) && path[0] in s
    requires ClosedInto(blocks, allowed, steps, s, s)
    ensures Last(path) in s
    decreases |path|
  {
    if |path| > 1 {
      var prefix := path[..|path| - 1];
      PathInit(blocks, allowed, steps, path);
      ClosedContainsPath(blocks, allowed, steps, s, prefix);
      var d := Diff(path[|path| - 2], path[|path| - 1]);
      assert Relative(Last(prefix), d) == Last(path);
    }
  }

  /** Closing over one more block: once every allowed neighbour of `current`
      is in `t`, `s + {current}` is closed into `t` as well. */
  lemma ClosedIntoAdd(blocks: map<Pos, Material>, allowed: set<Material>, steps: set<Pos>,
                      s: set<Pos>, t0: set<Pos>, t: set<Pos>, current: Pos)
    requires ClosedInto(blocks, allowed, steps, s, t0) && t0 <= t
    requires forall d :: d in steps && TypeIn(blocks, Relative(current, d)) in allowed ==> Relative(current, d) in t
    ensures ClosedInto(blocks, allowed, steps, s + {current}, t)
  {
  }

  /** A closed set that holds the start, when the start may be walked on at
      all, holds every block reachable from it. */
  lemma ClosedContainsReachable(blocks: map<Pos, Material>, allowed: set<Material>, steps: set<Pos>,
                                s: set<Pos>, start: Pos)
    requires TypeIn(blocks, start) in allowed ==> start in s
    requires ClosedInto(blocks, allowed, steps, s, s)
    ensures forall p :: Reachable(blocks, allowed, steps, start, p) ==> p in s
  {
    forall p | Reachable(blocks, allowed, steps, start, p)
      ensures p in s
    {
      var path :| IsPath(blocks, allowed, steps, path) && path[0] == start && Last(path) == p;
      ClosedContainsPath(blocks, allowed, steps, s, path);
    }
  }

  /** Every member of `s` may be walked on and is reachable from `start`. */
  ghost predicate Discovered(blocks: map<Pos, Material>, allowed: set<Material>, steps: set<Pos>, start: Pos, s: set<Pos>) {
    forall p :: p in s ==> TypeIn(blocks, p) in allowed && Reachable(blocks, allowed, steps, start, p)
  }

  /** An allowed block one step from a discovered one is reachable too. */
  lemma DiscoveredAdd(blocks: map<Pos, Material>, allowed: set<Material>, steps: set<Pos>, start: Pos,
                      s: set<Pos>, from: Pos, d: Pos)
    requires Discovered(blocks, allowed, steps, start, s)
    requires from in s && d in steps && TypeIn(blocks, Relative(from, d)) in allowed
    ensures Discovered(blocks, allowed, steps, start, s + {Relative(from, d)})
  {
    var path :| IsPath(blocks, allowed, steps, path) && path[0] == start && Last(path) == from;
    PathExtend(blocks, allowed, steps, path, d);
    var longer := path + [Relative(from, d)];
    assert longer[0] == start && Last(longer) == Relative(from, d);
  }

  /** The allowed blocks one step away from `from`. */
  function AllowedNeighbors(blocks: map<Pos, Material>, allowed: set<Material>, steps: set<Pos>, from: Pos): set<Pos> {
    set d | d in steps && TypeIn(blocks, Relative(from, d)) in allowed :: Relative(from, d)
  }

  /** Allowed neighbours of a discovered block are reachable too. */
  lemma DiscoveredAddAll(blocks: map<Pos, Material>, allowed: set<Material>, steps: set<Pos>, start: Pos,
                         s: set<Pos>, from: Pos, added: set<Pos>)
    requires Discovered(blocks, allowed, steps, start, s)
    requires from in s && added <= AllowedNeighbors(blocks, allowed, steps, from)
    ensures Discovered(blocks, allowed, steps, start, s + added)
  {
    forall q | q in added
      ensures TypeIn(blocks, q) in allowed && Reachable(blocks, allowed, steps, start, q)
    {
      var d :| d in steps && TypeIn(blocks, Relative(from, d)) in allowed && q == Relative(from, d);
      DiscoveredAdd(blocks, allowed, steps, start, s, from, d);
    }
  }

  /** A walk of one block: the start reaches itself when it may be walked on. */
  lemma DiscoveredStart(blocks: map<Pos, Material>, allowed: set<Material>, steps: set<Pos>, start: Pos)
    requires TypeIn(blocks, start) in allowed
    ensures Discovered(blocks, allowed, steps, start, {start})
  {
    assert IsPath(blocks, allowed, steps, [start]);
  }

  /** The offsets of the six face neighbours, in the order `(1,0,0)`,
      `(-1,0,0)`, `(0,1,0)`, `(0,-1,0)`, `(0,0,1)`, `(0,0,-1)`. */
  const Axis6: seq<Pos> := [Pos(1, 0, 0), Pos(-1, 0, 0), Pos(0, 1, 0), Pos(0, -1, 0), Pos(0, 0, 1), Pos(0, 0, -1)]

  /** The eight other blocks of the same layer, `x` outer and `z` inner, each
      from -1 to 1, the centre skipped. */
  const Layer8: seq<Pos> :=
    [Pos(-1, 0, -1), Pos(-1, 0, 0), Pos(-1, 0, 1), Pos(0, 0, -1), Pos(0, 0, 1), Pos(1, 0, -1), Pos(1, 0, 0), Pos(1, 0, 1)]

  /** The 26 neighbours of a block in the order of the triple loops over `x`,
      then `y`, then `z`, each from -1 to 1, the centre skipped. */
  const Cube26: seq<Pos> := [
     Pos(-1, -1, -1), Pos(-1, -1, 0), Pos(-1, -1, 1), Pos(-1, 0, -1), Pos(-1, 0, 0), Pos(-1, 0, 1),
     Pos(-1, 1, -1), Pos(-1, 1, 0), Pos(-1, 1, 1), Pos(0, -1, -1), Pos(0, -1, 0), Pos(0, -1, 1),
     Pos(0, 0, -1), Pos(0, 0, 1), Pos(0, 1, -1), Pos(0, 1, 0), Pos(0, 1, 1), Pos(1, -1, -1),
     Pos(1, -1, 0), Pos(1, -1, 1), Pos(1, 0, -1), Pos(1, 0, 0), Pos(1, 0, 1), Pos(1, 1, -1),
     Pos(1, 1, 0), Pos(1, 1, 1)
  ]

  /** A neighbour offset: each coordinate in -1..1, not all zero. */
  predicate UnitOffset(d: Pos) {
    -1 <= d.x <= 1 && -1 <= d.y <= 1 && -1 <= d.z <= 1 && d != Pos(0, 0, 0)
  }

  /** The 26 offsets are exactly the neighbour offsets. */
  lemma Cube26Offsets(d: Pos)
    ensures d in Cube26 <==> UnitOffset(d)
  {
    if UnitOffset(d) {
      assert d == Pos(d.x, d.y, d.z);
    }
  }

  /** `|K - V|` drops by one when a member of `K` joins `V`. */
  lemma UnvisitedShrinks(keys: set<Pos>, visited: set<Pos>, n: Pos)
    requires n in keys && n !in visited
    ensures |keys - (visited + {n})| == |keys - visited| - 1
  {
    assert keys - (visited + {n}) == (keys - visited) - {n};
  }

  /** What the search has left to do: the blocks it has not visited, plus the
      ones waiting in its queue. */
  function Pending(blocks: map<Pos, Material>, visited: set<Pos>, queue: seq<Pos>): nat {
    |blocks.Keys - visited| + |queue|
  }
}
