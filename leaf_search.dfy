/** The leaf test of `TreeChopperListener.isLeafConnectedToTree`: a
    breadth-first walk from a leaf through logs and leaves, level by level,
    that succeeds as soon as it meets a block of the tree. */
module LeafSearch {
  import opened Common
  import opened Materials
  import opened Game
  import opened Sorting
  import opened AreaSearch
  import opened NeighborScan
  import opened TreeSearch

  /** The logs and leaves among the 26 blocks around the members of `s`. */
  function Grow(blocks: map<Pos, Material>, s: set<Pos>): set<Pos> {
    set p, q | p in s && q in Around(p, Cube26, |Cube26|) && TypeIn(blocks, q) in TreeMaterials :: q
  }

  lemma GrowOne(blocks: map<Pos, Material>, c: Pos)
    ensures Grow(blocks, {c}) == AllowedIn(blocks, TreeMaterials, Around(c, Cube26, |Cube26|))
  {
  }

  lemma GrowUnion(blocks: map<Pos, Material>, a: set<Pos>, b: set<Pos>)
    ensures Grow(blocks, a + b) == Grow(blocks, a) + Grow(blocks, b)
  {
  }

  /** `Grow` as a function value, the growth step of the leaf walk. */
  function GrowIn(blocks: map<Pos, Material>): set<Pos> -> set<Pos> {
    s => Grow(blocks, s)
  }

  /** What the growth step `g` adds around the single block `c`. */
  ghost function GrowAt(g: set<Pos> -> set<Pos>, c: Pos): set<Pos> {
    g({c})
  }

  /** What the leaf walk needs of its growth step `g`: it meets nothing
      around no block, the logs and leaves around a single block, and one
      more block adds what is around that block. */
  ghost predicate GrowsLike(blocks: map<Pos, Material>, allowed: set<Material>, offsets: seq<Pos>,
                            g: set<Pos> -> set<Pos>) {
    g({}) == {} &&
    (forall c {:trigger GrowAt(g, c)} :: GrowAt(g, c) == AllowedIn(blocks, allowed, Around(c, offsets, |offsets|))) &&
    (forall a, c {:trigger g(a + {c})} :: g(a + {c}) == g(a) + GrowAt(g, c))
  }

  lemma GrowInGrows(blocks: map<Pos, Material>)
    ensures GrowsLike(blocks, TreeMaterials, Cube26, GrowIn(blocks))
  {
    forall c ensures GrowAt(GrowIn(blocks), c) == AllowedIn(blocks, TreeMaterials, Around(c, Cube26, |Cube26|)) {
      GrowOne(blocks, c);
    }
    forall a, c ensures GrowIn(blocks)(a + {c}) == GrowIn(blocks)(a) + GrowAt(GrowIn(blocks), c) {
      GrowUnion(blocks, a, {c});
    }
  }

  /** The blocks a walk from `from` growing by `g` meets within `n` moves:
      `from` itself, then whatever `g` adds to the blocks met one move
      earlier. */
  function Reach(g: set<Pos> -> set<Pos>, from: Pos, n: nat): set<Pos> {
    if n == 0 then {from} else Reach(g, from, n - 1) + g(Reach(g, from, n - 1))
  }

  /** What is met within `m` moves is met within any `n >= m`. */
  lemma {:induction false} ReachMono(g: set<Pos> -> set<Pos>, from: Pos, m: nat, n: nat)
    requires m <= n
    ensures Reach(g, from, m) <= Reach(g, from, n)
    decreases n
  {
    if m < n {
      ReachMono(g, from, m, n - 1);
    }
  }

  /** Once a move meets nothing new, no later move does either. */
  lemma {:induction false} ReachStable(g: set<Pos> -> set<Pos>, from: Pos, k: nat, n: nat)
    requires Reach(g, from, k + 1) == Reach(g, from, k) && k <= n
    ensures Reach(g, from, n) == Reach(g, from, k)
    decreases n
  {
    if n > k + 1 {
      ReachStable(g, from, k, n - 1);
    }
  }

  /** The blocks the leaf walk from `from` meets within `n` moves through
      logs and leaves. */
  function Within(blocks: map<Pos, Material>, from: Pos, n: nat): set<Pos> {
    Reach(GrowIn(blocks), from, n)
  }

  /** What a growth step adds to a set is what it adds around each of its
      members. */
  lemma {:induction false} GrowsLikeMember(blocks: map<Pos, Material>, allowed: set<Material>, offsets: seq<Pos>,
                                           g: set<Pos> -> set<Pos>, s: set<Pos>, q: Pos)
    requires GrowsLike(blocks, allowed, offsets, g)
    ensures q in g(s) <==> exists c :: c in s && q in GrowAt(g, c)
    decreases |s|
  {
    if s == {} {
    } else {
      var x :| x in s;
      var rest := s - {x};
      GrowsLikeMember(blocks, allowed, offsets, g, rest, q);
      assert s == rest + {x};
      assert g(s) == g(rest) + GrowAt(g, x);
      if q in GrowAt(g, x) {
        assert x in s;
      }
      if q in g(rest) {
        var c :| c in rest && q in GrowAt(g, c);
        assert c in s;
      }
      if q !in g(s) {
        forall c | c in s
          ensures q !in GrowAt(g, c)
        {
          if c != x {
            assert c in rest;
          }
        }
      }
    }
  }

  /** A block met within `n` moves of a walk growing by `g` is at the end of
      a path of at most `n` moves through `allowed` blocks, when the walk
      starts on an allowed block and `steps` are the moves `offsets`. */
  lemma {:induction false} ReachHasPath(blocks: map<Pos, Material>, allowed: set<Material>, offsets: seq<Pos>,
                                        steps: set<Pos>, g: set<Pos> -> set<Pos>, from: Pos, n: nat, p: Pos)
    requires GrowsLike(blocks, allowed, offsets, g) && forall d :: d in steps <==> d in offsets
    requires TypeIn(blocks, from) in allowed && p in Reach(g, from, n)
    ensures ReachableWithin(blocks, allowed, steps, from, p, n)
    decreases n
  {
    if n == 0 {
      assert IsPath(blocks, allowed, steps, [from]);
    } else if p in Reach(g, from, n - 1) {
      ReachHasPath(blocks, allowed, offsets, steps, g, from, n - 1, p);
    } else {
      GrowsLikeMember(blocks, allowed, offsets, g, Reach(g, from, n - 1), p);
      var c :| c in Reach(g, from, n - 1) && p in GrowAt(g, c);
      ReachHasPath(blocks, allowed, offsets, steps, g, from, n - 1, c);
      var path :| IsPath(blocks, allowed, steps, path) && path[0] == from && Last(path) == c && |path| <= n;
      var i :| 0 <= i < |offsets| && p == Relative(c, offsets[i]);
      PathExtend(blocks, allowed, steps, path, offsets[i]);
      assert (path + [p])[0] == from && Last(path + [p]) == p;
    }
  }

  /** The end of a path of at most `n` moves through `allowed` blocks is met
      within `n` moves. */
  lemma {:induction false} PathInReach(blocks: map<Pos, Material>, allowed: set<Material>, offsets: seq<Pos>,
                                       steps: set<Pos>, g: set<Pos> -> set<Pos>, from: Pos, n: nat, path: seq<Pos>)
    requires GrowsLike(blocks, allowed, offsets, g) && forall d :: d in steps <==> d in offsets
    requires IsPath(blocks, allowed, steps, path) && path[0] == from && |path| <= n + 1
    ensures Last(path) in Reach(g, from, n)
    decreases n
  {
    if |path| == 1 {
      ReachMono(g, from, 0, n);
    } else {
      var init := path[..|path| - 1];
      PathInit(blocks, allowed, steps, path);
      PathInReach(blocks, allowed, offsets, steps, g, from, n - 1, init);
      var c := Last(init);
      AroundMember(c, offsets, Diff(c, Last(path)));
      assert Last(path) in GrowAt(g, c);
      GrowsLikeMember(blocks, allowed, offsets, g, Reach(g, from, n - 1), Last(path));
    }
  }

  /** `Within` against walks: for a start on a log or leaf, a block is met
      within `n` moves exactly when a walk of at most `n` moves through logs
      and leaves, each to one of the 26 surrounding blocks, leads to it. */
  lemma WithinIff(blocks: map<Pos, Material>, from: Pos, n: nat, p: Pos)
    requires TypeIn(blocks, from) in TreeMaterials
    ensures p in Within(blocks, from, n) <==> ReachableWithin(blocks, TreeMaterials, TreeSteps, from, p, n)
  {
    GrowInGrows(blocks);
    forall d ensures d in TreeSteps <==> d in Cube26 {
      TreeStepsIff(d);
    }
    if p in Within(blocks, from, n) {
      ReachHasPath(blocks, TreeMaterials, Cube26, TreeSteps, GrowIn(blocks), from, n, p);
    }
    if ReachableWithin(blocks, TreeMaterials, TreeSteps, from, p, n) {
      var path :| IsPath(blocks, TreeMaterials, TreeSteps, path) && path[0] == from && Last(path) == p &&
                  |path| <= n + 1;
      PathInReach(blocks, TreeMaterials, Cube26, TreeSteps, GrowIn(blocks), from, n, path);
    }
  }

  /** The first `k` blocks of a level. */
  function Prefix(level: seq<Pos>, k: nat): set<Pos>
    requires k <= |level|
  {
    set i | 0 <= i < k :: level[i]
  }

  lemma PrefixNext(level: seq<Pos>, k: nat)
    requires k < |level|
    ensures Prefix(level, k + 1) == Prefix(level, k) + {level[k]}
  {
    assert forall i {:trigger level[i]} :: 0 <= i < k + 1 ==> i < k || i == k;
  }

  lemma PrefixAll(level: seq<Pos>)
    ensures Prefix(level, |level|) == Elems(level)
  {
    forall p | p in level
      ensures p in Prefix(level, |level|)
    {
      var i :| 0 <= i < |level| && level[i] == p;
    }
  }

  /** The walk's visited set against the blocks it has met, `met`: every
      block met is visited, and every visited block of an `allowed` material
      has been met (the other blocks it marks are never queued). */
  predicate Seen(blocks: map<Pos, Material>, allowed: set<Material>, visited: set<Pos>, met: set<Pos>) {
    met <= visited && forall p :: p in visited && TypeIn(blocks, p) in allowed ==> p in met
  }

  /** Scanning the neighbours of one block of the level adds those of an
      allowed material to what is met, and queues the ones met for the first
      time. */
  lemma LevelStep(blocks: map<Pos, Material>, allowed: set<Material>, inner: set<Pos>, grown: set<Pos>,
                  visited: set<Pos>, next: seq<Pos>, around: set<Pos>, visited': set<Pos>, added: seq<Pos>)
    requires Seen(blocks, allowed, visited, inner + grown) && Elems(next) == grown - inner
    requires visited' == visited + around && Elems(added) == AllowedIn(blocks, allowed, around - visited)
    ensures Seen(blocks, allowed, visited', inner + (grown + AllowedIn(blocks, allowed, around)))
    ensures Elems(next + added) == (grown + AllowedIn(blocks, allowed, around)) - inner
  {
    ElemsConcat(next, added);
  }

  /** What a level has done after its first `k` blocks, none of them in the
      tree: what `g` finds around them is met, and what is met for the first
      time is queued for the next level. */
  ghost predicate LevelScanned(blocks: map<Pos, Material>, allowed: set<Material>, g: set<Pos> -> set<Pos>,
                               tree: set<Pos>, level: seq<Pos>, k: nat, inner: set<Pos>, visited: set<Pos>,
                               next: seq<Pos>)
    requires k <= |level|
  {
    tree !! Prefix(level, k) &&
    Seen(blocks, allowed, visited, inner + g(Prefix(level, k))) &&
    Elems(next) == g(Prefix(level, k)) - inner
  }

  lemma LevelScannedNext(blocks: map<Pos, Material>, allowed: set<Material>, offsets: seq<Pos>,
                         g: set<Pos> -> set<Pos>, tree: set<Pos>, level: seq<Pos>, k: nat, inner: set<Pos>,
                         visited: set<Pos>, next: seq<Pos>, visited': set<Pos>, added: seq<Pos>)
    requires GrowsLike(blocks, allowed, offsets, g)
    requires k < |level| && level[k] !in tree
    requires LevelScanned(blocks, allowed, g, tree, level, k, inner, visited, next)
    requires visited' == visited + Around(level[k], offsets, |offsets|)
    requires Elems(added) == AllowedIn(blocks, allowed, Around(level[k], offsets, |offsets|) - visited)
    ensures LevelScanned(blocks, allowed, g, tree, level, k + 1, inner, visited', next + added)
  {
    LevelStep(blocks, allowed, inner, g(Prefix(level, k)), visited, next, Around(level[k], offsets, |offsets|),
              visited', added);
    PrefixNext(level, k);
    assert g(Prefix(level, k) + {level[k]}) == g(Prefix(level, k)) + GrowAt(g, level[k]);
  }

  /** One level of the walk: the blocks of `level` are taken off the queue in
      order; the walk succeeds at the first one in the tree, and otherwise
      scans the neighbours of each. `inner` is what was met before this
      level's neighbours are scanned. */
  method ScanLevel(blocks: map<Pos, Material>, allowed: set<Material>, offsets: seq<Pos>, tree: set<Pos>,
                   level: seq<Pos>, visited: set<Pos>, ghost inner: set<Pos>, ghost g: set<Pos> -> set<Pos>)
    returns (hit: bool, visited': set<Pos>, next: seq<Pos>)
    requires GrowsLike(blocks, allowed, offsets, g) && Seen(blocks, allowed, visited, inner)
    ensures hit <==> tree * Elems(level) != {}
    ensures !hit ==> Seen(blocks, allowed, visited', inner + g(Elems(level)))
    ensures !hit ==> Elems(next) == g(Elems(level)) - inner
  {
    visited', next := visited, [];
    assert Prefix(level, 0) == {};
    var k := 0;
    while k < |level|
      invariant 0 <= k <= |level|
      invariant LevelScanned(blocks, allowed, g, tree, level, k, inner, visited', next)
    {
      var current := level[k];
      if current in tree {
        assert current in tree * Elems(level);
        return true, visited', next;
      }
      var visited'', added := MarkAround(blocks, allowed, current, offsets, visited');
      LevelScannedNext(blocks, allowed, offsets, g, tree, level, k, inner, visited', next, visited'', added);
      visited', next := visited'', next + added;
      k := k + 1;
    }
    PrefixAll(level);
    hit := false;
  }

  /** Growing a set and a level together grows each. */
  lemma {:induction false} GrowsLikeUnion(blocks: map<Pos, Material>, allowed: set<Material>, offsets: seq<Pos>,
                                          g: set<Pos> -> set<Pos>, a: set<Pos>, level: seq<Pos>)
    requires GrowsLike(blocks, allowed, offsets, g)
    ensures g(a + Elems(level)) == g(a) + g(Elems(level))
    decreases |level|
  {
    if level == [] {
      assert Elems(level) == {};
      assert a + Elems(level) == a;
    } else {
      var init, c := level[..|level| - 1], level[|level| - 1];
      assert level == init + [c];
      ElemsSnoc(init, c);
      GrowsLikeUnion(blocks, allowed, offsets, g, a, init);
      GrowsLikeUnion(blocks, allowed, offsets, g, {}, init);
      assert a + Elems(level) == (a + Elems(init)) + {c};
      assert {} + Elems(init) == Elems(init);
      assert g(Elems(level)) == g(Elems(init)) + GrowAt(g, c);
    }
  }

  /** The level after `Reach(g, from, n)` adds what `g` finds around the
      blocks met exactly at move `n`: those met earlier have theirs met
      already. */
  lemma NextLevel(blocks: map<Pos, Material>, allowed: set<Material>, offsets: seq<Pos>, g: set<Pos> -> set<Pos>,
                  from: Pos, n: nat, before: set<Pos>, level: seq<Pos>)
    requires GrowsLike(blocks, allowed, offsets, g)
    requires Reach(g, from, n) == before + Elems(level)
    requires if n == 0 then before == {} else before == Reach(g, from, n - 1)
    ensures Reach(g, from, n + 1) == Reach(g, from, n) + g(Elems(level))
  {
    GrowsLikeUnion(blocks, allowed, offsets, g, before, level);
  }

  /** The state of the walk at the start of the level `distance`: what it
      has met is everything within `distance` moves, `before` being what
      was met one move earlier and `level` the rest, in queue order; the
      visited set agrees with what was met; no block met before this level
      is in the tree. */
  ghost predicate Walking(blocks: map<Pos, Material>, allowed: set<Material>, g: set<Pos> -> set<Pos>, leaf: Pos,
                          tree: set<Pos>, distance: nat, before: set<Pos>, visited: set<Pos>, level: seq<Pos>) {
    Reach(g, leaf, distance) == before + Elems(level) &&
    (if distance == 0 then before == {} && level != [] else before == Reach(g, leaf, distance - 1)) &&
    tree !! before &&
    Seen(blocks, allowed, visited, Reach(g, leaf, distance))
  }

  /** A level with no block of the tree leads to the next one. */
  lemma WalkingNext(blocks: map<Pos, Material>, allowed: set<Material>, offsets: seq<Pos>, g: set<Pos> -> set<Pos>,
                    leaf: Pos, tree: set<Pos>, distance: nat, before: set<Pos>, visited: set<Pos>, level: seq<Pos>,
                    visited': set<Pos>, next: seq<Pos>)
    requires GrowsLike(blocks, allowed, offsets, g)
    requires Walking(blocks, allowed, g, leaf, tree, distance, before, visited, level)
    requires tree * Elems(level) == {}
    requires Seen(blocks, allowed, visited', Reach(g, leaf, distance) + g(Elems(level)))
    requires Elems(next) == g(Elems(level)) - Reach(g, leaf, distance)
    ensures Walking(blocks, allowed, g, leaf, tree, distance + 1, Reach(g, leaf, distance), visited', next)
  {
    NextLevel(blocks, allowed, offsets, g, leaf, distance, before, level);
    forall p | p in tree
      ensures p !in Elems(level)
    {
      assert p !in tree * Elems(level);
    }
  }

  /** A walk that stops without meeting the tree, having run out of blocks
      or of moves, met no block of the tree within reach. */
  lemma WalkingEnd(g: set<Pos> -> set<Pos>, leaf: Pos, tree: set<Pos>, distance: nat, before: set<Pos>,
                   level: seq<Pos>, maxDistance: nat)
    requires Reach(g, leaf, distance) == before + Elems(level)
    requires if distance == 0 then before == {} && level != [] else before == Reach(g, leaf, distance - 1)
    requires tree !! before
    requires level == [] || distance > maxDistance
    requires distance <= maxDistance + 1
    ensures tree !! Reach(g, leaf, maxDistance)
  {
    if level == [] {
      ReachStable(g, leaf, distance - 1, maxDistance);
    }
  }

  /** The loop of `isLeafConnectedToTree`, for blocks of the materials
      `allowed` reached through the moves `offsets`, and `g` the matching
      growth step: level by level, until the tree is met, the walk runs out
      of blocks, or `maxDistance` levels are done. */
  method Walk(blocks: map<Pos, Material>, allowed: set<Material>, offsets: seq<Pos>, leaf: Pos, tree: set<Pos>,
              maxDistance: int, ghost g: set<Pos> -> set<Pos>)
    returns (r: bool)
    requires GrowsLike(blocks, allowed, offsets, g)
    ensures r <==> 0 <= maxDistance && tree * Reach(g, leaf, maxDistance) != {}
  {
    var visited: set<Pos> := {leaf};
    var level: seq<Pos> := [leaf];
    var distance := 0;
    ghost var before: set<Pos> := {};
    assert Elems(level) == {leaf};
    while level != [] && distance <= maxDistance
      invariant 0 <= distance && (distance <= maxDistance + 1 || distance == 0)
      invariant Walking(blocks, allowed, g, leaf, tree, distance, before, visited, level)
      decreases maxDistance + 1 - distance
    {
      var hit, visited', next := ScanLevel(blocks, allowed, offsets, tree, level, visited, Reach(g, leaf, distance), g);
      if hit {
        ReachMono(g, leaf, distance, maxDistance);
        return true;
      }
      WalkingNext(blocks, allowed, offsets, g, leaf, tree, distance, before, visited, level, visited', next);
      before := Reach(g, leaf, distance);
      visited, level := visited', next;
      distance := distance + 1;
    }
    if 0 <= maxDistance {
      WalkingEnd(g, leaf, tree, distance, before, level, maxDistance);
    }
    r := false;
  }

  /** `isLeafConnectedToTree`: the walk from `leaf` reaches a block of `tree`
      within `maxDistance` moves through logs and leaves. */
  method IsLeafConnectedToTree(blocks: map<Pos, Material>, leaf: Pos, tree: set<Pos>, maxDistance: int)
    returns (r: bool)
    ensures r <==> 0 <= maxDistance && tree * Within(blocks, leaf, maxDistance) != {}
  {
    GrowInGrows(blocks);
    r := Walk(blocks, TreeMaterials, Cube26, leaf, tree, maxDistance, GrowIn(blocks));
  }
}
