/** `TreeChopperListener.findConnectedLeaves`: every leaf in the cube of a
    given radius around the broken log that lies within four moves of the
    tree is added to it, the cube visited `x` outer, `y` middle and `z`
    inner, each from `-radius` to `radius`. A leaf added early counts as part
    of the tree for the leaves checked after it. */
module LeafScan {
  import opened Common
  import opened Materials
  import opened Game
  import opened AreaSearch
  import opened TreeSearch
  import opened LeafSearch

  /** The number of values from `-r` to `r`. */
  function Span(r: int): nat {
    if r >= 0 then 2 * r + 1 else 0
  }

  /** The blocks of the innermost loop for given `x` and `y`: `z` from `-r`
      to `r`. */
  function Row(c: Pos, x: int, y: int, r: int): seq<Pos> {
    seq(Span(r), k => Relative(c, Pos(x, y, k - r)))
  }

  /** The blocks of the first `m` turns of the middle loop for a given `x`. */
  function Rows(c: Pos, x: int, r: int, m: nat): seq<Pos> {
    if m == 0 then [] else Rows(c, x, r, m - 1) + Row(c, x, m - 1 - r, r)
  }

  /** The blocks of the first `m` turns of the outer loop. */
  function Layers(c: Pos, r: int, m: nat): seq<Pos> {
    if m == 0 then [] else Layers(c, r, m - 1) + Rows(c, m - 1 - r, r, Span(r))
  }

  /** Every block of the cube of radius `r` around `c`, in the order the
      three loops visit them. */
  function Box(c: Pos, r: int): seq<Pos> {
    Layers(c, r, Span(r))
  }

  /** `p` lies in the cube of radius `r` around `c`. */
  predicate InCube(c: Pos, r: int, p: Pos) {
    c.x - r <= p.x <= c.x + r && c.y - r <= p.y <= c.y + r && c.z - r <= p.z <= c.z + r
  }

  lemma RowMembers(c: Pos, x: int, y: int, r: int, p: Pos)
    ensures p in Row(c, x, y, r) <==> p.x == c.x + x && p.y == c.y + y && c.z - r <= p.z <= c.z + r
  {
    var row := Row(c, x, y, r);
    if p in row {
      var k :| 0 <= k < |row| && row[k] == p;
      assert row[k] == Relative(c, Pos(x, y, k - r));
    }
    if p.x == c.x + x && p.y == c.y + y && c.z - r <= p.z <= c.z + r {
      var k := p.z - c.z + r;
      assert 0 <= k < |row|;
      assert row[k] == Relative(c, Pos(x, y, k - r)) == Pos(p.x, p.y, p.z);
    }
  }

  lemma {:induction false} RowsMembers(c: Pos, x: int, r: int, m: nat, p: Pos)
    ensures p in Rows(c, x, r, m) <==>
      p.x == c.x + x && c.y - r <= p.y < c.y - r + m && c.z - r <= p.z <= c.z + r
  {
    if m > 0 {
      RowsMembers(c, x, r, m - 1, p);
      RowMembers(c, x, m - 1 - r, r, p);
    }
  }

  lemma {:induction false} LayersMembers(c: Pos, r: int, m: nat, p: Pos)
    ensures p in Layers(c, r, m) <==>
      c.x - r <= p.x < c.x - r + m && c.y - r <= p.y <= c.y + r && c.z - r <= p.z <= c.z + r &&
      0 <= r
  {
    if m > 0 {
      LayersMembers(c, r, m - 1, p);
      RowsMembers(c, m - 1 - r, r, Span(r), p);
    }
  }

  /** The loops visit exactly the blocks of the cube. */
  lemma BoxMembers(c: Pos, r: int, p: Pos)
    ensures p in Box(c, r) <==> InCube(c, r, p)
  {
    LayersMembers(c, r, Span(r), p);
  }

  /** The test of the loop body: a leaf within reach of the tree. */
  predicate Attaches(blocks: map<Pos, Material>, tree: set<Pos>, p: Pos) {
    TypeIn(blocks, p) in LeafTypes && tree * Within(blocks, p, LeafReach) != {}
  }

  /** The tree after the loop body has run for the blocks `ps` in turn,
      each test seeing the leaves added before it. */
  function LeafPass(blocks: map<Pos, Material>, tree: set<Pos>, ps: seq<Pos>): set<Pos>
    decreases |ps|
  {
    if ps == [] then tree
    else
      var t := LeafPass(blocks, tree, ps[..|ps| - 1]);
      if Attaches(blocks, t, Last(ps)) then t + {Last(ps)} else t
  }

  /** One more turn of the loop body. */
  lemma LeafPassNext(blocks: map<Pos, Material>, tree: set<Pos>, ps: seq<Pos>, k: nat)
    requires k < |ps|
    ensures LeafPass(blocks, tree, ps[..k + 1]) ==
      var t := LeafPass(blocks, tree, ps[..k]);
      if Attaches(blocks, t, ps[k]) then t + {ps[k]} else t
  {
    assert ps[..k + 1][..k] == ps[..k];
  }

  /** Running the body over `a` and then over `b` is running it over both. */
  lemma {:induction false} LeafPassConcat(blocks: map<Pos, Material>, tree: set<Pos>, a: seq<Pos>, b: seq<Pos>)
    ensures LeafPass(blocks, tree, a + b) == LeafPass(blocks, LeafPass(blocks, tree, a), b)
    decreases |b|
  {
    if b == [] {
      assert a + b == a;
    } else {
      assert (a + b)[..|a + b| - 1] == a + b[..|b| - 1];
      LeafPassConcat(blocks, tree, a, b[..|b| - 1]);
    }
  }

  /** The scan only adds blocks. */
  lemma {:induction false} LeafPassGrows(blocks: map<Pos, Material>, tree: set<Pos>, ps: seq<Pos>)
    ensures tree <= LeafPass(blocks, tree, ps)
    decreases |ps|
  {
    if ps != [] {
      LeafPassGrows(blocks, tree, ps[..|ps| - 1]);
    }
  }

  /** A block the scan adds is one of the blocks it visits, a leaf, and
      within reach of another block of the resulting tree. */
  lemma {:induction false} LeafPassAdded(blocks: map<Pos, Material>, tree: set<Pos>, ps: seq<Pos>, p: Pos)
    requires p in LeafPass(blocks, tree, ps) && p !in tree
    ensures p in ps && TypeIn(blocks, p) in LeafTypes
    ensures exists q :: q in LeafPass(blocks, tree, ps) && q != p && q in Within(blocks, p, LeafReach)
    decreases |ps|
  {
    var init := ps[..|ps| - 1];
    var t := LeafPass(blocks, tree, init);
    LeafPassGrows(blocks, t, [Last(ps)]);
    assert t <= LeafPass(blocks, tree, ps);
    if p in t {
      LeafPassAdded(blocks, tree, init, p);
      assert p in ps by {
        var i :| 0 <= i < |init| && init[i] == p;
        assert ps[i] == p;
      }
    } else {
      assert p == Last(ps) && Attaches(blocks, t, p);
      var q :| q in t * Within(blocks, p, LeafReach);
      assert q != p;
    }
  }

  /** A leaf the scan visits that lies within reach of the tree it started
      from is added. */
  lemma {:induction false} LeafPassComplete(blocks: map<Pos, Material>, tree: set<Pos>, ps: seq<Pos>, p: Pos)
    requires p in ps && Attaches(blocks, tree, p)
    ensures p in LeafPass(blocks, tree, ps)
    decreases |ps|
  {
    var init := ps[..|ps| - 1];
    var t := LeafPass(blocks, tree, init);
    LeafPassGrows(blocks, tree, init);
    if p == Last(ps) {
      assert tree * Within(blocks, p, LeafReach) <= t * Within(blocks, p, LeafReach);
    } else {
      assert p in init by {
        var i :| 0 <= i < |ps| && ps[i] == p;
        assert i < |ps| - 1 && init[i] == p;
      }
      LeafPassComplete(blocks, tree, init, p);
    }
  }

  /** The innermost loop, over `z`. */
  method ScanRow(blocks: map<Pos, Material>, tree: set<Pos>, center: Pos, x: int, y: int, radius: int)
    returns (tree': set<Pos>)
    ensures tree' == LeafPass(blocks, tree, Row(center, x, y, radius))
  {
    tree' := tree;
    var z := -radius;
    while z <= radius
      invariant -radius <= z && z + radius <= Span(radius)
      invariant tree' == LeafPass(blocks, tree, Row(center, x, y, radius)[..z + radius])
    {
      var block := Relative(center, Pos(x, y, z));
      LeafPassNext(blocks, tree, Row(center, x, y, radius), z + radius);
      if TypeIn(blocks, block) in LeafTypes {
        var connected := IsLeafConnectedToTree(blocks, block, tree', LeafReach);
        if connected {
          tree' := tree' + {block};
        }
      }
      z := z + 1;
    }
    assert Row(center, x, y, radius)[..z + radius] == Row(center, x, y, radius);
  }

  /** The middle loop, over `y`. */
  method ScanLayer(blocks: map<Pos, Material>, tree: set<Pos>, center: Pos, x: int, radius: int)
    returns (tree': set<Pos>)
    ensures tree' == LeafPass(blocks, tree, Rows(center, x, radius, Span(radius)))
  {
    tree' := tree;
    var y := -radius;
    while y <= radius
      invariant -radius <= y && y + radius <= Span(radius)
      invariant tree' == LeafPass(blocks, tree, Rows(center, x, radius, y + radius))
    {
      LeafPassConcat(blocks, tree, Rows(center, x, radius, y + radius), Row(center, x, y, radius));
      tree' := ScanRow(blocks, tree', center, x, y, radius);
      y := y + 1;
    }
  }

  /** `findConnectedLeaves(treeBlocks, center, radius)`: the outer loop, over
      `x`. The tree only grows; what it gains are leaves of the cube, each
      within reach of another block of the new tree; and every leaf of the
      cube within reach of the tree as it was is gained. */
  method FindConnectedLeaves(blocks: map<Pos, Material>, tree: set<Pos>, center: Pos, radius: int)
    returns (tree': set<Pos>)
    ensures tree' == LeafPass(blocks, tree, Box(center, radius))
    ensures tree <= tree'
    ensures forall p :: p in tree' && p !in tree ==>
      InCube(center, radius, p) && TypeIn(blocks, p) in LeafTypes &&
      exists q :: q in tree' && q != p && q in Within(blocks, p, LeafReach)
    ensures forall p :: InCube(center, radius, p) && Attaches(blocks, tree, p) ==> p in tree'
  {
    tree' := tree;
    var x := -radius;
    while x <= radius
      invariant -radius <= x && x + radius <= Span(radius)
      invariant tree' == LeafPass(blocks, tree, Layers(center, radius, x + radius))
    {
      LeafPassConcat(blocks, tree, Layers(center, radius, x + radius), Rows(center, x, radius, Span(radius)));
      tree' := ScanLayer(blocks, tree', center, x, radius);
      x := x + 1;
    }
    LeafPassGrows(blocks, tree, Box(center, radius));
    forall p | p in tree' && p !in tree
      ensures InCube(center, radius, p) && TypeIn(blocks, p) in LeafTypes &&
              exists q :: q in tree' && q != p && q in Within(blocks, p, LeafReach)
    {
      LeafPassAdded(blocks, tree, Box(center, radius), p);
      BoxMembers(center, radius, p);
    }
    forall p | InCube(center, radius, p) && Attaches(blocks, tree, p)
      ensures p in tree'
    {
      BoxMembers(center, radius, p);
      LeafPassComplete(blocks, tree, Box(center, radius), p);
    }
  }
}
