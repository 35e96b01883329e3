/** `PickaxeListener`: breaking a stone-like block with the Amethyst Pickaxe
    mines the minable blocks of the 3x3x3 cube around it, with extra drops for
    Fortune on ores. */
module PickaxeMining {
  import opened Common
  import opened Materials
  import opened ToolTypes
  import opened Text
  import opened Game
  import opened Sorting
  import opened LeafScan
  import opened ToolManagement
  import opened Breaking

  /** `canMineWithPickaxe`: the stones, ores and masonry of the switch. */
  predicate CanMineWithPickaxe(m: Material) {
    match m
    case Stone | Cobblestone | Granite | Diorite | Andesite
       | Deepslate | CobbledDeepslate | Netherrack | Blackstone
       | CoalOre | IronOre | GoldOre | DiamondOre | EmeraldOre
       | LapisOre | RedstoneOre | CopperOre | NetherGoldOre
       | NetherQuartzOre | AncientDebris
       | DeepslateCoalOre | DeepslateIronOre | DeepslateGoldOre
       | DeepslateDiamondOre | DeepslateEmeraldOre | DeepslateLapisOre
       | DeepslateRedstoneOre | DeepslateCopperOre
       | Sandstone | RedSandstone | Prismarine | DarkPrismarine
       | PrismarineBricks | SeaLantern | MagmaBlock
       | Obsidian | CryingObsidian | RespawnAnchor
       | StoneBricks | MossyStoneBricks | CrackedStoneBricks
       | ChiseledStoneBricks | SmoothStone | PolishedGranite
       | PolishedDiorite | PolishedAndesite | Bricks | NetherBricks
       | RedNetherBricks | ChiseledNetherBricks | CrackedNetherBricks
       | Basalt | SmoothBasalt | PolishedBasalt
       | Tuff | Calcite | AmethystBlock | BuddingAmethyst => true
    case _ => false
  }

  /** `isFortuneApplicable`: the ores whose drops Fortune multiplies. */
  predicate IsFortuneApplicable(m: Material) {
    match m
    case CoalOre | DeepslateCoalOre | DiamondOre | DeepslateDiamondOre
       | EmeraldOre | DeepslateEmeraldOre | LapisOre | DeepslateLapisOre
       | RedstoneOre | DeepslateRedstoneOre | NetherQuartzOre
       | NetherGoldOre | CopperOre | DeepslateCopperOre => true
    case _ => false
  }

  /** Every ore Fortune applies to can be mined with the pickaxe. */
  lemma FortuneOresAreMinable(m: Material)
    ensures IsFortuneApplicable(m) ==> CanMineWithPickaxe(m)
    ensures !CanMineWithPickaxe(Air) && !CanMineWithPickaxe(Water) && !CanMineWithPickaxe(Lava)
  {
  }

  /** `isBlockBlacklisted`: the material's constant name is on the configured
      blacklist. */
  predicate IsBlockBlacklisted(cfg: Config, m: Material) {
    Materials.Name(m) in cfg.blacklistedBlocks
  }

  /** `shouldMineBlock`: not AIR or a liquid, not blacklisted, and minable. */
  predicate ShouldMineBlock(cfg: Config, m: Material) {
    if m == Air || m == Water || m == Lava then false
    else if IsBlockBlacklisted(cfg, m) then false
    else CanMineWithPickaxe(m)
  }

  /** The AIR and liquid test is subsumed by the minable test: a block is
      mined exactly when it is minable and not blacklisted. */
  lemma ShouldMineBlockMeaning(cfg: Config, m: Material)
    ensures ShouldMineBlock(cfg, m) <==> CanMineWithPickaxe(m) && !IsBlockBlacklisted(cfg, m)
  {
    if m == Air || m == Water || m == Lava {
      assert !CanMineWithPickaxe(m);
    }
  }

  /** The block the loops of `getBlocksToMine` visit at outer offset `a`,
      middle offset `b` and inner offset `c`: the loops run over `x`, `y`, `z`
      when mining horizontally and over `x`, `z`, `y` when mining vertically. */
  function Spot(center: Pos, vertical: bool, a: int, b: int, c: int): Pos {
    if vertical then Relative(center, Pos(a, c, b)) else Relative(center, Pos(a, b, c))
  }

  /** The blocks of the innermost loop. */
  function Line(center: Pos, vertical: bool, a: int, b: int): seq<Pos> {
    seq(3, k => Spot(center, vertical, a, b, k - 1))
  }

  /** The blocks of the first `n` turns of the middle loop. */
  function Lines(center: Pos, vertical: bool, a: int, n: nat): seq<Pos> {
    if n == 0 then [] else Lines(center, vertical, a, n - 1) + Line(center, vertical, a, n - 2)
  }

  /** The blocks of the first `n` turns of the outer loop. */
  function Planes(center: Pos, vertical: bool, n: nat): seq<Pos> {
    if n == 0 then [] else Planes(center, vertical, n - 1) + Lines(center, vertical, n - 2, 3)
  }

  /** Every block of the 3x3x3 cube around `center`, in the order the loops
      visit them. */
  function CubeOrder(center: Pos, vertical: bool): seq<Pos> {
    Planes(center, vertical, 3)
  }

  /** The blocks of one turn of the middle loop, at outer offset `a` and middle
      offset `b`, are those on that line whose inner offset lies in -1..1. */
  lemma LineMembers(center: Pos, vertical: bool, a: int, b: int, p: Pos)
    ensures p in Line(center, vertical, a, b) <==>
      p.x == center.x + a &&
      if vertical then p.z == center.z + b && -1 <= p.y - center.y <= 1
      else p.y == center.y + b && -1 <= p.z - center.z <= 1
  {
    var line := Line(center, vertical, a, b);
    if p in line {
      var k :| 0 <= k < 3 && line[k] == p;
      assert line[k] == Spot(center, vertical, a, b, k - 1);
    }
    if p.x == center.x + a {
      var k := if vertical then p.y - center.y + 1 else p.z - center.z + 1;
      if 0 <= k < 3 && (if vertical then p.z == center.z + b else p.y == center.y + b) {
        assert line[k] == Spot(center, vertical, a, b, k - 1) == p;
      }
    }
  }

  /** The blocks `p` of the first `n` turns of the middle loop are those
      whose outer coordinate is `a` and whose middle offset is below `n - 1`. */
  lemma {:induction false} LinesMembers(center: Pos, vertical: bool, a: int, n: nat, p: Pos)
    ensures p in Lines(center, vertical, a, n) <==>
      p.x == center.x + a &&
      if vertical then -1 <= p.z - center.z < n - 1 && -1 <= p.y - center.y <= 1
      else -1 <= p.y - center.y < n - 1 && -1 <= p.z - center.z <= 1
  {
    if n > 0 {
      LinesMembers(center, vertical, a, n - 1, p);
      LineMembers(center, vertical, a, n - 2, p);
    }
  }

  lemma {:induction false} PlanesMembers(center: Pos, vertical: bool, n: nat, p: Pos)
    ensures p in Planes(center, vertical, n) <==>
      -1 <= p.x - center.x < n - 1 && -1 <= p.y - center.y <= 1 && -1 <= p.z - center.z <= 1
  {
    if n > 0 {
      PlanesMembers(center, vertical, n - 1, p);
      LinesMembers(center, vertical, n - 2, 3, p);
    }
  }

  /** The loops visit each block of the cube once and nothing else. */
  lemma {:induction false} LinesDistinct(center: Pos, vertical: bool, a: int, n: nat)
    ensures Distinct(Lines(center, vertical, a, n)) && |Lines(center, vertical, a, n)| == 3 * n
  {
    if n > 0 {
      var before, line := Lines(center, vertical, a, n - 1), Line(center, vertical, a, n - 2);
      LinesDistinct(center, vertical, a, n - 1);
      forall i, j | 0 <= i < |before| && 0 <= j < |line|
        ensures before[i] != line[j]
      {
        LinesMembers(center, vertical, a, n - 1, before[i]);
        LineMembers(center, vertical, a, n - 2, before[i]);
      }
      DistinctAppend(before, line);
    }
  }

  lemma {:induction false} PlanesDistinct(center: Pos, vertical: bool, n: nat)
    ensures Distinct(Planes(center, vertical, n)) && |Planes(center, vertical, n)| == 9 * n
  {
    if n > 0 {
      var before, plane := Planes(center, vertical, n - 1), Lines(center, vertical, n - 2, 3);
      PlanesDistinct(center, vertical, n - 1);
      LinesDistinct(center, vertical, n - 2, 3);
      forall i, j | 0 <= i < |before| && 0 <= j < |plane|
        ensures before[i] != plane[j]
      {
        PlanesMembers(center, vertical, n - 1, before[i]);
        LinesMembers(center, vertical, n - 2, 3, before[i]);
      }
      DistinctAppend(before, plane);
    }
  }

  /** Either order visits the 27 blocks of the cube, each once. */
  lemma CubeOrderFacts(center: Pos, vertical: bool)
    ensures Distinct(CubeOrder(center, vertical)) && |CubeOrder(center, vertical)| == 27
    ensures forall p :: p in CubeOrder(center, vertical) <==> InCube(center, 1, p)
  {
    PlanesDistinct(center, vertical, 3);
    forall p
      ensures p in CubeOrder(center, vertical) <==> InCube(center, 1, p)
    {
      PlanesMembers(center, vertical, 3, p);
    }
  }

  /** The blocks of `ps` that `accept` lets through, in order. */
  function Keep(accept: Pos -> bool, ps: seq<Pos>): seq<Pos>
    decreases |ps|
  {
    if ps == [] then []
    else
      var rest := Keep(accept, ps[..|ps| - 1]);
      if accept(ps[|ps| - 1]) then rest + [ps[|ps| - 1]] else rest
  }

  lemma KeepSnoc(accept: Pos -> bool, ps: seq<Pos>, p: Pos)
    ensures Keep(accept, ps + [p]) ==
      Keep(accept, ps) + if accept(p) then [p] else []
  {
    assert (ps + [p])[..|ps|] == ps;
  }

  lemma {:induction false} KeepConcat(accept: Pos -> bool, a: seq<Pos>, b: seq<Pos>)
    ensures Keep(accept, a + b) == Keep(accept, a) + Keep(accept, b)
    decreases |b|
  {
    if b == [] {
      assert a + b == a;
    } else {
      assert (a + b)[..|a + b| - 1] == a + b[..|b| - 1];
      KeepConcat(accept, a, b[..|b| - 1]);
    }
  }

  /** The kept blocks are the accepted blocks of `ps`, no more than `ps`
      holds, and each once when `ps` holds it once. */
  lemma {:induction false} KeepMeaning(accept: Pos -> bool, ps: seq<Pos>)
    ensures |Keep(accept, ps)| <= |ps|
    ensures forall p :: p in Keep(accept, ps) <==> p in ps && accept(p)
    ensures Distinct(ps) ==> Distinct(Keep(accept, ps))
    decreases |ps|
  {
    if ps != [] {
      var init, last := ps[..|ps| - 1], ps[|ps| - 1];
      KeepMeaning(accept, init);
      assert ps == init + [last];
      assert forall p :: p in ps <==> p in init || p == last;
      if Distinct(ps) {
        assert Distinct(init);
        assert last !in init;
      }
    }
  }

  /** The innermost loop of `getBlocksToMine`. */
  method SweepLine(accept: Pos -> bool, center: Pos, vertical: bool, a: int, b: int,
                   acc: seq<Pos>) returns (acc': seq<Pos>)
    ensures acc' == acc + Keep(accept, Line(center, vertical, a, b))
  {
    acc' := acc;
    var c := -1;
    while c <= 1
      invariant -1 <= c <= 2
      invariant acc' == acc + Keep(accept, Line(center, vertical, a, b)[..c + 1])
    {
      ghost var line := Line(center, vertical, a, b);
      var block := Spot(center, vertical, a, b, c);
      assert line[..c + 2] == line[..c + 1] + [block];
      KeepSnoc(accept, line[..c + 1], block);
      if accept(block) {
        AppendAssoc(acc, Keep(accept, line[..c + 1]), [block]);
        acc' := acc' + [block];
      }
      c := c + 1;
    }
    assert Line(center, vertical, a, b)[..3] == Line(center, vertical, a, b);
  }

  /** The middle loop. */
  method SweepPlane(accept: Pos -> bool, center: Pos, vertical: bool, a: int, acc: seq<Pos>)
    returns (acc': seq<Pos>)
    ensures acc' == acc + Keep(accept, Lines(center, vertical, a, 3))
  {
    acc' := acc;
    var b := -1;
    while b <= 1
      invariant -1 <= b <= 2
      invariant acc' == acc + Keep(accept, Lines(center, vertical, a, b + 1))
    {
      KeepConcat(accept, Lines(center, vertical, a, b + 1), Line(center, vertical, a, b));
      AppendAssoc(acc, Keep(accept, Lines(center, vertical, a, b + 1)), Keep(accept, Line(center, vertical, a, b)));
      acc' := SweepLine(accept, center, vertical, a, b, acc');
      b := b + 1;
    }
  }

  /** The outer loop. */
  method SweepCube(accept: Pos -> bool, center: Pos, vertical: bool) returns (mined: seq<Pos>)
    ensures mined == Keep(accept, CubeOrder(center, vertical))
  {
    mined := [];
    var a := -1;
    while a <= 1
      invariant -1 <= a <= 2
      invariant mined == Keep(accept, Planes(center, vertical, a + 1))
    {
      KeepConcat(accept, Planes(center, vertical, a + 1), Lines(center, vertical, a, 3));
      mined := SweepPlane(accept, center, vertical, a, mined);
      a := a + 1;
    }
  }

  /** `shouldMineBlock(block)` for the blocks of the world. */
  function Minable(blocks: map<Pos, Material>, cfg: Config): Pos -> bool {
    p => ShouldMineBlock(cfg, TypeIn(blocks, p))
  }

  /** What `getBlocksToMine` returns for a given order of the loops: the
      blocks of the cube to mine, each once, at most 27. */
  lemma MinedBlocksFacts(blocks: map<Pos, Material>, cfg: Config, center: Pos, vertical: bool)
    ensures var mined := Keep(Minable(blocks, cfg), CubeOrder(center, vertical));
      Distinct(mined) && |mined| <= 27 &&
      forall p :: p in mined <==> InCube(center, 1, p) && ShouldMineBlock(cfg, TypeIn(blocks, p))
  {
    CubeOrderFacts(center, vertical);
    KeepMeaning(Minable(blocks, cfg), CubeOrder(center, vertical));
  }

  /** The two facings select the same blocks, as many of them; only the order
      differs. */
  lemma BothOrdersSameBlocks(blocks: map<Pos, Material>, cfg: Config, center: Pos)
    ensures Elems(Keep(Minable(blocks, cfg), CubeOrder(center, true))) == Elems(Keep(Minable(blocks, cfg), CubeOrder(center, false)))
    ensures |Keep(Minable(blocks, cfg), CubeOrder(center, true))| == |Keep(Minable(blocks, cfg), CubeOrder(center, false))|
  {
    MinedBlocksFacts(blocks, cfg, center, true);
    MinedBlocksFacts(blocks, cfg, center, false);
    var v, h := Keep(Minable(blocks, cfg), CubeOrder(center, true)), Keep(Minable(blocks, cfg), CubeOrder(center, false));
    assert Elems(v) == Elems(h);
    DistinctCard(v);
    DistinctCard(h);
  }

  /** `Math.abs(pitch) > 45`: the player looks steeply up or down. */
  predicate MiningVertically(pitch: real) {
    pitch > 45.0 || pitch < -45.0
  }

  /** `getBlocksToMine(centerBlock, player)`: the blocks of the cube around
      the broken block that `shouldMineBlock` accepts, each once, at most 27;
      the loops run `x`, `z`, `y` when the player looks steeply up or down and
      `x`, `y`, `z` otherwise, whatever the yaw. */
  method GetBlocksToMine(blocks: map<Pos, Material>, cfg: Config, center: Pos, pitch: real, yaw: real)
    returns (mined: seq<Pos>)
    ensures mined == Keep(Minable(blocks, cfg), CubeOrder(center, MiningVertically(pitch)))
    ensures forall p :: p in mined <==> InCube(center, 1, p) && ShouldMineBlock(cfg, TypeIn(blocks, p))
    ensures Distinct(mined) && |mined| <= 27
  {
    if MiningVertically(pitch) {
      mined := SweepCube(Minable(blocks, cfg), center, true);
    } else if (yaw >= -45.0 && yaw <= 45.0) || (yaw >= 135.0 || yaw <= -135.0) {
      mined := SweepCube(Minable(blocks, cfg), center, false);
    } else {
      mined := SweepCube(Minable(blocks, cfg), center, false);
    }
    MinedBlocksFacts(blocks, cfg, center, MiningVertically(pitch));
  }

  /** The number of the `n` trials from the `from`-th on that succeed:
      `random.nextDouble() < 0.33`, the outcome of the `k`-th draw supplied as
      `hits(k)`. */
  function Successes(hits: nat -> bool, from: nat, n: int): nat
    decreases n
  {
    if n <= 0 then 0 else Successes(hits, from, n - 1) + (if hits(from + n - 1) then 1 else 0)
  }

  /** At most one success per trial; none when every trial fails, all when
      every trial succeeds. */
  lemma {:induction false} SuccessesBounds(hits: nat -> bool, from: nat, n: int)
    ensures Successes(hits, from, n) <= if n > 0 then n else 0
    ensures (forall k :: from <= k < from + n ==> !hits(k)) ==> Successes(hits, from, n) == 0
    ensures (forall k :: from <= k < from + n ==> hits(k)) ==> Successes(hits, from, n) == if n > 0 then n else 0
    decreases n
  {
    if n > 0 {
      SuccessesBounds(hits, from, n - 1);
    }
  }

  /** The Fortune loop for one drop: `fortuneLevel` trials, each success
      adding one to the bonus. `next` counts the draws already taken from the
      block's `Random`. */
  method CountBonus(hits: nat -> bool, next: nat, fortune: int) returns (bonus: nat, next': nat)
    ensures bonus == Successes(hits, next, fortune)
    ensures next' == next + (if fortune > 0 then fortune else 0)
  {
    bonus := 0;
    var i := 0;
    while i < fortune
      invariant 0 <= i <= (if fortune > 0 then fortune else 0)
      invariant bonus == Successes(hits, next, i)
    {
      if hits(next + i) {
        bonus := bonus + 1;
      }
      i := i + 1;
    }
    next' := next + i;
  }

  /** Every drop cloned with the successes of its own `fortune` trials added
      to its amount; drop `j` uses draws `j * fortune` to `j * fortune +
      fortune - 1`. */
  function FortuneDrops(drops: seq<ItemStack>, fortune: nat, hits: nat -> bool): (r: seq<ItemStack>)
    ensures |r| == |drops|
  {
    seq(|drops|, j requires 0 <= j < |drops| =>
      drops[j].(amount := drops[j].amount + Successes(hits, j * fortune, fortune)))
  }

  /** Fortune keeps every drop and only raises its amount, by at most the
      level. */
  lemma FortuneDropsBounds(drops: seq<ItemStack>, fortune: nat, hits: nat -> bool)
    ensures forall j :: 0 <= j < |drops| ==>
      FortuneDrops(drops, fortune, hits)[j] == drops[j].(amount := FortuneDrops(drops, fortune, hits)[j].amount) &&
      drops[j].amount <= FortuneDrops(drops, fortune, hits)[j].amount <= drops[j].amount + fortune
  {
    forall j | 0 <= j < |drops|
      ensures drops[j].amount <= FortuneDrops(drops, fortune, hits)[j].amount <= drops[j].amount + fortune
    {
      SuccessesBounds(hits, j * fortune, fortune);
    }
  }

  /** The Fortune loop over the drops of one block. */
  method ApplyFortune(drops: seq<ItemStack>, fortune: nat, hits: nat -> bool) returns (fortuneDrops: seq<ItemStack>)
    ensures fortuneDrops == FortuneDrops(drops, fortune, hits)
  {
    fortuneDrops := [];
    var next: nat := 0;
    var j := 0;
    while j < |drops|
      invariant 0 <= j <= |drops|
      invariant next == j * fortune
      invariant fortuneDrops == FortuneDrops(drops, fortune, hits)[..j]
    {
      var bonusAmount;
      bonusAmount, next := CountBonus(hits, next, fortune);
      fortuneDrops := fortuneDrops + [drops[j].(amount := drops[j].amount + bonusAmount)];
      assert next == (j + 1) * fortune;
      j := j + 1;
    }
  }

  /** The `k`-th trial of the fresh `Random` of block `p`. */
  function HitsAt(hits: (Pos, nat) -> bool, p: Pos): nat -> bool {
    (k: nat) => hits(p, k)
  }

  /** The stacks one mined block yields: `block.getDrops(tool)`, supplied as
      `getDrops`, raised by Fortune for the ores it applies to unless the
      tool has Silk Touch. */
  function MinedDrops(blocks: map<Pos, Material>, p: Pos, tool: ItemStack, fortune: int, silkTouch: int,
                      getDrops: (Material, ItemStack) -> seq<ItemStack>, hits: (Pos, nat) -> bool): seq<ItemStack> {
    var base := getDrops(TypeIn(blocks, p), tool);
    if silkTouch <= 0 && fortune > 0 && IsFortuneApplicable(TypeIn(blocks, p)) then
      FortuneDrops(base, fortune, HitsAt(hits, p))
    else base
  }

  /** With Silk Touch, without Fortune, or for a block Fortune does not
      apply to, the drops are those of the block; otherwise they are the
      same stacks, each raised by at most the Fortune level. */
  lemma MinedDropsMeaning(blocks: map<Pos, Material>, p: Pos, tool: ItemStack, fortune: int, silkTouch: int,
                          getDrops: (Material, ItemStack) -> seq<ItemStack>, hits: (Pos, nat) -> bool)
    ensures var r := MinedDrops(blocks, p, tool, fortune, silkTouch, getDrops, hits);
      var base := getDrops(TypeIn(blocks, p), tool);
      |r| == |base| &&
      (silkTouch > 0 || fortune <= 0 || !IsFortuneApplicable(TypeIn(blocks, p)) ==> r == base) &&
      forall j :: 0 <= j < |r| ==>
        r[j] == base[j].(amount := r[j].amount) &&
        base[j].amount <= r[j].amount <= base[j].amount + (if fortune > 0 then fortune else 0)
  {
    var base := getDrops(TypeIn(blocks, p), tool);
    if silkTouch <= 0 && fortune > 0 && IsFortuneApplicable(TypeIn(blocks, p)) {
      FortuneDropsBounds(base, fortune, HitsAt(hits, p));
    }
  }

  /** The drops of a block more than 8 blocks away from the player land at
      the player. */
  const DropRangeSq: int := 64

  /** The stacks each block yields, read in the world as it was before
      mining. */
  function MineYields(blocks: map<Pos, Material>, tool: ItemStack, fortune: int, silkTouch: int,
                      getDrops: (Material, ItemStack) -> seq<ItemStack>, hits: (Pos, nat) -> bool): Pos -> seq<ItemStack> {
    p => MinedDrops(blocks, p, tool, fortune, silkTouch, getDrops, hits)
  }

  /** The head of the loop body of `mineBlocks`: the block's type is read and
      its drops computed. */
  method YieldOf(world: World, p: Pos, tool: ItemStack, fortune: int, silkTouch: int,
                 getDrops: (Material, ItemStack) -> seq<ItemStack>, hits: (Pos, nat) -> bool,
                 ghost initial: map<Pos, Material>)
    returns (drops: seq<ItemStack>)
    requires TypeIn(world.blocks, p) == TypeIn(initial, p)
    ensures drops == MineYields(initial, tool, fortune, silkTouch, getDrops, hits)(p)
  {
    var blockType := world.TypeAt(p);
    if silkTouch > 0 {
      drops := getDrops(blockType, tool);
    } else {
      drops := getDrops(blockType, tool);
      if fortune > 0 && IsFortuneApplicable(blockType) {
        drops := ApplyFortune(drops, fortune, HitsAt(hits, p));
      }
    }
  }

  /** `mineBlocks(player, blocks, tool)`: every block of the list, in order,
      is set to AIR and its drops dropped. The list comes from
      `getBlocksToMine` and holds no block twice. */
  method MineBlocks(world: World, order: seq<Pos>, tool: ItemStack, playerAt: Pos,
                    getDrops: (Material, ItemStack) -> seq<ItemStack>, hits: (Pos, nat) -> bool)
    modifies world
    requires Distinct(order)
    ensures world.blocks == Felled(old(world.blocks), Elems(order))
    ensures world.wallFacing == old(world.wallFacing) - Elems(order)
    ensures world.drops == old(world.drops) +
      Dropped(order, MineYields(old(world.blocks), tool, EnchantLevel(tool.meta, Fortune),
                                EnchantLevel(tool.meta, SilkTouch), getDrops, hits), playerAt, DropRangeSq)
  {
    var fortune := EnchantLevel(tool.meta, Fortune);
    var silkTouch := EnchantLevel(tool.meta, SilkTouch);
    ghost var initial := world.blocks;
    ghost var yieldOf := MineYields(initial, tool, fortune, silkTouch, getDrops, hits);
    FelledNothing(initial);
    var i := 0;
    while i < |order|
      invariant 0 <= i <= |order|
      invariant world.blocks == Felled(initial, Elems(order[..i]))
      invariant world.wallFacing == old(world.wallFacing) - Elems(order[..i])
      invariant world.drops == old(world.drops) + Dropped(order[..i], yieldOf, playerAt, DropRangeSq)
    {
      var p := order[i];
      DroppedStep(order, i, yieldOf, playerAt, DropRangeSq);
      MapRemoveStep(old(world.wallFacing), Elems(order[..i]), p);
      FelledMeaning(initial, Elems(order[..i]), p);
      var drops := YieldOf(world, p, tool, fortune, silkTouch, getDrops, hits, initial);
      AppendAssoc(old(world.drops), Dropped(order[..i], yieldOf, playerAt, DropRangeSq),
                  Placed(DropSpot(p, playerAt, DropRangeSq), drops));
      BreakBlock(world, p, drops, playerAt, DropRangeSq, initial, Elems(order[..i]));
      i := i + 1;
    }
    assert order[..i] == order;
  }

  /** How a block break ended. */
  datatype PickaxeOutcome = Ignored | Blacklisted | Mined(blocks: seq<Pos>)

  /** The gate of the handler: an Amethyst Pickaxe in the main hand and a
      block it can mine. */
  predicate Engages(item: Option<ItemStack>, broken: Pos, blocks: map<Pos, Material>) {
    item.Some? && IsAmethystTool(item) && GetToolType(item) == Some(ToolType.Pickaxe) &&
    CanMineWithPickaxe(TypeIn(blocks, broken))
  }

  /** `onBlockBreak`. A break with anything but the pickaxe, or of a block it
      cannot mine, is left alone. A blacklisted block cancels the event and
      mines nothing. Otherwise the event is cancelled, the blocks of the cube
      are mined, the broken block among them, and
      the player told how many. */
  method OnBlockBreak(item: Option<ItemStack>, broken: Pos, player: Player, pitch: real, yaw: real, cfg: Config,
                      world: World, server: Server,
                      getDrops: (Material, ItemStack) -> seq<ItemStack>, hits: (Pos, nat) -> bool)
    returns (cancelled: bool, outcome: PickaxeOutcome)
    modifies world, server
    ensures cancelled <==> Engages(item, broken, old(world.blocks))
    ensures outcome == Ignored <==> !cancelled
    ensures outcome == Blacklisted <==> cancelled && IsBlockBlacklisted(cfg, TypeIn(old(world.blocks), broken))
    ensures !outcome.Mined? ==> world.blocks == old(world.blocks) && world.drops == old(world.drops) &&
                                world.wallFacing == old(world.wallFacing)
    ensures outcome.Mined? ==>
      var mined := outcome.blocks;
      mined == Keep(Minable(old(world.blocks), cfg), CubeOrder(broken, MiningVertically(pitch))) &&
      broken in mined && Distinct(mined) && |mined| <= 27 &&
      world.blocks == Felled(old(world.blocks), Elems(mined)) &&
      world.wallFacing == old(world.wallFacing) - Elems(mined) &&
      world.drops == old(world.drops) +
        Dropped(mined, MineYields(old(world.blocks), item.value, EnchantLevel(item.value.meta, Fortune),
                                  EnchantLevel(item.value.meta, SilkTouch), getDrops, hits),
                player.location, DropRangeSq)
    ensures server.online == old(server.online) && server.inventories == old(server.inventories)
    ensures server.notices == old(server.notices) +
      match outcome
      case Ignored => []
      case Blacklisted => [Message(ToPlayer(player.id), "tools.pickaxe.blacklisted", map[])]
      case Mined(mined) =>
        [Message(ToPlayer(player.id), "tools.pickaxe.success", map["blocks" := IntToString(|mined|)])]
  {
    cancelled, outcome := false, Ignored;
    if item.None? || !IsAmethystTool(item) || GetToolType(item) != Some(ToolType.Pickaxe) {
      return;
    }
    var blockType := world.TypeAt(broken);
    if !CanMineWithPickaxe(blockType) {
      return;
    }
    if IsBlockBlacklisted(cfg, blockType) {
      server.Send(Message(ToPlayer(player.id), "tools.pickaxe.blacklisted", map[]));
      cancelled, outcome := true, Blacklisted;
      return;
    }
    cancelled := true;
    var blocksToMine := GetBlocksToMine(world.blocks, cfg, broken, pitch, yaw);
    ShouldMineBlockMeaning(cfg, blockType);
    assert InCube(broken, 1, broken);
    MineBlocks(world, blocksToMine, item.value, player.location, getDrops, hits);
    server.Send(Message(ToPlayer(player.id), "tools.pickaxe.success", map["blocks" := IntToString(|blocksToMine|)]));
    outcome := Mined(blocksToMine);
  }
}
