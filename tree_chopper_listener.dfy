/** `TreeChopperListener`: breaking a log with the Amethyst Tree Chopper fells
    the whole tree, the logs connected to it and the leaves close to them,
    and drops what the blocks yield, with extra log drops for Fortune. */
module TreeChopping {
  import opened Common
  import opened Materials
  import opened ToolTypes
  import opened Game
  import opened Sorting
  import opened AreaSearch
  import opened TreeSearch
  import opened LeafSearch
  import opened LeafScan
  import opened ToolManagement
  import opened Breaking

  /** The logs among the blocks of a tree. */
  function LogsIn(blocks: map<Pos, Material>, tree: set<Pos>): set<Pos> {
    set p | p in tree && TypeIn(blocks, p) in LogTypes
  }

  /** What `findTreeBlocks` promises about the tree it returns for the broken
      block `start`: every block is either a log reachable from `start`
      through logs or a leaf of the cube around `start` lying close to another
      block of the tree; the tree is empty exactly when `start` is no log, and
      otherwise holds it; at most 1000 logs, and below that every log
      reachable from `start`; and every leaf of the cube close to the logs. */
  ghost predicate TreeShape(blocks: map<Pos, Material>, start: Pos, tree: set<Pos>) {
    (forall p :: p in tree ==>
       (TypeIn(blocks, p) in LogTypes && Reachable(blocks, LogTypes, TreeSteps, start, p)) ||
       (TypeIn(blocks, p) in LeafTypes && InCube(start, LeafRadius, p) &&
        exists q :: q in tree && q != p && q in Within(blocks, p, LeafReach))) &&
    (tree == {} <==> TypeIn(blocks, start) !in LogTypes) &&
    (TypeIn(blocks, start) in LogTypes ==> start in tree) &&
    |LogsIn(blocks, tree)| <= MaxLogs &&
    (|LogsIn(blocks, tree)| < MaxLogs ==>
       forall p :: Reachable(blocks, LogTypes, TreeSteps, start, p) ==> p in tree) &&
    (forall p :: InCube(start, LeafRadius, p) && Attaches(blocks, LogsIn(blocks, tree), p) ==> p in tree)
  }

  /** Without a tree to start from, the leaf scan adds nothing. */
  lemma {:induction false} LeafPassFromNothing(blocks: map<Pos, Material>, ps: seq<Pos>)
    ensures LeafPass(blocks, {}, ps) == {}
    decreases |ps|
  {
    if ps != [] {
      LeafPassFromNothing(blocks, ps[..|ps| - 1]);
    }
  }

  /** A scan over blocks none of which is a leaf adds nothing to the tree. */
  lemma LeafPassWithoutLeaves(blocks: map<Pos, Material>, tree: set<Pos>, ps: seq<Pos>)
    requires forall p :: p in ps ==> TypeIn(blocks, p) !in LeafTypes
    ensures LeafPass(blocks, tree, ps) == tree
  {
    LeafPassGrows(blocks, tree, ps);
    forall p | p in LeafPass(blocks, tree, ps)
      ensures p in tree
    {
      if p !in tree {
        LeafPassAdded(blocks, tree, ps, p);
      }
    }
  }

  /** A lone log, with no other log reachable from it and no leaf in the cube
      around it, is felled on its own. */
  lemma LoneLog(blocks: map<Pos, Material>, start: Pos, tree: set<Pos>)
    requires TreeShape(blocks, start, tree)
    requires tree == LeafPass(blocks, LogsIn(blocks, tree), Box(start, LeafRadius))
    requires TypeIn(blocks, start) in LogTypes
    requires forall p :: Reachable(blocks, LogTypes, TreeSteps, start, p) ==> p == start
    requires forall p :: InCube(start, LeafRadius, p) ==> TypeIn(blocks, p) !in LeafTypes
    ensures tree == {start}
  {
    assert LogsIn(blocks, tree) == {start};
    forall p | p in Box(start, LeafRadius)
      ensures TypeIn(blocks, p) !in LeafTypes
    {
      BoxMembers(start, LeafRadius, p);
    }
    LeafPassWithoutLeaves(blocks, {start}, Box(start, LeafRadius));
  }

  /** `findTreeBlocks(startBlock)`: the log search, then the leaf scan of the
      cube of radius 5 around the broken block; the tree is exactly what that
      scan makes of the logs found. */
  method FindTreeBlocks(blocks: map<Pos, Material>, start: Pos) returns (tree: set<Pos>)
    ensures TreeShape(blocks, start, tree)
    ensures tree == LeafPass(blocks, LogsIn(blocks, tree), Box(start, LeafRadius))
  {
    var logs := FindLogs(blocks, start);
    tree := FindConnectedLeaves(blocks, logs, start, LeafRadius);
    TreeMaterialsFacts();
    assert LogsIn(blocks, tree) == logs;
    if TypeIn(blocks, start) !in LogTypes {
      LeafPassFromNothing(blocks, Box(start, LeafRadius));
    }
  }

  /** `random.nextInt(fortuneLevel + 1)` for each of the drops of one block, in
      turn: `draws(k)` stands for the `k`-th number the block's fresh `Random`
      yields, reduced modulo the bound. A roll above zero adds a copy of that
      drop with the roll as its amount. */
  function BonusDrops(drops: seq<ItemStack>, fortune: int, draws: nat -> nat): seq<ItemStack>
    requires fortune > 0
    decreases |drops|
  {
    if drops == [] then []
    else
      var rest := BonusDrops(drops[..|drops| - 1], fortune, draws);
      var bonus := draws(|drops| - 1) % (fortune + 1);
      if bonus > 0 then rest + [Last(drops).(amount := bonus)] else rest
  }

  /** Each bonus is a copy of one of the drops with an amount from 1 to the
      Fortune level, and there is at most one per drop. */
  lemma {:induction false} BonusDropsBounds(drops: seq<ItemStack>, fortune: int, draws: nat -> nat)
    requires fortune > 0
    ensures |BonusDrops(drops, fortune, draws)| <= |drops|
    ensures forall b :: b in BonusDrops(drops, fortune, draws) ==>
      1 <= b.amount <= fortune && exists d :: d in drops && b == d.(amount := b.amount)
    decreases |drops|
  {
    if drops != [] {
      var init := drops[..|drops| - 1];
      BonusDropsBounds(init, fortune, draws);
      forall b | b in BonusDrops(drops, fortune, draws)
        ensures 1 <= b.amount <= fortune && exists d :: d in drops && b == d.(amount := b.amount)
      {
        if b in BonusDrops(init, fortune, draws) {
          var d :| d in init && b == d.(amount := b.amount);
          assert d in drops;
        } else {
          assert Last(drops) in drops;
        }
      }
    }
  }

  /** The numbers the fresh `Random` of block `p` yields. */
  function DrawsAt(draws: (Pos, nat) -> nat, p: Pos): nat -> nat {
    k => draws(p, k)
  }

  /** The stacks one block yields: `block.getDrops(tool)`, supplied as
      `getDrops`, and for a log broken with Fortune the bonus copies, drawn
      from the block's own `draws`. */
  function BlockDrops(blocks: map<Pos, Material>, p: Pos, tool: ItemStack, fortune: int,
                      getDrops: (Material, ItemStack) -> seq<ItemStack>, draws: (Pos, nat) -> nat): seq<ItemStack> {
    var base := getDrops(TypeIn(blocks, p), tool);
    if TypeIn(blocks, p) in LogTypes && fortune > 0 then base + BonusDrops(base, fortune, DrawsAt(draws, p))
    else base
  }

  /** Only logs gain bonus drops, and only with Fortune; the drops of
      `getDrops` always come first and unchanged. */
  lemma BlockDropsMeaning(blocks: map<Pos, Material>, p: Pos, tool: ItemStack, fortune: int,
                          getDrops: (Material, ItemStack) -> seq<ItemStack>, draws: (Pos, nat) -> nat)
    ensures var r := BlockDrops(blocks, p, tool, fortune, getDrops, draws);
      var base := getDrops(TypeIn(blocks, p), tool);
      |base| <= |r| <= 2 * |base| && r[..|base|] == base &&
      (TypeIn(blocks, p) !in LogTypes || fortune <= 0 ==> r == base) &&
      forall i :: |base| <= i < |r| ==> 1 <= r[i].amount <= fortune
  {
    var base := getDrops(TypeIn(blocks, p), tool);
    if TypeIn(blocks, p) in LogTypes && fortune > 0 {
      var bonus := BonusDrops(base, fortune, DrawsAt(draws, p));
      BonusDropsBounds(base, fortune, DrawsAt(draws, p));
      var r := base + bonus;
      assert r[..|base|] == base;
      forall i | |base| <= i < |r|
        ensures 1 <= r[i].amount <= fortune
      {
        assert r[i] == bonus[i - |base|] && r[i] in bonus;
      }
    }
  }

  /** The drops of a block more than 10 blocks away from the player land at
      the player. */
  const DropRangeSq: int := 100

  /** The stacks each block yields, read in the world as it was before the
      chop. */
  function ChopYields(blocks: map<Pos, Material>, tool: ItemStack, fortune: int,
                      getDrops: (Material, ItemStack) -> seq<ItemStack>, draws: (Pos, nat) -> nat): Pos -> seq<ItemStack> {
    p => BlockDrops(blocks, p, tool, fortune, getDrops, draws)
  }

  /** The head of the loop body of `chopTree`: the block's type is read and
      its drops computed, with the Fortune bonus for logs. */
  method YieldOf(world: World, p: Pos, tool: ItemStack, fortune: int,
                 getDrops: (Material, ItemStack) -> seq<ItemStack>, draws: (Pos, nat) -> nat,
                 ghost initial: map<Pos, Material>)
    returns (drops: seq<ItemStack>)
    requires TypeIn(world.blocks, p) == TypeIn(initial, p)
    ensures drops == ChopYields(initial, tool, fortune, getDrops, draws)(p)
  {
    var blockType := world.TypeAt(p);
    drops := getDrops(blockType, tool);
    if blockType in LogTypes && fortune > 0 {
      drops := drops + BonusDrops(drops, fortune, DrawsAt(draws, p));
    }
  }

  /** The loop of `chopTree` over the blocks of `order`. */
  method ChopAll(world: World, order: seq<Pos>, tool: ItemStack, fortune: int, playerAt: Pos,
                 getDrops: (Material, ItemStack) -> seq<ItemStack>, draws: (Pos, nat) -> nat)
    modifies world
    requires Distinct(order)
    ensures world.blocks == Felled(old(world.blocks), Elems(order))
    ensures world.wallFacing == old(world.wallFacing) - Elems(order)
    ensures world.drops == old(world.drops) +
      Dropped(order, ChopYields(old(world.blocks), tool, fortune, getDrops, draws), playerAt, DropRangeSq)
  {
    ghost var initial := world.blocks;
    ghost var yieldOf := ChopYields(initial, tool, fortune, getDrops, draws);
    FelledNothing(initial);
    var i := 0;
    while i < |order|
      invariant 0 <= i <= |order|
      invariant world.blocks == Felled(initial, Elems(order[..i]))
      invariant world.wallFacing == old(world.wallFacing) - Elems(order[..i])
      invariant world.drops == old(world.drops) + Dropped(order[..i], yieldOf, playerAt, DropRangeSq)
    {
      var p := order[i];
      DroppedStep(order, i, yieldOf, playerAt, DropRangeSq);
      MapRemoveStep(old(world.wallFacing), Elems(order[..i]), p);
      FelledMeaning(initial, Elems(order[..i]), p);
      var drops := YieldOf(world, p, tool, fortune, getDrops, draws, initial);
      AppendAssoc(old(world.drops), Dropped(order[..i], yieldOf, playerAt, DropRangeSq),
                  Placed(DropSpot(p, playerAt, DropRangeSq), drops));
      BreakBlock(world, p, drops, playerAt, DropRangeSq, initial, Elems(order[..i]));
      i := i + 1;
    }
    assert order[..i] == order;
  }

  /** `chopTree(player, treeBlocks, tool)`: every block of the tree, in the
      hash set's order `order`, is set to AIR and its drops dropped. */
  method ChopTree(world: World, treeBlocks: set<Pos>, tool: ItemStack, playerAt: Pos,
                  getDrops: (Material, ItemStack) -> seq<ItemStack>, draws: (Pos, nat) -> nat)
    returns (order: seq<Pos>)
    modifies world
    ensures Distinct(order) && Elems(order) == treeBlocks
    ensures world.blocks == Felled(old(world.blocks), treeBlocks)
    ensures world.wallFacing == old(world.wallFacing) - treeBlocks
    ensures world.drops == old(world.drops) +
      Dropped(order, ChopYields(old(world.blocks), tool, EnchantLevel(tool.meta, Fortune), getDrops, draws),
              playerAt, DropRangeSq)
  {
    var fortune := EnchantLevel(tool.meta, Fortune);
    order := ListOf(treeBlocks);
    ChopAll(world, order, tool, fortune, playerAt, getDrops, draws);
  }

  /** The gate of the handler: an Amethyst Tree Chopper in the main hand and
      a log broken. */
  predicate Chops(item: Option<ItemStack>, broken: Pos, blocks: map<Pos, Material>) {
    item.Some? && IsAmethystTool(item) && GetToolType(item) == Some(ToolType.TreeChopper) &&
    TypeIn(blocks, broken) in LogTypes
  }

  /** `onBlockBreak`. The event is cancelled exactly when a Tree Chopper
      breaks a log; then the tree found from the broken block is felled in
      the order `order`, its drops dropped and the player told. Otherwise
      nothing changes. */
  method OnBlockBreak(item: Option<ItemStack>, broken: Pos, player: Player, world: World, server: Server,
                      getDrops: (Material, ItemStack) -> seq<ItemStack>, draws: (Pos, nat) -> nat)
    returns (cancelled: bool, tree: set<Pos>, order: seq<Pos>)
    modifies world, server
    ensures cancelled <==> Chops(item, broken, old(world.blocks))
    ensures cancelled ==> TreeShape(old(world.blocks), broken, tree) && broken in tree
    ensures !cancelled ==> tree == {} && order == []
    ensures Distinct(order) && Elems(order) == tree
    ensures world.blocks == Felled(old(world.blocks), tree)
    ensures world.wallFacing == old(world.wallFacing) - tree
    ensures cancelled ==>
      world.drops == old(world.drops) +
        Dropped(order, ChopYields(old(world.blocks), item.value, EnchantLevel(item.value.meta, Fortune), getDrops, draws),
                player.location, DropRangeSq)
    ensures !cancelled ==> world.drops == old(world.drops)
    ensures server.online == old(server.online) && server.inventories == old(server.inventories)
    ensures server.notices == old(server.notices) +
      (if cancelled then [Message(ToPlayer(player.id), "tools.tree-chopper.success", map[])] else [])
  {
    cancelled, tree, order := false, {}, [];
    assert world.blocks == Felled(world.blocks, {});
    if item.None? || !IsAmethystTool(item) || GetToolType(item) != Some(ToolType.TreeChopper) {
      return;
    }
    if world.TypeAt(broken) !in LogTypes {
      return;
    }
    tree := FindTreeBlocks(world.blocks, broken);
    if tree == {} {
      // The broken block is a log, so the tree holds it.
      assert false;
    }
    cancelled := true;
    order := ChopTree(world, tree, item.value, player.location, getDrops, draws);
    server.Send(Message(ToPlayer(player.id), "tools.tree-chopper.success", map[]));
  }
}
