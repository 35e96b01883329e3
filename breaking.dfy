/** Breaking blocks by hand of a tool: the broken blocks become AIR and what
    they yield is dropped into the world, at the block or, when the block is
    out of range, at the player. */
module Breaking {
  import opened Common
  import opened Materials
  import opened Game
  import opened Sorting

  /** Where the drops of block `p` land: at the block, or at the player when
      the squared distance between them exceeds `rangeSq`. */
  function DropSpot(p: Pos, playerAt: Pos, rangeSq: int): (r: Pos)
    ensures r == p || r == playerAt
    ensures r == p <==> DistSq(p, playerAt) <= rangeSq || p == playerAt
  {
    if DistSq(p, playerAt) > rangeSq then playerAt else p
  }

  /** The world once every block of `s` has been set to AIR. */
  function Felled(blocks: map<Pos, Material>, s: set<Pos>): map<Pos, Material> {
    map p | p in blocks.Keys + s :: if p in s then Air else blocks[p]
  }

  /** Felling turns exactly the blocks of `s` into AIR. */
  lemma FelledMeaning(blocks: map<Pos, Material>, s: set<Pos>, p: Pos)
    ensures TypeIn(Felled(blocks, s), p) == if p in s then Air else TypeIn(blocks, p)
  {
  }

  /** Felling nothing changes nothing. */
  lemma FelledNothing(blocks: map<Pos, Material>)
    ensures Felled(blocks, {}) == blocks
  {
  }

  /** Felling one more block. */
  lemma FelledAdd(blocks: map<Pos, Material>, s: set<Pos>, b: Pos)
    ensures Felled(blocks, s + {b}) == Felled(blocks, s)[b := Air]
  {
    var after, before := Felled(blocks, s + {b}), Felled(blocks, s)[b := Air];
    assert after.Keys == before.Keys;
    forall p | p in after.Keys
      ensures after[p] == before[p]
    {
    }
  }

  /** The stacks dropped at `at`: every one but AIR, in order. */
  function Placed(at: Pos, items: seq<ItemStack>): seq<Drop>
    decreases |items|
  {
    if items == [] then []
    else
      var rest := Placed(at, items[..|items| - 1]);
      if items[|items| - 1].material != Air then rest + [Drop(at, items[|items| - 1])] else rest
  }

  /** What lands at `at` is every stack but AIR, and nothing else. */
  lemma {:induction false} PlacedMeaning(at: Pos, items: seq<ItemStack>)
    ensures |Placed(at, items)| <= |items|
    ensures forall d :: d in Placed(at, items) ==> d.at == at && d.item in items && d.item.material != Air
    ensures forall it :: it in items && it.material != Air ==> Drop(at, it) in Placed(at, items)
    decreases |items|
  {
    if items != [] {
      var init := items[..|items| - 1];
      PlacedMeaning(at, init);
      assert forall it :: it in items ==> it in init || it == items[|items| - 1] by {
        assert items == init + [items[|items| - 1]];
      }
      assert forall it :: it in init ==> it in items;
    }
  }

  /** The inner loop of `chopTree`: every stack but AIR is dropped at `at`. */
  method DropAll(world: World, at: Pos, drops: seq<ItemStack>)
    modifies world
    ensures world.drops == old(world.drops) + Placed(at, drops)
    ensures world.blocks == old(world.blocks) && world.wallFacing == old(world.wallFacing)
  {
    var i := 0;
    while i < |drops|
      invariant 0 <= i <= |drops|
      invariant world.blocks == old(world.blocks) && world.wallFacing == old(world.wallFacing)
      invariant world.drops == old(world.drops) + Placed(at, drops[..i])
    {
      assert drops[..i + 1][..i] == drops[..i];
      if drops[i].material != Air {
        world.DropItem(at, drops[i]);
      }
      i := i + 1;
    }
    assert drops[..i] == drops;
  }

  /** The drops of the blocks of `order`, broken in that order, block `p`
      yielding the stacks `yieldOf(p)`. */
  function Dropped(order: seq<Pos>, yieldOf: Pos -> seq<ItemStack>, playerAt: Pos, rangeSq: int): seq<Drop>
    decreases |order|
  {
    if order == [] then []
    else
      var p := order[|order| - 1];
      Dropped(order[..|order| - 1], yieldOf, playerAt, rangeSq) + Placed(DropSpot(p, playerAt, rangeSq), yieldOf(p))
  }

  /** What one more block of `order` adds: a block not broken yet, and its
      drops after those of the blocks before it. */
  lemma DroppedStep(order: seq<Pos>, i: nat, yieldOf: Pos -> seq<ItemStack>, playerAt: Pos, rangeSq: int)
    requires Distinct(order) && i < |order|
    ensures order[i] !in Elems(order[..i])
    ensures Elems(order[..i + 1]) == Elems(order[..i]) + {order[i]}
    ensures Dropped(order[..i + 1], yieldOf, playerAt, rangeSq) ==
      Dropped(order[..i], yieldOf, playerAt, rangeSq) + Placed(DropSpot(order[i], playerAt, rangeSq), yieldOf(order[i]))
  {
    assert order[..i + 1] == order[..i] + [order[i]];
    ElemsSnoc(order[..i], order[i]);
    assert order[..i + 1][..i] == order[..i];
  }

  /** Every drop lands at one of the broken blocks within range of the
      player, or at the player; none is AIR, and each is a stack one of the
      broken blocks yield. */
  lemma {:induction false} DroppedSpots(order: seq<Pos>, yieldOf: Pos -> seq<ItemStack>, playerAt: Pos, rangeSq: int)
    ensures forall d :: d in Dropped(order, yieldOf, playerAt, rangeSq) ==>
      d.item.material != Air &&
      exists p :: p in order && d.at == DropSpot(p, playerAt, rangeSq) && d.item in yieldOf(p)
    ensures forall d :: d in Dropped(order, yieldOf, playerAt, rangeSq) ==>
      d.at == playerAt || (d.at in order && DistSq(d.at, playerAt) <= rangeSq)
    decreases |order|
  {
    if order != [] {
      var init, p := order[..|order| - 1], order[|order| - 1];
      DroppedSpots(init, yieldOf, playerAt, rangeSq);
      var rest := Dropped(init, yieldOf, playerAt, rangeSq);
      var here := Placed(DropSpot(p, playerAt, rangeSq), yieldOf(p));
      PlacedMeaning(DropSpot(p, playerAt, rangeSq), yieldOf(p));
      forall d: Drop | d in rest + here
        ensures d.item.material != Air &&
          (exists q :: q in order && d.at == DropSpot(q, playerAt, rangeSq) && d.item in yieldOf(q)) &&
          (d.at == playerAt || (d.at in order && DistSq(d.at, playerAt) <= rangeSq))
      {
        if d in rest {
          var q :| q in init && d.at == DropSpot(q, playerAt, rangeSq) && d.item in yieldOf(q);
          assert q in order;
        } else {
          assert p in order;
        }
      }
    }
  }

  /** Breaking one block: it is set to AIR and `drops` dropped where its
      drops land. */
  method BreakBlock(world: World, p: Pos, drops: seq<ItemStack>, playerAt: Pos, rangeSq: int,
                    ghost initial: map<Pos, Material>, ghost done: set<Pos>)
    modifies world
    requires world.blocks == Felled(initial, done)
    ensures world.blocks == Felled(initial, done + {p})
    ensures world.wallFacing == old(world.wallFacing) - {p}
    ensures world.drops == old(world.drops) + Placed(DropSpot(p, playerAt, rangeSq), drops)
  {
    world.SetType(p, Air);
    FelledAdd(initial, done, p);
    DropAll(world, DropSpot(p, playerAt, rangeSq), drops);
  }
}
