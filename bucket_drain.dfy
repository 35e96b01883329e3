/** The drain loop of `BucketListener.onPlayerInteract`: the selected blocks
    that still hold water become AIR. */
module WaterDrain {
  import opened Common
  import opened Materials
  import opened Game
  import opened Sorting

  /** The blocks of `s` that hold water. */
  function WaterIn(blocks: map<Pos, Material>, s: set<Pos>): set<Pos> {
    set p | p in s && TypeIn(blocks, p) == Water
  }

  /** The world once every water block of `s` has been set to AIR. */
  function Drain(blocks: map<Pos, Material>, s: set<Pos>): map<Pos, Material> {
    map p | p in blocks :: if p in s && blocks[p] == Water then Air else blocks[p]
  }

  /** Draining turns exactly the water blocks of `s` into AIR and leaves
      every other block as it was. */
  lemma DrainMeaning(blocks: map<Pos, Material>, s: set<Pos>, p: Pos)
    ensures Drain(blocks, s).Keys == blocks.Keys
    ensures TypeIn(Drain(blocks, s), p) == if p in WaterIn(blocks, s) then Air else TypeIn(blocks, p)
  {
  }

  /** The value of a drained block. */
  lemma DrainAt(blocks: map<Pos, Material>, s: set<Pos>, p: Pos)
    requires p in blocks
    ensures p in Drain(blocks, s) && Drain(blocks, s)[p] == if p in s && blocks[p] == Water then Air else blocks[p]
  {
  }

  /** Draining one more block sets it to AIR when it is water and not drained
      yet, ... */
  lemma DrainAddWater(blocks: map<Pos, Material>, s: set<Pos>, b: Pos)
    requires b !in s && TypeIn(blocks, b) == Water
    ensures Drain(blocks, s + {b}) == Drain(blocks, s)[b := Air]
  {
    var after, before := Drain(blocks, s + {b}), Drain(blocks, s);
    DrainMeaning(blocks, s + {b}, b);
    DrainMeaning(blocks, s, b);
    forall p | p in blocks
      ensures after[p] == before[b := Air][p]
    {
      DrainAt(blocks, s + {b}, p);
      DrainAt(blocks, s, p);
    }
  }

  /** ... and changes nothing otherwise. */
  lemma DrainAddOther(blocks: map<Pos, Material>, s: set<Pos>, b: Pos)
    requires !(b !in s && TypeIn(blocks, b) == Water)
    ensures Drain(blocks, s + {b}) == Drain(blocks, s)
  {
  }

  /** The water blocks among `s + {b}` gain `b` when it is new water, ... */
  lemma WaterInAddWater(blocks: map<Pos, Material>, s: set<Pos>, b: Pos)
    requires b !in s && TypeIn(blocks, b) == Water
    ensures b !in WaterIn(blocks, s) && WaterIn(blocks, s + {b}) == WaterIn(blocks, s) + {b}
    ensures |WaterIn(blocks, s + {b})| == |WaterIn(blocks, s)| + 1
  {
  }

  /** ... and stay as they are otherwise. */
  lemma WaterInAddOther(blocks: map<Pos, Material>, s: set<Pos>, b: Pos)
    requires !(b !in s && TypeIn(blocks, b) == Water)
    ensures WaterIn(blocks, s + {b}) == WaterIn(blocks, s)
  {
  }

  /** One turn of the drain loop: the block becomes AIR if it is still water,
      and is then counted. */
  method DrainOne(world: World, waterBlock: Pos, removedCount: int,
                  ghost initial: map<Pos, Material>, ghost facing: map<Pos, BlockFace>, ghost done: set<Pos>)
    returns (removedCount': int)
    modifies world
    requires world.blocks == Drain(initial, done) && world.wallFacing == facing - WaterIn(initial, done)
    requires removedCount == |WaterIn(initial, done)|
    ensures world.blocks == Drain(initial, done + {waterBlock})
    ensures world.wallFacing == facing - WaterIn(initial, done + {waterBlock})
    ensures removedCount' == |WaterIn(initial, done + {waterBlock})|
    ensures world.drops == old(world.drops)
  {
    removedCount' := removedCount;
    DrainMeaning(initial, done, waterBlock);
    if world.TypeAt(waterBlock) == Water {
      DrainAddWater(initial, done, waterBlock);
      WaterInAddWater(initial, done, waterBlock);
      MapRemoveStep(facing, WaterIn(initial, done), waterBlock);
      world.SetType(waterBlock, Air);
      removedCount' := removedCount + 1;
    } else {
      DrainAddOther(initial, done, waterBlock);
      WaterInAddOther(initial, done, waterBlock);
    }
  }

  /** The drain loop: every selected block that is still water becomes AIR,
      and the count says how many did. */
  method DrainBlocks(world: World, selected: seq<Pos>) returns (removedCount: int)
    modifies world
    ensures world.blocks == Drain(old(world.blocks), Elems(selected))
    ensures world.wallFacing == old(world.wallFacing) - WaterIn(old(world.blocks), Elems(selected))
    ensures world.drops == old(world.drops)
    ensures removedCount == |WaterIn(old(world.blocks), Elems(selected))|
  {
    ghost var initial := world.blocks;
    ghost var facing := world.wallFacing;
    removedCount := 0;
    var i := 0;
    while i < |selected|
      invariant 0 <= i <= |selected|
      invariant world.blocks == Drain(initial, Elems(selected[..i]))
      invariant world.wallFacing == facing - WaterIn(initial, Elems(selected[..i]))
      invariant world.drops == old(world.drops)
      invariant removedCount == |WaterIn(initial, Elems(selected[..i]))|
    {
      assert selected[..i + 1] == selected[..i] + [selected[i]];
      ElemsSnoc(selected[..i], selected[i]);
      removedCount := DrainOne(world, selected[i], removedCount, initial, facing, Elems(selected[..i]));
      i := i + 1;
    }
    assert selected[..i] == selected;
  }

  /** Draining nothing leaves the world as it is. */
  lemma DrainNothing(blocks: map<Pos, Material>)
    ensures Drain(blocks, {}) == blocks && WaterIn(blocks, {}) == {}
  {
  }
}
