/** `BucketListener`: right-clicking water with the Amethyst Bucket drains the
    nearest water blocks of the body of water clicked, up to the configured
    drain amount. */
module BucketTool {
  import opened Common
  import opened Materials
  import opened ToolTypes
  import opened Text
  import opened Game
  import opened Sorting
  import opened AreaSearch
  import opened ToolManagement
  import opened WaterSearch
  import opened WaterDrain

  /** The comparator of the sort: `a` is at most as far from `c` as `b`. */
  function NearerTo(c: Pos): (Pos, Pos) -> bool {
    (a: Pos, b: Pos) => DistSq(a, c) <= DistSq(b, c)
  }

  lemma NearerToIsPreorder(c: Pos)
    ensures TotalPreorder(NearerTo(c))
  {
  }

  /** The blocks to drain: the found blocks in the hash set's order, and when
      there are more than `drainAmount` of them, the `drainAmount` nearest to
      the clicked block. `None` stands for the exception `subList(0, n)`
      throws for a negative `n`. */
  method SelectNearest(found: set<Pos>, drainAmount: int, clicked: Pos) returns (r: Option<seq<Pos>>)
    ensures r.None? <==> drainAmount < 0
    ensures r.Some? ==> Distinct(r.value) && Elems(r.value) <= found
    ensures r.Some? ==> |r.value| == (if |found| > drainAmount then drainAmount else |found|)
    ensures r.Some? ==> forall p, q :: p in r.value && q in found && q !in r.value ==>
      DistSq(p, clicked) <= DistSq(q, clicked)
  {
    var blocksToRemove := ListOf(found);
    if |blocksToRemove| > drainAmount {
      NearerToIsPreorder(clicked);
      var sorted := SortBy(blocksToRemove, NearerTo(clicked));
      if drainAmount < 0 {
        return None;
      }
      DistinctPermutation(blocksToRemove, sorted);
      var prefix := sorted[..drainAmount];
      forall p, q | p in prefix && q in found && q !in prefix
        ensures DistSq(p, clicked) <= DistSq(q, clicked)
      {
        var i :| 0 <= i < |prefix| && prefix[i] == p;
        assert q in multiset(sorted) by {
          assert q in Elems(blocksToRemove);
          assert q in multiset(blocksToRemove);
        }
        var j :| 0 <= j < |sorted| && sorted[j] == q;
        assert NearerTo(clicked)(sorted[i], sorted[j]);
      }
      assert forall x :: x in prefix ==> x in sorted;
      assert forall x :: x in sorted ==> x in multiset(blocksToRemove);
      r := Some(prefix);
    } else {
      r := Some(blocksToRemove);
    }
  }

  /** `Action.toString().contains("RIGHT_CLICK")` holds for exactly the two
      right-click actions. */
  lemma RightClickActions(a: Action)
    ensures Contains(ActionName(a), "RIGHT_CLICK") <==> a == RightClickBlock || a == RightClickAir
  {
    var s, t := ActionName(a), "RIGHT_CLICK";
    ContainsIff(s, t);
    if a == RightClickBlock || a == RightClickAir {
      assert OccursAt(s, t, 0);
    } else {
      forall i
        ensures !OccursAt(s, t, i)
      {
        if 0 <= i && i + |t| <= |s| {
          assert s[i..i + |t|][0] == s[i];
        }
      }
    }
  }

  /** The gate of the handler: an Amethyst Bucket, a clicked block, a
      right-click, and water in the clicked block. */
  predicate Engages(item: Option<ItemStack>, clicked: Option<Pos>, action: Action, blocks: map<Pos, Material>) {
    item.Some? && IsAmethystTool(item) && GetToolType(item) == Some(ToolType.Bucket) &&
    clicked.Some? && Contains(ActionName(action), "RIGHT_CLICK") && TypeIn(blocks, clicked.value) == Water
  }

  /** The checks at the head of the handler, each returning early. */
  method CheckGate(item: Option<ItemStack>, clicked: Option<Pos>, action: Action, world: World) returns (engages: bool)
    ensures engages <==> Engages(item, clicked, action, world.blocks)
  {
    engages := false;
    if item.None? {
      return;
    }
    if !IsAmethystTool(item) || GetToolType(item) != Some(ToolType.Bucket) {
      return;
    }
    if clicked.None? {
      return;
    }
    if !Contains(ActionName(action), "RIGHT_CLICK") {
      return;
    }
    if world.TypeAt(clicked.value) != Water {
      return;
    }
    engages := true;
  }

  /** What `findWaterBlocks` promises about the blocks `found` from the
      clicked block `start`: water reachable from it, at most `MaxBlocks` of
      them, and the whole body of water when fewer. */
  ghost predicate Found(blocks: map<Pos, Material>, start: Pos, drainAmount: int, found: set<Pos>) {
    (MaxBlocks(drainAmount) <= 0 ==> found == {}) &&
    (MaxBlocks(drainAmount) > 0 ==> start in found && |found| <= MaxBlocks(drainAmount)) &&
    (forall p :: p in found ==> TypeIn(blocks, p) == Water && Reachable(blocks, {Water}, WaterSteps, start, p)) &&
    (|found| < MaxBlocks(drainAmount) ==> forall p :: Reachable(blocks, {Water}, WaterSteps, start, p) ==> p in found)
  }

  /** How a click ended. */
  datatype BucketOutcome = Ignored | NoWater | Success(amount: int) | SubListFailed

  /** The end of the handler once water was found: the blocks found, or the
      `drainAmount` of them nearest to the clicked block, are drained and
      reported. */
  method DrainFound(world: World, server: Server, player: Player, clicked: Pos, waterBlocks: set<Pos>, drainAmount: int)
    returns (outcome: BucketOutcome, drained: seq<Pos>)
    modifies world, server
    requires waterBlocks != {} && drainAmount != 0
    requires forall p :: p in waterBlocks ==> TypeIn(world.blocks, p) == Water
    ensures world.blocks == Drain(old(world.blocks), Elems(drained))
    ensures world.wallFacing == old(world.wallFacing) - Elems(drained)
    ensures world.drops == old(world.drops)
    ensures server.online == old(server.online) && server.inventories == old(server.inventories)
    ensures Distinct(drained) && Elems(drained) <= waterBlocks
    ensures outcome.Success? ==>
      |drained| == (if |waterBlocks| > drainAmount then drainAmount else |waterBlocks|)
    ensures forall p, q :: p in drained && q in waterBlocks && q !in drained ==>
      DistSq(p, clicked) <= DistSq(q, clicked)
    ensures outcome.Success? || outcome == SubListFailed
    ensures outcome.Success? <==> drained != []
    ensures outcome.Success? ==>
      outcome.amount == |drained| &&
      server.notices == old(server.notices) +
        [Message(ToPlayer(player.id), "tools.bucket.success", map["amount" := IntToString(|drained|)])]
    ensures outcome == SubListFailed ==> server.notices == old(server.notices) && drainAmount < 0
  {
    var selection := SelectNearest(waterBlocks, drainAmount, clicked);
    if selection.None? {
      DrainNothing(world.blocks);
      outcome, drained := SubListFailed, [];
      return;
    }
    var blocksToRemove := selection.value;
    assert WaterIn(world.blocks, Elems(blocksToRemove)) == Elems(blocksToRemove);
    DistinctCard(blocksToRemove);
    var removedCount := DrainBlocks(world, blocksToRemove);
    if removedCount > 0 {
      server.Send(Message(ToPlayer(player.id), "tools.bucket.success", map["amount" := IntToString(removedCount)]));
      outcome, drained := Success(removedCount), blocksToRemove;
    } else {
      // The selection is non-empty water, so the no-water message of this
      // branch is never sent.
      assert false;
    }
  }

  /** The handler once the click engages: the water around the clicked block
      is searched, and either reported missing or drained. `found` is what
      the search found. */
  method HandleWater(world: World, server: Server, player: Player, clicked: Pos, drainAmount: int)
    returns (outcome: BucketOutcome, drained: seq<Pos>, ghost found: set<Pos>)
    modifies world, server
    requires TypeIn(world.blocks, clicked) == Water
    ensures Found(old(world.blocks), clicked, drainAmount, found)
    ensures outcome == NoWater <==> found == {}
    ensures Elems(drained) <= found
    ensures outcome.Success? ==> |drained| == (if |found| > drainAmount then drainAmount else |found|)
    ensures forall p, q :: p in drained && q in found && q !in drained ==>
      DistSq(p, clicked) <= DistSq(q, clicked)
    ensures outcome != Ignored
    ensures world.blocks == Drain(old(world.blocks), Elems(drained))
    ensures world.wallFacing == old(world.wallFacing) - Elems(drained)
    ensures world.drops == old(world.drops)
    ensures server.online == old(server.online) && server.inventories == old(server.inventories)
    ensures drained != [] ==>
      0 < |drained| <= drainAmount && Distinct(drained) &&
      forall p :: p in drained ==>
        TypeIn(old(world.blocks), p) == Water && Reachable(old(world.blocks), {Water}, WaterSteps, clicked, p)
    ensures outcome.Success? <==> drained != []
    ensures outcome.Success? ==>
      outcome.amount == |drained| &&
      server.notices == old(server.notices) +
        [Message(ToPlayer(player.id), "tools.bucket.success", map["amount" := IntToString(|drained|)])]
    ensures outcome == NoWater ==>
      server.notices == old(server.notices) + [Message(ToPlayer(player.id), "tools.bucket.no-water", map[])]
    ensures outcome == SubListFailed ==> server.notices == old(server.notices) && drainAmount < 0
  {
    var waterBlocks := FindWaterBlocks(world.blocks, clicked, drainAmount);
    found := waterBlocks;
    if waterBlocks == {} {
      DrainNothing(world.blocks);
      server.Send(Message(ToPlayer(player.id), "tools.bucket.no-water", map[]));
      outcome, drained := NoWater, [];
      return;
    }
    outcome, drained := DrainFound(world, server, player, clicked, waterBlocks, drainAmount);
    assert forall p :: p in drained ==> p in waterBlocks;
  }

  /** `onPlayerInteract`. `drained` lists the blocks set to AIR, `found` the
      water the search found. */
  method OnPlayerInteract(item: Option<ItemStack>, clicked: Option<Pos>, action: Action, player: Player,
                          cfg: Config, world: World, server: Server)
    returns (cancelled: bool, outcome: BucketOutcome, drained: seq<Pos>, ghost found: set<Pos>)
    modifies world, server
    ensures cancelled <==> Engages(item, clicked, action, old(world.blocks))
    ensures cancelled ==> Found(old(world.blocks), clicked.value, cfg.drainAmount, found)
    ensures outcome == NoWater <==> cancelled && found == {}
    ensures Elems(drained) <= found
    ensures outcome.Success? ==>
      |drained| == (if |found| > cfg.drainAmount then cfg.drainAmount else |found|)
    ensures cancelled ==> forall p, q :: p in drained && q in found && q !in drained ==>
      DistSq(p, clicked.value) <= DistSq(q, clicked.value)
    ensures outcome == Ignored <==> !cancelled
    ensures world.blocks == Drain(old(world.blocks), Elems(drained))
    ensures world.wallFacing == old(world.wallFacing) - Elems(drained)
    ensures world.drops == old(world.drops)
    ensures server.online == old(server.online) && server.inventories == old(server.inventories)
    ensures drained != [] ==>
      clicked.Some? && 0 < |drained| <= cfg.drainAmount && Distinct(drained) &&
      forall p :: p in drained ==>
        TypeIn(old(world.blocks), p) == Water && Reachable(old(world.blocks), {Water}, WaterSteps, clicked.value, p)
    ensures outcome.Success? <==> drained != []
    ensures outcome.Success? ==>
      outcome.amount == |drained| &&
      server.notices == old(server.notices) +
        [Message(ToPlayer(player.id), "tools.bucket.success", map["amount" := IntToString(|drained|)])]
    ensures outcome == NoWater ==>
      server.notices == old(server.notices) + [Message(ToPlayer(player.id), "tools.bucket.no-water", map[])]
    ensures outcome == Ignored || outcome == SubListFailed ==> server.notices == old(server.notices)
    ensures outcome == SubListFailed ==> cfg.drainAmount < 0
  {
    cancelled := CheckGate(item, clicked, action, world);
    if !cancelled {
      DrainNothing(world.blocks);
      outcome, drained, found := Ignored, [], {};
      return;
    }
    outcome, drained, found := HandleWater(world, server, player, clicked.value, cfg.drainAmount);
  }
}
