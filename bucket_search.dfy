/** The search of `BucketListener.findWaterBlocks`: a breadth-first walk over
    the water around a clicked block, following face neighbours and the
    neighbours in the same layer, stopping after a limit. */
module WaterSearch {
  import opened Common
  import opened Materials
  import opened Game
  import opened Sorting
  import opened AreaSearch

  /** The offsets the search follows from a water block: the six face
      neighbours and the eight blocks around it in its own layer. */
  const WaterSteps: set<Pos> := set d | d in Axis6 + Layer8

  lemma WaterStepsIff(d: Pos)
    ensures d in WaterSteps <==> d in Axis6 || d in Layer8
  {
  }

  /** The search stops once it has collected this many water blocks: three
      times the drain amount, in 32-bit arithmetic. */
  function MaxBlocks(drainAmount: int): int {
    ToInt32(drainAmount * 3)
  }

  /** A search that never runs: every drain amount from 715827883 to
      1431655765 makes the search limit negative. */
  lemma MaxBlocksWraps()
    ensures MaxBlocks(715827883) < 0 && MaxBlocks(1431655765) < 0
    ensures MaxBlocks(27) == 81
  {
  }

  /** One neighbour test of `findWaterBlocks`: the block at offset `d` from
      `current` is marked visited and enqueued when it is water and not yet
      visited. `found` holds the blocks the search has taken off its queue, and
      `bound` the visited blocks together with the water blocks next to `current`. */
  method VisitNeighbor(blocks: map<Pos, Material>, current: Pos, d: Pos, visited: set<Pos>, queue: seq<Pos>,
                       ghost found: set<Pos>, ghost bound: set<Pos>)
    returns (visited': set<Pos>, queue': seq<Pos>)
    requires visited == found + Elems(queue) && visited <= bound
    requires TypeIn(blocks, Relative(current, d)) == Water ==> Relative(current, d) in bound
    ensures visited' == found + Elems(queue')
    ensures visited <= visited' <= bound
    ensures TypeIn(blocks, Relative(current, d)) == Water ==> Relative(current, d) in visited'
    ensures Pending(blocks, visited', queue') == Pending(blocks, visited, queue)
  {
    var neighbor := Relative(current, d);
    if neighbor !in visited && TypeIn(blocks, neighbor) == Water {
      UnvisitedShrinks(blocks.Keys, visited, neighbor);
      ElemsSnoc(queue, neighbor);
      visited' := visited + {neighbor};
      queue' := queue + [neighbor];
    } else {
      visited', queue' := visited, queue;
    }
  }

  /** The inner loops of `findWaterBlocks`: every neighbour at one of
      `offsets`, in their order. */
  method VisitOffsets(blocks: map<Pos, Material>, current: Pos, offsets: seq<Pos>, visited: set<Pos>, queue: seq<Pos>,
                      ghost found: set<Pos>, ghost bound: set<Pos>)
    returns (visited': set<Pos>, queue': seq<Pos>)
    requires visited == found + Elems(queue) && visited <= bound
    requires forall d :: d in offsets && TypeIn(blocks, Relative(current, d)) == Water ==> Relative(current, d) in bound
    ensures visited' == found + Elems(queue')
    ensures visited <= visited' <= bound
    ensures forall d :: d in offsets && TypeIn(blocks, Relative(current, d)) == Water ==> Relative(current, d) in visited'
    ensures Pending(blocks, visited', queue') == Pending(blocks, visited, queue)
  {
    visited', queue' := visited, queue;
    var k := 0;
    while k < |offsets|
      invariant 0 <= k <= |offsets|
      invariant visited' == found + Elems(queue')
      invariant visited <= visited' <= bound
      invariant forall j :: 0 <= j < k && TypeIn(blocks, Relative(current, offsets[j])) == Water ==>
        Relative(current, offsets[j]) in visited'
      invariant Pending(blocks, visited', queue') == Pending(blocks, visited, queue)
    {
      ghost var before := visited';
      visited', queue' := VisitNeighbor(blocks, current, offsets[k], visited', queue', found, bound);
      forall j | 0 <= j < k && TypeIn(blocks, Relative(current, offsets[j])) == Water
        ensures Relative(current, offsets[j]) in visited'
      {
        assert Relative(current, offsets[j]) in before;
      }
      k := k + 1;
    }
  }

  /** The offsets of both inner loops lead to water neighbours the search may
      take. */
  lemma NearWater(blocks: map<Pos, Material>, current: Pos)
    ensures forall d :: (d in Axis6 || d in Layer8) && TypeIn(blocks, Relative(current, d)) == Water ==>
      Relative(current, d) in AllowedNeighbors(blocks, {Water}, WaterSteps, current)
  {
    forall d | (d in Axis6 || d in Layer8) && TypeIn(blocks, Relative(current, d)) == Water
      ensures Relative(current, d) in AllowedNeighbors(blocks, {Water}, WaterSteps, current)
    {
      WaterStepsIff(d);
    }
  }

  /** What the search keeps true between two blocks taken off its queue:
      everything visited is reachable water; the visited blocks are the ones
      found plus the ones waiting; every water neighbour of a found block has
      been visited; the start is found first. */
  ghost predicate Searching(blocks: map<Pos, Material>, start: Pos, found: set<Pos>, visited: set<Pos>, queue: seq<Pos>) {
    Discovered(blocks, {Water}, WaterSteps, start, visited) &&
    visited == found + Elems(queue) &&
    ClosedInto(blocks, {Water}, WaterSteps, found, visited) &&
    (TypeIn(blocks, start) == Water ==> start in found || (found == {} && queue == [start])) &&
    (TypeIn(blocks, start) != Water ==> visited == {})
  }

  /** Taking a water block off the queue and visiting its neighbours keeps
      the search state. */
  lemma SearchingStep(blocks: map<Pos, Material>, start: Pos, found: set<Pos>, visited: set<Pos>, queue: seq<Pos>,
                      visited': set<Pos>, queue': seq<Pos>)
    requires Searching(blocks, start, found, visited, queue) && queue != []
    requires visited' == found + {queue[0]} + Elems(queue')
    requires visited <= visited' <= visited + AllowedNeighbors(blocks, {Water}, WaterSteps, queue[0])
    requires forall d :: (d in Axis6 || d in Layer8) && TypeIn(blocks, Relative(queue[0], d)) == Water ==>
      Relative(queue[0], d) in visited'
    ensures Searching(blocks, start, found + {queue[0]}, visited', queue')
  {
    var current := queue[0];
    ElemsCons(queue);
    DiscoveredAddAll(blocks, {Water}, WaterSteps, start, visited, current, visited' - visited);
    assert visited + (visited' - visited) == visited';
    forall d | d in WaterSteps
      ensures d in Axis6 || d in Layer8
    {
      WaterStepsIff(d);
    }
    ClosedIntoAdd(blocks, {Water}, WaterSteps, found, visited, visited', current);
  }

  /** Every block waiting in the queue is water. */
  lemma QueuedIsWater(blocks: map<Pos, Material>, start: Pos, found: set<Pos>, visited: set<Pos>, queue: seq<Pos>)
    requires Searching(blocks, start, found, visited, queue) && queue != []
    ensures TypeIn(blocks, queue[0]) == Water
  {
    ElemsCons(queue);
  }

  /** One turn of the search loop: the block at the head of the queue is
      taken off it and, being water, is found and has its neighbours
      visited. */
  method SearchStep(blocks: map<Pos, Material>, found: set<Pos>, visited: set<Pos>, queue: seq<Pos>, ghost start: Pos)
    returns (found': set<Pos>, visited': set<Pos>, queue': seq<Pos>)
    requires Searching(blocks, start, found, visited, queue) && queue != []
    ensures Searching(blocks, start, found', visited', queue')
    ensures found' == found + {queue[0]}
    ensures Pending(blocks, visited', queue') < Pending(blocks, visited, queue)
  {
    var current := queue[0];
    QueuedIsWater(blocks, start, found, visited, queue);
    ElemsCons(queue);
    queue' := queue[1..];
    found', visited' := found, visited;
    if TypeIn(blocks, current) == Water {
      found' := found + {current};
      ghost var near := AllowedNeighbors(blocks, {Water}, WaterSteps, current);
      NearWater(blocks, current);
      visited', queue' := VisitOffsets(blocks, current, Axis6, visited', queue', found', visited + near);
      visited', queue' := VisitOffsets(blocks, current, Layer8, visited', queue', found', visited + near);
      SearchingStep(blocks, start, found, visited, queue, visited', queue');
    }
  }

  /** What the search state promises about the blocks found so far, and,
      once the queue is empty, that nothing reachable was missed. */
  lemma SearchingFound(blocks: map<Pos, Material>, start: Pos, found: set<Pos>, visited: set<Pos>, queue: seq<Pos>)
    requires Searching(blocks, start, found, visited, queue)
    ensures forall p :: p in found ==> TypeIn(blocks, p) == Water && Reachable(blocks, {Water}, WaterSteps, start, p)
    ensures queue == [] ==> forall p :: Reachable(blocks, {Water}, WaterSteps, start, p) ==> p in found
  {
    if queue == [] {
      ClosedContainsReachable(blocks, {Water}, WaterSteps, found, start);
    }
  }

  /** `findWaterBlocks`: a breadth-first search from the clicked block through
      water, stopping when the queue runs dry or `MaxBlocks` blocks are
      collected. Every block found is water reachable from the start; when the
      search ends below its limit it has found the whole body of water. */
  method FindWaterBlocks(blocks: map<Pos, Material>, start: Pos, drainAmount: int) returns (waterBlocks: set<Pos>)
    ensures TypeIn(blocks, start) != Water || MaxBlocks(drainAmount) <= 0 ==> waterBlocks == {}
    ensures TypeIn(blocks, start) == Water && MaxBlocks(drainAmount) > 0 ==> start in waterBlocks
    ensures MaxBlocks(drainAmount) > 0 ==> |waterBlocks| <= MaxBlocks(drainAmount)
    ensures forall p :: p in waterBlocks ==>
      TypeIn(blocks, p) == Water && Reachable(blocks, {Water}, WaterSteps, start, p)
    ensures |waterBlocks| < MaxBlocks(drainAmount) ==>
      forall p :: Reachable(blocks, {Water}, WaterSteps, start, p) ==> p in waterBlocks
  {
    waterBlocks := {};
    var visited: set<Pos> := {};
    var queue: seq<Pos> := [];
    if TypeIn(blocks, start) == Water {
      queue := [start];
      visited := {start};
      DiscoveredStart(blocks, {Water}, WaterSteps, start);
    }
    var maxBlocks := MaxBlocks(drainAmount);
    while queue != [] && |waterBlocks| < maxBlocks
      invariant Searching(blocks, start, waterBlocks, visited, queue)
      invariant |waterBlocks| <= (if maxBlocks > 0 then maxBlocks else 0)
      decreases Pending(blocks, visited, queue)
    {
      waterBlocks, visited, queue := SearchStep(blocks, waterBlocks, visited, queue, start);
    }
    SearchingFound(blocks, start, waterBlocks, visited, queue);
  }
}
