/** The searches of `TreeChopperListener`: the logs connected to a broken log
    through any of the 26 surrounding blocks, up to 1000 of them, and then
    the leaves within five blocks that lie close to the tree. */
module TreeSearch {
  import opened Common
  import opened Materials
  import opened Game
  import opened Sorting
  import opened AreaSearch
  import opened NeighborScan

  /** `LOG_TYPES`: the logs and stems, stripped or not. */
  const LogTypes: set<Material> := {
    OakLog, BirchLog, SpruceLog, JungleLog, AcaciaLog, DarkOakLog, MangroveLog, CherryLog, WarpedStem, CrimsonStem,
    StrippedOakLog, StrippedBirchLog, StrippedSpruceLog, StrippedJungleLog, StrippedAcaciaLog, StrippedDarkOakLog,
    StrippedMangroveLog, StrippedCherryLog, StrippedWarpedStem, StrippedCrimsonStem
  }

  /** `LEAF_TYPES`: the leaves, and the two wart blocks of nether trees. */
  const LeafTypes: set<Material> := {
    OakLeaves, BirchLeaves, SpruceLeaves, JungleLeaves, AcaciaLeaves, DarkOakLeaves, MangroveLeaves, CherryLeaves,
    WarpedWartBlock, NetherWartBlock
  }

  /** The blocks the leaf search may walk through: the logs and the leaves. */
  const TreeMaterials: set<Material> := {
    OakLog, BirchLog, SpruceLog, JungleLog, AcaciaLog, DarkOakLog, MangroveLog, CherryLog, WarpedStem, CrimsonStem,
    StrippedOakLog, StrippedBirchLog, StrippedSpruceLog, StrippedJungleLog, StrippedAcaciaLog, StrippedDarkOakLog,
    StrippedMangroveLog, StrippedCherryLog, StrippedWarpedStem, StrippedCrimsonStem,
    OakLeaves, BirchLeaves, SpruceLeaves, JungleLeaves, AcaciaLeaves, DarkOakLeaves, MangroveLeaves, CherryLeaves,
    WarpedWartBlock, NetherWartBlock
  }

  /** The moves of both searches: to any of the 26 surrounding blocks. */
  const TreeSteps: set<Pos> := set d | d in Cube26

  /** The log search stops once it holds this many logs. */
  const MaxLogs: int := 1000

  /** The leaf scan covers the cube of this radius around the broken log, ... */
  const LeafRadius: int := 5

  /** ... and keeps a leaf within this many moves of the tree. */
  const LeafReach: int := 4

  lemma TreeStepsIff(d: Pos)
    ensures d in TreeSteps <==> d in Cube26
  {
  }

  /** The walkable blocks are the logs and the leaves; no material is both,
      and AIR is neither. */
  lemma TreeMaterialsFacts()
    ensures TreeMaterials == LogTypes + LeafTypes
    ensures LogTypes !! LeafTypes
    ensures Air !in TreeMaterials && Air !in LogTypes
  {
    TreeMaterialsUnion();
    LogLeafDisjoint();
  }

  lemma TreeMaterialsUnion()
    ensures TreeMaterials == LogTypes + LeafTypes
  {
  }

  lemma LogLeafDisjoint()
    ensures LogTypes !! LeafTypes
  {
  }

  /** Every one of the 26 surrounding blocks is at an offset of the scan, and
      each allowed block the scan meets is one move away. */
  lemma AroundCube(blocks: map<Pos, Material>, allowed: set<Material>, c: Pos)
    ensures forall d :: d in TreeSteps ==> Relative(c, d) in Around(c, Cube26, |Cube26|)
    ensures AllowedIn(blocks, allowed, Around(c, Cube26, |Cube26|)) <= AllowedNeighbors(blocks, allowed, TreeSteps, c)
  {
    forall d | d in TreeSteps
      ensures Relative(c, d) in Around(c, Cube26, |Cube26|)
    {
      AroundMember(c, Cube26, d);
    }
    forall p | p in AllowedIn(blocks, allowed, Around(c, Cube26, |Cube26|))
      ensures p in AllowedNeighbors(blocks, allowed, TreeSteps, c)
    {
      var i :| 0 <= i < |Cube26| && p == Relative(c, Cube26[i]);
      assert Cube26[i] in TreeSteps;
    }
  }

  /** What the log search keeps true between two blocks taken off its queue:
      the found and queued blocks are visited, the queue holds no block twice
      and none found; every visited log is found or queued; every log next to
      a found block is visited; a log start is found first and everything
      found or queued is then a log reachable from it, while a start of
      another material is the only block ever queued. */
  ghost predicate LogSearching(blocks: map<Pos, Material>, start: Pos, found: set<Pos>, visited: set<Pos>,
                               queue: seq<Pos>) {
    found + Elems(queue) <= visited && start in visited &&
    Distinct(queue) && found !! Elems(queue) &&
    AllowedIn(blocks, LogTypes, visited) <= found + Elems(queue) &&
    ClosedInto(blocks, LogTypes, TreeSteps, found, visited) &&
    (TypeIn(blocks, start) in LogTypes ==>
       Discovered(blocks, LogTypes, TreeSteps, start, found + Elems(queue)) &&
       (start in found || (found == {} && queue == [start]))) &&
    (TypeIn(blocks, start) !in LogTypes ==> found == {} && Elems(queue) <= {start})
  }

  /** The search state before the loop: only the start, visited and queued. */
  lemma LogSearchingStart(blocks: map<Pos, Material>, start: Pos)
    ensures LogSearching(blocks, start, {}, {start}, [start])
  {
    assert Elems([start]) == {start};
    if TypeIn(blocks, start) in LogTypes {
      DiscoveredStart(blocks, LogTypes, TreeSteps, start);
    }
  }

  /** Taking a block other than a log off the queue: nothing else happens. */
  lemma LogSearchingMiss(blocks: map<Pos, Material>, start: Pos, found: set<Pos>, visited: set<Pos>, queue: seq<Pos>)
    requires LogSearching(blocks, start, found, visited, queue) && queue != []
    requires TypeIn(blocks, queue[0]) !in LogTypes
    ensures LogSearching(blocks, start, found, visited, queue[1..])
  {
    DistinctTail(queue);
  }

  /** Taking a log off the queue, finding it, and scanning its 26
      neighbours keeps the search state, and finds a block not found
      before. */
  lemma LogSearchingHit(blocks: map<Pos, Material>, start: Pos, found: set<Pos>, visited: set<Pos>, queue: seq<Pos>,
                        visited': set<Pos>, added: seq<Pos>)
    requires LogSearching(blocks, start, found, visited, queue) && queue != []
    requires TypeIn(blocks, queue[0]) in LogTypes
    requires visited' == visited + Around(queue[0], Cube26, |Cube26|)
    requires Elems(added) == AllowedIn(blocks, LogTypes, Around(queue[0], Cube26, |Cube26|) - visited)
    requires Distinct(added)
    ensures LogSearching(blocks, start, found + {queue[0]}, visited', queue[1..] + added)
    ensures queue[0] !in found
  {
    var c := queue[0];
    var rest := queue[1..];
    DistinctTail(queue);
    ElemsConcat(rest, added);
    DistinctAppend(rest, added);
    AroundCube(blocks, LogTypes, c);
    ClosedIntoAdd(blocks, LogTypes, TreeSteps, found, visited, visited', c);
    DiscoveredAddAll(blocks, LogTypes, TreeSteps, start, found + Elems(queue), c, Elems(added));
    assert found + {c} + Elems(rest + added) == found + Elems(queue) + Elems(added);
  }

  /** What the search state promises about the logs found so far, and, once
      the queue is empty, that no log reachable from the start was missed. */
  lemma LogSearchingFound(blocks: map<Pos, Material>, start: Pos, found: set<Pos>, visited: set<Pos>,
                          queue: seq<Pos>)
    requires LogSearching(blocks, start, found, visited, queue)
    ensures forall p :: p in found ==> TypeIn(blocks, p) in LogTypes && Reachable(blocks, LogTypes, TreeSteps, start, p)
    ensures queue == [] ==> forall p :: Reachable(blocks, LogTypes, TreeSteps, start, p) ==> p in found
  {
    if queue == [] {
      assert ClosedInto(blocks, LogTypes, TreeSteps, found, found) by {
        forall p, d | p in found && d in TreeSteps && TypeIn(blocks, Relative(p, d)) in LogTypes
          ensures Relative(p, d) in found
        {
          assert Relative(p, d) in AllowedIn(blocks, LogTypes, visited);
        }
      }
      ClosedContainsReachable(blocks, LogTypes, TreeSteps, found, start);
    }
  }

  /** One turn of the search loop of `findTreeBlocks`: the head of the queue
      is taken off it and, when it is a log, found and its 26 neighbours
      scanned; any other block is dropped. */
  method LogStep(blocks: map<Pos, Material>, found: set<Pos>, visited: set<Pos>, queue: seq<Pos>, ghost start: Pos)
    returns (found': set<Pos>, visited': set<Pos>, queue': seq<Pos>)
    requires LogSearching(blocks, start, found, visited, queue) && queue != []
    ensures LogSearching(blocks, start, found', visited', queue')
    ensures TypeIn(blocks, queue[0]) in LogTypes ==> found' == found + {queue[0]} && |found'| == |found| + 1
    ensures TypeIn(blocks, queue[0]) !in LogTypes ==> found' == found && queue' == queue[1..]
  {
    var current := queue[0];
    queue' := queue[1..];
    found', visited' := found, visited;
    if TypeIn(blocks, current) in LogTypes {
      found' := found + {current};
      var added;
      visited', added := MarkAround(blocks, LogTypes, current, Cube26, visited);
      queue' := queue' + added;
      LogSearchingHit(blocks, start, found, visited, queue, visited', added);
    } else {
      LogSearchingMiss(blocks, start, found, visited, queue);
    }
  }

  /** The log search of `findTreeBlocks`: a breadth-first walk from the
      broken block through logs, moving to any of the 26 surrounding blocks,
      until the queue runs dry or 1000 logs are found. Every block found is a
      log reachable from the start, the start among them when it is a log
      itself; below the limit, every log reachable from the start is found. */
  method FindLogs(blocks: map<Pos, Material>, start: Pos) returns (logs: set<Pos>)
    ensures forall p :: p in logs ==> TypeIn(blocks, p) in LogTypes && Reachable(blocks, LogTypes, TreeSteps, start, p)
    ensures start in logs <==> TypeIn(blocks, start) in LogTypes
    ensures |logs| <= MaxLogs
    ensures |logs| < MaxLogs ==> forall p :: Reachable(blocks, LogTypes, TreeSteps, start, p) ==> p in logs
  {
    logs := {};
    var visited: set<Pos> := {start};
    var queue: seq<Pos> := [start];
    LogSearchingStart(blocks, start);
    while queue != [] && |logs| < MaxLogs
      invariant LogSearching(blocks, start, logs, visited, queue)
      invariant |logs| <= MaxLogs
      decreases MaxLogs - |logs|, |queue|
    {
      logs, visited, queue := LogStep(blocks, logs, visited, queue, start);
    }
    LogSearchingFound(blocks, start, logs, visited, queue);
  }
}

