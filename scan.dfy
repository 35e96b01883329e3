/** The neighbour scan both tree searches share: from one block, every block
    at a list of offsets is marked visited, and the unvisited ones of an
    allowed material are queued. */
module NeighborScan {
  import opened Common
  import opened Materials
  import opened Game
  import opened Sorting
  import opened AreaSearch

  /** The blocks at the first `k` offsets of `ds` from `c`. */
  function Around(c: Pos, ds: seq<Pos>, k: nat): set<Pos>
    requires k <= |ds|
  {
    set i | 0 <= i < k :: Relative(c, ds[i])
  }

  lemma AroundNext(c: Pos, ds: seq<Pos>, k: nat)
    requires k < |ds|
    ensures Around(c, ds, k + 1) == Around(c, ds, k) + {Relative(c, ds[k])}
  {
    assert forall i {:trigger ds[i]} :: 0 <= i < k + 1 ==> i < k || i == k;
  }

  lemma AroundMember(c: Pos, ds: seq<Pos>, d: Pos)
    requires d in ds
    ensures Relative(c, d) in Around(c, ds, |ds|)
  {
    var i :| 0 <= i < |ds| && ds[i] == d;
  }

  /** The blocks of `s` whose material is in `allowed`. */
  function AllowedIn(blocks: map<Pos, Material>, allowed: set<Material>, s: set<Pos>): set<Pos> {
    set p | p in s && TypeIn(blocks, p) in allowed
  }

  /** The blocks queued by a scan grow by `n` exactly when `n` is a new
      allowed block. */
  lemma QueuedStep(blocks: map<Pos, Material>, allowed: set<Material>, visited: set<Pos>, a: set<Pos>, n: Pos,
                   added: set<Pos>, queued: bool)
    requires added == AllowedIn(blocks, allowed, a - visited)
    requires queued == (n !in visited + a && TypeIn(blocks, n) in allowed)
    ensures (if queued then added + {n} else added) == AllowedIn(blocks, allowed, (a + {n}) - visited)
  {
  }

  /** One neighbour test of both searches: the block `n` is marked visited
      whatever it is, and queued when it was not visited before and its
      material is allowed. */
  function Mark(blocks: map<Pos, Material>, allowed: set<Material>, n: Pos, visited: set<Pos>, added: seq<Pos>)
    : (set<Pos>, seq<Pos>)
  {
    if n in visited then (visited, added)
    else (visited + {n}, if TypeIn(blocks, n) in allowed then added + [n] else added)
  }

  /** The neighbour scan as a function: the visited set and the blocks
      queued after the first `k` offsets of `ds` from `current`. */
  function Scan(blocks: map<Pos, Material>, allowed: set<Material>, current: Pos, ds: seq<Pos>, k: nat,
                visited: set<Pos>): (set<Pos>, seq<Pos>)
    requires k <= |ds|
  {
    if k == 0 then (visited, [])
    else
      var prev := Scan(blocks, allowed, current, ds, k - 1, visited);
      Mark(blocks, allowed, Relative(current, ds[k - 1]), prev.0, prev.1)
  }

  /** A scan marks every block at the offsets visited. */
  lemma {:induction false} ScanVisits(blocks: map<Pos, Material>, allowed: set<Material>, current: Pos, ds: seq<Pos>,
                                      k: nat, visited: set<Pos>)
    requires k <= |ds|
    ensures Scan(blocks, allowed, current, ds, k, visited).0 == visited + Around(current, ds, k)
  {
    if k == 0 {
      assert Around(current, ds, 0) == {};
    } else {
      ScanVisits(blocks, allowed, current, ds, k - 1, visited);
      AroundNext(current, ds, k - 1);
    }
  }

  /** A scan queues exactly the blocks at the offsets that were not visited
      before and whose material is allowed. */
  lemma {:induction false} ScanQueues(blocks: map<Pos, Material>, allowed: set<Material>, current: Pos, ds: seq<Pos>,
                                      k: nat, visited: set<Pos>)
    requires k <= |ds|
    ensures Elems(Scan(blocks, allowed, current, ds, k, visited).1)
            == AllowedIn(blocks, allowed, Around(current, ds, k) - visited)
  {
    if k == 0 {
      assert Around(current, ds, 0) == {};
    } else {
      var prev := Scan(blocks, allowed, current, ds, k - 1, visited);
      var n := Relative(current, ds[k - 1]);
      ScanQueues(blocks, allowed, current, ds, k - 1, visited);
      ScanVisits(blocks, allowed, current, ds, k - 1, visited);
      AroundNext(current, ds, k - 1);
      var queued := n !in prev.0 && TypeIn(blocks, n) in allowed;
      QueuedStep(blocks, allowed, visited, Around(current, ds, k - 1), n, Elems(prev.1), queued);
      if queued {
        ElemsSnoc(prev.1, n);
      }
    }
  }

  /** A scan queues each block at most once. */
  lemma {:induction false} ScanDistinct(blocks: map<Pos, Material>, allowed: set<Material>, current: Pos,
                                        ds: seq<Pos>, k: nat, visited: set<Pos>)
    requires k <= |ds|
    ensures Distinct(Scan(blocks, allowed, current, ds, k, visited).1)
  {
    if k > 0 {
      var prev := Scan(blocks, allowed, current, ds, k - 1, visited);
      var n := Relative(current, ds[k - 1]);
      ScanDistinct(blocks, allowed, current, ds, k - 1, visited);
      if n !in prev.0 && TypeIn(blocks, n) in allowed {
        ScanVisits(blocks, allowed, current, ds, k - 1, visited);
        ScanQueues(blocks, allowed, current, ds, k - 1, visited);
        assert n !in Elems(prev.1);
        DistinctAppend(prev.1, [n]);
      }
    }
  }

  /** The triple loop over the surrounding blocks, in the order of
      `offsets`: every block at the offsets ends up visited, and `added`
      lists, each once, the blocks at the offsets that were not visited
      before and whose material is allowed. */
  method MarkAround(blocks: map<Pos, Material>, allowed: set<Material>, current: Pos, offsets: seq<Pos>,
                    visited: set<Pos>)
    returns (visited': set<Pos>, added: seq<Pos>)
    ensures (visited', added) == Scan(blocks, allowed, current, offsets, |offsets|, visited)
    ensures visited' == visited + Around(current, offsets, |offsets|)
    ensures Elems(added) == AllowedIn(blocks, allowed, Around(current, offsets, |offsets|) - visited)
    ensures Distinct(added)
  {
    visited', added := visited, [];
    var k := 0;
    while k < |offsets|
      invariant 0 <= k <= |offsets|
      invariant (visited', added) == Scan(blocks, allowed, current, offsets, k, visited)
    {
      var neighbor := Relative(current, offsets[k]);
      if neighbor !in visited' {
        visited' := visited' + {neighbor};
        if TypeIn(blocks, neighbor) in allowed {
          added := added + [neighbor];
        }
      }
      k := k + 1;
    }
    ScanVisits(blocks, allowed, current, offsets, k, visited);
    ScanQueues(blocks, allowed, current, offsets, k, visited);
    ScanDistinct(blocks, allowed, current, offsets, k, visited);
  }
}
