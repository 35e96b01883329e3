/** `CooldownManager`: for each player, the actions on cooldown and the clock
    reading (milliseconds) at which each cooldown ends. Readers evict the entry
    they find expired; no player is ever kept with no actions. */
module Cooldowns {
  import opened Common
  import opened Uuids

  /** The table: player to action to expiry time. */
  type Table = map<Uuid, map<string, int>>

  /** The invariant of the table: no player maps to an empty action map. */
  predicate NoEmptyInner(table: Table) {
    forall p :: p in table ==> table[p] != map[]
  }

  /** The expiry recorded for `(p, a)`, if any. */
  function Lookup(table: Table, p: Uuid, a: string): Option<int> {
    if p in table && a in table[p] then Some(table[p][a]) else None
  }

  /** The `(player, action)` pairs of the table. */
  function Pairs(table: Table): set<(Uuid, string)> {
    set p, a | p in table && a in table[p] :: (p, a)
  }

  /** `setCooldown` at clock `now`: the entry `(p, a)` expires `seconds`
      seconds from now, and no other entry changes. */
  function WithCooldown(table: Table, p: Uuid, a: string, seconds: int, now: int): (r: Table)
    ensures Lookup(r, p, a) == Some(now + seconds * 1000)
    ensures forall q: Uuid, b: string :: (q, b) != (p, a) ==> Lookup(r, q, b) == Lookup(table, q, b)
    ensures NoEmptyInner(table) ==> NoEmptyInner(r)
  {
    var inner := if p in table then table[p] else map[];
    table[p := inner[a := now + seconds * 1000]]
  }

  /** Removing the entry `(p, a)` and, with its last action, the player. */
  function Evict(table: Table, p: Uuid, a: string): (r: Table)
    ensures Lookup(r, p, a).None?
    ensures forall q: Uuid, b: string :: (q, b) != (p, a) ==> Lookup(r, q, b) == Lookup(table, q, b)
    ensures NoEmptyInner(table) ==> NoEmptyInner(r)
    ensures r.Keys <= table.Keys
  {
    if p !in table then table
    else
      var inner := table[p] - {a};
      if inner == map[] then
        assert forall b :: b in table[p] && b != a ==> b in inner;
        table - {p}
      else table[p := inner]
  }

  /** `hasCooldown`'s answer at clock `now`: an entry exists and has not yet
      expired. */
  predicate Active(table: Table, p: Uuid, a: string, now: int) {
    Lookup(table, p, a).Some? && now < Lookup(table, p, a).value
  }

  /** What the readers leave behind: an entry found expired is evicted, every
      other state is kept. */
  function AfterRead(table: Table, p: Uuid, a: string, now: int): (r: Table)
    ensures Lookup(table, p, a).Some? && now >= Lookup(table, p, a).value ==> Lookup(r, p, a).None?
    ensures !(Lookup(table, p, a).Some? && now >= Lookup(table, p, a).value) ==> r == table
    ensures forall q: Uuid, b: string :: (q, b) != (p, a) ==> Lookup(r, q, b) == Lookup(table, q, b)
    ensures Active(r, p, a, now) <==> Active(table, p, a, now)
    ensures NoEmptyInner(table) ==> NoEmptyInner(r)
  {
    if Lookup(table, p, a).Some? && now >= Lookup(table, p, a).value then Evict(table, p, a) else table
  }

  /** `getRemainingCooldown`'s answer: whole seconds until the entry expires,
      0 without a live entry. */
  function Remaining(table: Table, p: Uuid, a: string, now: int): (r: int)
    ensures r >= 0
    ensures r > 0 ==> Active(table, p, a, now)
    ensures Active(table, p, a, now) ==> r * 1000 <= Lookup(table, p, a).value - now < r * 1000 + 1000
  {
    if Active(table, p, a, now) then (Lookup(table, p, a).value - now) / 1000 else 0
  }

  /** Right after `setCooldown(p, a, seconds)` the cooldown is active exactly
      when `seconds` is positive, and the seconds left are `seconds` itself. */
  lemma RemainingAfterSet(table: Table, p: Uuid, a: string, seconds: int, now: int)
    ensures Active(WithCooldown(table, p, a, seconds, now), p, a, now) <==> seconds > 0
    ensures Remaining(WithCooldown(table, p, a, seconds, now), p, a, now) == (if seconds > 0 then seconds else 0)
  {
    var t := WithCooldown(table, p, a, seconds, now);
    if seconds > 0 {
      assert Lookup(t, p, a).value - now == seconds * 1000;
    }
  }

  /** The actions of one player whose cooldown has not ended at `now`. */
  function LiveActions(inner: map<string, int>, now: int): (r: map<string, int>)
    ensures forall a :: a in r <==> a in inner && inner[a] > now
    ensures forall a :: a in r ==> r[a] == inner[a]
  {
    map a | a in inner && inner[a] > now :: inner[a]
  }

  /** `cleanupExpiredCooldowns` at `now`: every expired entry goes, and so does
      each player left without actions. */
  function Cleaned(table: Table, now: int): (r: Table)
    ensures NoEmptyInner(r)
    ensures forall q: Uuid, b: string ::
      (Lookup(r, q, b) ==
       if Lookup(table, q, b).Some? && Lookup(table, q, b).value > now then Lookup(table, q, b) else None)
  {
    map p | p in table && LiveActions(table[p], now) != map[] :: LiveActions(table[p], now)
  }

  /** Cleaning up does not change what `hasCooldown` or
      `getRemainingCooldown` would answer at that instant. */
  lemma CleanupKeepsAnswers(table: Table, now: int, p: Uuid, a: string)
    ensures Active(Cleaned(table, now), p, a, now) <==> Active(table, p, a, now)
    ensures Remaining(Cleaned(table, now), p, a, now) == Remaining(table, p, a, now)
  {
  }

  /** The table part way through the cleanup sweep: the players in `done` are
      cleaned, the others untouched. */
  ghost function PartlyCleaned(table: Table, done: set<Uuid>, now: int): Table {
    map p | p in table && (p !in done || LiveActions(table[p], now) != map[]) ::
      if p in done then LiveActions(table[p], now) else table[p]
  }

  lemma PartlyCleanedStep(table: Table, done: set<Uuid>, now: int, p: Uuid)
    requires p in table && p !in done
    ensures var kept := LiveActions(table[p], now);
      PartlyCleaned(table, done + {p}, now) ==
        if kept == map[] then PartlyCleaned(table, done, now) - {p}
        else PartlyCleaned(table, done, now)[p := kept]
  {
  }

  /** Once every player is handled the sweep is complete. */
  lemma PartlyCleanedAll(table: Table, now: int)
    ensures PartlyCleaned(table, table.Keys, now) == Cleaned(table, now)
  {
  }

  /** The pairs of the players in `players`. */
  function PairsOf(table: Table, players: set<Uuid>): set<(Uuid, string)> {
    set p, a | p in table && p in players && a in table[p] :: (p, a)
  }

  /** A player contributes one pair per action. */
  lemma {:induction false} ActionPairsCard(p: Uuid, actions: set<string>)
    ensures |set a | a in actions :: (p, a)| == |actions|
    decreases |actions|
  {
    if actions != {} {
      var a :| a in actions;
      ActionPairsCard(p, actions - {a});
      assert (set b | b in actions :: (p, b)) == (set b | b in actions - {a} :: (p, b)) + {(p, a)};
    }
  }

  /** Adding one more player adds that player's actions to the count. */
  lemma PairsOfStep(table: Table, players: set<Uuid>, p: Uuid)
    requires p in table && p !in players
    ensures |PairsOf(table, players + {p})| == |PairsOf(table, players)| + |table[p]|
  {
    var mine := set a | a in table[p].Keys :: (p, a);
    assert PairsOf(table, players + {p}) == PairsOf(table, players) + mine;
    assert PairsOf(table, players) * mine == {};
    ActionPairsCard(p, table[p].Keys);
  }

  /** The actions of one player that have expired at `now`. */
  method PruneActions(inner: map<string, int>, now: int) returns (kept: map<string, int>)
    ensures kept == LiveActions(inner, now)
  {
    kept := inner;
    var pending := inner.Keys;
    while pending != {}
      invariant pending <= inner.Keys
      invariant forall a :: a in kept <==> a in inner && (a in pending || inner[a] > now)
      invariant forall a :: a in kept ==> kept[a] == inner[a]
      decreases pending
    {
      var a :| a in pending;
      if inner[a] <= now {
        kept := kept - {a};
      }
      pending := pending - {a};
    }
  }

  class CooldownManager {
    var playerCooldowns: Table

    ghost predicate Valid()
      reads this
    {
      NoEmptyInner(playerCooldowns)
    }

    constructor()
      ensures playerCooldowns == map[] && Valid()
    {
      playerCooldowns := map[];
    }

    /** `setCooldown(player, actionType, cooldownSeconds)` at clock `now`. */
    method SetCooldown(p: Uuid, a: string, seconds: int, now: int)
      requires Valid()
      modifies this
      ensures Valid()
      ensures playerCooldowns == WithCooldown(old(playerCooldowns), p, a, seconds, now)
    {
      var expirationTime := now + seconds * 1000;
      var inner := if p in playerCooldowns then playerCooldowns[p] else map[];
      playerCooldowns := playerCooldowns[p := inner[a := expirationTime]];
      assert a in playerCooldowns[p];
    }

    /** `hasCooldown(player, actionType)` at clock `now`. */
    method HasCooldown(p: Uuid, a: string, now: int) returns (r: bool)
      requires Valid()
      modifies this
      ensures Valid()
      ensures r == Active(old(playerCooldowns), p, a, now)
      ensures playerCooldowns == AfterRead(old(playerCooldowns), p, a, now)
    {
      if p !in playerCooldowns {
        return false;
      }
      var playerActions := playerCooldowns[p];
      if a !in playerActions {
        return false;
      }
      var expirationTime := playerActions[a];
      if now >= expirationTime {
        playerActions := playerActions - {a};
        if playerActions == map[] {
          playerCooldowns := playerCooldowns - {p};
        } else {
          playerCooldowns := playerCooldowns[p := playerActions];
        }
        return false;
      }
      return true;
    }

    /** `getRemainingCooldown(player, actionType)` at clock `now`. */
    method GetRemainingCooldown(p: Uuid, a: string, now: int) returns (r: int)
      requires Valid()
      modifies this
      ensures Valid()
      ensures r == Remaining(old(playerCooldowns), p, a, now)
      ensures playerCooldowns == AfterRead(old(playerCooldowns), p, a, now)
    {
      if p !in playerCooldowns {
        return 0;
      }
      var playerActions := playerCooldowns[p];
      if a !in playerActions {
        return 0;
      }
      var expirationTime := playerActions[a];
      var currentTime := now;
      if currentTime >= expirationTime {
        playerActions := playerActions - {a};
        if playerActions == map[] {
          playerCooldowns := playerCooldowns - {p};
        } else {
          playerCooldowns := playerCooldowns[p := playerActions];
        }
        return 0;
      }
      return (expirationTime - currentTime) / 1000;
    }

    /** `removeCooldown(player, actionType)`. */
    method RemoveCooldown(p: Uuid, a: string)
      requires Valid()
      modifies this
      ensures Valid()
      ensures playerCooldowns == Evict(old(playerCooldowns), p, a)
    {
      if p in playerCooldowns {
        var playerActions := playerCooldowns[p] - {a};
        if playerActions == map[] {
          playerCooldowns := playerCooldowns - {p};
        } else {
          playerCooldowns := playerCooldowns[p := playerActions];
        }
      }
    }

    /** `removeAllCooldowns(player)`: only that player's entries go. */
    method RemoveAllCooldowns(p: Uuid)
      requires Valid()
      modifies this
      ensures Valid()
      ensures playerCooldowns == old(playerCooldowns) - {p}
      ensures forall q: Uuid, b: string ::
        (Lookup(playerCooldowns, q, b) == if q == p then None else Lookup(old(playerCooldowns), q, b))
    {
      playerCooldowns := playerCooldowns - {p};
    }

    /** `clearAllCooldowns()`. */
    method ClearAllCooldowns()
      modifies this
      ensures Valid()
      ensures playerCooldowns == map[]
    {
      playerCooldowns := map[];
    }

    /** `cleanupExpiredCooldowns()` at clock `now`: the `removeIf` over the
        players, each pruned by a `removeIf` over its actions, visited in no
        particular order. */
    method CleanupExpiredCooldowns(now: int)
      modifies this
      ensures Valid()
      ensures playerCooldowns == Cleaned(old(playerCooldowns), now)
    {
      ghost var initial := playerCooldowns;
      ghost var done: set<Uuid> := {};
      var pending := playerCooldowns.Keys;
      while pending != {}
        invariant pending + done == initial.Keys && pending !! done
        invariant playerCooldowns == PartlyCleaned(initial, done, now)
        decreases pending
      {
        var p :| p in pending;
        var kept := PruneActions(playerCooldowns[p], now);
        PartlyCleanedStep(initial, done, now, p);
        if kept == map[] {
          playerCooldowns := playerCooldowns - {p};
        } else {
          playerCooldowns := playerCooldowns[p := kept];
        }
        done := done + {p};
        pending := pending - {p};
      }
      PartlyCleanedAll(initial, now);
    }

    /** `getActiveCooldownCount()`: the sum of the players' action counts, which
        is the number of `(player, action)` entries. */
    method GetActiveCooldownCount() returns (count: int)
      ensures count == |Pairs(playerCooldowns)|
    {
      count := 0;
      ghost var done: set<Uuid> := {};
      var pending := playerCooldowns.Keys;
      while pending != {}
        invariant pending + done == playerCooldowns.Keys && pending !! done
        invariant count == |PairsOf(playerCooldowns, done)|
        decreases pending
      {
        var p :| p in pending;
        PairsOfStep(playerCooldowns, done, p);
        count := count + |playerCooldowns[p]|;
        done := done + {p};
        pending := pending - {p};
      }
      assert PairsOf(playerCooldowns, done) == Pairs(playerCooldowns);
    }
  }
}
