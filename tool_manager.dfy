/** `ToolManager`: issues tool items, reads the tags embedded in them, keeps the
    registry of active tools keyed by UUID, and expires tools once their
    lifetime has run out. */
module ToolManagement {
  import opened Common
  import opened Text
  import opened Uuids
  import opened ToolTypes
  import opened Materials
  import opened Game
  import opened MessageUtil
  import opened ToolEntity

  // ---------------------------------------------------------------------------
  // Reading the tags of an item

  /** `isAmethystTool`: a non-null item with metadata carrying the kind tag. */
  predicate IsAmethystTool(item: Option<ItemStack>) {
    item.Some? && item.value.meta.Some? && item.value.meta.value.toolTag.Some?
  }

  /** `getToolType`: the kind named by the tag; `None` for a non-tool or a tag
      naming no kind. */
  function GetToolType(item: Option<ItemStack>): (r: Option<ToolType>)
    ensures r.Some? ==> IsAmethystTool(item) && ToolTypes.Name(r.value) == item.value.meta.value.toolTag.value
  {
    if !IsAmethystTool(item) then None else ValueOf(item.value.meta.value.toolTag.value)
  }

  /** `getToolUUID`: the UUID tag read back; `None` for a non-tool, a missing
      tag or text that is not a UUID. */
  function GetToolUUID(item: Option<ItemStack>): (r: Option<Uuid>)
    ensures r.Some? ==> IsAmethystTool(item) && item.value.meta.value.uuidTag.Some?
    ensures IsAmethystTool(item) && item.value.meta.value.uuidTag.Some? ==>
      r == ParseUuid(item.value.meta.value.uuidTag.value)
  {
    if !IsAmethystTool(item) then None
    else match item.value.meta.value.uuidTag
      case None => None
      case Some(s) => ParseUuid(s)
  }

  /** `getCreationTime`: the creation tag, 0 for a non-tool or a missing tag. */
  function GetCreationTime(item: Option<ItemStack>): (r: int)
    ensures !IsAmethystTool(item) ==> r == 0
    ensures IsAmethystTool(item) && item.value.meta.value.createdTag.Some? ==>
      r == item.value.meta.value.createdTag.value
    ensures IsAmethystTool(item) && item.value.meta.value.createdTag.None? ==> r == 0
  {
    if !IsAmethystTool(item) then 0 else item.value.meta.value.createdTag.GetOr(0)
  }

  /** The queries never fail on an item that is not a tool: they answer `null`
      or 0. */
  lemma NonToolQueries(item: Option<ItemStack>, days: int, now: int)
    requires !IsAmethystTool(item)
    ensures GetToolType(item).None? && GetToolUUID(item).None?
    ensures GetCreationTime(item) == 0 && GetRemainingTime(item, days, now) == 0
  {
  }

  // ---------------------------------------------------------------------------
  // Lifetime arithmetic

  /** `getToolLifetime() * 24 * 60 * 60 * 1000L`: the first three products are
      32-bit `int` arithmetic and wrap around; only the last is a `long`. */
  function LifetimeMillis(days: int): (r: int)
    ensures 0 <= days <= 24855 ==> r == days * 86_400_000
  {
    var hours := ToInt32(days * 24);
    assert 0 <= days <= 24855 ==> hours == days * 24;
    var minutes := ToInt32(hours * 60);
    assert 0 <= days <= 24855 ==> minutes == days * 1440;
    var seconds := ToInt32(minutes * 60);
    assert 0 <= days <= 24855 ==> seconds == days * 86400;
    seconds * 1000
  }

  /** From 24856 days on the day-to-second product no longer fits an `int`,
      and the lifetime comes out negative. */
  lemma LifetimeWrapsAt24856Days()
    ensures LifetimeMillis(24855) > 0
    ensures LifetimeMillis(24856) < 0
  {
    assert ToInt32(24856 * 24) == 24856 * 24;
    assert ToInt32(24856 * 24 * 60) == 24856 * 24 * 60;
    assert ToInt32(24856 * 24 * 60 * 60) == 24856 * 24 * 60 * 60 - 0x1_0000_0000;
  }

  /** `Math.max(0, (expiration - now) / 1000)`: whole seconds left, never negative. */
  function SecondsLeft(expiration: int, now: int): (r: int)
    ensures r >= 0
  {
    var q := JavaDiv(expiration - now, 1000);
    if q > 0 then q else 0
  }

  /** Time is left exactly when at least a full second remains, and then the
      value is the number of whole seconds remaining. */
  lemma SecondsLeftMeaning(expiration: int, now: int)
    ensures SecondsLeft(expiration, now) > 0 <==> expiration - now >= 1000
    ensures expiration >= now ==>
      SecondsLeft(expiration, now) * 1000 <= expiration - now < SecondsLeft(expiration, now) * 1000 + 1000
  {
  }

  /** The time left never grows as the clock advances. */
  lemma SecondsLeftMonotone(expiration: int, now: int, later: int)
    requires now <= later
    ensures SecondsLeft(expiration, later) <= SecondsLeft(expiration, now)
  {
  }

  /** `getRemainingTime(item)`: 0 without a creation time, else the seconds
      until creation plus the lifetime. */
  function GetRemainingTime(item: Option<ItemStack>, days: int, now: int): (r: int)
    ensures r >= 0
    ensures GetCreationTime(item) == 0 ==> r == 0
  {
    var created := GetCreationTime(item);
    if created == 0 then 0 else SecondsLeft(created + LifetimeMillis(days), now)
  }

  /** The remaining time of an item never increases as `now` grows. */
  lemma RemainingTimeMonotone(item: Option<ItemStack>, days: int, now: int, later: int)
    requires now <= later
    ensures GetRemainingTime(item, days, later) <= GetRemainingTime(item, days, now)
  {
    var created := GetCreationTime(item);
    if created != 0 {
      SecondsLeftMonotone(created + LifetimeMillis(days), now, later);
    }
  }

  // ---------------------------------------------------------------------------
  // Building the item

  /** `createBaseItem`. */
  function BaseMaterial(t: ToolType): (m: Material)
    ensures m != Air
  {
    match t
    case TreeChopper => NetheriteAxe
    case SellAxe => NetheriteAxe
    case Pickaxe => NetheritePickaxe
    case Bucket => Materials.Bucket
    case Torch => Materials.Torch
    case Rocket => FireworkRocket
  }

  /** `addEnchantments`. */
  function ToolEnchants(t: ToolType): map<Enchantment, int> {
    match t
    case TreeChopper => map[Efficiency := 5, Unbreaking := 3, Mending := 1]
    case SellAxe => map[Efficiency := 5, Unbreaking := 3, Mending := 1]
    case Pickaxe => map[Efficiency := 5, Unbreaking := 3, Mending := 1, Fortune := 3]
    case _ => map[Efficiency := 10]
  }

  const ToolFlags: set<ItemFlag> := {HideAttributes, HideEnchants, HideUnbreakable}

  /** One configured lore line with its `{time}`, `{uuid}` and (for the bucket)
      `{amount}` placeholders filled in. */
  function LoreLine(line: string, t: ToolType, u: Uuid, timeLeft: int, drainAmount: int): string {
    var a := if Contains(line, "{time}") then Replace(line, "{time}", FormatTimeGlued(timeLeft)) else line;
    var b := if Contains(a, "{uuid}") then Replace(a, "{uuid}", UuidText(u)) else a;
    if Contains(b, "{amount}") && t == ToolType.Bucket then Replace(b, "{amount}", IntToString(drainAmount)) else b
  }

  /** A line holding no `{` is copied verbatim. */
  lemma LoreLineVerbatim(line: string, t: ToolType, u: Uuid, timeLeft: int, drainAmount: int)
    requires '{' !in line
    ensures LoreLine(line, t, u, timeLeft, drainAmount) == line
  {
    ReplaceAbsent(line, "{time}", FormatTimeGlued(timeLeft));
    ReplaceAbsent(line, "{uuid}", UuidText(u));
    ReplaceAbsent(line, "{amount}", IntToString(drainAmount));
  }

  // ---------------------------------------------------------------------------
  // The registry

  /** What the registry records about one tool. */
  datatype ToolRecord = ToolRecord(kind: ToolType, created: int, owner: Option<Uuid>)

  /** A slot holding the tool item whose UUID tag is `u`. */
  predicate HoldsTool(slot: Option<ItemStack>, u: Uuid) {
    slot.Some? && IsAmethystTool(slot) && GetToolUUID(slot) == Some(u)
  }

  /** The first slot holding the tool `u`. */
  function FirstHolding(slots: seq<Option<ItemStack>>, u: Uuid): (r: Option<nat>)
    ensures r.Some? ==> (r.value < |slots| && HoldsTool(slots[r.value], u) &&
      forall j :: 0 <= j < r.value ==> !HoldsTool(slots[j], u))
    ensures r.None? ==> forall j :: 0 <= j < |slots| ==> !HoldsTool(slots[j], u)
  {
    FirstFrom(slots, s => HoldsTool(s, u), 0)
  }

  /** A slot holding the tool after none that does is the first holding it. */
  lemma FirstHoldingAt(slots: seq<Option<ItemStack>>, u: Uuid, i: nat)
    requires i < |slots| && HoldsTool(slots[i], u)
    requires forall j :: 0 <= j < i ==> !HoldsTool(slots[j], u)
    ensures FirstHolding(slots, u) == Some(i)
  {
  }

  /** The inventory after `destroyTool(u)` found the first stack holding `u`
      among all slots and removed every storage stack equal to that one. */
  function WithoutTool(slots: seq<Option<ItemStack>>, u: Uuid): seq<Option<ItemStack>> {
    match FirstHolding(slots, u)
    case Some(k) => RemoveEqual(slots, slots[k].value)
    case None => slots
  }

  /** Only stacks of the tool `u` are removed, and only from the storage
      slots; the first of them is whenever it lies in storage, and the
      inventory keeps its size. */
  lemma WithoutToolRemovesOnlyThatTool(slots: seq<Option<ItemStack>>, u: Uuid)
    ensures |WithoutTool(slots, u)| == |slots|
    ensures forall j :: 0 <= j < |slots| && WithoutTool(slots, u)[j] != slots[j] ==>
      HoldsTool(slots[j], u) && WithoutTool(slots, u)[j].None?
    ensures forall j :: StorageSize <= j < |slots| ==> WithoutTool(slots, u)[j] == slots[j]
    ensures FirstHolding(slots, u).Some? && FirstHolding(slots, u).value < StorageSize ==>
      WithoutTool(slots, u)[FirstHolding(slots, u).value].None?
    ensures (forall j :: 0 <= j < |slots| ==> !HoldsTool(slots[j], u)) ==> WithoutTool(slots, u) == slots
  {
  }

  /** The inventory loop of `destroyTool` for an online owner: once the first
      stack holding the tool is found, every storage stack equal to it goes
      and the owner is told; without such a stack nothing happens. */
  method RemoveToolStacks(player: Uuid, u: Uuid, kind: ToolType, server: Server)
    requires player in server.online
    modifies server
    ensures server.online == old(server.online)
    ensures server.inventories == DestroyedInventories(Some(player), server.online, old(server.inventories), u)
    ensures server.notices ==
      old(server.notices) + DestroyNotices(Some(player), server.online, old(server.inventories), u, kind)
  {
    var contents := server.Inventory(player);
    var i := 0;
    while i < |contents|
      invariant 0 <= i <= |contents|
      invariant forall j :: 0 <= j < i ==> !HoldsTool(contents[j], u)
      invariant server.inventories == old(server.inventories) && server.notices == old(server.notices)
      invariant server.online == old(server.online)
    {
      if HoldsTool(contents[i], u) {
        DestroyFound(server.inventories, server.online, player, u, kind, i);
        server.SetInventory(player, RemoveEqual(server.Inventory(player), contents[i].value));
        server.Send(ToolDestroyed(player, u, kind));
        return;
      }
      i := i + 1;
    }
    DestroyNothing(server.inventories, server.online, player, u, kind);
  }

  /** The owner's first stack holding the tool is the one at `i`. */
  lemma DestroyFound(inventories: map<Uuid, seq<Option<ItemStack>>>, online: set<Uuid>, player: Uuid, u: Uuid,
                     kind: ToolType, i: nat)
    requires player in online && player in inventories && i < |inventories[player]|
    requires HoldsTool(inventories[player][i], u)
    requires forall j :: 0 <= j < i ==> !HoldsTool(inventories[player][j], u)
    ensures DestroyedInventories(Some(player), online, inventories, u)
      == inventories[player := RemoveEqual(inventories[player], inventories[player][i].value)]
    ensures DestroyNotices(Some(player), online, inventories, u, kind) == [ToolDestroyed(player, u, kind)]
  {
    FirstHoldingAt(inventories[player], u, i);
  }

  /** An owner holding no stack of the tool loses nothing and is told nothing. */
  lemma DestroyNothing(inventories: map<Uuid, seq<Option<ItemStack>>>, online: set<Uuid>, player: Uuid, u: Uuid,
                       kind: ToolType)
    requires player in inventories ==> forall j :: 0 <= j < |inventories[player]| ==> !HoldsTool(inventories[player][j], u)
    ensures DestroyedInventories(Some(player), online, inventories, u) == inventories
    ensures DestroyNotices(Some(player), online, inventories, u, kind) == []
  {
  }

  /** The warning `sendTimerWarnings` sends for a tool with `remaining` seconds
      left: none without an online owner, else one at exactly 3600, 600 and 60. */
  function WarningFor(owner: Option<Uuid>, online: set<Uuid>, u: Uuid, kind: ToolType, remaining: int): seq<Notice> {
    if owner.None? || owner.value !in online then []
    else if remaining == 3600 then [TimerWarning(owner.value, u, kind, "1h")]
    else if remaining == 600 then [TimerWarning(owner.value, u, kind, "10m")]
    else if remaining == 60 then [TimerWarning(owner.value, u, kind, "1m")]
    else []
  }

  /** The thresholds of the warnings. */
  predicate WarningDue(remaining: int) {
    remaining == 3600 || remaining == 600 || remaining == 60
  }

  /** A warning goes out exactly for an online owner at a threshold, and its
      label is the formatted time left. */
  lemma WarningForMeaning(owner: Option<Uuid>, online: set<Uuid>, u: Uuid, kind: ToolType, remaining: int)
    ensures |WarningFor(owner, online, u, kind, remaining)| <= 1
    ensures WarningFor(owner, online, u, kind, remaining) != [] <==>
      owner.Some? && owner.value in online && WarningDue(remaining)
    ensures WarningFor(owner, online, u, kind, remaining) != [] ==>
      WarningFor(owner, online, u, kind, remaining)[0] ==
        TimerWarning(owner.value, u, kind, FormatTime(remaining))
  {
    if remaining == 3600 || remaining == 600 || remaining == 60 {
      FormatTimeThresholds();
    }
  }

  /** A tool whose time is up at `now`. */
  predicate Expired(rec: ToolRecord, days: int, now: int) {
    SecondsLeft(rec.created + LifetimeMillis(days), now) <= 0
  }

  /** The tool a timer notice is about; `None` for other messages. */
  function NoticeTool(n: Notice): Option<Uuid> {
    match n
    case TimerWarning(_, u, _, _) => Some(u)
    case ToolDestroyed(_, u, _) => Some(u)
    case Message(_, _, _) => None
  }

  /** The seconds left of a registered tool. */
  function RecordSecondsLeft(rec: ToolRecord, days: int, now: int): int {
    SecondsLeft(rec.created + LifetimeMillis(days), now)
  }

  /** The tools whose time is up. */
  function ExpiredIds(tools: map<Uuid, ToolRecord>, days: int, now: int): set<Uuid> {
    set u | u in tools && Expired(tools[u], days, now)
  }

  /** The notices the expiry sweep owes about the tool `u`, registered as
      `rec`, with the inventories as the sweep found them: for a tool whose
      time is up, the destroyed notice `destroyTool` sends; for any other, the
      warning due at a threshold. */
  function SweepNotices(rec: ToolRecord, u: Uuid, online: set<Uuid>,
                        inventories: map<Uuid, seq<Option<ItemStack>>>, days: int, now: int): (r: seq<Notice>)
    ensures |r| <= 1
    ensures forall n :: n in r ==> NoticeTool(n) == Some(u)
  {
    if Expired(rec, days, now) then DestroyNotices(rec.owner, online, inventories, u, rec.kind)
    else WarningFor(rec.owner, online, u, rec.kind, RecordSecondsLeft(rec, days, now))
  }

  /** A notice the sweep owes about one of the tools of `tools`. */
  predicate SweepNotice(n: Notice, tools: map<Uuid, ToolRecord>, online: set<Uuid>,
                        inventories: map<Uuid, seq<Option<ItemStack>>>, days: int, now: int) {
    NoticeTool(n).Some? && NoticeTool(n).value in tools &&
    SweepNotices(tools[NoticeTool(n).value], NoticeTool(n).value, online, inventories, days, now) == [n]
  }

  /** Spelled out, the sweep sends two kinds of notice: a warning to the online
      owner of a live tool whose seconds left are at a threshold, carrying
      them formatted, and a destroyed notice to the online owner of an
      expired tool when the owner holds a stack of it. */
  lemma SweepNoticeMeaning(n: Notice, tools: map<Uuid, ToolRecord>, online: set<Uuid>,
                           inventories: map<Uuid, seq<Option<ItemStack>>>, days: int, now: int)
    requires SweepNotice(n, tools, online, inventories, days, now)
    ensures match n
      case TimerWarning(p, u, kind, time) =>
        u in tools && tools[u].owner == Some(p) && p in online && tools[u].kind == kind &&
        !Expired(tools[u], days, now) && WarningDue(RecordSecondsLeft(tools[u], days, now)) &&
        time == FormatTime(RecordSecondsLeft(tools[u], days, now))
      case ToolDestroyed(p, u, kind) =>
        u in tools && tools[u].owner == Some(p) && p in online && tools[u].kind == kind &&
        Expired(tools[u], days, now) && p in inventories && FirstHolding(inventories[p], u).Some?
      case Message(_, _, _) => false
  {
    var u := NoticeTool(n).value;
    var rec := tools[u];
    if !Expired(rec, days, now) {
      WarningForMeaning(rec.owner, online, u, rec.kind, RecordSecondsLeft(rec, days, now));
    }
  }

  /** The notices sent by the sweep after handling the tools in `done`: each is
      owed about one of them, and no tool has two. */
  ghost predicate SweepLog(log: seq<Notice>, tools: map<Uuid, ToolRecord>, online: set<Uuid>,
                           inventories: map<Uuid, seq<Option<ItemStack>>>, days: int, now: int, done: set<Uuid>) {
    (forall k :: 0 <= k < |log| ==>
      SweepNotice(log[k], tools, online, inventories, days, now) && NoticeTool(log[k]).value in done) &&
    (forall k, l :: 0 <= k < l < |log| ==> NoticeTool(log[k]) != NoticeTool(log[l]))
  }

  /** Every notice owed about a tool in `done` was sent. */
  ghost predicate AllSent(log: seq<Notice>, tools: map<Uuid, ToolRecord>, online: set<Uuid>,
                          inventories: map<Uuid, seq<Option<ItemStack>>>, days: int, now: int, done: set<Uuid>) {
    forall u :: u in done && u in tools ==>
      var owed := SweepNotices(tools[u], u, online, inventories, days, now);
      owed != [] ==> owed[0] in log
  }

  /** Handling one more tool `u` and sending the notices owed about it keeps
      both properties of the log. */
  lemma SweepStep(log: seq<Notice>, extra: seq<Notice>, tools: map<Uuid, ToolRecord>, online: set<Uuid>,
                  inventories: map<Uuid, seq<Option<ItemStack>>>, days: int, now: int, done: set<Uuid>, u: Uuid)
    requires SweepLog(log, tools, online, inventories, days, now, done)
    requires AllSent(log, tools, online, inventories, days, now, done)
    requires u in tools && u !in done
    requires extra == SweepNotices(tools[u], u, online, inventories, days, now)
    ensures SweepLog(log + extra, tools, online, inventories, days, now, done + {u})
    ensures AllSent(log + extra, tools, online, inventories, days, now, done + {u})
  {
    var log' := log + extra;
    forall k, l | 0 <= k < l < |log'|
      ensures NoticeTool(log'[k]) != NoticeTool(log'[l])
    {
      if l >= |log| {
        assert log'[l] in extra;
      }
    }
    if extra != [] {
      assert extra == [extra[0]];
      assert SweepNotice(extra[0], tools, online, inventories, days, now);
      assert log'[|log|] == extra[0];
    }
  }

  /** The notice `destroyTool` sends: to the online owner, when a stack of the
      tool was found in the owner's inventory. */
  function DestroyNotices(owner: Option<Uuid>, online: set<Uuid>, inventories: map<Uuid, seq<Option<ItemStack>>>,
                          u: Uuid, kind: ToolType): seq<Notice> {
    if owner.Some? && owner.value in online && owner.value in inventories &&
       FirstHolding(inventories[owner.value], u).Some?
    then [ToolDestroyed(owner.value, u, kind)]
    else []
  }

  /** The inventories after `destroyTool`. */
  function DestroyedInventories(owner: Option<Uuid>, online: set<Uuid>, inventories: map<Uuid, seq<Option<ItemStack>>>,
                                u: Uuid): map<Uuid, seq<Option<ItemStack>>> {
    if owner.Some? && owner.value in online && owner.value in inventories &&
       FirstHolding(inventories[owner.value], u).Some?
    then inventories[owner.value := WithoutTool(inventories[owner.value], u)]
    else inventories
  }

  /** `destroyTool` changes no inventory but the owner's, and there it removes
      only stacks of this tool. */
  lemma DestroyTouchesOnlyTheTool(owner: Option<Uuid>, online: set<Uuid>,
                                  inventories: map<Uuid, seq<Option<ItemStack>>>, u: Uuid)
    ensures var after := DestroyedInventories(owner, online, inventories, u);
      after.Keys == inventories.Keys &&
      (forall p :: p in inventories && p != owner.GetOr(p) ==> after[p] == inventories[p]) &&
      (forall p :: p in inventories ==>
        |after[p]| == |inventories[p]| &&
        forall j :: 0 <= j < |inventories[p]| && after[p][j] != inventories[p][j] ==>
          (HoldsTool(inventories[p][j], u) && after[p][j].None?))
  {
    if owner.Some? && owner.value in inventories {
      WithoutToolRemovesOnlyThatTool(inventories[owner.value], u);
    }
  }
  /** The slot `j` among the `slots` of the player `p` is emptied by the sweep
      that destroys the tools in `expired`: it is a storage slot, `p` is
      online and owns the tool the slot holds, that tool is in `expired`, and
      the stack equals the first one holding it. */
  predicate SweptSlot(slots: seq<Option<ItemStack>>, j: int, p: Uuid, tools: map<Uuid, ToolRecord>,
                      expired: set<Uuid>, online: set<Uuid>)
    requires 0 <= j < |slots|
  {
    var w := GetToolUUID(slots[j]);
    j < StorageSize && p in online && w.Some? && w.value in expired && w.value in tools && tools[w.value].owner == Some(p) &&
    FirstHolding(slots, w.value).Some? && slots[j] == slots[FirstHolding(slots, w.value).value]
  }

  /** The slots of `p` once the tools in `expired` are destroyed. */
  function SweptSlots(slots: seq<Option<ItemStack>>, p: Uuid, tools: map<Uuid, ToolRecord>,
                      expired: set<Uuid>, online: set<Uuid>): (r: seq<Option<ItemStack>>)
    ensures |r| == |slots|
    ensures forall j :: 0 <= j < |slots| ==>
      r[j] == if SweptSlot(slots, j, p, tools, expired, online) then None else slots[j]
  {
    seq(|slots|, j requires 0 <= j < |slots| =>
      if SweptSlot(slots, j, p, tools, expired, online) then None else slots[j])
  }

  /** The inventories `inventories` once the tools in `expired` are destroyed,
      in whatever order. */
  function SweptInventories(inventories: map<Uuid, seq<Option<ItemStack>>>, tools: map<Uuid, ToolRecord>,
                            expired: set<Uuid>, online: set<Uuid>): map<Uuid, seq<Option<ItemStack>>> {
    map p | p in inventories :: SweptSlots(inventories[p], p, tools, expired, online)
  }

  /** What the sweep does to the inventories: it changes no slot count; a
      slot it changes is a storage slot, is emptied, and held a tool of
      `expired` owned by the online player whose inventory it is; and for each
      such tool the player holds, every storage stack equal to the first one
      holding it is emptied. */
  lemma SweptInventoriesMeaning(inventories: map<Uuid, seq<Option<ItemStack>>>, tools: map<Uuid, ToolRecord>,
                                expired: set<Uuid>, online: set<Uuid>)
    ensures var after := SweptInventories(inventories, tools, expired, online);
      after.Keys == inventories.Keys &&
      (forall p :: p in inventories ==> |after[p]| == |inventories[p]|) &&
      (forall p, j :: p in inventories && 0 <= j < |inventories[p]| && after[p][j] != inventories[p][j] ==>
        after[p][j].None? && j < StorageSize && p in online &&
        GetToolUUID(inventories[p][j]).Some? && GetToolUUID(inventories[p][j]).value in expired &&
        GetToolUUID(inventories[p][j]).value in tools &&
        tools[GetToolUUID(inventories[p][j]).value].owner == Some(p)) &&
      (forall p, u, j ::
        (p in inventories && p in online && u in expired && u in tools && tools[u].owner == Some(p) &&
         FirstHolding(inventories[p], u).Some? && 0 <= j < StorageSize && j < |inventories[p]| &&
         inventories[p][j] == inventories[p][FirstHolding(inventories[p], u).value]) ==>
        after[p][j].None?)
  {
    var after: map<Uuid, seq<Option<ItemStack>>> := SweptInventories(inventories, tools, expired, online);
    forall p: Uuid, u: Uuid, j: int | p in inventories && p in online && u in expired && u in tools && tools[u].owner == Some(p) &&
        FirstHolding(inventories[p], u).Some? && 0 <= j < StorageSize && j < |inventories[p]| &&
        inventories[p][j] == inventories[p][FirstHolding(inventories[p], u).value]
      ensures after[p][j].None?
    {
      var k := FirstHolding(inventories[p], u).value;
      assert GetToolUUID(inventories[p][j]) == Some(u);
      assert SweptSlot(inventories[p], j, p, tools, expired, online);
    }
  }

  /** Before any tool is destroyed the inventories are as found. */
  lemma SweptNothing(inventories: map<Uuid, seq<Option<ItemStack>>>, tools: map<Uuid, ToolRecord>, online: set<Uuid>)
    ensures SweptInventories(inventories, tools, {}, online) == inventories
  {
    var r := SweptInventories(inventories, tools, {}, online);
    forall p | p in inventories
      ensures r[p] == inventories[p]
    {
      assert r[p] == SweptSlots(inventories[p], p, tools, {}, online);
    }
  }

  /** Emptying the stacks of other tools leaves every stack of `u` in place,
      so the first stack holding `u` is unchanged. */
  lemma SweptSlotsKeepTool(slots: seq<Option<ItemStack>>, p: Uuid, tools: map<Uuid, ToolRecord>,
                           expired: set<Uuid>, online: set<Uuid>, u: Uuid)
    requires u !in expired
    ensures FirstHolding(SweptSlots(slots, p, tools, expired, online), u) == FirstHolding(slots, u)
  {
    var c := SweptSlots(slots, p, tools, expired, online);
    forall j | 0 <= j < |slots|
      ensures HoldsTool(c[j], u) <==> HoldsTool(slots[j], u)
    {
    }
    match FirstHolding(slots, u)
    case Some(k) =>
      FirstHoldingAt(c, u, k);
    case None =>
  }

  /** Destroying one more tool `u` takes the slots swept of `expired` to those
      swept of `expired + {u}`. */
  lemma SweptSlotsStep(slots: seq<Option<ItemStack>>, p: Uuid, tools: map<Uuid, ToolRecord>,
                       expired: set<Uuid>, online: set<Uuid>, u: Uuid)
    requires u in tools && u !in expired
    ensures SweptSlots(slots, p, tools, expired + {u}, online) ==
      if tools[u].owner == Some(p) && p in online && FirstHolding(slots, u).Some?
      then WithoutTool(SweptSlots(slots, p, tools, expired, online), u)
      else SweptSlots(slots, p, tools, expired, online)
  {
    var c := SweptSlots(slots, p, tools, expired, online);
    var c' := SweptSlots(slots, p, tools, expired + {u}, online);
    SweptSlotsKeepTool(slots, p, tools, expired, online, u);
    if tools[u].owner == Some(p) && p in online && FirstHolding(slots, u).Some? {
      var k := FirstHolding(slots, u).value;
      assert c[k] == slots[k];
      forall j | 0 <= j < |slots|
        ensures c'[j] == RemoveEqual(c, slots[k].value)[j]
      {
        if slots[j] == slots[k] {
          assert GetToolUUID(slots[j]) == Some(u);
        }
      }
    } else {
      forall j | 0 <= j < |slots|
        ensures c'[j] == c[j]
      {
        if GetToolUUID(slots[j]) == Some(u) {
          assert HoldsTool(slots[j], u);
        }
      }
    }
  }

  /** Destroying one more tool `u` during the sweep takes the inventories
      swept of `expired` to those swept of `expired + {u}`, and sends the
      notice it would have sent on the inventories as found. */
  lemma SweptDestroyStep(inventories: map<Uuid, seq<Option<ItemStack>>>, tools: map<Uuid, ToolRecord>,
                         expired: set<Uuid>, online: set<Uuid>, u: Uuid)
    requires u in tools && u !in expired
    ensures var before := SweptInventories(inventories, tools, expired, online);
      DestroyedInventories(tools[u].owner, online, before, u) ==
        SweptInventories(inventories, tools, expired + {u}, online) &&
      DestroyNotices(tools[u].owner, online, before, u, tools[u].kind) ==
        DestroyNotices(tools[u].owner, online, inventories, u, tools[u].kind)
  {
    var owner := tools[u].owner;
    if owner.Some? && owner.value in inventories {
      SweptSlotsKeepTool(inventories[owner.value], owner.value, tools, expired, online, u);
    }
    if owner.Some? && owner.value in online && owner.value in inventories &&
       FirstHolding(inventories[owner.value], u).Some? {
      SweptDestroyHeld(inventories, tools, expired, online, u);
    } else {
      SweptOthersStep(inventories, tools, expired, online, u);
      SweptSameKeys(inventories, tools, expired, online, u);
    }
  }

  /** When the online owner holds `u`, destroying it empties its stacks in the
      owner's swept inventory and nowhere else. */
  lemma SweptDestroyHeld(inventories: map<Uuid, seq<Option<ItemStack>>>, tools: map<Uuid, ToolRecord>,
                         expired: set<Uuid>, online: set<Uuid>, u: Uuid)
    requires u in tools && u !in expired
    requires tools[u].owner.Some? && tools[u].owner.value in online && tools[u].owner.value in inventories
    requires FirstHolding(inventories[tools[u].owner.value], u).Some?
    ensures var before := SweptInventories(inventories, tools, expired, online);
      var o := tools[u].owner.value;
      before[o := WithoutTool(before[o], u)] == SweptInventories(inventories, tools, expired + {u}, online)
  {
    var o := tools[u].owner.value;
    var before := SweptInventories(inventories, tools, expired, online);
    var after := SweptInventories(inventories, tools, expired + {u}, online);
    SweptOthersStep(inventories, tools, expired, online, u);
    SweptSlotsStep(inventories[o], o, tools, expired, online, u);
    assert after.Keys == before.Keys;
    MapUpdateMatches(before, after, o, WithoutTool(before[o], u));
  }

  /** Two maps with the same keys and the same value at every key are equal. */
  lemma SweptSameKeys(inventories: map<Uuid, seq<Option<ItemStack>>>, tools: map<Uuid, ToolRecord>,
                      expired: set<Uuid>, online: set<Uuid>, u: Uuid)
    requires forall p :: p in inventories ==>
      SweptInventories(inventories, tools, expired + {u}, online)[p] ==
        SweptInventories(inventories, tools, expired, online)[p]
    ensures SweptInventories(inventories, tools, expired + {u}, online) ==
      SweptInventories(inventories, tools, expired, online)
  {
  }

  /** Destroying `u` leaves the swept inventory of every player but an online
      owner holding `u` as it was. */
  lemma SweptOthersStep(inventories: map<Uuid, seq<Option<ItemStack>>>, tools: map<Uuid, ToolRecord>,
                        expired: set<Uuid>, online: set<Uuid>, u: Uuid)
    requires u in tools && u !in expired
    ensures forall p :: (p in inventories &&
      !(tools[u].owner == Some(p) && p in online && FirstHolding(inventories[p], u).Some?)) ==>
      SweptInventories(inventories, tools, expired + {u}, online)[p] ==
        SweptInventories(inventories, tools, expired, online)[p]
  {
    forall p | p in inventories &&
      !(tools[u].owner == Some(p) && p in online && FirstHolding(inventories[p], u).Some?)
      ensures SweptInventories(inventories, tools, expired + {u}, online)[p] ==
        SweptInventories(inventories, tools, expired, online)[p]
    {
      SweptSlotsStep(inventories[p], p, tools, expired, online, u);
    }
  }

  /** The configured lore with the placeholders of every line filled in. */
  function RenderedLore(lore: seq<string>, t: ToolType, u: Uuid, timeLeft: int, drainAmount: int): (r: seq<string>)
    ensures |r| == |lore|
    ensures forall i :: 0 <= i < |lore| ==> r[i] == LoreLine(lore[i], t, u, timeLeft, drainAmount)
  {
    seq(|lore|, i requires 0 <= i < |lore| => LoreLine(lore[i], t, u, timeLeft, drainAmount))
  }

  /** The body of the lore loop of `createTool`: the placeholders of one line
      are replaced in turn. */
  method FillPlaceholders(line: string, t: ToolType, u: Uuid, timeLeft: int, drainAmount: int)
    returns (r: string)
    ensures r == LoreLine(line, t, u, timeLeft, drainAmount)
  {
    r := line;
    if Contains(r, "{time}") {
      r := Replace(r, "{time}", FormatTimeGlued(timeLeft));
    }
    if Contains(r, "{uuid}") {
      r := Replace(r, "{uuid}", UuidText(u));
    }
    if Contains(r, "{amount}") && t == ToolType.Bucket {
      r := Replace(r, "{amount}", IntToString(drainAmount));
    }
  }

  /** The lore loop of `createTool`: every configured line, in order, with its
      placeholders filled in. */
  method RenderLore(lore: seq<string>, t: ToolType, u: Uuid, timeLeft: int, drainAmount: int)
    returns (finalLore: seq<string>)
    ensures finalLore == RenderedLore(lore, t, u, timeLeft, drainAmount)
  {
    finalLore := [];
    var i := 0;
    while i < |lore|
      invariant 0 <= i <= |lore| && |finalLore| == i
      invariant forall j :: 0 <= j < i ==> finalLore[j] == LoreLine(lore[j], t, u, timeLeft, drainAmount)
    {
      var line := FillPlaceholders(lore[i], t, u, timeLeft, drainAmount);
      finalLore := finalLore + [line];
      i := i + 1;
    }
  }

  /** The metadata `createTool` writes. */
  function ToolMeta(t: ToolType, cfg: Config, now: int, u: Uuid): ItemMeta {
    ItemMeta(Some(ToolTypes.Name(t)), Some(now), Some(UuidText(u)), Some(ToolName(cfg, t)),
      RenderedLore(ToolLore(cfg, t), t, u, JavaDiv(LifetimeMillis(cfg.toolLifetime), 1000), cfg.drainAmount),
      ToolEnchants(t), true, ToolFlags)
  }

  /** An item carrying that metadata is read back as a tool of kind `t`, with
      UUID `u` and creation time `now`. */
  lemma ToolMetaReadBack(t: ToolType, cfg: Config, now: int, u: Uuid, m: Material)
    ensures var item := Some(ItemStack(m, 1, Some(ToolMeta(t, cfg, now, u))));
      IsAmethystTool(item) && GetToolType(item) == Some(t) &&
      GetToolUUID(item) == Some(u) && GetCreationTime(item) == now
  {
    ValueOfName(t);
    UuidRoundTrip(u);
  }

  /** The bookkeeping of the expiry sweep: the tools in `done` are handled,
      those in `pending` not yet; `toRemove` holds the handled tools that were
      expired, and exactly those have left the registry; the inventories
      `found` at the start are now swept of them; `log` holds the notices
      sent. */
  ghost predicate Swept<T>(initial: map<Uuid, T>, active: map<Uuid, T>, tools: map<Uuid, ToolRecord>,
                           online: set<Uuid>, found: map<Uuid, seq<Option<ItemStack>>>,
                           inventories: map<Uuid, seq<Option<ItemStack>>>, days: int, now: int,
                           pending: set<Uuid>, done: set<Uuid>, toRemove: set<Uuid>, log: seq<Notice>) {
    initial.Keys == tools.Keys &&
    pending + done == initial.Keys && pending !! done &&
    toRemove <= done &&
    (forall v :: v in done ==> (v in toRemove <==> Expired(tools[v], days, now))) &&
    active == initial - toRemove &&
    inventories == SweptInventories(found, tools, toRemove, online) &&
    SweepLog(log, tools, online, found, days, now, done) &&
    AllSent(log, tools, online, found, days, now, done)
  }

  /** Handling the pending tool `u` keeps the bookkeeping. */
  lemma SweptStep<T>(initial: map<Uuid, T>, active: map<Uuid, T>, active': map<Uuid, T>,
                     tools: map<Uuid, ToolRecord>, online: set<Uuid>, found: map<Uuid, seq<Option<ItemStack>>>,
                     inventories: map<Uuid, seq<Option<ItemStack>>>, inventories': map<Uuid, seq<Option<ItemStack>>>,
                     days: int, now: int,
                     pending: set<Uuid>, done: set<Uuid>, toRemove: set<Uuid>, log: seq<Notice>,
                     u: Uuid, expired: bool, extra: seq<Notice>)
    requires Swept(initial, active, tools, online, found, inventories, days, now, pending, done, toRemove, log)
    requires u in pending
    requires expired == Expired(tools[u], days, now)
    requires active' == if expired then active - {u} else active
    requires inventories' == if expired then DestroyedInventories(tools[u].owner, online, inventories, u) else inventories
    requires extra == SweepNotices(tools[u], u, online, inventories, days, now)
    ensures Swept(initial, active', tools, online, found, inventories', days, now, pending - {u}, done + {u},
      if expired then toRemove + {u} else toRemove, log + extra)
  {
    if expired {
      SweptDestroyStep(found, tools, toRemove, online, u);
      MapRemoveStep(initial, toRemove, u);
    }
    SweepStep(log, extra, tools, online, found, days, now, done, u);
  }

  /** When nothing is pending, the removed tools are exactly the expired ones. */
  lemma SweptDone<T>(initial: map<Uuid, T>, active: map<Uuid, T>, tools: map<Uuid, ToolRecord>,
                     online: set<Uuid>, found: map<Uuid, seq<Option<ItemStack>>>,
                     inventories: map<Uuid, seq<Option<ItemStack>>>, days: int, now: int,
                     done: set<Uuid>, toRemove: set<Uuid>, log: seq<Notice>)
    requires Swept(initial, active, tools, online, found, inventories, days, now, {}, done, toRemove, log)
    ensures toRemove == ExpiredIds(tools, days, now)
    ensures done == tools.Keys
  {
  }

  /** What the registry records about the entry `t`. */
  function Record(t: AmethystTool): ToolRecord
    reads t
  {
    ToolRecord(t.toolType, t.creationTime, t.ownerUUID)
  }

  /** The item `createTool` builds: base material, name, lore, tags,
      enchantments, unbreakable, flags. Read back, it is a tool of kind `t`
      with UUID `u`. */
  method BuildToolItem(t: ToolType, cfg: Config, now: int, u: Uuid) returns (item: ItemStack)
    ensures item == ItemStack(BaseMaterial(t), 1, Some(ToolMeta(t, cfg, now, u)))
    ensures GetToolUUID(Some(item)) == Some(u)
  {
    var material := BaseMaterial(t);
    item := ItemStack(material, 1, NewMeta(material));
    var meta := item.meta;
    if meta.Some? {
      var timeLeft := JavaDiv(now + LifetimeMillis(cfg.toolLifetime) - now, 1000);
      var lore := RenderLore(ToolLore(cfg, t), t, u, timeLeft, cfg.drainAmount);
      var m := meta.value.(toolTag := Some(ToolTypes.Name(t)), createdTag := Some(now),
        uuidTag := Some(UuidText(u)), displayName := Some(ToolName(cfg, t)), lore := lore,
        enchants := ToolEnchants(t), unbreakable := true, flags := ToolFlags);
      item := item.(meta := Some(m));
    }
    ToolMetaReadBack(t, cfg, now, u, material);
  }

  class ToolManager {
    var activeTools: map<Uuid, AmethystTool>

    /** Every entry is keyed by its own tool's UUID. */
    ghost predicate Valid()
      reads this
    {
      forall u :: u in activeTools ==> activeTools[u].toolUUID == u
    }

    /** The registry as values. */
    function Contents(): map<Uuid, ToolRecord>
      reads this, activeTools.Values
    {
      map u | u in activeTools :: Record(activeTools[u])
    }

    constructor()
      ensures activeTools == map[] && Valid()
    {
      activeTools := map[];
    }

    /** `getToolByUUID`. */
    function GetToolByUUID(u: Uuid): (r: Option<AmethystTool>)
      reads this
      requires Valid()
      ensures r.Some? <==> u in activeTools
      ensures r.Some? ==> r.value == activeTools[u] && r.value.toolUUID == u
    {
      if u in activeTools then Some(activeTools[u]) else None
    }

    /** `getRemainingTimeByUUID`: 0 for an unknown tool, else the seconds left
        of its lifetime. */
    function RemainingOf(u: Uuid, days: int, now: int): (r: int)
      reads this
      ensures r >= 0
      ensures u !in activeTools ==> r == 0
      ensures u in activeTools ==> r == SecondsLeft(activeTools[u].creationTime + LifetimeMillis(days), now)
    {
      if u !in activeTools then 0
      else SecondsLeft(activeTools[u].creationTime + LifetimeMillis(days), now)
    }

    /** `createTool(t)` at clock `now` with the freshly drawn UUID `newId`: the
        item carries the kind, the creation time and the UUID, and the registry
        gains exactly the entry for `newId`, without owner. */
    method CreateTool(t: ToolType, cfg: Config, now: int, newId: Uuid) returns (item: ItemStack)
      requires Valid()
      modifies this
      ensures Valid()
      ensures item == ItemStack(BaseMaterial(t), 1, Some(ToolMeta(t, cfg, now, newId)))
      ensures GetToolUUID(Some(item)) == Some(newId)
      ensures activeTools.Keys == old(activeTools.Keys) + {newId}
      ensures forall o | o in activeTools.Values :: o in old(activeTools.Values) || fresh(o)
      ensures Contents() == old(Contents())[newId := ToolRecord(t, now, None)]
    {
      item := BuildToolItem(t, cfg, now, newId);
      ContentsKept();
      Register(newId, t, now);
    }

    /** A step that changed neither the registry nor its entries leaves the
        registry's contents as they were. */
    twostate lemma ContentsKept()
      requires activeTools == old(activeTools)
      requires forall o | o in activeTools.Values :: unchanged(o)
      ensures Contents() == old(Contents())
    {
      forall u | u in activeTools
        ensures Record(activeTools[u]) == old(Record(activeTools[u]))
      {
        assert activeTools[u] in activeTools.Values;
      }
    }

    /** `new AmethystTool(uuid, type, now)` put into `activeTools` under its
        UUID, without owner. */
    method Register(u: Uuid, t: ToolType, now: int)
      requires Valid()
      modifies this
      ensures Valid()
      ensures activeTools.Keys == old(activeTools.Keys) + {u}
      ensures forall o | o in activeTools.Values :: o in old(activeTools.Values) || fresh(o)
      ensures Contents() == old(Contents())[u := ToolRecord(t, now, None)]
    {
      var tool := new AmethystTool(u, t, now, None);
      activeTools := activeTools[u := tool];
    }

    /** `sendTimerWarnings(tool, remaining)`. */
    method SendTimerWarnings(tool: AmethystTool, remaining: int, server: Server)
      modifies server
      ensures server.notices ==
        old(server.notices) + WarningFor(tool.ownerUUID, server.online, tool.toolUUID, tool.toolType, remaining)
      ensures server.online == old(server.online) && server.inventories == old(server.inventories)
    {
      if tool.ownerUUID.None? {
        return;
      }
      var player := tool.ownerUUID.value;
      if player !in server.online {
        return;
      }
      if remaining == 3600 {
        server.Send(TimerWarning(player, tool.toolUUID, tool.toolType, "1h"));
      } else if remaining == 600 {
        server.Send(TimerWarning(player, tool.toolUUID, tool.toolType, "10m"));
      } else if remaining == 60 {
        server.Send(TimerWarning(player, tool.toolUUID, tool.toolType, "1m"));
      }
    }

    /** `destroyTool(u)`: an unknown UUID changes nothing. Otherwise the entry
        goes, and when the owner is online the first inventory stack holding the
        tool is removed (with every equal stack) and the owner is told. */
    method DestroyTool(u: Uuid, server: Server)
      requires Valid()
      modifies this, server
      ensures Valid()
      ensures activeTools == old(activeTools) - {u}
      ensures server.online == old(server.online)
      ensures u !in old(activeTools) ==>
        server.inventories == old(server.inventories) && server.notices == old(server.notices)
      ensures u in old(activeTools) ==>
        server.inventories ==
          DestroyedInventories(old(activeTools[u].ownerUUID), server.online, old(server.inventories), u) &&
        server.notices == old(server.notices) +
          DestroyNotices(old(activeTools[u].ownerUUID), server.online, old(server.inventories), u,
            old(activeTools[u].toolType))
    {
      if u !in activeTools {
        return;
      }
      var tool := activeTools[u];
      if tool.ownerUUID.Some? {
        var player := tool.ownerUUID.value;
        if player in server.online {
          RemoveToolStacks(player, u, tool.toolType, server);
        }
      }
      activeTools := activeTools - {u};
    }

    /** `assignToolToPlayer(item, player)`: records `player` as the owner of the
        item's registry entry, if the item's UUID parses and is registered. */
    method AssignToolToPlayer(item: Option<ItemStack>, player: Uuid)
      requires Valid()
      modifies activeTools.Values
      ensures activeTools == old(activeTools) && Valid()
      ensures var u := GetToolUUID(item);
        if u.Some? && u.value in old(activeTools) then
          Contents() == old(Contents())[u.value := old(Contents())[u.value].(owner := Some(player))]
        else
          Contents() == old(Contents())
    {
      var u := GetToolUUID(item);
      if u.Some? {
        if u.value in activeTools {
          var tool := activeTools[u.value];
          tool.SetOwnerUUID(Some(player));
        }
      }
    }

    /** One step of `updateAllTimers`: a tool whose time is up is destroyed,
        any other gets its due warning. `tools` is the registry as it stood when
        the sweep began; the tool `u` is unchanged since. */
    method SweepOne(u: Uuid, days: int, now: int, server: Server, ghost tools: map<Uuid, ToolRecord>)
      returns (expired: bool, ghost extra: seq<Notice>)
      requires Valid() && u in activeTools && u in tools && tools[u] == Record(activeTools[u])
      modifies this, server
      ensures Valid()
      ensures expired == Expired(tools[u], days, now)
      ensures activeTools == if expired then old(activeTools) - {u} else old(activeTools)
      ensures server.online == old(server.online)
      ensures server.inventories ==
        if expired then DestroyedInventories(tools[u].owner, server.online, old(server.inventories), u)
        else old(server.inventories)
      ensures server.notices == old(server.notices) + extra
      ensures extra == SweepNotices(tools[u], u, server.online, old(server.inventories), days, now)
    {
      var tool := activeTools[u];
      var remaining := RemainingOf(u, days, now);
      ghost var before := server.notices;
      expired := remaining <= 0;
      if expired {
        DestroyTool(u, server);
      } else {
        SendTimerWarnings(tool, remaining, server);
      }
      extra := server.notices[|before|..];
    }

    /** The loop of `updateAllTimers` over the registry entries, visited in no
        particular order; `tools` is the registry as the loop finds it. Returns
        the UUIDs of the tools it destroyed. */
    method SweepAll(days: int, now: int, server: Server, ghost tools: map<Uuid, ToolRecord>)
      returns (toRemove: set<Uuid>, ghost log: seq<Notice>)
      requires Valid() && activeTools.Keys == tools.Keys
      requires forall v :: v in activeTools ==> tools[v] == Record(activeTools[v])
      modifies this, server
      ensures Valid()
      ensures toRemove == ExpiredIds(tools, days, now)
      ensures activeTools == old(activeTools) - toRemove
      ensures server.online == old(server.online)
      ensures server.inventories == SweptInventories(old(server.inventories), tools, toRemove, server.online)
      ensures server.notices == old(server.notices) + log
      ensures SweepLog(log, tools, server.online, old(server.inventories), days, now, tools.Keys)
      ensures AllSent(log, tools, server.online, old(server.inventories), days, now, tools.Keys)
    {
      ghost var online := server.online;
      ghost var found := server.inventories;
      ghost var start := server.notices;
      ghost var initial := activeTools;
      ghost var done: set<Uuid> := {};
      log := [];
      toRemove := {};
      var pending := activeTools.Keys;
      SweptNothing(found, tools, online);
      while pending != {}
        invariant Valid()
        invariant Swept(initial, activeTools, tools, online, found, server.inventories, days, now,
          pending, done, toRemove, log)
        invariant server.online == online
        invariant server.notices == start + log
        decreases pending
      {
        var u :| u in pending;
        ghost var active := activeTools;
        ghost var inventories := server.inventories;
        var expired, extra := SweepOne(u, days, now, server, tools);
        SweptStep(initial, active, activeTools, tools, online, found, inventories, server.inventories, days, now,
          pending, done, toRemove, log, u, expired, extra);
        if expired {
          toRemove := toRemove + {u};
        }
        AppendAssoc(start, log, extra);
        log := log + extra;
        done := done + {u};
        pending := pending - {u};
      }
      SweptDone(initial, activeTools, tools, online, found, server.inventories, days, now, done, toRemove, log);
    }

    /** `updateAllTimers()` at clock `now`: every tool whose time is up is
        destroyed and leaves the registry, and its stacks leave its online
        owner's inventory; every other tool stays; the notices sent are exactly
        those owed, one per tool at most. */
    method UpdateAllTimers(days: int, now: int, server: Server)
      requires Valid()
      modifies this, server
      ensures Valid()
      ensures activeTools == old(activeTools) - ExpiredIds(old(Contents()), days, now)
      ensures server.online == old(server.online)
      ensures server.inventories == SweptInventories(old(server.inventories), old(Contents()),
        ExpiredIds(old(Contents()), days, now), server.online)
      ensures old(server.notices) <= server.notices
      ensures SweepLog(server.notices[|old(server.notices)|..], old(Contents()), server.online,
        old(server.inventories), days, now, old(activeTools.Keys))
      ensures AllSent(server.notices[|old(server.notices)|..], old(Contents()), server.online,
        old(server.inventories), days, now, old(activeTools.Keys))
    {
      ghost var start := server.notices;
      var toRemove, log := SweepAll(days, now, server, Contents());
      MapRemoveTwice(old(activeTools), toRemove);
      activeTools := activeTools - toRemove;
      DropPrefix(start, log);
    }
  }
}
