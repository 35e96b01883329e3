/** `AToolsCommand`: the `/atools` command (`give`, `reload`, `destroy`,
    `help`) and its tab completion. The sender's `hasPermission` is the
    function `may`; `Bukkit.getPlayer(name)` is the supplied `target`. */
module ToolCommand {
  import opened Common
  import opened Text
  import opened Uuids
  import opened ToolTypes
  import opened Game
  import opened Sorting
  import opened ToolManagement

  // ---------------------------------------------------------------------------
  // Arguments

  /** `getToolTypeFromString(input)`. */
  function GetToolTypeFromString(input: string): Option<ToolType> {
    if input == "tree-chopper" || input == "treechopper" || input == "axe" then Some(TreeChopper)
    else if input == "sell-axe" || input == "sellaxe" || input == "sell" then Some(SellAxe)
    else if input == "pickaxe" || input == "pick" then Some(Pickaxe)
    else if input == "bucket" then Some(Bucket)
    else if input == "torch" then Some(Torch)
    else if input == "rocket" then Some(Rocket)
    else None
  }

  /** The names the command accepts for each kind. */
  const ItemAliases: map<string, ToolType> := map[
    "tree-chopper" := TreeChopper, "treechopper" := TreeChopper, "axe" := TreeChopper,
    "sell-axe" := SellAxe, "sellaxe" := SellAxe, "sell" := SellAxe,
    "pickaxe" := Pickaxe, "pick" := Pickaxe,
    "bucket" := Bucket, "torch" := Torch, "rocket" := Rocket]

  /** A name resolves exactly when it is one of the accepted names, and then
      to the kind that name stands for. */
  lemma GetToolTypeFromStringTable(input: string)
    ensures GetToolTypeFromString(input) == if input in ItemAliases then Some(ItemAliases[input]) else None
  {
  }

  /** Every configuration key resolves to its own kind. */
  lemma ConfigNameResolves(t: ToolType)
    ensures GetToolTypeFromString(ConfigName(t)) == Some(t)
  {
  }

  /** `args[2].toLowerCase().replace("_", "-")`. */
  function GiveItemArg(arg: string): string {
    Replace(Lower(arg), "_", "-")
  }

  /** `_` becomes `-` character by character. */
  lemma {:induction false} ReplaceUnderscore(s: string)
    ensures |Replace(s, "_", "-")| == |s|
    ensures forall i :: 0 <= i < |s| ==> Replace(s, "_", "-")[i] == if s[i] == '_' then '-' else s[i]
    decreases |s|
  {
    if |s| >= 1 {
      ReplaceUnderscore(s[1..]);
      var r := Replace(s, "_", "-");
      var tail := Replace(s[1..], "_", "-");
      assert r == (if s[0] == '_' then "-" else [s[0]]) + tail by {
        assert s[..1] == [s[0]];
        assert s[1..] == s[|"_"|..];
      }
      forall i | 0 <= i < |s|
        ensures r[i] == if s[i] == '_' then '-' else s[i]
      {
        if i > 0 { assert r[i] == tail[i - 1] && s[i] == s[1..][i - 1]; }
      }
    }
  }

  /** `GiveItemArg` maps each character on its own. */
  lemma GiveItemArgChars(arg: string)
    ensures |GiveItemArg(arg)| == |arg|
    ensures forall i :: 0 <= i < |arg| ==>
      GiveItemArg(arg)[i] == if arg[i] == '_' then '-' else LowerChar(arg[i])
  {
    ReplaceUnderscore(Lower(arg));
  }

  /** The enum constant name of every kind, as an operator would type it
      (`TREE_CHOPPER`), resolves to that kind. */
  lemma NameArgResolves(t: ToolType)
    ensures GetToolTypeFromString(GiveItemArg(Name(t))) == Some(t)
  {
    GiveItemArgChars(Name(t));
    assert GiveItemArg(Name(t)) == ConfigName(t);
  }

  /** So does the configuration key of every kind. */
  lemma ConfigNameArgResolves(t: ToolType)
    ensures GetToolTypeFromString(GiveItemArg(ConfigName(t))) == Some(t)
  {
    GiveItemArgChars(ConfigName(t));
    assert GiveItemArg(ConfigName(t)) == ConfigName(t);
  }

  /** `hasPermissionForSubCommand(sender, subCommand)`. */
  function HasPermissionForSubCommand(may: string -> bool, subCommand: string): bool {
    if subCommand == "give" then may("atools.give") || may("atools.op")
    else if subCommand == "reload" then may("atools.reload") || may("atools.op")
    else if subCommand == "destroy" then may("atools.destroy") || may("atools.op")
    else subCommand == "help"
  }

  /** `help` is open to everyone; `give`, `reload` and `destroy` each need
      their own permission or `atools.op`; no other word is allowed. */
  lemma HasPermissionForSubCommandMeaning(may: string -> bool, subCommand: string)
    ensures HasPermissionForSubCommand(may, subCommand) <==>
      subCommand == "help" ||
      (subCommand in {"give", "reload", "destroy"} && (may("atools." + subCommand) || may("atools.op")))
  {
    assert "atools." + "give" == "atools.give";
    assert "atools." + "reload" == "atools.reload";
    assert "atools." + "destroy" == "atools.destroy";
  }

  // ---------------------------------------------------------------------------
  // give

  /** The outcome of the checks of `handleGiveCommand`, in the order they are
      made. */
  datatype GiveCheck =
    | GiveNoPermission
    | GiveUsage
    | GivePlayerNotFound
    | GiveInvalidItem
    | GiveDisabled
    | GiveInventoryFull(target: Player)
    | GiveTo(kind: ToolType, target: Player, slot: nat)

  /** `player.getInventory().getContents()` in a map of inventories. */
  function Slots(inventories: map<Uuid, seq<Option<ItemStack>>>, p: Uuid): seq<Option<ItemStack>> {
    if p in inventories then inventories[p] else []
  }

  /** The storage slots, the only ones `firstEmpty` and `addItem` search:
      `getContents()` lists them first, before the armour and off-hand
      slots. */
  function Storage(slots: seq<Option<ItemStack>>): (r: seq<Option<ItemStack>>)
    ensures |r| <= StorageSize && |r| <= |slots| && r == slots[..|r|]
    ensures |slots| >= StorageSize ==> |r| == StorageSize
    ensures |slots| < StorageSize ==> r == slots
  {
    if |slots| <= StorageSize then slots else slots[..StorageSize]
  }

  /** The checks of `handleGiveCommand`: permission, argument count, target
      player, item name, enabled kind, free slot. */
  function GiveChecks(args: seq<string>, may: string -> bool, target: Option<Player>, cfg: Config,
                      inventories: map<Uuid, seq<Option<ItemStack>>>): GiveCheck
  {
    if !may("atools.give") && !may("atools.op") then GiveNoPermission
    else if |args| < 3 then GiveUsage
    else if target.None? then GivePlayerNotFound
    else match GetToolTypeFromString(GiveItemArg(args[2]))
      case None => GiveInvalidItem
      case Some(t) =>
        if !IsToolEnabled(cfg, t) then GiveDisabled
        else match FirstEmpty(Storage(Slots(inventories, target.value.id)))
          case None => GiveInventoryFull(target.value)
          case Some(slot) => GiveTo(t, target.value, slot)
  }

  /** A tool is handed out exactly when every check passes, into the first
      empty storage slot of the target; each refusal comes only after all earlier
      checks have passed. */
  lemma GiveChecksMeaning(args: seq<string>, may: string -> bool, target: Option<Player>, cfg: Config,
                          inventories: map<Uuid, seq<Option<ItemStack>>>)
    ensures var c := GiveChecks(args, may, target, cfg, inventories);
      var permitted := may("atools.give") || may("atools.op");
      (c.GiveTo? <==>
        permitted && |args| >= 3 && target.Some? && GetToolTypeFromString(GiveItemArg(args[2])).Some? &&
        IsToolEnabled(cfg, GetToolTypeFromString(GiveItemArg(args[2])).value) &&
        FirstEmpty(Storage(Slots(inventories, target.value.id))).Some?) &&
      (c.GiveTo? ==>
        c.kind == GetToolTypeFromString(GiveItemArg(args[2])).value && c.target == target.value &&
        c.slot < StorageSize && c.slot < |Slots(inventories, c.target.id)| &&
        Slots(inventories, c.target.id)[c.slot].None? &&
        forall j :: 0 <= j < c.slot ==> Slots(inventories, c.target.id)[j].Some?) &&
      (c == GiveNoPermission <==> !permitted) &&
      (c == GiveUsage ==> permitted) &&
      (c == GivePlayerNotFound ==> permitted && |args| >= 3) &&
      (c == GiveInvalidItem ==> permitted && |args| >= 3 && target.Some?) &&
      (c == GiveDisabled ==>
        permitted && |args| >= 3 && target.Some? && GetToolTypeFromString(GiveItemArg(args[2])).Some?) &&
      (c.GiveInventoryFull? ==>
        permitted && |args| >= 3 && target.Some? && GetToolTypeFromString(GiveItemArg(args[2])).Some? &&
        IsToolEnabled(cfg, GetToolTypeFromString(GiveItemArg(args[2])).value))
  {
  }

  /** The messages `handleGiveCommand` sends for an outcome; `itemName` is the
      message file's `item-names.<key>` text. */
  function GiveNotices(c: GiveCheck, itemName: ToolType -> string): seq<Notice> {
    match c
    case GiveNoPermission => [Message(ToSender, "general.no-permission", map[])]
    case GiveUsage => [Message(ToSender, "commands.help.give", map[])]
    case GivePlayerNotFound => [Message(ToSender, "general.player-not-found", map[])]
    case GiveInvalidItem => [Message(ToSender, "general.invalid-item", map[])]
    case GiveDisabled => [Message(ToSender, "general.invalid-item", map[])]
    case GiveInventoryFull(target) =>
      [Message(ToSender, "commands.give.inventory-full", map["player" := target.name])]
    case GiveTo(t, target, _) =>
      [Message(ToSender, "commands.give.success", map["item" := itemName(t), "player" := target.name]),
       Message(ToPlayer(target.id), "commands.give.received", map["item" := itemName(t)])]
  }

  /** The item `createTool` builds. */
  function NewToolItem(t: ToolType, cfg: Config, now: int, newId: Uuid): ItemStack {
    ItemStack(BaseMaterial(t), 1, Some(ToolMeta(t, cfg, now, newId)))
  }

  /** `handleGiveCommand`: when every check passes, a new tool (UUID `newId`,
      created at `now`) goes into the target's first empty slot, the registry
      records it with the target as owner, and sender and target are told;
      otherwise the sender gets the one message of the failed check and nothing
      else changes. */
  method HandleGive(args: seq<string>, may: string -> bool, target: Option<Player>, cfg: Config, now: int,
                    newId: Uuid, itemName: ToolType -> string, tm: ToolManager, server: Server)
    requires tm.Valid()
    modifies tm, tm.activeTools.Values, server
    ensures tm.Valid() && server.online == old(server.online)
    ensures var c := GiveChecks(args, may, target, cfg, old(server.inventories));
      server.notices == old(server.notices) + GiveNotices(c, itemName)
    ensures var c := GiveChecks(args, may, target, cfg, old(server.inventories));
      c.GiveTo? ==>
        server.inventories == old(server.inventories)[c.target.id :=
          Slots(old(server.inventories), c.target.id)[c.slot := Some(NewToolItem(c.kind, cfg, now, newId))]] &&
        tm.activeTools.Keys == old(tm.activeTools.Keys) + {newId} &&
        tm.Contents() == old(tm.Contents())[newId := ToolRecord(c.kind, now, Some(c.target.id))]
    ensures !GiveChecks(args, may, target, cfg, old(server.inventories)).GiveTo? ==>
      server.inventories == old(server.inventories) &&
      tm.activeTools == old(tm.activeTools) && tm.Contents() == old(tm.Contents())
  {
    ghost var c := GiveChecks(args, may, target, cfg, server.inventories);
    if !may("atools.give") && !may("atools.op") {
      server.Send(Message(ToSender, "general.no-permission", map[]));
      tm.ContentsKept();
      return;
    }
    if |args| < 3 {
      server.Send(Message(ToSender, "commands.help.give", map[]));
      tm.ContentsKept();
      return;
    }
    var itemArg := GiveItemArg(args[2]);
    if target.None? {
      server.Send(Message(ToSender, "general.player-not-found", map[]));
      tm.ContentsKept();
      return;
    }
    var player := target.value;
    var toolType := GetToolTypeFromString(itemArg);
    if toolType.None? {
      server.Send(Message(ToSender, "general.invalid-item", map[]));
      tm.ContentsKept();
      return;
    }
    var t := toolType.value;
    if !IsToolEnabled(cfg, t) {
      server.Send(Message(ToSender, "general.invalid-item", map[]));
      tm.ContentsKept();
      return;
    }
    var slots := server.Inventory(player.id);
    var free := FirstEmpty(Storage(slots));
    if free.None? {
      server.Send(Message(ToSender, "commands.give.inventory-full", map["player" := player.name]));
      tm.ContentsKept();
      return;
    }
    assert c == GiveTo(t, player, free.value);
    var tool := GiveTool(t, player, free.value, cfg, now, newId, itemName, tm, server);
  }

  /** The tail of `handleGiveCommand` once every check has passed:
      `createTool`, then the rest in `Deliver`. */
  method GiveTool(t: ToolType, player: Player, slot: nat, cfg: Config, now: int, newId: Uuid,
                  itemName: ToolType -> string, tm: ToolManager, server: Server)
    returns (tool: ItemStack)
    requires tm.Valid()
    requires slot < |server.Inventory(player.id)|
    modifies tm, tm.activeTools.Values, server
    ensures tool == NewToolItem(t, cfg, now, newId)
    ensures tm.Valid() && server.online == old(server.online)
    ensures server.notices == old(server.notices) + GiveNotices(GiveTo(t, player, slot), itemName)
    ensures server.inventories == old(server.inventories)[player.id :=
      Slots(old(server.inventories), player.id)[slot := Some(tool)]]
    ensures tm.activeTools.Keys == old(tm.activeTools.Keys) + {newId}
    ensures tm.Contents() == old(tm.Contents())[newId := ToolRecord(t, now, Some(player.id))]
  {
    ghost var before := tm.Contents();
    tool := tm.CreateTool(t, cfg, now, newId);
    Deliver(tool, t, player, slot, now, newId, itemName, tm, server);
    MapUpdateTwice(before, newId, ToolRecord(t, now, None), ToolRecord(t, now, Some(player.id)));
  }

  /** `addItem` into the free slot `slot`, `assignToolToPlayer`, and the
      messages to sender and receiver, for the freshly registered `tool`. */
  method Deliver(tool: ItemStack, t: ToolType, player: Player, slot: nat, now: int, newId: Uuid,
                 itemName: ToolType -> string, tm: ToolManager, server: Server)
    requires tm.Valid() && GetToolUUID(Some(tool)) == Some(newId)
    requires newId in tm.Contents() && tm.Contents()[newId] == ToolRecord(t, now, None)
    requires slot < |server.Inventory(player.id)|
    modifies tm.activeTools.Values, server
    ensures tm.Valid() && tm.activeTools == old(tm.activeTools)
    ensures tm.Contents() == old(tm.Contents())[newId := ToolRecord(t, now, Some(player.id))]
    ensures server.online == old(server.online)
    ensures server.notices == old(server.notices) + GiveNotices(GiveTo(t, player, slot), itemName)
    ensures server.inventories == old(server.inventories)[player.id :=
      Slots(old(server.inventories), player.id)[slot := Some(tool)]]
  {
    var slots := server.Inventory(player.id);
    server.SetInventory(player.id, slots[slot := Some(tool)]);
    tm.ContentsKept();
    tm.AssignToolToPlayer(Some(tool), player.id);
    label Owned:
    NotifyGiven(t, player, slot, itemName, server);
    tm.ContentsKept@Owned();
  }

  /** The two messages of a successful `give`: to the sender, then to the
      receiver. */
  method NotifyGiven(t: ToolType, player: Player, slot: nat, itemName: ToolType -> string, server: Server)
    modifies server
    ensures server.notices == old(server.notices) + GiveNotices(GiveTo(t, player, slot), itemName)
    ensures server.online == old(server.online) && server.inventories == old(server.inventories)
  {
    server.Send(Message(ToSender, "commands.give.success", map["item" := itemName(t), "player" := player.name]));
    server.Send(Message(ToPlayer(player.id), "commands.give.received", map["item" := itemName(t)]));
  }

  // ---------------------------------------------------------------------------
  // reload and destroy

  /** `handleReloadCommand`: with `atools.reload` or `atools.op` the plugin is
      reloaded (`reloaded`) and the sender told; otherwise the sender is
      refused. */
  method HandleReload(may: string -> bool, server: Server) returns (reloaded: bool)
    modifies server
    ensures reloaded <==> may("atools.reload") || may("atools.op")
    ensures server.notices == old(server.notices) +
      [Message(ToSender, if reloaded then "general.reload-success" else "general.no-permission", map[])]
    ensures server.online == old(server.online) && server.inventories == old(server.inventories)
  {
    if !may("atools.reload") && !may("atools.op") {
      server.Send(Message(ToSender, "general.no-permission", map[]));
      return false;
    }
    server.Send(Message(ToSender, "general.reload-success", map[]));
    return true;
  }

  /** The outcome of the checks of `handleDestroyCommand`. */
  datatype DestroyCheck =
    | DestroyNoPermission
    | DestroyUsage
    | DestroyInvalidUuid
    | DestroyNotFound(text: string)
    | DestroyIt(id: Uuid, text: string)

  /** The checks of `handleDestroyCommand`: permission, argument count, UUID
      syntax, registered tool. */
  function DestroyChecks(args: seq<string>, may: string -> bool, registered: set<Uuid>): DestroyCheck {
    if !may("atools.destroy") && !may("atools.op") then DestroyNoPermission
    else if |args| < 2 then DestroyUsage
    else match ParseUuid(args[1])
      case None => DestroyInvalidUuid
      case Some(u) => if u !in registered then DestroyNotFound(args[1]) else DestroyIt(u, args[1])
  }

  /** A tool is destroyed exactly when the sender may destroy, a UUID is given,
      it parses and names a registered tool, and then it is the tool the text
      names. */
  lemma DestroyChecksMeaning(args: seq<string>, may: string -> bool, registered: set<Uuid>)
    ensures var c := DestroyChecks(args, may, registered);
      (c.DestroyIt? <==>
        (may("atools.destroy") || may("atools.op")) && |args| >= 2 &&
        ParseUuid(args[1]).Some? && ParseUuid(args[1]).value in registered) &&
      (c.DestroyIt? ==> c.id in registered && Some(c.id) == ParseUuid(args[1]) && c.text == args[1]) &&
      (c == DestroyNoPermission <==> !may("atools.destroy") && !may("atools.op")) &&
      (c == DestroyInvalidUuid ==> |args| >= 2 && ParseUuid(args[1]).None?) &&
      (c.DestroyNotFound? ==> |args| >= 2 && ParseUuid(args[1]).Some? && ParseUuid(args[1]).value !in registered)
  {
  }

  /** The text `UuidText(u)` of a registered tool's UUID, as shown in its lore,
      destroys exactly that tool. */
  lemma DestroyByShownUuid(may: string -> bool, registered: set<Uuid>, u: Uuid)
    requires may("atools.destroy") || may("atools.op")
    requires u in registered
    ensures DestroyChecks(["destroy", UuidText(u)], may, registered) == DestroyIt(u, UuidText(u))
  {
    UuidRoundTrip(u);
  }

  /** The message that ends `handleDestroyCommand`. */
  function DestroyNotice(c: DestroyCheck): Notice {
    match c
    case DestroyNoPermission => Message(ToSender, "general.no-permission", map[])
    case DestroyUsage => Message(ToSender, "commands.help.destroy", map[])
    case DestroyInvalidUuid => Message(ToSender, "commands.destroy.invalid-uuid", map[])
    case DestroyNotFound(text) => Message(ToSender, "commands.destroy.not-found", map["uuid" := text])
    case DestroyIt(_, text) => Message(ToSender, "commands.destroy.success", map["uuid" := text])
  }

  /** `handleDestroyCommand`: the checks are made in the order of
      `DestroyChecks`; `destroyTool` runs exactly when every check passes, and
      the sender gets the one message of the outcome after whatever the
      destruction itself sent. */
  method HandleDestroy(args: seq<string>, may: string -> bool, tm: ToolManager, server: Server)
    requires tm.Valid()
    modifies tm, server
    ensures tm.Valid() && server.online == old(server.online)
    ensures var c := DestroyChecks(args, may, old(tm.activeTools.Keys));
      c.DestroyIt? ==>
        tm.activeTools == old(tm.activeTools) - {c.id} &&
        server.inventories ==
          DestroyedInventories(old(tm.activeTools[c.id].ownerUUID), server.online, old(server.inventories), c.id) &&
        server.notices == old(server.notices) +
          DestroyNotices(old(tm.activeTools[c.id].ownerUUID), server.online, old(server.inventories), c.id,
            old(tm.activeTools[c.id].toolType)) +
          [DestroyNotice(c)]
    ensures var c := DestroyChecks(args, may, old(tm.activeTools.Keys));
      !c.DestroyIt? ==>
        tm.activeTools == old(tm.activeTools) && server.inventories == old(server.inventories) &&
        server.notices == old(server.notices) + [DestroyNotice(c)]
  {
    var outcome := DestroyChecks(args, may, tm.activeTools.Keys);
    if outcome.DestroyIt? {
      DestroyAndReport(outcome.id, outcome.text, tm, server);
    } else {
      server.Send(DestroyNotice(outcome));
    }
  }

  /** The last step of `handleDestroyCommand`: `destroyTool` on a registered
      tool, then the success message naming it as typed. */
  method DestroyAndReport(u: Uuid, text: string, tm: ToolManager, server: Server)
    requires tm.Valid() && u in tm.activeTools
    modifies tm, server
    ensures tm.Valid() && server.online == old(server.online)
    ensures tm.activeTools == old(tm.activeTools) - {u}
    ensures server.inventories ==
      DestroyedInventories(old(tm.activeTools[u].ownerUUID), server.online, old(server.inventories), u)
    ensures server.notices == old(server.notices) +
      DestroyNotices(old(tm.activeTools[u].ownerUUID), server.online, old(server.inventories), u,
        old(tm.activeTools[u].toolType)) +
      [Message(ToSender, "commands.destroy.success", map["uuid" := text])]
  {
    tm.DestroyTool(u, server);
    server.Send(Message(ToSender, "commands.destroy.success", map["uuid" := text]));
  }

  // ---------------------------------------------------------------------------
  // The command

  /** Which handler `onCommand` runs. */
  datatype Route = ShowHelp | Give | Reload | Destroy

  /** The switch of `onCommand` on the lower-cased first argument. */
  function RouteOf(args: seq<string>): Route {
    if |args| == 0 then ShowHelp
    else
      var sub := Lower(args[0]);
      if sub == "give" then Give
      else if sub == "reload" then Reload
      else if sub == "destroy" then Destroy
      else ShowHelp
  }

  /** `sendHelp`: the six help lines. */
  const HelpNotices: seq<Notice> := [
    Message(ToSender, "commands.help.header", map[]), Message(ToSender, "commands.help.give", map[]),
    Message(ToSender, "commands.help.reload", map[]), Message(ToSender, "commands.help.destroy", map[]),
    Message(ToSender, "commands.help.help", map[]), Message(ToSender, "commands.help.footer", map[])]

  /** `onCommand`: the help is shown for no arguments, for `help` and for any
      unknown word; `give`, `reload` and `destroy` (in any case) run their
      handlers. The command always reports itself handled. */
  method OnCommand(args: seq<string>, may: string -> bool, target: Option<Player>, cfg: Config, now: int,
                   newId: Uuid, itemName: ToolType -> string, tm: ToolManager, server: Server)
    returns (handled: bool, route: Route, reloaded: bool)
    requires tm.Valid()
    modifies tm, tm.activeTools.Values, server
    ensures handled && route == RouteOf(args) && tm.Valid()
    ensures reloaded <==> route == Reload && (may("atools.reload") || may("atools.op"))
    ensures route == ShowHelp ==>
      server.notices == old(server.notices) + HelpNotices &&
      server.inventories == old(server.inventories) && tm.activeTools == old(tm.activeTools) &&
      tm.Contents() == old(tm.Contents())
    ensures server.online == old(server.online)
    ensures route == Give ==>
      server.notices == old(server.notices) +
        GiveNotices(GiveChecks(args, may, target, cfg, old(server.inventories)), itemName)
    ensures var c := GiveChecks(args, may, target, cfg, old(server.inventories));
      route == Give && c.GiveTo? ==>
        server.inventories == old(server.inventories)[c.target.id :=
          Slots(old(server.inventories), c.target.id)[c.slot := Some(NewToolItem(c.kind, cfg, now, newId))]] &&
        tm.activeTools.Keys == old(tm.activeTools.Keys) + {newId} &&
        tm.Contents() == old(tm.Contents())[newId := ToolRecord(c.kind, now, Some(c.target.id))]
    ensures route == Give && !GiveChecks(args, may, target, cfg, old(server.inventories)).GiveTo? ==>
      server.inventories == old(server.inventories) &&
      tm.activeTools == old(tm.activeTools) && tm.Contents() == old(tm.Contents())
    ensures var c := DestroyChecks(args, may, old(tm.activeTools.Keys));
      route == Destroy && c.DestroyIt? ==>
        tm.activeTools == old(tm.activeTools) - {c.id} &&
        server.inventories ==
          DestroyedInventories(old(tm.activeTools[c.id].ownerUUID), server.online, old(server.inventories), c.id) &&
        server.notices == old(server.notices) +
          DestroyNotices(old(tm.activeTools[c.id].ownerUUID), server.online, old(server.inventories), c.id,
            old(tm.activeTools[c.id].toolType)) +
          [DestroyNotice(c)]
    ensures var c := DestroyChecks(args, may, old(tm.activeTools.Keys));
      route == Destroy && !c.DestroyIt? ==>
        tm.activeTools == old(tm.activeTools) && tm.Contents() == old(tm.Contents()) &&
        server.inventories == old(server.inventories) &&
        server.notices == old(server.notices) + [DestroyNotice(c)]
    ensures route == Reload ==>
      server.notices == old(server.notices) +
        [Message(ToSender, if reloaded then "general.reload-success" else "general.no-permission", map[])] &&
      server.inventories == old(server.inventories) && tm.activeTools == old(tm.activeTools) &&
      tm.Contents() == old(tm.Contents())
  {
    handled, reloaded := true, false;
    route := RouteOf(args);
    if route == ShowHelp {
      SendHelp(server);
    } else if route == Give {
      HandleGive(args, may, target, cfg, now, newId, itemName, tm, server);
    } else if route == Reload {
      reloaded := HandleReload(may, server);
      tm.ContentsKept();
    } else {
      HandleDestroy(args, may, tm, server);
      if !DestroyChecks(args, may, old(tm.activeTools.Keys)).DestroyIt? {
        tm.ContentsKept();
      }
    }
  }

  /** `sendHelp(sender)`. */
  method SendHelp(server: Server)
    modifies server
    ensures server.notices == old(server.notices) + HelpNotices
    ensures server.online == old(server.online) && server.inventories == old(server.inventories)
  {
    server.Send(Message(ToSender, "commands.help.header", map[]));
    server.Send(Message(ToSender, "commands.help.give", map[]));
    server.Send(Message(ToSender, "commands.help.reload", map[]));
    server.Send(Message(ToSender, "commands.help.destroy", map[]));
    server.Send(Message(ToSender, "commands.help.help", map[]));
    server.Send(Message(ToSender, "commands.help.footer", map[]));
  }

  // ---------------------------------------------------------------------------
  // Tab completion

  /** The entries of `xs` that `keep` accepts, in order. */
  function Filter(xs: seq<string>, keep: string -> bool): (r: seq<string>)
    decreases |xs|
  {
    if xs == [] then []
    else if keep(xs[|xs| - 1]) then Filter(xs[..|xs| - 1], keep) + [xs[|xs| - 1]]
    else Filter(xs[..|xs| - 1], keep)
  }

  /** An entry is kept exactly when it is in `xs` and accepted. */
  lemma {:induction false} FilterMeaning(xs: seq<string>, keep: string -> bool)
    ensures forall x :: x in Filter(xs, keep) <==> x in xs && keep(x)
    decreases |xs|
  {
    if xs != [] {
      var init := xs[..|xs| - 1];
      FilterMeaning(init, keep);
      assert xs == init + [xs[|xs| - 1]];
    }
  }

  /** The three loops of `onTabComplete`: each candidate accepted by `keep` is
      added, in order. */
  method AddMatching(completions: seq<string>, xs: seq<string>, keep: string -> bool) returns (r: seq<string>)
    ensures r == completions + Filter(xs, keep)
  {
    r := completions;
    var i := 0;
    while i < |xs|
      invariant 0 <= i <= |xs|
      invariant r == completions + Filter(xs[..i], keep)
    {
      assert xs[..i + 1][..i] == xs[..i];
      if keep(xs[i]) {
        r := r + [xs[i]];
      }
      i := i + 1;
    }
    assert xs[..|xs|] == xs;
  }

  const SubCommands: seq<string> := ["give", "reload", "destroy", "help"]

  const ItemArgs: seq<string> := ["tree-chopper", "sell-axe", "pickaxe", "bucket", "torch", "rocket"]

  /** `s.toLowerCase().startsWith(typed.toLowerCase())`. */
  predicate MatchesTyped(s: string, typed: string) {
    StartsWith(Lower(s), Lower(typed))
  }

  /** The first-argument filter: a matching subcommand the sender may use. */
  function SubCommandFilter(typed: string, may: string -> bool): string -> bool {
    s => MatchesTyped(s, typed) && HasPermissionForSubCommand(may, s)
  }

  /** The player-name filter of `give`. */
  function NameFilter(typed: string): string -> bool {
    s => MatchesTyped(s, typed)
  }

  /** The item filter of `give`: a matching name of an enabled kind. */
  function ItemFilter(typed: string, cfg: Config): string -> bool {
    s => MatchesTyped(s, typed) && GetToolTypeFromString(s).Some? && IsToolEnabled(cfg, GetToolTypeFromString(s).value)
  }

  /** The completions before sorting. */
  function Candidates(args: seq<string>, may: string -> bool, onlineNames: seq<string>, cfg: Config): seq<string> {
    if |args| == 1 then Filter(SubCommands, SubCommandFilter(args[0], may))
    else if |args| == 2 then
      (if Lower(args[0]) == "give" then Filter(onlineNames, NameFilter(args[1]))
       else if Lower(args[0]) == "destroy" then ["<uuid>"]
       else [])
    else if |args| == 3 && Lower(args[0]) == "give" then Filter(ItemArgs, ItemFilter(args[2], cfg))
    else []
  }

  /** What may be offered: for the first argument, a subcommand the sender may
      use that starts with what was typed; for the second argument of `give`,
      an online player's name that starts with it; for the second argument of
      `destroy`, only the `<uuid>` hint, whatever was typed; for the third
      argument of `give`, the key of an enabled kind that starts with it. */
  lemma CandidatesMeaning(args: seq<string>, may: string -> bool, onlineNames: seq<string>, cfg: Config, x: string)
    ensures x in Candidates(args, may, onlineNames, cfg) <==>
      (|args| == 1 && x in SubCommands && MatchesTyped(x, args[0]) && HasPermissionForSubCommand(may, x)) ||
      (|args| == 2 && Lower(args[0]) == "give" && x in onlineNames && MatchesTyped(x, args[1])) ||
      (|args| == 2 && Lower(args[0]) == "destroy" && x == "<uuid>") ||
      (|args| == 3 && Lower(args[0]) == "give" && x in ItemArgs && MatchesTyped(x, args[2]) &&
        GetToolTypeFromString(x).Some? && IsToolEnabled(cfg, GetToolTypeFromString(x).value))
  {
    if |args| == 1 {
      FilterMeaning(SubCommands, SubCommandFilter(args[0], may));
    } else if |args| == 2 {
      FilterMeaning(onlineNames, NameFilter(args[1]));
    } else if |args| == 3 {
      FilterMeaning(ItemArgs, ItemFilter(args[2], cfg));
    }
  }

  /** `Collections.sort` on strings: `compareTo` order. */
  function StringOrder(): (string, string) -> bool {
    (a: string, b: string) => LexLe(a, b)
  }

  lemma StringOrderIsPreorder()
    ensures TotalPreorder(StringOrder())
  {
    forall a, b
      ensures LexLe(a, b) || LexLe(b, a)
    {
      LexLeTotal(a, b);
    }
    forall a, b, c | LexLe(a, b) && LexLe(b, c)
      ensures LexLe(a, c)
    {
      LexLeTransitive(a, b, c);
    }
  }

  /** `onTabComplete`: the candidates for the argument being typed, sorted. */
  method OnTabComplete(args: seq<string>, may: string -> bool, onlineNames: seq<string>, cfg: Config)
    returns (completions: seq<string>)
    ensures SortedBy(completions, StringOrder())
    ensures multiset(completions) == multiset(Candidates(args, may, onlineNames, cfg))
  {
    completions := [];
    if |args| == 1 {
      completions := AddMatching(completions, SubCommands, SubCommandFilter(args[0], may));
    } else if |args| == 2 {
      var subCommand := Lower(args[0]);
      if subCommand == "give" {
        completions := AddMatching(completions, onlineNames, NameFilter(args[1]));
      } else if subCommand == "destroy" {
        completions := completions + ["<uuid>"];
      }
    } else if |args| == 3 && Lower(args[0]) == "give" {
      completions := AddMatching(completions, ItemArgs, ItemFilter(args[2], cfg));
    }
    StringOrderIsPreorder();
    completions := SortBy(completions, StringOrder());
  }
}
