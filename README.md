# AmethystTools in Dafny

AmethystTools is a Paper/Bukkit server plugin that hands out time-limited
"amethyst" tools: a tree chopper that fells a whole tree, a 3x3x3 pickaxe, a
bucket that drains the water around it, a torch that places torches at range,
a sell axe and a rocket. Each tool carries three tags in the item's
persistent data: its type name, its creation time and its UUID. A registry
keyed by that UUID remembers when each tool was made and who owns it. A
timer sweep destroys expired tools and warns owners at 1 hour, 10 minutes and
1 minute. The countdown in a tool's lore is rewritten when the tool is held,
clicked, dropped or picked up by a hopper.
Per-player cooldowns rate-limit the torch. Protection listeners claim
ownership, refresh lore and keep tools from despawning. The `/atools` command
gives, destroys and reloads, and tab-completes its arguments.

This project models that core and proves what it promises:

* one Dafny module per Java class of the core: `ToolTypes`, `ToolEntity`,
  `ToolManagement`, `Cooldowns`, `MessageUtil`, `BucketTool`, `TreeChopping`,
  `PickaxeMining`, `TorchPlacement`, `ToolProtection` and `ToolCommand`;
* helper modules for the algorithms inside those classes: the breadth-first
  searches (`AreaSearch`, `NeighborScan`, `WaterSearch`, `TreeSearch`,
  `LeafSearch`, `LeafScan`), draining (`WaterDrain`) and block breaking
  (`Breaking`);
* shared vocabulary: Java integer arithmetic (`Common`), strings (`Text`),
  UUIDs and their text form (`Uuids`), block materials and faces
  (`Materials`), sorting (`Sorting`), and the server as the plugin sees it
  (`Game`).

The server is modelled as follows:

* The clock is a `now` parameter in milliseconds.
* The world is a `World` object whose `blocks` map holds every non-air block
  by position, plus the wall torches' facing and the items dropped.
* Items are values (`ItemStack`), with their metadata as a record holding the
  display name, lore lines, enchantments, flags and the three persistent tags
  (type name, creation time, UUID).
* Players, permissions and inventories are values. Messages sent are recorded
  by a `Server` object as notices, each a message key with its placeholders.
* Random draws, the configuration and the engine's own lookups are supplied
  as parameters. The engine lookups are block drops, `Material.isSolid` and
  the line-of-sight ray trace.

Classes whose fields the Java code updates in place become Dafny classes with
`modifies` frames:

* `ToolManager`, with its map from UUID to `AmethystTool`;
* `CooldownManager`, with its player-to-action-to-expiry table;
* the `World` and the `Server`.

Each method is proved against a specification function over the old state.
The searches are `while` loops over a queue, proved against reachability
definitions.

## Model

| member | source | states |
|---|---|---|
| Common.ToInt32 | src/main/java/dev/pallux/amethysttools/managers/ToolManager.java:173 | the result is a 32-bit int congruent to the input modulo 2^32, and equal to it when it already fits |
| Common.JavaDiv | src/main/java/dev/pallux/amethysttools/managers/ToolManager.java:177 | division truncating toward zero: floor division for a non-negative dividend, and for a negative one the quotient q with q*b >= a > q*b - b |
| Common.JavaDivClampedIsFloorClamped | src/main/java/dev/pallux/amethysttools/managers/ToolManager.java:177 | clamped at zero, truncating division and floor division agree, so `Math.max(0, x / 1000)` can be read with either |
| Common.DistSq | src/main/java/dev/pallux/amethysttools/listeners/BucketListener.java:78-79 | the squared distance is never negative and is 0 exactly when the two positions are equal |
| Breaking.DropSpot | src/main/java/dev/pallux/amethysttools/listeners/TreeChopperListener.java:224-228 | drops land at the broken block when the player stands on it or within the drop range (squared distance at most the range), otherwise at the player |
| Breaking.FelledMeaning | src/main/java/dev/pallux/amethysttools/listeners/TreeChopperListener.java:222 | after felling a set of blocks, each of them is AIR and every other block keeps its type |
| Breaking.PlacedMeaning | src/main/java/dev/pallux/amethysttools/listeners/TreeChopperListener.java:230-234 | the stacks dropped at a spot are all non-AIR stacks of the list, lie at that spot, and every non-AIR stack of the list is among them |
| Breaking.DropAll | src/main/java/dev/pallux/amethysttools/listeners/TreeChopperListener.java:230-234 | the world's drops grow by exactly the placed stacks, and no block or facing changes |
| Breaking.DroppedSpots | src/main/java/dev/pallux/amethysttools/listeners/TreeChopperListener.java:224-234 | every item dropped while breaking a list of blocks is a non-AIR stack from some broken block's drops at that block's drop spot, so it lies at the player or at a broken block within range |
| Breaking.BreakBlock | src/main/java/dev/pallux/amethysttools/listeners/TreeChopperListener.java:221-234 | the block joins the felled (AIR) blocks, loses any wall facing, and its drops are placed at the spot DropSpot chooses |
| Text.Lower | src/main/java/dev/pallux/amethysttools/commands/AToolsCommand.java:36 | lower-casing keeps the length and lower-cases each character on its own |
| Text.IndexFrom | src/main/java/dev/pallux/amethysttools/listeners/ToolProtectionListener.java:140 | the index returned is the first occurrence at or after the start, and none is returned exactly when there is none |
| Text.ContainsIff | src/main/java/dev/pallux/amethysttools/listeners/ToolProtectionListener.java:140 | `contains` holds exactly when the pattern occurs at some index |
| Text.NatToStringRoundTrip | src/main/java/dev/pallux/amethysttools/utils/MessageUtil.java:121 | the decimal text of a number reads back as that number |
| Text.NatToStringInjective | src/main/java/dev/pallux/amethysttools/utils/MessageUtil.java:121 | different numbers have different decimal texts |
| Uuids.UuidText | src/main/java/dev/pallux/amethysttools/managers/ToolManager.java:52 | the text form of a UUID has 36 characters |
| Uuids.ParseUuidAccepts | src/main/java/dev/pallux/amethysttools/managers/ToolManager.java:155 | `UUID.fromString` succeeds exactly on a text of at most 36 characters with five dash-separated groups, each a hexadecimal `long` (an optional `+`, at least one digit, below 2^63) |
| Uuids.ShortGroupsAccepted | src/main/java/dev/pallux/amethysttools/commands/AToolsCommand.java:118-122 | a typed UUID with short groups, such as "1-1-1-1-1", is accepted and read as the UUID whose canonical text differs from it |
| Uuids.HexRoundTrip | src/main/java/dev/pallux/amethysttools/managers/ToolManager.java:155 | the n-digit hex text of a number below 16^n reads back as that number |
| Uuids.UuidRoundTrip | src/main/java/dev/pallux/amethysttools/managers/ToolManager.java:148-159 | the UUID written into the item's tag reads back as the same UUID |
| Uuids.UuidTextInjective | src/main/java/dev/pallux/amethysttools/managers/ToolManager.java:52 | distinct UUIDs are written as distinct tag texts |
| Uuids.UuidHash | src/main/java/dev/pallux/amethysttools/models/AmethystTool.java:55-58 | the UUID's hash code is a 32-bit int |
| Materials.Opposite | src/main/java/dev/pallux/amethysttools/listeners/TorchListener.java:222 | the opposite face's offset is the negated offset of the face |
| ToolTypes.AllToolTypesComplete | src/main/java/dev/pallux/amethysttools/models/ToolType.java:4-9 | every tool type appears in the list of all six constants |
| ToolTypes.DisplayName | src/main/java/dev/pallux/amethysttools/models/ToolType.java:30-39 | every display name starts with "Amethyst " |
| ToolTypes.FindByConfigName | src/main/java/dev/pallux/amethysttools/models/ToolType.java:21-28 | the type found is listed and has exactly that config name, and none is found only when no listed type has it |
| ToolTypes.ConfigNamesDistinct | src/main/java/dev/pallux/amethysttools/models/ToolType.java:4-9 | two tool types with the same config name are the same type |
| ToolTypes.FromConfigNameIff | src/main/java/dev/pallux/amethysttools/models/ToolType.java:21-28 | fromConfigName returns type t exactly when the text is t's config name |
| ToolTypes.ValueOf | src/main/java/dev/pallux/amethysttools/managers/ToolManager.java:141-145 | a successful valueOf returns the constant whose name is exactly the text |
| ToolTypes.ValueOfName | src/main/java/dev/pallux/amethysttools/managers/ToolManager.java:142 | the name stored for a type reads back by valueOf as that type |
| Sorting.SortBy | src/main/java/dev/pallux/amethysttools/commands/AToolsCommand.java:193 | the result is sorted under the given total preorder and is a permutation of the input |
| Sorting.DistinctPermutation | src/main/java/dev/pallux/amethysttools/listeners/BucketListener.java:78-79 | reordering a duplicate-free list keeps it duplicate-free |
| Sorting.ListOf | src/main/java/dev/pallux/amethysttools/listeners/BucketListener.java:74 | the list built from a set is duplicate-free and holds exactly the set's members |
| MessageUtil.Split | src/main/java/dev/pallux/amethysttools/utils/MessageUtil.java:113-116 | days, hours, minutes and seconds recompose the input, with hours below 24 and minutes and seconds below 60, and days are 0 exactly below one day |
| MessageUtil.FormatTimeShape | src/main/java/dev/pallux/amethysttools/utils/MessageUtil.java:118-139 | the formatted time is never empty: it starts with a digit and ends with one of the unit letters d, h, m, s |
| MessageUtil.TotalSplit | src/main/java/dev/pallux/amethysttools/utils/MessageUtil.java:113-137 | the units shown add up to the input, minus the seconds part once there are days |
| MessageUtil.ParseTimeReadsUnits | src/main/java/dev/pallux/amethysttools/utils/MessageUtil.java:118-139 | the reader of formatted times reads one "N<unit>" as its value in seconds and "N<unit>, rest" as that value plus the rest |
| MessageUtil.ZeroRoundTrip | src/main/java/dev/pallux/amethysttools/utils/MessageUtil.java:111 | "0s", the output for non-positive input, reads back as 0 |
| MessageUtil.FormatTimeRoundTrip | src/main/java/dev/pallux/amethysttools/utils/MessageUtil.java:110-140 | the formatted time reads back as 0 for non-positive input, as the input itself below one day, and as the input without its seconds from one day up |
| MessageUtil.FormatTimeAsWritten | src/main/java/dev/pallux/amethysttools/utils/MessageUtil.java:110-140 | the StringBuilder code as written computes FormatTimeGlued, the formatter the lore uses |
| MessageUtil.FormatTimeGluedMeaning | src/main/java/dev/pallux/amethysttools/utils/MessageUtil.java:110-140 | the as-written formatter agrees with FormatTime except with no days, some hours, no minutes and some seconds, where it prints hours and seconds glued together |
| MessageUtil.PrintedMeaning | src/main/java/dev/pallux/amethysttools/utils/MessageUtil.java:118-139 | the units printed as written are the shown units joined by ", ", except in the glued case, which is hours then seconds with no separator |
| MessageUtil.GluedExample | src/main/java/dev/pallux/amethysttools/utils/MessageUtil.java:125-136 | 3605 seconds come out as "1h5s" as written, a text the reader rejects, while FormatTime gives "1h, 5s" |
| MessageUtil.FormatTimeThresholds | src/main/java/dev/pallux/amethysttools/managers/ToolManager.java:226-232 | the three warning thresholds 3600, 600 and 60 seconds format as "1h", "10m" and "1m" |
| MessageUtil.FormatTimeDayExample | src/main/java/dev/pallux/amethysttools/utils/MessageUtil.java:118-137 | 90061 seconds format as "1d, 1h, 1m": once there are days, seconds are not shown |
| MessageUtil.ConvertHex | src/main/java/dev/pallux/amethysttools/utils/MessageUtil.java:53-64 | converting hex colour codes keeps the text's length |
| MessageUtil.ConvertHexOnlyAmpersands | src/main/java/dev/pallux/amethysttools/utils/MessageUtil.java:53-64 | the only characters the conversion changes are '&'s, each becoming '<' or '>' |
| MessageUtil.ConvertHexNoCode | src/main/java/dev/pallux/amethysttools/utils/MessageUtil.java:53-64 | text holding no "&#RRGGBB&" code is left unchanged |
| MessageUtil.ConvertHexAtCode | src/main/java/dev/pallux/amethysttools/utils/MessageUtil.java:14 | a code "&#RRGGBB&" becomes the MiniMessage tag "<#RRGGBB>", and conversion carries on after it |
| MessageUtil.ConvertHexColors | src/main/java/dev/pallux/amethysttools/utils/MessageUtil.java:53-64 | the matcher loop computes exactly the conversion ConvertHex specifies |
| MessageUtil.Colorize | src/main/java/dev/pallux/amethysttools/utils/MessageUtil.java:21-31 | null gives the empty text; otherwise the legacy translation is applied to the hex-converted text |
| MessageUtil.StripHex | src/main/java/dev/pallux/amethysttools/utils/MessageUtil.java:99 | removing hex codes never makes the text longer |
| MessageUtil.StripHexNoAmpersand | src/main/java/dev/pallux/amethysttools/utils/MessageUtil.java:99 | text without '&' has no hex code to remove and is left as it is |
| MessageUtil.StripColors | src/main/java/dev/pallux/amethysttools/utils/MessageUtil.java:95-105 | null gives the empty text; text without '&' is passed to the legacy stripper unchanged |
| MessageUtil.StripHexLeavesCode | src/main/java/dev/pallux/amethysttools/utils/MessageUtil.java:94-99 | one `replaceAll` pass does not strip every code: "&#&#000000&000000&" becomes "&#000000&", itself a code |
| MessageUtil.ConvertLegacyNoAmpersand | src/main/java/dev/pallux/amethysttools/utils/MessageUtil.java:66-90 | the chain of legacy-code replacements leaves text without '&' unchanged |
| Game.RemoveEqual | src/main/java/dev/pallux/amethysttools/managers/ToolManager.java:248 | `Inventory.remove(item)` empties every storage slot (the first 36) holding an equal stack and keeps every other slot, the armour and off-hand slots included |
| Game.FirstEmpty | src/main/java/dev/pallux/amethysttools/commands/AToolsCommand.java:81 | the slot found is empty and every earlier one is full, and none is found exactly when every slot is full |
| Game.World.SetType | src/main/java/dev/pallux/amethysttools/listeners/TreeChopperListener.java:222 | one block's type changes and loses its wall facing; nothing else in the world changes |
| Game.World.SetFacing | src/main/java/dev/pallux/amethysttools/listeners/TorchListener.java:222-224 | one wall torch's facing is recorded and nothing else changes |
| Game.World.DropItem | src/main/java/dev/pallux/amethysttools/listeners/TreeChopperListener.java:233 | exactly one stack is appended to the drops at the given spot |
| Game.Server.Send | src/main/java/dev/pallux/amethysttools/commands/AToolsCommand.java:51 | exactly one notice is appended to the messages sent; players and inventories stay |
| Game.Server.SetInventory | src/main/java/dev/pallux/amethysttools/managers/ToolManager.java:248 | exactly one player's inventory is replaced |
| ToolEntity.AmethystTool.constructor | src/main/java/dev/pallux/amethysttools/models/AmethystTool.java:12-17 | the record holds the given UUID, type, creation time and owner |
| ToolEntity.AmethystTool.SetOwnerUUID | src/main/java/dev/pallux/amethysttools/models/AmethystTool.java:35-37 | the owner becomes the given one |
| ToolEntity.AmethystTool.Age | src/main/java/dev/pallux/amethysttools/models/AmethystTool.java:43-45 | creation time plus age is the clock reading |
| ToolEntity.AgeElapsed | src/main/java/dev/pallux/amethysttools/models/AmethystTool.java:43-45 | a tool's age grows by exactly the time that passes |
| ToolEntity.AmethystTool.HashCode | src/main/java/dev/pallux/amethysttools/models/AmethystTool.java:55-58 | the tool's hash code is a 32-bit int (the UUID's hash) |
| ToolEntity.EqualsIff | src/main/java/dev/pallux/amethysttools/models/AmethystTool.java:47-53 | two tools are equal exactly when their UUIDs are |
| ToolEntity.EqualsEquivalence | src/main/java/dev/pallux/amethysttools/models/AmethystTool.java:47-53 | tool equality is reflexive, symmetric and transitive |
| ToolEntity.EqualsHashCode | src/main/java/dev/pallux/amethysttools/models/AmethystTool.java:47-58 | equal tools have equal hash codes |
| ToolManagement.GetToolType | src/main/java/dev/pallux/amethysttools/managers/ToolManager.java:135-146 | a type is returned only for a tool item, and it is the constant named by the item's type tag |
| ToolManagement.GetToolUUID | src/main/java/dev/pallux/amethysttools/managers/ToolManager.java:148-159 | a UUID is returned only for a tool item carrying a UUID tag, and for such an item the result is `UUID.fromString` of the tag, absent when that fails |
| ToolManagement.GetCreationTime | src/main/java/dev/pallux/amethysttools/managers/ToolManager.java:161-167 | a tool item yields its creation tag, or 0 without one; any other item yields 0 |
| ToolManagement.NonToolQueries | src/main/java/dev/pallux/amethysttools/managers/ToolManager.java:128-178 | an item that is not a tool has no type and no UUID, and creation time and remaining time 0 |
| ToolManagement.LifetimeMillis | src/main/java/dev/pallux/amethysttools/managers/ToolManager.java:173 | for lifetimes up to 24855 days the value is days * 86400000 milliseconds (no overflow) |
| ToolManagement.LifetimeWrapsAt24856Days | src/main/java/dev/pallux/amethysttools/managers/ToolManager.java:173 | 24855 days still give a positive lifetime, but 24856 days overflow the int product and give a negative one |
| ToolManagement.SecondsLeftMeaning | src/main/java/dev/pallux/amethysttools/managers/ToolManager.java:174-177 | the seconds left are positive exactly when at least a second remains, and before expiry they are the whole seconds remaining |
| ToolManagement.SecondsLeftMonotone | src/main/java/dev/pallux/amethysttools/managers/ToolManager.java:174-177 | the seconds left never grow as the clock advances |
| ToolManagement.GetRemainingTime | src/main/java/dev/pallux/amethysttools/managers/ToolManager.java:169-178 | the remaining time is never negative, and 0 for an item without a creation time |
| ToolManagement.RemainingTimeMonotone | src/main/java/dev/pallux/amethysttools/managers/ToolManager.java:169-178 | an item's remaining time never increases as the clock advances |
| ToolManagement.BaseMaterial | src/main/java/dev/pallux/amethysttools/managers/ToolManager.java:98-106 | no tool type is built on AIR |
| ToolManagement.LoreLineVerbatim | src/main/java/dev/pallux/amethysttools/managers/ToolManager.java:62-75 | a lore line without '{' is copied as written |
| ToolManagement.FillPlaceholders | src/main/java/dev/pallux/amethysttools/managers/ToolManager.java:63-73 | the loop fills one lore line exactly as LoreLine specifies ({time}, {uuid} and, for the bucket, {amount}) |
| ToolManagement.RenderLore | src/main/java/dev/pallux/amethysttools/managers/ToolManager.java:59-75 | the loop renders every configured lore line, in order, as RenderedLore specifies |
| ToolManagement.ToolMetaReadBack | src/main/java/dev/pallux/amethysttools/managers/ToolManager.java:47-52 | an item carrying the tool metadata is recognised as a tool and reads back its type, UUID and creation time |
| ToolManagement.BuildToolItem | src/main/java/dev/pallux/amethysttools/managers/ToolManager.java:42-89 | the item is one of the type's base material with the tool metadata, and its UUID reads back as the new UUID (type and creation time read back by ToolMetaReadBack) |
| ToolManagement.ToolManager.constructor | src/main/java/dev/pallux/amethysttools/managers/ToolManager.java:30-40 | the registry starts empty |
| ToolManagement.ToolManager.Register | src/main/java/dev/pallux/amethysttools/managers/ToolManager.java:91-93 | the registry gains exactly one entry for the UUID, with the type, the creation time and no owner |
| ToolManagement.ToolManager.CreateTool | src/main/java/dev/pallux/amethysttools/managers/ToolManager.java:42-96 | the item carries the new UUID, and the registry gains exactly that entry with creation time `now` and no owner |
| ToolManagement.ToolManager.GetToolByUUID | src/main/java/dev/pallux/amethysttools/managers/ToolManager.java:285-287 | an entry is returned exactly when the UUID is registered, and it is the tool with that UUID |
| ToolManagement.ToolManager.RemainingOf | src/main/java/dev/pallux/amethysttools/managers/ToolManager.java:204-213 | an unknown UUID has 0 seconds left; a registered tool has the whole seconds left until its creation time plus the (int-wrapped) lifetime, clamped at 0 |
| ToolManagement.WarningForMeaning | src/main/java/dev/pallux/amethysttools/managers/ToolManager.java:215-232 | at most one warning is sent, and one is sent exactly when the owner is online and the remaining seconds are 3600, 600 or 60; it carries the literal text "1h", "10m" or "1m", which equals the formatted remaining time |
| ToolManagement.ToolManager.SendTimerWarnings | src/main/java/dev/pallux/amethysttools/managers/ToolManager.java:215-233 | the messages grow by exactly the warning WarningFor gives, and no inventory changes |
| ToolManagement.FirstHolding | src/main/java/dev/pallux/amethysttools/managers/ToolManager.java:244-253 | the slot found holds the tool and no earlier slot does, and none is found exactly when no slot holds it |
| ToolManagement.WithoutToolRemovesOnlyThatTool | src/main/java/dev/pallux/amethysttools/managers/ToolManager.java:244-254 | removing a tool empties only storage slots that held it, never an armour or off-hand slot, empties the first one that did when it lies in storage, and changes nothing when none did |
| ToolManagement.RemoveToolStacks | src/main/java/dev/pallux/amethysttools/managers/ToolManager.java:239-256 | once a stack of the tool is found in any slot, the storage stacks equal to it are removed and the destroy notice is sent; with none found nothing happens |
| ToolManagement.DestroyTouchesOnlyTheTool | src/main/java/dev/pallux/amethysttools/managers/ToolManager.java:235-259 | destroying a tool changes no other player's inventory and, in the owner's, only empties storage slots that held that tool |
| ToolManagement.ToolManager.DestroyTool | src/main/java/dev/pallux/amethysttools/managers/ToolManager.java:235-259 | the entry is removed; an unknown UUID changes nothing else, a known one empties the owner's storage stacks equal to the first one holding it and sends the destroy notice |
| ToolManagement.ToolManager.AssignToolToPlayer | src/main/java/dev/pallux/amethysttools/managers/ToolManager.java:261-269 | a registered tool gets the given owner; every other entry, and any unregistered item, leave the registry unchanged |
| ToolManagement.ToolManager.SweepOne | src/main/java/dev/pallux/amethysttools/managers/ToolManager.java:184-198 | one entry is removed exactly when it has expired; then, once a stack of it is found in the online owner's inventory, every equal storage stack is removed as `destroyTool` does, otherwise no inventory changes; the notices sent are the destroy or warning notice the sweep prescribes |
| ToolManagement.ToolManager.SweepAll | src/main/java/dev/pallux/amethysttools/managers/ToolManager.java:184-198 | the UUIDs removed are exactly the expired ones, the inventories end as every expired tool's destruction leaves them, and the notices are the destroy and warning notices for every registered tool |
| ToolManagement.SweepNoticeMeaning | src/main/java/dev/pallux/amethysttools/managers/ToolManager.java:184-233 | a sweep notice is either a warning to the online owner of a live tool at a threshold, carrying its formatted remaining time, or a destroy notice to the online owner of an expired tool that holds it |
| ToolManagement.SweptInventoriesMeaning | src/main/java/dev/pallux/amethysttools/managers/ToolManager.java:184-198 | the sweep keeps every inventory's slots; a slot it changes is a storage slot, is emptied, and held an expired registered tool of its online owner; and every storage stack equal to the first one holding an expired tool is emptied |
| ToolManagement.ToolManager.UpdateAllTimers | src/main/java/dev/pallux/amethysttools/managers/ToolManager.java:180-202 | after a timer tick exactly the expired tools are gone, their storage stacks removed from their online owners' inventories, the owners of the rest warned as due, and the notices only grow |
| AreaSearch.ClosedContainsReachable | src/main/java/dev/pallux/amethysttools/listeners/BucketListener.java:122-158 | a set holding the start and closed under allowed steps contains every block reachable from the start |
| AreaSearch.Cube26Offsets | src/main/java/dev/pallux/amethysttools/listeners/TreeChopperListener.java:103-106 | the 26 offsets are exactly the non-zero offsets with each coordinate in -1..1 |
| NeighborScan.MarkAround | src/main/java/dev/pallux/amethysttools/listeners/TreeChopperListener.java:103-119 | scanning the neighbours marks all of them visited and queues exactly the unvisited allowed ones, without duplicates |
| NeighborScan.ScanQueues | src/main/java/dev/pallux/amethysttools/listeners/TreeChopperListener.java:108-115 | the scan queues exactly the allowed neighbours that were not visited before |
| WaterSearch.WaterStepsIff | src/main/java/dev/pallux/amethysttools/listeners/BucketListener.java:129-156 | a water step is one of the six axis moves or one of the eight moves within the horizontal layer |
| WaterSearch.MaxBlocksWraps | src/main/java/dev/pallux/amethysttools/listeners/BucketListener.java:120 | `drainAmount * 3` is an int product: 27 gives 81, but 715827883 and 1431655765 overflow to negative caps |
| WaterSearch.VisitNeighbor | src/main/java/dev/pallux/amethysttools/listeners/BucketListener.java:138-143 | a water neighbour ends up visited and the search invariant is kept |
| WaterSearch.QueuedIsWater | src/main/java/dev/pallux/amethysttools/listeners/BucketListener.java:125 | every queued block is water, so the loop's water check never fails |
| WaterSearch.FindWaterBlocks | src/main/java/dev/pallux/amethysttools/listeners/BucketListener.java:110-161 | empty when the start is not water or the cap is not positive; otherwise it holds the start, at most the cap, only reachable water, and all reachable water when under the cap |
| WaterDrain.DrainMeaning | src/main/java/dev/pallux/amethysttools/listeners/BucketListener.java:84-90 | draining turns exactly the water blocks of the selection into AIR and keeps every other block |
| WaterDrain.DrainBlocks | src/main/java/dev/pallux/amethysttools/listeners/BucketListener.java:84-90 | the loop drains the selection and returns how many of its blocks were water |
| BucketTool.NearerToIsPreorder | src/main/java/dev/pallux/amethysttools/listeners/BucketListener.java:78-79 | ordering by squared distance to the clicked block is a total preorder |
| BucketTool.SelectNearest | src/main/java/dev/pallux/amethysttools/listeners/BucketListener.java:74-81 | a negative amount fails; otherwise min(amount, found) distinct found blocks are kept, none farther than any block left out |
| BucketTool.RightClickActions | src/main/java/dev/pallux/amethysttools/listeners/BucketListener.java:51 | an action's name contains "RIGHT_CLICK" exactly for the two right-click actions |
| BucketTool.CheckGate | src/main/java/dev/pallux/amethysttools/listeners/BucketListener.java:39-58 | the gate passes exactly when the event engages the bucket |
| BucketTool.DrainFound | src/main/java/dev/pallux/amethysttools/listeners/BucketListener.java:67-107 | on success exactly min(drainAmount, found) distinct found blocks are drained, none farther from the click than a found block left, and the message carries their count; a negative amount fails with nothing changed |
| BucketTool.HandleWater | src/main/java/dev/pallux/amethysttools/listeners/BucketListener.java:60-107 | the found water is what the bounded search returns; "no water" exactly when it is empty; otherwise exactly min(drainAmount, found) of the nearest found blocks are drained and reported, or a negative amount fails |
| BucketTool.OnPlayerInteract | src/main/java/dev/pallux/amethysttools/listeners/BucketListener.java:35-108 | the event is cancelled exactly when it engages the bucket; then the search result decides "no water", and otherwise exactly min(amount, found) of the nearest found blocks are drained and the count reported; an ignored event changes nothing |
| TreeSearch.TreeStepsIff | src/main/java/dev/pallux/amethysttools/listeners/TreeChopperListener.java:103-106 | a tree step is exactly one of the 26 neighbour offsets |
| TreeSearch.TreeMaterialsFacts | src/main/java/dev/pallux/amethysttools/listeners/TreeChopperListener.java:27-44 | the tree materials are the log types and the leaf types, which are disjoint and exclude AIR |
| TreeSearch.LogSearchingFound | src/main/java/dev/pallux/amethysttools/listeners/TreeChopperListener.java:96-121 | the logs found are reachable logs, and all of them once the queue is empty |
| TreeSearch.FindLogs | src/main/java/dev/pallux/amethysttools/listeners/TreeChopperListener.java:88-121 | the logs found are reachable logs, include the start exactly when it is a log, number at most 1000, and are all the reachable logs when under the cap |
| LeafSearch.WithinIff | src/main/java/dev/pallux/amethysttools/listeners/TreeChopperListener.java:146-190 | a block is within n levels of a tree block exactly when some path of at most n steps through tree materials reaches it |
| LeafSearch.ScanLevel | src/main/java/dev/pallux/amethysttools/listeners/TreeChopperListener.java:157-184 | a level hits exactly when it meets the tree; otherwise the next level is the unseen neighbours of this one |
| LeafSearch.Walk | src/main/java/dev/pallux/amethysttools/listeners/TreeChopperListener.java:146-190 | the walk answers true exactly when the limit is not negative and the tree meets the blocks reachable within the limit |
| LeafSearch.IsLeafConnectedToTree | src/main/java/dev/pallux/amethysttools/listeners/TreeChopperListener.java:146-190 | true exactly when the limit is not negative and a tree block lies within that many steps of the leaf |
| LeafScan.BoxMembers | src/main/java/dev/pallux/amethysttools/listeners/TreeChopperListener.java:130-133 | the scanned box holds exactly the positions within the radius on every axis |
| LeafScan.LeafPassAdded | src/main/java/dev/pallux/amethysttools/listeners/TreeChopperListener.java:129-144 | a block the leaf pass adds was scanned, is a leaf and is connected to another block already in the tree |
| LeafScan.LeafPassComplete | src/main/java/dev/pallux/amethysttools/listeners/TreeChopperListener.java:129-144 | every scanned block that attaches to the tree as it was is added |
| LeafScan.ScanRow | src/main/java/dev/pallux/amethysttools/listeners/TreeChopperListener.java:132-141 | one row's loop adds exactly what the leaf pass specifies for that row |
| LeafScan.ScanLayer | src/main/java/dev/pallux/amethysttools/listeners/TreeChopperListener.java:131-142 | one layer's loop adds exactly what the leaf pass specifies for that layer |
| LeafScan.FindConnectedLeaves | src/main/java/dev/pallux/amethysttools/listeners/TreeChopperListener.java:129-144 | the tree only grows, by leaves in the box connected to it, and includes every leaf in the box that attaches to the original tree |
| Cooldowns.WithCooldown | src/main/java/dev/pallux/amethysttools/managers/CooldownManager.java:24-29 | after setting, the action expires at now + seconds * 1000 and every other entry is kept |
| Cooldowns.Evict | src/main/java/dev/pallux/amethysttools/managers/CooldownManager.java:99-109 | the action's entry is gone, every other entry is kept, and no player is left with an empty table |
| Cooldowns.AfterRead | src/main/java/dev/pallux/amethysttools/managers/CooldownManager.java:37-60 | a read of an expired entry evicts it, a read of anything else leaves the table as it was; no other entry and no "active" answer changes, and no empty player table is left |
| Cooldowns.Remaining | src/main/java/dev/pallux/amethysttools/managers/CooldownManager.java:68-92 | the seconds remaining are never negative, positive only while active, and while active the whole seconds to expiry |
| Cooldowns.RemainingAfterSet | src/main/java/dev/pallux/amethysttools/managers/CooldownManager.java:24-92 | right after setting a cooldown it is active exactly when the seconds are positive, and its remaining time is the seconds set |
| Cooldowns.Cleaned | src/main/java/dev/pallux/amethysttools/managers/CooldownManager.java:130-142 | cleanup keeps exactly the entries that have not expired and leaves no empty player table |
| Cooldowns.CleanupKeepsAnswers | src/main/java/dev/pallux/amethysttools/managers/CooldownManager.java:130-142 | cleanup changes no "has cooldown" or "remaining" answer at the same instant |
| Cooldowns.CooldownManager.constructor | src/main/java/dev/pallux/amethysttools/managers/CooldownManager.java:14-16 | the table starts empty |
| Cooldowns.CooldownManager.SetCooldown | src/main/java/dev/pallux/amethysttools/managers/CooldownManager.java:24-29 | the table becomes WithCooldown of the old table |
| Cooldowns.CooldownManager.HasCooldown | src/main/java/dev/pallux/amethysttools/managers/CooldownManager.java:37-60 | the answer is whether the cooldown is active, and the table becomes AfterRead of the old one |
| Cooldowns.CooldownManager.GetRemainingCooldown | src/main/java/dev/pallux/amethysttools/managers/CooldownManager.java:68-92 | the answer is Remaining of the old table, and the table becomes AfterRead of the old one |
| Cooldowns.CooldownManager.RemoveCooldown | src/main/java/dev/pallux/amethysttools/managers/CooldownManager.java:99-109 | the table becomes Evict of the old table |
| Cooldowns.CooldownManager.RemoveAllCooldowns | src/main/java/dev/pallux/amethysttools/managers/CooldownManager.java:115-118 | the player's entries are removed and every other player's kept |
| Cooldowns.CooldownManager.ClearAllCooldowns | src/main/java/dev/pallux/amethysttools/managers/CooldownManager.java:123-125 | the table becomes empty |
| Cooldowns.CooldownManager.CleanupExpiredCooldowns | src/main/java/dev/pallux/amethysttools/managers/CooldownManager.java:130-142 | the table becomes Cleaned of the old table |
| Cooldowns.CooldownManager.GetActiveCooldownCount | src/main/java/dev/pallux/amethysttools/managers/CooldownManager.java:156-160 | the count is the number of (player, action) entries in the table |
| TreeChopping.FindTreeBlocks | src/main/java/dev/pallux/amethysttools/listeners/TreeChopperListener.java:88-127 | the blocks found are the reachable logs (at most 1000) plus exactly the leaves the leaf pass over the box around the start adds to them |
| TreeChopping.LoneLog | src/main/java/dev/pallux/amethysttools/listeners/TreeChopperListener.java:88-144 | a log with no other log reachable from it and no leaf in the cube around it is felled on its own |
| TreeChopping.BonusDropsBounds | src/main/java/dev/pallux/amethysttools/listeners/TreeChopperListener.java:208-218 | there are at most as many bonus stacks as drops, each a copy of a drop with an amount from 1 to the fortune level |
| TreeChopping.BlockDropsMeaning | src/main/java/dev/pallux/amethysttools/listeners/TreeChopperListener.java:201-219 | a block's yield is its drops followed by at most as many bonus stacks, with no bonus unless it is a log and fortune is positive |
| TreeChopping.ChopAll | src/main/java/dev/pallux/amethysttools/listeners/TreeChopperListener.java:199-235 | every listed block is AIR afterwards, others unchanged, and the drops are each block's yield at its drop spot, in order |
| TreeChopping.ChopTree | src/main/java/dev/pallux/amethysttools/listeners/TreeChopperListener.java:192-236 | the whole tree is chopped in some duplicate-free order, with the tool's fortune level |
| TreeChopping.OnBlockBreak | src/main/java/dev/pallux/amethysttools/listeners/TreeChopperListener.java:52-86 | the event is cancelled exactly when a chopper tool breaks a log; then the tree (which holds the broken block) is felled and success sent, otherwise nothing changes |
| PickaxeMining.FortuneOresAreMinable | src/main/java/dev/pallux/amethysttools/listeners/PickaxeListener.java:243-251 | every ore fortune applies to is minable with the pickaxe, and AIR, water and lava are not |
| PickaxeMining.ShouldMineBlockMeaning | src/main/java/dev/pallux/amethysttools/listeners/PickaxeListener.java:157-172 | a block is mined exactly when the pickaxe can mine it and it is not blacklisted |
| PickaxeMining.CubeOrderFacts | src/main/java/dev/pallux/amethysttools/listeners/PickaxeListener.java:114-152 | either scan order lists the 27 cube positions once each |
| PickaxeMining.KeepMeaning | src/main/java/dev/pallux/amethysttools/listeners/PickaxeListener.java:120-122 | the kept blocks are exactly the accepted ones of the list, and stay duplicate-free |
| PickaxeMining.SweepCube | src/main/java/dev/pallux/amethysttools/listeners/PickaxeListener.java:116-125 | the nested loops collect exactly the accepted cube blocks in scan order |
| PickaxeMining.MinedBlocksFacts | src/main/java/dev/pallux/amethysttools/listeners/PickaxeListener.java:106-155 | the blocks to mine are duplicate-free, at most 27, and exactly the cube blocks that should be mined |
| PickaxeMining.BothOrdersSameBlocks | src/main/java/dev/pallux/amethysttools/listeners/PickaxeListener.java:114-152 | looking up or down and looking sideways select the same blocks, only in a different order |
| PickaxeMining.GetBlocksToMine | src/main/java/dev/pallux/amethysttools/listeners/PickaxeListener.java:106-155 | the list is the cube blocks that should be mined, in the order the player's pitch selects, duplicate-free |
| PickaxeMining.SuccessesBounds | src/main/java/dev/pallux/amethysttools/listeners/PickaxeListener.java:213-217 | the number of successful fortune trials is between 0 and the number of trials, 0 when all fail and all when all succeed |
| PickaxeMining.FortuneDropsBounds | src/main/java/dev/pallux/amethysttools/listeners/PickaxeListener.java:208-220 | fortune changes only amounts, each growing by at most the fortune level and never shrinking |
| PickaxeMining.ApplyFortune | src/main/java/dev/pallux/amethysttools/listeners/PickaxeListener.java:204-223 | the loop computes exactly the fortune drops FortuneDrops specifies |
| PickaxeMining.MinedDropsMeaning | src/main/java/dev/pallux/amethysttools/listeners/PickaxeListener.java:194-224 | a mined block yields as many stacks as its drops, unchanged under silk touch, no fortune or a non-fortune ore, otherwise each increased by at most the fortune level |
| PickaxeMining.MineBlocks | src/main/java/dev/pallux/amethysttools/listeners/PickaxeListener.java:174-241 | every listed block is AIR afterwards, others unchanged, and the drops are each block's yield at its drop spot, in order |
| PickaxeMining.OnBlockBreak | src/main/java/dev/pallux/amethysttools/listeners/PickaxeListener.java:36-75 | cancelled exactly when the pickaxe engages; a blacklisted block gets the blacklist message only, otherwise the mined blocks include the broken one and success carries their count |
| TorchPlacement.CanPlaceTorchAtMeaning | src/main/java/dev/pallux/amethysttools/listeners/TorchListener.java:132-167 | a torch can go on a block exactly when it is replaceable and the face it attaches to is solid and not blacklisted |
| TorchPlacement.FirstSolidFaceMeaning | src/main/java/dev/pallux/amethysttools/listeners/TorchListener.java:213-217 | the face found is the first of north, south, east, west with a solid neighbour, and none is found exactly when none has one |
| TorchPlacement.TorchTypeMeaning | src/main/java/dev/pallux/amethysttools/listeners/TorchListener.java:191-209 | the torch is a wall torch exactly when the block below is not solid and some side is, otherwise a standing torch |
| TorchPlacement.GetTorchType | src/main/java/dev/pallux/amethysttools/listeners/TorchListener.java:191-209 | the loop returns the torch type TorchType specifies |
| TorchPlacement.FacingAfterMeaning | src/main/java/dev/pallux/amethysttools/listeners/TorchListener.java:211-232 | only the torch's own facing may change, and a changed one belongs to a wall torch and faces away from its first solid side |
| TorchPlacement.SetWallTorchDirection | src/main/java/dev/pallux/amethysttools/listeners/TorchListener.java:211-232 | only the facings change, to what FacingAfter specifies |
| TorchPlacement.SidesUnchanged | src/main/java/dev/pallux/amethysttools/listeners/TorchListener.java:175-179 | placing the torch block does not change the facing chosen for it afterwards |
| TorchPlacement.PlaceTorch | src/main/java/dev/pallux/amethysttools/listeners/TorchListener.java:169-189 | unless refused, the torch of the right type is set and faced; a refused placement changes nothing |
| TorchPlacement.PlacedTorchSupported | src/main/java/dev/pallux/amethysttools/listeners/TorchListener.java:169-232 | a placed wall torch faces away from a solid side with no solid block below; a standing torch has a solid block below or no solid side |
| TorchPlacement.TargetBlockMeaning | src/main/java/dev/pallux/amethysttools/listeners/TorchListener.java:101-130 | any target found is placeable; a clicked block gives the neighbour on the clicked face, if placeable, otherwise the player's spot or the block in sight |
| TorchPlacement.TargetIsPlaceable | src/main/java/dev/pallux/amethysttools/listeners/TorchListener.java:101-143 | any target found is replaceable and has a solid, non-blacklisted neighbour to attach to |
| TorchPlacement.TorchedMeaning | src/main/java/dev/pallux/amethysttools/listeners/TorchListener.java:68-98 | one notice is sent either way; without a target nothing else changes, with one only the target changes, to a torch, and the cooldown is set |
| TorchPlacement.UseTorch | src/main/java/dev/pallux/amethysttools/listeners/TorchListener.java:68-98 | the world, the cooldowns and the messages end as Torched specifies |
| TorchPlacement.OnPlayerInteract | src/main/java/dev/pallux/amethysttools/listeners/TorchListener.java:41-99 | cancelled exactly when the torch engages; an active cooldown sends only its remaining time, otherwise the use proceeds as Torched specifies |
| ToolProtection.LineEnd | src/main/java/dev/pallux/amethysttools/listeners/ToolProtectionListener.java:142 | the line end is the first line terminator from the start, or the end of the text |
| ToolProtection.ReplaceToLineEndOnLine | src/main/java/dev/pallux/amethysttools/listeners/ToolProtectionListener.java:142 | on a single line, the regex replacement replaces everything from the first match on, and changes nothing without a match |
| ToolProtection.ReplaceToLineEndIdempotent | src/main/java/dev/pallux/amethysttools/listeners/ToolProtectionListener.java:142 | applying the label replacement twice gives the same line as once |
| ToolProtection.TimerLineMeaning | src/main/java/dev/pallux/amethysttools/listeners/ToolProtectionListener.java:140-143 | a line mentioning "Self Destruct:" is cut after its first "Self Destruct: " and the new time written there |
| ToolProtection.UuidLineMeaning | src/main/java/dev/pallux/amethysttools/listeners/ToolProtectionListener.java:144-152 | a UUID line is cut after its first "UUID: " and the given UUID text written there |
| ToolProtection.OtherLineKept | src/main/java/dev/pallux/amethysttools/listeners/ToolProtectionListener.java:153-155 | any other lore line is kept unchanged |
| ToolProtection.RewrittenLoreLines | src/main/java/dev/pallux/amethysttools/listeners/ToolProtectionListener.java:137-156 | each lore line is rewritten on its own, in place |
| ToolProtection.RewriteLore | src/main/java/dev/pallux/amethysttools/listeners/ToolProtectionListener.java:134-156 | the loop builds exactly the rewritten lore |
| ToolProtection.RefreshedMeaning | src/main/java/dev/pallux/amethysttools/listeners/ToolProtectionListener.java:117-159 | a refreshed item keeps material, amount, tags, type, UUID, creation and remaining time and every other meta field, with lore of the same length; a non-tool, one without lore or without UUID is unchanged |
| ToolProtection.RefreshedKeepsTags | src/main/java/dev/pallux/amethysttools/listeners/ToolProtectionListener.java:158-159 | refreshing never changes whether an item is a tool or its UUID |
| ToolProtection.RefreshedUuidLine | src/main/java/dev/pallux/amethysttools/listeners/ToolProtectionListener.java:186-208 | after a refresh the tool's UUID line holds the UUID text or the mask, as allowed |
| ToolProtection.RefreshedTimerLine | src/main/java/dev/pallux/amethysttools/listeners/ToolProtectionListener.java:140-143 | after a refresh the timer line holds the remaining time as `formatTime` writes it, glued hours and seconds included |
| ToolProtection.UpdateToolLore | src/main/java/dev/pallux/amethysttools/listeners/ToolProtectionListener.java:117-166 | the result is the refreshed item with the UUID masked |
| ToolProtection.UpdateToolLoreForPlayer | src/main/java/dev/pallux/amethysttools/listeners/ToolProtectionListener.java:171-222 | the result is the refreshed item (time written by the as-written formatter), showing the UUID exactly when the player may see it |
| ToolProtection.SlotIds | src/main/java/dev/pallux/amethysttools/listeners/ToolProtectionListener.java:41-42 | the UUIDs read are the tool UUIDs of the inventory, slot by slot |
| ToolProtection.ClaimedMeaning | src/main/java/dev/pallux/amethysttools/listeners/ToolProtectionListener.java:41-45 | claiming keeps the registered UUIDs and makes the player the owner of exactly the registered tools held |
| ToolProtection.OnPlayerJoin | src/main/java/dev/pallux/amethysttools/listeners/ToolProtectionListener.java:36-46 | on join the player becomes owner of every registered tool in the inventory |
| ToolProtection.OnPlayerItemHeld | src/main/java/dev/pallux/amethysttools/listeners/ToolProtectionListener.java:48-58 | the newly held tool is claimed and its slot refreshed with the as-written time text; a non-tool slot changes nothing |
| ToolProtection.ClaimAndRefresh | src/main/java/dev/pallux/amethysttools/listeners/ToolProtectionListener.java:65-69 | a tool is claimed by the player and returned refreshed with the as-written time text; anything else is returned as it was |
| ToolProtection.OnInventoryClick | src/main/java/dev/pallux/amethysttools/listeners/ToolProtectionListener.java:60-77 | a click by a player claims the current and cursor tools and refreshes each with the as-written time text; other clicks change nothing |
| ToolProtection.OnPlayerDropItem | src/main/java/dev/pallux/amethysttools/listeners/ToolProtectionListener.java:79-88 | the dropped item is returned refreshed with the as-written time text, keeping its UUID |
| ToolProtection.OnInventoryPickupItem | src/main/java/dev/pallux/amethysttools/listeners/ToolProtectionListener.java:106-115 | the picked-up item is returned refreshed with the as-written time text, keeping its UUID |
| ToolProtection.OnItemDespawn | src/main/java/dev/pallux/amethysttools/listeners/ToolProtectionListener.java:90-104 | the handler cancels the despawn of a tool item and leaves an earlier handler's decision as it was for any other item |
| ToolCommand.GetToolTypeFromStringTable | src/main/java/dev/pallux/amethysttools/commands/AToolsCommand.java:137-147 | an input that is one of the accepted aliases maps to its tool type, any other to none |
| ToolCommand.ConfigNameResolves | src/main/java/dev/pallux/amethysttools/commands/AToolsCommand.java:137-147 | every tool type's config name resolves to that type |
| ToolCommand.GiveItemArgChars | src/main/java/dev/pallux/amethysttools/commands/AToolsCommand.java:61 | the item argument keeps its length, with '_' turned into '-' and every other character lower-cased |
| ToolCommand.NameArgResolves | src/main/java/dev/pallux/amethysttools/commands/AToolsCommand.java:61 | a tool type's enum name, given as the item argument, resolves to that type |
| ToolCommand.HasPermissionForSubCommandMeaning | src/main/java/dev/pallux/amethysttools/commands/AToolsCommand.java:197-205 | help needs no permission; give, reload and destroy need their own permission or the op permission; nothing else is permitted |
| ToolCommand.GiveChecksMeaning | src/main/java/dev/pallux/amethysttools/commands/AToolsCommand.java:49-84 | give goes ahead exactly when permitted, with three arguments, an online target, a known and enabled type and a free storage slot (the first 36), and gives that type into the first free one |
| ToolCommand.Storage | src/main/java/dev/pallux/amethysttools/commands/AToolsCommand.java:81 | the storage part of an inventory is its first 36 slots, or all of them when there are fewer |
| ToolCommand.GiveTool | src/main/java/dev/pallux/amethysttools/commands/AToolsCommand.java:86-94 | the new tool fills the chosen slot, the registry gains it with the target as owner, and both notices are sent |
| ToolCommand.NotifyGiven | src/main/java/dev/pallux/amethysttools/commands/AToolsCommand.java:92-94 | exactly the given and received notices are sent |
| ToolCommand.HandleGive | src/main/java/dev/pallux/amethysttools/commands/AToolsCommand.java:49-95 | the notices are those GiveChecks calls for; a passed check adds exactly one owned tool to the target's first free storage slot, a failed one changes nothing else |
| ToolCommand.HandleReload | src/main/java/dev/pallux/amethysttools/commands/AToolsCommand.java:97-105 | the plugin reloads exactly with the reload or op permission, and one notice says which |
| ToolCommand.DestroyChecksMeaning | src/main/java/dev/pallux/amethysttools/commands/AToolsCommand.java:107-131 | destroy goes ahead exactly when permitted with a parseable, registered UUID; otherwise the failure says which check failed |
| ToolCommand.DestroyByShownUuid | src/main/java/dev/pallux/amethysttools/commands/AToolsCommand.java:118-133 | for a permitted sender, the UUID text of a registered tool destroys exactly that tool |
| ToolCommand.HandleDestroy | src/main/java/dev/pallux/amethysttools/commands/AToolsCommand.java:107-135 | a passed check removes the tool, empties its storage stacks in the online owner's inventory and reports; a failed one sends only the error and changes nothing else |
| ToolCommand.OnCommand | src/main/java/dev/pallux/amethysttools/commands/AToolsCommand.java:29-47 | the subcommand's route is always handled: help sends the help text; give adds the tool to the registry and the target's free storage slot exactly when its checks pass; destroy removes the tool and its stacks exactly when its checks pass; reload happens only when permitted and says so; every failed check sends its notice and changes nothing else |
| ToolCommand.FilterMeaning | src/main/java/dev/pallux/amethysttools/commands/AToolsCommand.java:156-161 | the filter keeps exactly the candidates that pass |
| ToolCommand.CandidatesMeaning | src/main/java/dev/pallux/amethysttools/commands/AToolsCommand.java:150-191 | the candidates are the permitted subcommands, the online names for give, "<uuid>" for destroy, or the enabled item names, each matching what is typed |
| ToolCommand.StringOrderIsPreorder | src/main/java/dev/pallux/amethysttools/commands/AToolsCommand.java:193 | the string order used for sorting is a total preorder |
| ToolCommand.OnTabComplete | src/main/java/dev/pallux/amethysttools/commands/AToolsCommand.java:149-195 | the completions are the candidates, sorted |

## Left out

- The sell axe, the rocket, the economy integration, the configuration loader, message lookup and the plugin's start-up, scheduling and persistence are not part of this model; configuration values are a `Config` parameter.
- Messages are recorded as a message key with its placeholders; rendering configured texts, and suppressing configured empty messages, is not modelled.
- `MessageUtil.colorizeComponent` (MiniMessage) and `createProgressBar` are not modelled; `ChatColor.translateAlternateColorCodes` and `ChatColor.stripColor` are supplied as the functions `translate` and `stripLegacy`.
- Randomness (`Random.nextInt`, `nextDouble`) is a supplied sequence of draws; block drops (`getDrops`), `Material.isSolid` and the line-of-sight ray trace are supplied lookups.
- Concurrency is not modelled: the registry and cooldown maps are updated by one caller at a time.
- Java `long` arithmetic is unbounded in the model; only the `int` overflows in the tool lifetime and the bucket's search cap are written out.
- Player positions are block positions; the distance comparisons on the player's fractional location are done on integers.
- Lore and display names are stored as the plain strings before component conversion.
- Uuids.ParseUuidAccepts: `Character.digit` inside `Long.parseLong` also reads non-ASCII digits (fullwidth and other scripts); the model reads only the ASCII hexadecimal digits of either case, so a typed UUID using such digits is refused by `ToolCommand.DestroyChecks` where Java would accept it.
- Text.Lower: lower-cases ASCII letters only. Java's `toLowerCase` also maps other letters, and U+0130 becomes two characters; an item argument such as "PIC\u212AAXE" (with the Kelvin sign) resolves to the pickaxe in the plugin but is an invalid item in `ToolCommand.GiveChecks`.
- PickaxeMining.MineBlocks: requires a duplicate-free block list, which `getBlocksToMine` always produces.
- TreeChopping.ChopAll: requires a duplicate-free order; the order of the source's `HashSet` is supplied as any duplicate-free order.
- PickaxeMining.FortuneDrops: the int sum `drop.getAmount() + bonusAmount` is unbounded in the model; its overflow at an enchantment level near 2^31-1 is not modelled.
- TreeChopping.BonusDrops: at a Fortune level of 2^31-1, `random.nextInt(fortuneLevel + 1)` is `nextInt` of a negative bound and throws partway through the chop; the model reduces the draw modulo the unbounded `fortune + 1` instead.
- BucketTool.SelectNearest: among blocks at equal distance, which ones the source keeps depends on `HashSet` order; the model promises only nearest-first.
- Debug logging behind `isDebugEnabled()` (in the bucket, torch and protection listeners) is not modelled.
- TorchPlacement.PlaceTorch: an exception from `setType` is the `refused` flag; the fallback to a standing torch when `setBlockData` throws, and debug logging, are not modelled.
- ToolProtection.UpdateToolLore: the replacement texts are assumed free of `$` and `\`, which `replaceAll` would interpret; this holds for digits, unit letters and hex UUIDs.
- ToolProtection.RefreshedMeaning: an item without lore is treated as having empty lore.
- ToolCommand.GiveTool: `addItem` merging into similar stacks is not modelled, because tools never stack (each has its own UUID); the tool goes to the first empty storage slot.
- ToolCommand.OnTabComplete: `Collections.sort` compares UTF-16 code units, modelled as character order; they differ only for characters outside the Basic Multilingual Plane.
- ToolCommand.HandleReload: `plugin.reload()` is recorded as a flag.
- `Bukkit.getPlayer`, the online-player list and its order, and item display names are supplied by the caller.
- `getActiveTools`, `getAllCooldowns`, `loadAllTools` and `saveAllTools` (the last two empty) are not modelled.
- ToolManagement.ToolManager.CreateTool: both clock readings in `createTool` are taken at the same instant `now`.
- `AmethystTool` getters are the class's fields, and `hasOwner` is the test `ownerUUID.Some?`.
- Uuids.UuidHash: computed as `UUID.hashCode` does (xor of the two 64-bit halves, folded to 32 bits), but only the 32-bit range is stated as a contract.

## Findings

| source | as written | input that shows it | evidently intended | confidence | as-written member | corrected member |
|---|---|---|---|---|---|---|
| src/main/java/dev/pallux/amethysttools/utils/MessageUtil.java:125-135 | after the hours, ", " is appended only when minutes are non-zero, so with no days, some hours, no minutes and some seconds the hours and seconds are glued | 3605 seconds formats as "1h5s" | "1h, 5s": every pair of shown units separated by ", " (proved to read back as MessageUtil.FormatTimeRoundTrip); the lore keeps the text as written (`FormatTimeGlued`), since that is what the plugin shows, and the timer warnings send the literal texts "1h", "10m" and "1m", which are proved equal to the corrected form at their three thresholds (ToolManagement.WarningForMeaning) | not executed | MessageUtil.GluedExample | MessageUtil.FormatTimeRoundTrip |
