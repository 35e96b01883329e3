/** The parts of the game server the plugin reads and changes: item stacks and
    their metadata, the block world, online players with their inventories,
    the plugin configuration and the notices sent to players. */
module Game {
  import opened Common
  import opened Materials
  import opened ToolTypes
  import opened Uuids

  datatype Enchantment = Efficiency | Unbreaking | Mending | Fortune | SilkTouch

  datatype ItemFlag = HideAttributes | HideEnchants | HideUnbreakable

  /** `ItemMeta`: the three persistent-data tags the plugin writes (kind name,
      creation time in milliseconds, UUID text), the display name, the lore
      lines, enchantment levels, and the unbreakable flag and item flags. */
  datatype ItemMeta = ItemMeta(
    toolTag: Option<string>,
    createdTag: Option<int>,
    uuidTag: Option<string>,
    displayName: Option<string>,
    lore: seq<string>,
    enchants: map<Enchantment, int>,
    unbreakable: bool,
    flags: set<ItemFlag>)

  const EmptyMeta: ItemMeta := ItemMeta(None, None, None, None, [], map[], false, {})

  /** `ItemStack`: `meta` is `None` where `hasItemMeta()` is false. */
  datatype ItemStack = ItemStack(material: Material, amount: int, meta: Option<ItemMeta>)

  /** `ItemStack.getItemMeta()` of a new stack: every material but AIR has one. */
  function NewMeta(m: Material): (r: Option<ItemMeta>)
    ensures r.Some? <==> m != Air
  {
    if m == Air then None else Some(EmptyMeta)
  }

  /** `meta.hasEnchant(e) ? meta.getEnchantLevel(e) : 0`, with a missing meta read as 0. */
  function EnchantLevel(meta: Option<ItemMeta>, e: Enchantment): int {
    if meta.Some? && e in meta.value.enchants then meta.value.enchants[e] else 0
  }

  /** `Block.getType()` over a block map; a position not in the map holds AIR. */
  function TypeIn(blocks: map<Pos, Material>, p: Pos): Material {
    if p in blocks then blocks[p] else Air
  }

  /** `World.dropItemNaturally(location, stack)`. */
  datatype Drop = Drop(at: Pos, item: ItemStack)

  /** The block world: block types, the facing of wall torches, and the items
      dropped into it. */
  class World {
    var blocks: map<Pos, Material>
    var wallFacing: map<Pos, BlockFace>
    var drops: seq<Drop>

    constructor(blocks: map<Pos, Material>)
      ensures this.blocks == blocks && wallFacing == map[] && drops == []
    {
      this.blocks := blocks;
      wallFacing := map[];
      drops := [];
    }

    function TypeAt(p: Pos): Material
      reads this
    {
      TypeIn(blocks, p)
    }

    /** `Block.setType(m)`: the block's data, and with it a wall torch's facing,
        is reset. */
    method SetType(p: Pos, m: Material)
      modifies this
      ensures blocks == old(blocks)[p := m]
      ensures wallFacing == old(wallFacing) - {p}
      ensures drops == old(drops)
    {
      blocks := blocks[p := m];
      wallFacing := wallFacing - {p};
    }

    /** `Block.setBlockData(wallTorch)` after `wallTorch.setFacing(f)`. */
    method SetFacing(p: Pos, f: BlockFace)
      modifies this
      ensures wallFacing == old(wallFacing)[p := f]
      ensures blocks == old(blocks) && drops == old(drops)
    {
      wallFacing := wallFacing[p := f];
    }

    method DropItem(at: Pos, item: ItemStack)
      modifies this
      ensures drops == old(drops) + [Drop(at, item)]
      ensures blocks == old(blocks) && wallFacing == old(wallFacing)
    {
      drops := drops + [Drop(at, item)];
    }
  }

  /** Who a message goes to: a player, or whoever issued the command. */
  datatype Recipient = ToPlayer(id: Uuid) | ToSender

  /** A message sent through the message manager: its key in the message file
      and its placeholders. The two timer notices also name the tool they are
      about. */
  datatype Notice =
    | Message(to: Recipient, key: string, placeholders: map<string, string>)
    | TimerWarning(player: Uuid, tool: Uuid, kind: ToolType, time: string)
    | ToolDestroyed(player: Uuid, tool: Uuid, kind: ToolType)

  /** The online players, every player's inventory slots and the notices sent
      so far. */
  class Server {
    var online: set<Uuid>
    var inventories: map<Uuid, seq<Option<ItemStack>>>
    var notices: seq<Notice>

    constructor(online: set<Uuid>, inventories: map<Uuid, seq<Option<ItemStack>>>)
      ensures this.online == online && this.inventories == inventories && notices == []
    {
      this.online := online;
      this.inventories := inventories;
      notices := [];
    }

    /** `player.getInventory().getContents()`. */
    function Inventory(p: Uuid): seq<Option<ItemStack>>
      reads this
    {
      if p in inventories then inventories[p] else []
    }

    method Send(n: Notice)
      modifies this
      ensures notices == old(notices) + [n]
      ensures online == old(online) && inventories == old(inventories)
    {
      notices := notices + [n];
    }

    method SetInventory(p: Uuid, slots: seq<Option<ItemStack>>)
      modifies this
      ensures inventories == old(inventories)[p := slots]
      ensures online == old(online) && notices == old(notices)
    {
      inventories := inventories[p := slots];
    }
  }

  /** The storage slots of a player's inventory: the first 36 of
      `getContents()`, before the armour and off-hand slots. */
  const StorageSize := 36

  /** `Inventory.remove(stack)` on a player's inventory: every storage slot
      holding a stack equal to `stack` is emptied; the armour and off-hand
      slots are not searched. */
  function RemoveEqual(slots: seq<Option<ItemStack>>, stack: ItemStack): (r: seq<Option<ItemStack>>)
    ensures |r| == |slots|
    ensures forall i :: 0 <= i < |slots| ==>
      r[i] == (if i < StorageSize && slots[i] == Some(stack) then None else slots[i])
  {
    seq(|slots|, i requires 0 <= i < |slots| =>
      if i < StorageSize && slots[i] == Some(stack) then None else slots[i])
  }

  /** `Inventory.firstEmpty()`: the first empty slot, `None` for -1. */
  function FirstEmpty(slots: seq<Option<ItemStack>>): (r: Option<nat>)
    ensures r.Some? ==> (r.value < |slots| && slots[r.value].None? &&
      forall j :: 0 <= j < r.value ==> slots[j].Some?)
    ensures r.None? ==> forall j :: 0 <= j < |slots| ==> slots[j].Some?
  {
    if slots == [] then None
    else if slots[0].None? then Some(0)
    else match FirstEmpty(slots[1..])
      case Some(k) => Some(k + 1)
      case None => None
  }

  /** The player an event or command involves: identity, name, permissions and
      the block the player stands in. */
  datatype Player = Player(id: Uuid, name: string, permissions: set<string>, location: Pos)

  /** The configuration values the core reads (`ConfigManager` getters). */
  datatype Config = Config(
    toolLifetime: int,
    enabled: map<ToolType, bool>,
    names: map<ToolType, string>,
    lore: map<ToolType, seq<string>>,
    blacklistedBlocks: seq<string>,
    drainAmount: int,
    torchCooldown: int)

  /** `isToolEnabled`: `tools.<key>.enabled`, true when unset. */
  function IsToolEnabled(cfg: Config, t: ToolType): bool {
    if t in cfg.enabled then cfg.enabled[t] else true
  }

  /** `getToolName`: `tools.<key>.name`, `&7Unknown Tool` when unset. */
  function ToolName(cfg: Config, t: ToolType): string {
    if t in cfg.names then cfg.names[t] else "&7Unknown Tool"
  }

  /** `getToolLore`: `tools.<key>.lore`, empty when unset. */
  function ToolLore(cfg: Config, t: ToolType): seq<string> {
    if t in cfg.lore then cfg.lore[t] else []
  }

  /** The values used when the configuration file sets nothing. */
  const DefaultConfig: Config := Config(7, map[], map[], map[], [], 27, 5)
}
