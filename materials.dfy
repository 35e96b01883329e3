/** The block and item materials the plugin names (`org.bukkit.Material`),
    block faces and interaction actions. */
module Materials {
  import opened Common

  /** Every material the plugin mentions by name; `Other` stands for the rest of
      the game's materials, identified by their constant name. By convention
      `Other(n)` never carries the name of a listed constant (`Other("OAK_LOG")`
      is not a material of the game: that one is `OakLog`), so two materials are
      equal exactly when their `Name`s are. */
  datatype Material =
    | Air | Water | Lava | Fire | SoulFire | Campfire
    | SoulCampfire | TallGrass | ShortGrass | Fern | LargeFern | DeadBush
    | Vine | Snow | Torch | WallTorch | SoulWallTorch | Ice
    | PackedIce | BlueIce | FrostedIce | SlimeBlock | HoneyBlock | Spawner
    | EndPortal | EndGateway | NetherPortal | Barrier | StructureVoid | OakLog
    | BirchLog | SpruceLog | JungleLog | AcaciaLog | DarkOakLog | MangroveLog
    | CherryLog | WarpedStem | CrimsonStem | StrippedOakLog | StrippedBirchLog | StrippedSpruceLog
    | StrippedJungleLog | StrippedAcaciaLog | StrippedDarkOakLog | StrippedMangroveLog | StrippedCherryLog | StrippedWarpedStem
    | StrippedCrimsonStem | OakLeaves | BirchLeaves | SpruceLeaves | JungleLeaves | AcaciaLeaves
    | DarkOakLeaves | MangroveLeaves | CherryLeaves | WarpedWartBlock | NetherWartBlock | Stone
    | Cobblestone | Granite | Diorite | Andesite | Deepslate | CobbledDeepslate
    | Netherrack | Blackstone | CoalOre | IronOre | GoldOre | DiamondOre
    | EmeraldOre | LapisOre | RedstoneOre | CopperOre | NetherGoldOre | NetherQuartzOre
    | AncientDebris | DeepslateCoalOre | DeepslateIronOre | DeepslateGoldOre | DeepslateDiamondOre | DeepslateEmeraldOre
    | DeepslateLapisOre | DeepslateRedstoneOre | DeepslateCopperOre | Sandstone | RedSandstone | Prismarine
    | DarkPrismarine | PrismarineBricks | SeaLantern | MagmaBlock | Obsidian | CryingObsidian
    | RespawnAnchor | StoneBricks | MossyStoneBricks | CrackedStoneBricks | ChiseledStoneBricks | SmoothStone
    | PolishedGranite | PolishedDiorite | PolishedAndesite | Bricks | NetherBricks | RedNetherBricks
    | ChiseledNetherBricks | CrackedNetherBricks | Basalt | SmoothBasalt | PolishedBasalt | Tuff
    | Calcite | AmethystBlock | BuddingAmethyst | NetheriteAxe | NetheritePickaxe | Bucket
    | FireworkRocket
    | Other(name: string)

  /** `Material.name()`: the Java constant name. */
  function Name(m: Material): string {
    match m
    case Air => "AIR"
    case Water => "WATER"
    case Lava => "LAVA"
    case Fire => "FIRE"
    case SoulFire => "SOUL_FIRE"
    case Campfire => "CAMPFIRE"
    case SoulCampfire => "SOUL_CAMPFIRE"
    case TallGrass => "TALL_GRASS"
    case ShortGrass => "SHORT_GRASS"
    case Fern => "FERN"
    case LargeFern => "LARGE_FERN"
    case DeadBush => "DEAD_BUSH"
    case Vine => "VINE"
    case Snow => "SNOW"
    case Torch => "TORCH"
    case WallTorch => "WALL_TORCH"
    case SoulWallTorch => "SOUL_WALL_TORCH"
    case Ice => "ICE"
    case PackedIce => "PACKED_ICE"
    case BlueIce => "BLUE_ICE"
    case FrostedIce => "FROSTED_ICE"
    case SlimeBlock => "SLIME_BLOCK"
    case HoneyBlock => "HONEY_BLOCK"
    case Spawner => "SPAWNER"
    case EndPortal => "END_PORTAL"
    case EndGateway => "END_GATEWAY"
    case NetherPortal => "NETHER_PORTAL"
    case Barrier => "BARRIER"
    case StructureVoid => "STRUCTURE_VOID"
    case OakLog => "OAK_LOG"
    case BirchLog => "BIRCH_LOG"
    case SpruceLog => "SPRUCE_LOG"
    case JungleLog => "JUNGLE_LOG"
    case AcaciaLog => "ACACIA_LOG"
    case DarkOakLog => "DARK_OAK_LOG"
    case MangroveLog => "MANGROVE_LOG"
    case CherryLog => "CHERRY_LOG"
    case WarpedStem => "WARPED_STEM"
    case CrimsonStem => "CRIMSON_STEM"
    case StrippedOakLog => "STRIPPED_OAK_LOG"
    case StrippedBirchLog => "STRIPPED_BIRCH_LOG"
    case StrippedSpruceLog => "STRIPPED_SPRUCE_LOG"
    case StrippedJungleLog => "STRIPPED_JUNGLE_LOG"
    case StrippedAcaciaLog => "STRIPPED_ACACIA_LOG"
    case StrippedDarkOakLog => "STRIPPED_DARK_OAK_LOG"
    case StrippedMangroveLog => "STRIPPED_MANGROVE_LOG"
    case StrippedCherryLog => "STRIPPED_CHERRY_LOG"
    case StrippedWarpedStem => "STRIPPED_WARPED_STEM"
    case StrippedCrimsonStem => "STRIPPED_CRIMSON_STEM"
    case OakLeaves => "OAK_LEAVES"
    case BirchLeaves => "BIRCH_LEAVES"
    case SpruceLeaves => "SPRUCE_LEAVES"
    case JungleLeaves => "JUNGLE_LEAVES"
    case AcaciaLeaves => "ACACIA_LEAVES"
    case DarkOakLeaves => "DARK_OAK_LEAVES"
    case MangroveLeaves => "MANGROVE_LEAVES"
    case CherryLeaves => "CHERRY_LEAVES"
    case WarpedWartBlock => "WARPED_WART_BLOCK"
    case NetherWartBlock => "NETHER_WART_BLOCK"
    case Stone => "STONE"
    case Cobblestone => "COBBLESTONE"
    case Granite => "GRANITE"
    case Diorite => "DIORITE"
    case Andesite => "ANDESITE"
    case Deepslate => "DEEPSLATE"
    case CobbledDeepslate => "COBBLED_DEEPSLATE"
    case Netherrack => "NETHERRACK"
    case Blackstone => "BLACKSTONE"
    case CoalOre => "COAL_ORE"
    case IronOre => "IRON_ORE"
    case GoldOre => "GOLD_ORE"
    case DiamondOre => "DIAMOND_ORE"
    case EmeraldOre => "EMERALD_ORE"
    case LapisOre => "LAPIS_ORE"
    case RedstoneOre => "REDSTONE_ORE"
    case CopperOre => "COPPER_ORE"
    case NetherGoldOre => "NETHER_GOLD_ORE"
    case NetherQuartzOre => "NETHER_QUARTZ_ORE"
    case AncientDebris => "ANCIENT_DEBRIS"
    case DeepslateCoalOre => "DEEPSLATE_COAL_ORE"
    case DeepslateIronOre => "DEEPSLATE_IRON_ORE"
    case DeepslateGoldOre => "DEEPSLATE_GOLD_ORE"
    case DeepslateDiamondOre => "DEEPSLATE_DIAMOND_ORE"
    case DeepslateEmeraldOre => "DEEPSLATE_EMERALD_ORE"
    case DeepslateLapisOre => "DEEPSLATE_LAPIS_ORE"
    case DeepslateRedstoneOre => "DEEPSLATE_REDSTONE_ORE"
    case DeepslateCopperOre => "DEEPSLATE_COPPER_ORE"
    case Sandstone => "SANDSTONE"
    case RedSandstone => "RED_SANDSTONE"
    case Prismarine => "PRISMARINE"
    case DarkPrismarine => "DARK_PRISMARINE"
    case PrismarineBricks => "PRISMARINE_BRICKS"
    case SeaLantern => "SEA_LANTERN"
    case MagmaBlock => "MAGMA_BLOCK"
    case Obsidian => "OBSIDIAN"
    case CryingObsidian => "CRYING_OBSIDIAN"
    case RespawnAnchor => "RESPAWN_ANCHOR"
    case StoneBricks => "STONE_BRICKS"
    case MossyStoneBricks => "MOSSY_STONE_BRICKS"
    case CrackedStoneBricks => "CRACKED_STONE_BRICKS"
    case ChiseledStoneBricks => "CHISELED_STONE_BRICKS"
    case SmoothStone => "SMOOTH_STONE"
    case PolishedGranite => "POLISHED_GRANITE"
    case PolishedDiorite => "POLISHED_DIORITE"
    case PolishedAndesite => "POLISHED_ANDESITE"
    case Bricks => "BRICKS"
    case NetherBricks => "NETHER_BRICKS"
    case RedNetherBricks => "RED_NETHER_BRICKS"
    case ChiseledNetherBricks => "CHISELED_NETHER_BRICKS"
    case CrackedNetherBricks => "CRACKED_NETHER_BRICKS"
    case Basalt => "BASALT"
    case SmoothBasalt => "SMOOTH_BASALT"
    case PolishedBasalt => "POLISHED_BASALT"
    case Tuff => "TUFF"
    case Calcite => "CALCITE"
    case AmethystBlock => "AMETHYST_BLOCK"
    case BuddingAmethyst => "BUDDING_AMETHYST"
    case NetheriteAxe => "NETHERITE_AXE"
    case NetheritePickaxe => "NETHERITE_PICKAXE"
    case Bucket => "BUCKET"
    case FireworkRocket => "FIREWORK_ROCKET"
    case Other(n) => n
  }

  /** `BlockFace`: the six faces of a block. */
  datatype BlockFace = North | South | East | West | Up | Down

  /** `BlockFace.getModX/Y/Z()`: north is towards negative z, east towards positive x. */
  function FaceOffset(f: BlockFace): Pos {
    match f
    case North => Pos(0, 0, -1)
    case South => Pos(0, 0, 1)
    case East => Pos(1, 0, 0)
    case West => Pos(-1, 0, 0)
    case Up => Pos(0, 1, 0)
    case Down => Pos(0, -1, 0)
  }

  /** `BlockFace.getOppositeFace()`. */
  function Opposite(f: BlockFace): (r: BlockFace)
    ensures FaceOffset(r) == Pos(-FaceOffset(f).x, -FaceOffset(f).y, -FaceOffset(f).z)
  {
    match f
    case North => South
    case South => North
    case East => West
    case West => East
    case Up => Down
    case Down => Up
  }

  /** `org.bukkit.event.block.Action`. */
  datatype Action = LeftClickBlock | RightClickBlock | LeftClickAir | RightClickAir | Physical

  /** `Action.toString()`, the constant name. */
  function ActionName(a: Action): string {
    match a
    case LeftClickBlock => "LEFT_CLICK_BLOCK"
    case RightClickBlock => "RIGHT_CLICK_BLOCK"
    case LeftClickAir => "LEFT_CLICK_AIR"
    case RightClickAir => "RIGHT_CLICK_AIR"
    case Physical => "PHYSICAL"
  }
}
