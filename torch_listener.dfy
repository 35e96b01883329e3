/** `TorchListener`: a right click with the Amethyst Torch places a torch at
    the clicked face, at the player's feet or on top of the block in sight,
    standing where the block below is solid and on a wall otherwise, and then
    puts the torch on cooldown. */
module TorchPlacement {
  import opened Common
  import opened Materials
  import opened ToolTypes
  import opened Uuids
  import opened Text
  import opened Game
  import opened Cooldowns
  import opened ToolManagement

  /** `COOLDOWN_KEY`. */
  const CooldownKey := "torch"

  /** `Block.getRelative(face)`. */
  function Next(p: Pos, f: BlockFace): Pos {
    Relative(p, FaceOffset(f))
  }

  /** A block is never its own neighbour, and the opposite face leads back. */
  lemma NextFacts(p: Pos, f: BlockFace)
    ensures Next(p, f) != p
    ensures Next(Next(p, f), Opposite(f)) == p
    ensures Opposite(Opposite(f)) == f
  {
  }

  /** `isReplaceable`: the materials a torch may take the place of. */
  predicate IsReplaceable(m: Material) {
    m == Air || m == Water || m == Lava || m == TallGrass || m == ShortGrass || m == Fern || m == LargeFern ||
    m == DeadBush || m == Vine || m == Snow || m == Fire
  }

  /** `isSolidBlock`: never air, a fluid or a fire; otherwise the game's
      `Material.isSolid()`, which is supplied as `solid`. */
  predicate IsSolidBlock(m: Material, solid: Material -> bool) {
    if m == Air || m == Water || m == Lava || m == Fire || m == SoulFire || m == Campfire || m == SoulCampfire then false
    else solid(m)
  }

  /** `isBlacklisted`: the blocks a torch is never attached to. */
  predicate IsBlacklisted(m: Material) {
    m == MagmaBlock || m == Ice || m == PackedIce || m == BlueIce || m == FrostedIce || m == SlimeBlock ||
    m == HoneyBlock || m == Spawner || m == EndPortal || m == EndGateway || m == NetherPortal || m == Barrier ||
    m == StructureVoid
  }

  /** `canPlaceTorchAt(block, attachedFace)`. */
  predicate CanPlaceTorchAt(blocks: map<Pos, Material>, p: Pos, attached: BlockFace, solid: Material -> bool) {
    if TypeIn(blocks, p) != Air && !IsReplaceable(TypeIn(blocks, p)) then false
    else
      var support := TypeIn(blocks, Next(p, attached));
      IsSolidBlock(support, solid) && !IsBlacklisted(support)
  }

  /** A torch can go exactly into a replaceable block (air is one) next to a
      solid block that is not blacklisted; that block is never air, a fluid or
      a fire, whatever `solid` says, and is never the torch's own block. */
  lemma CanPlaceTorchAtMeaning(blocks: map<Pos, Material>, p: Pos, attached: BlockFace, solid: Material -> bool)
    ensures CanPlaceTorchAt(blocks, p, attached, solid) <==>
      IsReplaceable(TypeIn(blocks, p)) && IsSolidBlock(TypeIn(blocks, Next(p, attached)), solid) &&
      !IsBlacklisted(TypeIn(blocks, Next(p, attached)))
    ensures CanPlaceTorchAt(blocks, p, attached, solid) ==>
      var support := TypeIn(blocks, Next(p, attached));
      solid(support) && Next(p, attached) != p &&
      support !in {Air, Water, Lava, Fire, SoulFire, Campfire, SoulCampfire}
  {
    NextFacts(p, attached);
  }

  /** Where a torch may go, as `canPlaceTorchAt` judges it in `blocks`. */
  function Placeable(blocks: map<Pos, Material>, solid: Material -> bool): (Pos, BlockFace) -> bool {
    (p: Pos, f: BlockFace) => CanPlaceTorchAt(blocks, p, f, solid)
  }

  /** Which positions hold a solid block, as `isSolidBlock` judges it in
      `blocks`. */
  function SolidIn(blocks: map<Pos, Material>, solid: Material -> bool): Pos -> bool {
    q => IsSolidBlock(TypeIn(blocks, q), solid)
  }

  /** The faces `getTorchType` and `setWallTorchDirection` try, in order. */
  const WallFaces: seq<BlockFace> := [North, South, East, West]

  predicate SolidAt(isSolid: Pos -> bool, p: Pos, f: BlockFace) {
    isSolid(Next(p, f))
  }

  /** The first of north, south, east and west whose neighbouring block is
      solid. */
  function FirstSolidFace(isSolid: Pos -> bool, p: Pos): Option<BlockFace> {
    if SolidAt(isSolid, p, North) then Some(North)
    else if SolidAt(isSolid, p, South) then Some(South)
    else if SolidAt(isSolid, p, East) then Some(East)
    else if SolidAt(isSolid, p, West) then Some(West)
    else None
  }

  /** `FirstSolidFace` finds a face exactly when some side is solid, and the
      face it finds is solid with no solid face before it in `WallFaces`. */
  lemma FirstSolidFaceMeaning(isSolid: Pos -> bool, p: Pos)
    ensures var r := FirstSolidFace(isSolid, p);
      (r.None? <==> forall k :: 0 <= k < 4 ==> !SolidAt(isSolid, p, WallFaces[k])) &&
      (r.Some? ==> exists k :: 0 <= k < 4 && WallFaces[k] == r.value && SolidAt(isSolid, p, r.value) &&
                               forall j :: 0 <= j < k ==> !SolidAt(isSolid, p, WallFaces[j]))
  {
    var r := FirstSolidFace(isSolid, p);
    if r == Some(North) {
      assert WallFaces[0] == North;
    } else if r == Some(South) {
      assert WallFaces[1] == South && !SolidAt(isSolid, p, WallFaces[0]);
    } else if r == Some(East) {
      assert WallFaces[2] == East && !SolidAt(isSolid, p, WallFaces[0]) && !SolidAt(isSolid, p, WallFaces[1]);
    } else if r == Some(West) {
      assert WallFaces[3] == West && !SolidAt(isSolid, p, WallFaces[0]) && !SolidAt(isSolid, p, WallFaces[1]) &&
             !SolidAt(isSolid, p, WallFaces[2]);
    } else {
      forall k | 0 <= k < 4 ensures !SolidAt(isSolid, p, WallFaces[k]) {
      }
    }
  }

  /** A solid side that comes first in `WallFaces` is what `FirstSolidFace`
      finds. */
  lemma FirstSolidFaceAt(isSolid: Pos -> bool, p: Pos, i: nat)
    requires i < 4 && SolidAt(isSolid, p, WallFaces[i])
    requires forall j :: 0 <= j < i ==> !SolidAt(isSolid, p, WallFaces[j])
    ensures FirstSolidFace(isSolid, p) == Some(WallFaces[i])
  {
    var r := FirstSolidFace(isSolid, p);
    FirstSolidFaceMeaning(isSolid, p);
    var k :| 0 <= k < 4 && WallFaces[k] == r.value && SolidAt(isSolid, p, r.value) &&
             forall j :: 0 <= j < k ==> !SolidAt(isSolid, p, WallFaces[j]);
    assert !(k < i) && !(i < k);
  }

  /** The torch `getTorchType` chooses for `p`. */
  function TorchType(isSolid: Pos -> bool, p: Pos): Material {
    if SolidAt(isSolid, p, Down) then Material.Torch
    else if FirstSolidFace(isSolid, p).Some? then WallTorch
    else Material.Torch
  }

  /** A standing torch unless the block below is not solid and one of the four
      side blocks is; then a wall torch. */
  lemma TorchTypeMeaning(isSolid: Pos -> bool, p: Pos)
    ensures TorchType(isSolid, p) in {Material.Torch, WallTorch}
    ensures TorchType(isSolid, p) == WallTorch <==>
      !SolidAt(isSolid, p, Down) &&
      (SolidAt(isSolid, p, North) || SolidAt(isSolid, p, South) ||
       SolidAt(isSolid, p, East) || SolidAt(isSolid, p, West))
  {
    var r := FirstSolidFace(isSolid, p);
    FirstSolidFaceMeaning(isSolid, p);
    if !SolidAt(isSolid, p, Down) {
      if r.None? {
        assert !SolidAt(isSolid, p, WallFaces[0]) && !SolidAt(isSolid, p, WallFaces[1]) &&
               !SolidAt(isSolid, p, WallFaces[2]) && !SolidAt(isSolid, p, WallFaces[3]);
      }
    }
  }

  /** The face loop of `getTorchType` and `setWallTorchDirection`: the first
      of north, south, east and west whose neighbouring block is solid. */
  method FindSolidSide(world: World, p: Pos, solid: Material -> bool) returns (side: Option<BlockFace>)
    ensures side == FirstSolidFace(SolidIn(world.blocks, solid), p)
  {
    ghost var isSolid := SolidIn(world.blocks, solid);
    var faces := WallFaces;
    var i := 0;
    while i < |faces|
      invariant 0 <= i <= |faces|
      invariant forall j :: 0 <= j < i ==> !SolidAt(isSolid, p, faces[j])
    {
      if IsSolidBlock(world.TypeAt(Next(p, faces[i])), solid) {
        FirstSolidFaceAt(isSolid, p, i);
        return Some(faces[i]);
      }
      i := i + 1;
    }
    FirstSolidFaceMeaning(isSolid, p);
    return None;
  }

  /** `getTorchType(block)`. */
  method GetTorchType(world: World, p: Pos, solid: Material -> bool) returns (m: Material)
    ensures m == TorchType(SolidIn(world.blocks, solid), p)
  {
    if IsSolidBlock(world.TypeAt(Next(p, Down)), solid) {
      return Material.Torch;
    }
    var side := FindSolidSide(world, p, solid);
    if side.Some? {
      return WallTorch;
    }
    return Material.Torch;
  }

  /** The block types whose data is a `WallTorch`, so that a facing can be
      set on them. */
  predicate IsWallTorch(m: Material) {
    m == WallTorch || m == SoulWallTorch
  }

  /** The facing `setWallTorchDirection` leaves: a wall torch at `p` turns
      away from the first solid side block; anything else keeps its facing. */
  function FacingAfter(blocks: map<Pos, Material>, wallFacing: map<Pos, BlockFace>, p: Pos, isSolid: Pos -> bool)
    : map<Pos, BlockFace>
  {
    var f := FirstSolidFace(isSolid, p);
    if f.Some? && IsWallTorch(TypeIn(blocks, p)) then wallFacing[p := Opposite(f.value)]
    else wallFacing
  }

  /** `setWallTorchDirection` changes at most the facing at `p`, and a wall
      torch it turns has its back to a solid block, the first one of north,
      south, east and west. */
  lemma FacingAfterMeaning(blocks: map<Pos, Material>, wallFacing: map<Pos, BlockFace>, p: Pos, isSolid: Pos -> bool)
    ensures var r := FacingAfter(blocks, wallFacing, p, isSolid);
      r - {p} == wallFacing - {p} &&
      (p in r && (p !in wallFacing || r[p] != wallFacing[p]) ==>
        IsWallTorch(TypeIn(blocks, p)) &&
        SolidAt(isSolid, p, Opposite(r[p])) &&
        exists k :: 0 <= k < 4 && WallFaces[k] == Opposite(r[p]) &&
          forall j :: 0 <= j < k ==> !SolidAt(isSolid, p, WallFaces[j]))
  {
    var f := FirstSolidFace(isSolid, p);
    FirstSolidFaceMeaning(isSolid, p);
    if f.Some? {
      NextFacts(p, f.value);
    }
  }

  /** `setWallTorchDirection(block)`. */
  method SetWallTorchDirection(world: World, p: Pos, solid: Material -> bool)
    modifies world
    ensures world.wallFacing == FacingAfter(old(world.blocks), old(world.wallFacing), p, SolidIn(old(world.blocks), solid))
    ensures world.blocks == old(world.blocks) && world.drops == old(world.drops)
  {
    var side := FindSolidSide(world, p, solid);
    if side.Some? && IsWallTorch(world.TypeAt(p)) {
      world.SetFacing(p, Opposite(side.value));
    }
  }

  /** The blocks once `placeTorch` has set the chosen torch at `p`. */
  function WithTorch(blocks: map<Pos, Material>, p: Pos, isSolid: Pos -> bool): map<Pos, Material> {
    blocks[p := TorchType(isSolid, p)]
  }

  /** Setting `p` leaves the solidity of its side blocks alone, so the wall
      torch finds after placement the side the torch type was chosen by. */
  lemma SidesUnchanged(blocks: map<Pos, Material>, wallFacing: map<Pos, BlockFace>, p: Pos, m: Material,
                       solid: Material -> bool)
    ensures FacingAfter(blocks[p := m], wallFacing, p, SolidIn(blocks[p := m], solid)) ==
            FacingAfter(blocks[p := m], wallFacing, p, SolidIn(blocks, solid))
  {
    SideUnchanged(blocks, p, m, solid, North);
    SideUnchanged(blocks, p, m, solid, South);
    SideUnchanged(blocks, p, m, solid, East);
    SideUnchanged(blocks, p, m, solid, West);
    assert FirstSolidFace(SolidIn(blocks[p := m], solid), p) == FirstSolidFace(SolidIn(blocks, solid), p);
  }

  lemma SideUnchanged(blocks: map<Pos, Material>, p: Pos, m: Material, solid: Material -> bool, f: BlockFace)
    ensures SolidAt(SolidIn(blocks[p := m], solid), p, f) == SolidAt(SolidIn(blocks, solid), p, f)
  {
    NextFacts(p, f);
    assert TypeIn(blocks[p := m], Next(p, f)) == TypeIn(blocks, Next(p, f));
  }

  /** `placeTorch(block)`. `refused` stands for `setType` throwing, which the
      method catches and reports as a failure. */
  method PlaceTorch(world: World, p: Pos, solid: Material -> bool, refused: bool) returns (ok: bool)
    modifies world
    ensures ok == !refused
    ensures ok ==>
      var isSolid := SolidIn(old(world.blocks), solid);
      world.blocks == WithTorch(old(world.blocks), p, isSolid) &&
      world.wallFacing == FacingAfter(world.blocks, old(world.wallFacing) - {p}, p, isSolid)
    ensures !ok ==> world.blocks == old(world.blocks) && world.wallFacing == old(world.wallFacing)
    ensures world.drops == old(world.drops)
  {
    var torchType := GetTorchType(world, p, solid);
    if refused {
      return false;
    }
    world.SetType(p, torchType);
    SidesUnchanged(old(world.blocks), world.wallFacing, p, torchType, solid);
    if IsWallTorch(torchType) {
      SetWallTorchDirection(world, p, solid);
    }
    return true;
  }

  /** A placed wall torch has its back to the first solid side block and no
      solid block below; a placed standing torch has no facing, and a solid
      block below it or no solid block beside it at all. */
  lemma PlacedTorchSupported(blocks: map<Pos, Material>, wallFacing: map<Pos, BlockFace>, p: Pos, isSolid: Pos -> bool)
    ensures var after := WithTorch(blocks, p, isSolid);
      var facing := FacingAfter(after, wallFacing - {p}, p, isSolid);
      (after[p] == WallTorch ==> p in facing && SolidAt(isSolid, p, Opposite(facing[p])) &&
                                  !SolidAt(isSolid, p, Down)) &&
      (after[p] == Material.Torch ==>
        p !in facing &&
        (SolidAt(isSolid, p, Down) || forall k :: 0 <= k < 4 ==> !SolidAt(isSolid, p, WallFaces[k])))
  {
    var f := FirstSolidFace(isSolid, p);
    FirstSolidFaceMeaning(isSolid, p);
    if f.Some? {
      NextFacts(p, f.value);
    }
  }

  /** `getTargetBlock`, with `canPlace` for `canPlaceTorchAt`. A clicked block
      offers the block on the clicked face, held against the clicked block; a
      click into the air offers the player's own block, held against the block
      above, and then the block on top of the non-air block in sight
      (`player.getTargetBlock(null, 5)`, supplied as `sight`). */
  function TargetBlock(blocks: map<Pos, Material>, canPlace: (Pos, BlockFace) -> bool, clicked: Option<Pos>,
                       face: BlockFace, playerAt: Pos, sight: Option<Pos>): Option<Pos>
  {
    if clicked.Some? then
      var target := Next(clicked.value, face);
      if canPlace(target, Opposite(face)) then Some(target) else None
    else if canPlace(playerAt, Up) then Some(playerAt)
    else if sight.Some? && TypeIn(blocks, sight.value) != Air && canPlace(Next(sight.value, Up), Down) then
      Some(Next(sight.value, Up))
    else None
  }

  /** A target is always a block that accepts a torch on some face; after a
      block click it touches the clicked block through the clicked face, and
      it is missing only when no candidate accepts a torch. */
  lemma TargetBlockMeaning(blocks: map<Pos, Material>, canPlace: (Pos, BlockFace) -> bool, clicked: Option<Pos>,
                           face: BlockFace, playerAt: Pos, sight: Option<Pos>)
    ensures var r := TargetBlock(blocks, canPlace, clicked, face, playerAt, sight);
      (r.Some? ==> exists f: BlockFace :: canPlace(r.value, f)) &&
      (clicked.Some? ==> (r.Some? <==> canPlace(Next(clicked.value, face), Opposite(face))) &&
                         (r.Some? ==> Next(r.value, Opposite(face)) == clicked.value)) &&
      (clicked.None? ==> (r.None? <==>
         !canPlace(playerAt, Up) &&
         (sight.None? || TypeIn(blocks, sight.value) == Air || !canPlace(Next(sight.value, Up), Down))))
  {
    if clicked.Some? {
      NextFacts(clicked.value, face);
    }
  }

  /** With `canPlaceTorchAt` deciding, the target is a replaceable block (air
      included) beside a solid block that is not blacklisted. */
  lemma TargetIsPlaceable(blocks: map<Pos, Material>, solid: Material -> bool, clicked: Option<Pos>,
                          face: BlockFace, playerAt: Pos, sight: Option<Pos>)
    ensures var r := TargetBlock(blocks, Placeable(blocks, solid), clicked, face, playerAt, sight);
      r.Some? ==>
        IsReplaceable(TypeIn(blocks, r.value)) &&
        exists f: BlockFace :: IsSolidBlock(TypeIn(blocks, Next(r.value, f)), solid) &&
                               !IsBlacklisted(TypeIn(blocks, Next(r.value, f)))
  {
    var r := TargetBlock(blocks, Placeable(blocks, solid), clicked, face, playerAt, sight);
    TargetBlockMeaning(blocks, Placeable(blocks, solid), clicked, face, playerAt, sight);
    if r.Some? {
      var f: BlockFace :| Placeable(blocks, solid)(r.value, f);
      CanPlaceTorchAtMeaning(blocks, r.value, f, solid);
    }
  }

  /** The clicks the torch answers: a right click, on a block or into the air,
      holding the Amethyst Torch. */
  predicate Engages(item: Option<ItemStack>, action: Action) {
    item.Some? && IsAmethystTool(item) && GetToolType(item) == Some(ToolType.Torch) &&
    (action == RightClickBlock || action == RightClickAir)
  }

  /** What a use of the torch changes: the blocks, the wall torch facings,
      the cooldown table and the notices sent. */
  datatype TorchState = TorchState(blocks: map<Pos, Material>, wallFacing: map<Pos, BlockFace>,
                                   table: Table, notices: seq<Notice>)

  /** The part of `onPlayerInteract` after the cooldown check, once the
      target is known (`None` when there is none or the placement is refused):
      the new state, and where the torch was placed, if it was. */
  function Torched(s: TorchState, target: Option<Pos>, isSolid: Pos -> bool, player: Uuid, seconds: int, now: int)
    : (TorchState, Option<Pos>)
  {
    match target
    case None =>
      (s.(notices := s.notices + [Message(ToPlayer(player), "tools.torch.invalid-location", map[])]), None)
    case Some(t) =>
      var blocks := WithTorch(s.blocks, t, isSolid);
      (TorchState(blocks, FacingAfter(blocks, s.wallFacing - {t}, t, isSolid),
                  WithCooldown(s.table, player, CooldownKey, seconds, now),
                  s.notices + [Message(ToPlayer(player), "tools.torch.success", map[])]),
       Some(t))
  }

  /** A use of the torch places it exactly at the target. Only then do the
      blocks change, and only at the target, which then holds a torch; only
      then is the cooldown set, and it is then live whenever the configured
      cooldown is positive. One notice is sent either way. */
  lemma TorchedMeaning(s: TorchState, target: Option<Pos>, isSolid: Pos -> bool, player: Uuid, seconds: int, now: int)
    ensures var (r, placed) := Torched(s, target, isSolid, player, seconds, now);
      placed == target &&
      |r.notices| == |s.notices| + 1 && r.notices[..|s.notices|] == s.notices &&
      (placed.None? ==> r.blocks == s.blocks && r.wallFacing == s.wallFacing && r.table == s.table) &&
      (placed.Some? ==>
        r.blocks == s.blocks[placed.value := r.blocks[placed.value]] &&
        r.blocks[placed.value] in {Material.Torch, WallTorch} &&
        Lookup(r.table, player, CooldownKey) == Some(now + seconds * 1000) &&
        (forall q: Uuid, b: string :: (q, b) != (player, CooldownKey) ==> Lookup(r.table, q, b) == Lookup(s.table, q, b)) &&
        (seconds > 0 ==> Active(r.table, player, CooldownKey, now)))
  {
    if target.Some? {
      var t := target.value;
      TorchTypeMeaning(isSolid, t);
      RemainingAfterSet(s.table, player, CooldownKey, seconds, now);
    }
  }

  /** The part of `onPlayerInteract` after the cooldown check: pick the
      target block, place the torch, and start the cooldown only when the
      torch was placed. */
  method UseTorch(clicked: Option<Pos>, face: BlockFace, player: Player, sight: Option<Pos>, cfg: Config, now: int,
                  solid: Material -> bool, refused: bool,
                  cooldowns: CooldownManager, world: World, server: Server)
    returns (placed: Option<Pos>)
    requires cooldowns.Valid()
    modifies cooldowns, world, server
    ensures cooldowns.Valid()
    ensures world.drops == old(world.drops)
    ensures server.online == old(server.online) && server.inventories == old(server.inventories)
    ensures (TorchState(world.blocks, world.wallFacing, cooldowns.playerCooldowns, server.notices), placed) ==
      Torched(TorchState(old(world.blocks), old(world.wallFacing), old(cooldowns.playerCooldowns), old(server.notices)),
              if refused then None
              else TargetBlock(old(world.blocks), Placeable(old(world.blocks), solid), clicked, face, player.location, sight),
              SolidIn(old(world.blocks), solid), player.id, cfg.torchCooldown, now)
  {
    placed := None;
    var targetBlock := TargetBlock(world.blocks, Placeable(world.blocks, solid), clicked, face, player.location, sight);
    if targetBlock.None? {
      server.Send(Message(ToPlayer(player.id), "tools.torch.invalid-location", map[]));
      return;
    }
    var ok := PlaceTorch(world, targetBlock.value, solid, refused);
    if ok {
      cooldowns.SetCooldown(player.id, CooldownKey, cfg.torchCooldown, now);
      server.Send(Message(ToPlayer(player.id), "tools.torch.success", map[]));
      placed := targetBlock;
    } else {
      server.Send(Message(ToPlayer(player.id), "tools.torch.invalid-location", map[]));
    }
  }

  /** `onPlayerInteract`. Anything but a right click with the torch is left
      alone. While the torch is on cooldown the event is cancelled, the player
      told how long is left, and nothing is placed or re-armed. Otherwise the
      event is cancelled and the torch used as `Torched` says, after the
      cooldown check has evicted an expired entry. */
  method OnPlayerInteract(item: Option<ItemStack>, action: Action, clicked: Option<Pos>, face: BlockFace,
                          player: Player, sight: Option<Pos>, cfg: Config, now: int,
                          solid: Material -> bool, refused: bool,
                          cooldowns: CooldownManager, world: World, server: Server)
    returns (cancelled: bool, placed: Option<Pos>)
    requires cooldowns.Valid()
    modifies cooldowns, world, server
    ensures cooldowns.Valid()
    ensures cancelled <==> Engages(item, action)
    ensures world.drops == old(world.drops)
    ensures server.online == old(server.online) && server.inventories == old(server.inventories)
    ensures !Engages(item, action) ==>
      placed.None? && world.blocks == old(world.blocks) && world.wallFacing == old(world.wallFacing) &&
      cooldowns.playerCooldowns == old(cooldowns.playerCooldowns) && server.notices == old(server.notices)
    ensures Engages(item, action) && Active(old(cooldowns.playerCooldowns), player.id, CooldownKey, now) ==>
      placed.None? && world.blocks == old(world.blocks) && world.wallFacing == old(world.wallFacing) &&
      cooldowns.playerCooldowns == old(cooldowns.playerCooldowns) &&
      server.notices == old(server.notices) +
        [Message(ToPlayer(player.id), "tools.torch.cooldown",
                 map["time" := IntToString(Remaining(old(cooldowns.playerCooldowns), player.id, CooldownKey, now))])]
    ensures Engages(item, action) && !Active(old(cooldowns.playerCooldowns), player.id, CooldownKey, now) ==>
      (TorchState(world.blocks, world.wallFacing, cooldowns.playerCooldowns, server.notices), placed) ==
      Torched(TorchState(old(world.blocks), old(world.wallFacing),
                         AfterRead(old(cooldowns.playerCooldowns), player.id, CooldownKey, now), old(server.notices)),
              if refused then None
              else TargetBlock(old(world.blocks), Placeable(old(world.blocks), solid), clicked, face, player.location, sight),
              SolidIn(old(world.blocks), solid), player.id, cfg.torchCooldown, now)
  {
    cancelled, placed := false, None;
    if item.None? {
      return;
    }
    if !IsAmethystTool(item) || GetToolType(item) != Some(ToolType.Torch) {
      return;
    }
    if action != RightClickBlock && action != RightClickAir {
      return;
    }
    var onCooldown := cooldowns.HasCooldown(player.id, CooldownKey, now);
    cancelled := true;
    if onCooldown {
      var remainingTime := cooldowns.GetRemainingCooldown(player.id, CooldownKey, now);
      // `sendCooldownMessage` sends the key "tools." + COOLDOWN_KEY + ".cooldown".
      server.Send(Message(ToPlayer(player.id), "tools.torch.cooldown",
                          map["time" := IntToString(remainingTime)]));
      return;
    }
    placed := UseTorch(clicked, face, player, sight, cfg, now, solid, refused, cooldowns, world, server);
  }
}
