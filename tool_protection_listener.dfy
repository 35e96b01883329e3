/** `ToolProtectionListener`: keeps the lore of tool items current (the
    self-destruct timer, the UUID line masked or shown), records the player
    who holds a tool as its owner, and stops tool items from despawning. */
module ToolProtection {
  import opened Common
  import opened Text
  import opened Uuids
  import opened Game
  import opened MessageUtil
  import opened ToolManagement

  // ---------------------------------------------------------------------------
  // `line.replaceAll(prefix + ".*", replacement)`

  /** The characters at which the regular-expression `.` stops. */
  predicate IsLineTerminator(c: char) {
    c == '\n' || c == '\r' || c == '\U{0085}' || c == '\U{2028}' || c == '\U{2029}'
  }

  /** `s` holds no line terminator. */
  predicate SingleLine(s: string) {
    forall k :: 0 <= k < |s| ==> !IsLineTerminator(s[k])
  }

  /** Where a `.*` run that starts at `from` ends: the first line terminator at
      or after `from`, or the end of `s`. */
  function LineEnd(s: string, from: nat): (j: nat)
    requires from <= |s|
    ensures from <= j <= |s|
    ensures forall k :: from <= k < j ==> !IsLineTerminator(s[k])
    ensures j < |s| ==> IsLineTerminator(s[j])
    decreases |s| - from
  {
    if from == |s| || IsLineTerminator(s[from]) then from else LineEnd(s, from + 1)
  }

  /** `s.replaceAll(p + ".*", r)` for a prefix `p` without regular-expression
      metacharacters and a replacement without `$` or `\`: each occurrence of
      `p`, together with the rest of its line, becomes `r`, and matching goes
      on after the replaced text. */
  function ReplaceToLineEnd(s: string, p: string, r: string): string
    requires |p| > 0
    decreases |s|
  {
    match IndexFrom(s, p, 0)
    case None => s
    case Some(i) =>
      var j := LineEnd(s, i + |p|);
      s[..i] + r + ReplaceToLineEnd(s[j..], p, r)
  }

  /** The first occurrence of `t` at or after `from` is at `i` when `t` occurs
      at `i` and nowhere between `from` and `i`. */
  lemma {:induction false} IndexFromAt(s: string, t: string, from: nat, i: nat)
    requires from <= i && OccursAt(s, t, i)
    requires forall j :: from <= j < i ==> !OccursAt(s, t, j)
    ensures IndexFrom(s, t, from) == Some(i)
    decreases i - from
  {
    if from < i {
      assert !OccursAt(s, t, from);
      IndexFromAt(s, t, from + 1, i);
    }
  }

  /** On a single line, everything from the first occurrence of `p` on is
      replaced by `r`, and a line without `p` is kept. */
  lemma ReplaceToLineEndOnLine(s: string, p: string, r: string)
    requires |p| > 0 && SingleLine(s)
    ensures IndexFrom(s, p, 0).None? ==> ReplaceToLineEnd(s, p, r) == s
    ensures IndexFrom(s, p, 0).Some? ==>
      ReplaceToLineEnd(s, p, r) == s[..IndexFrom(s, p, 0).value] + r
  {
    var m := IndexFrom(s, p, 0);
    if m.Some? {
      var i := m.value;
      assert LineEnd(s, i + |p|) == |s|;
      assert IndexFrom(s[|s|..], p, 0).None?;
      assert s[..i] + r + s[|s|..] == s[..i] + r;
    }
  }

  /** Strings that agree on their first `n` characters agree on every slice
      inside them. */
  lemma SameSlice(s: string, s': string, n: nat, j: nat, m: nat)
    requires j + m <= n <= |s| && n <= |s'|
    requires forall k :: 0 <= k < n ==> s'[k] == s[k]
    ensures s'[j..j + m] == s[j..j + m]
  {
  }

  /** A string that agrees with `s` on its first `i + |p|` characters has no
      occurrence of `p` before `i` when `s` has none. */
  lemma NoEarlierOccurrence(s: string, s': string, p: string, i: nat)
    requires i + |p| <= |s| && i + |p| <= |s'|
    requires forall k :: 0 <= k < i + |p| ==> s'[k] == s[k]
    requires forall j :: 0 <= j < i ==> !OccursAt(s, p, j)
    ensures forall j :: 0 <= j < i ==> !OccursAt(s', p, j)
  {
    forall j | 0 <= j < i
      ensures !OccursAt(s', p, j)
    {
      assert !OccursAt(s, p, j);
      SameSlice(s, s', i + |p|, j, |p|);
    }
  }

  /** A string that agrees with `s` up to the end of the first occurrence of
      `p` has its first occurrence of `p` at the same place. */
  lemma SameFirstOccurrence(s: string, s': string, p: string, i: nat)
    requires OccursAt(s, p, i) && forall j :: 0 <= j < i ==> !OccursAt(s, p, j)
    requires i + |p| <= |s'|
    requires forall k :: 0 <= k < i + |p| ==> s'[k] == s[k]
    ensures IndexFrom(s', p, 0) == Some(i)
  {
    NoEarlierOccurrence(s, s', p, i);
    SameSlice(s, s', i + |p|, i, |p|);
    IndexFromAt(s', p, 0, i);
  }

  /** A single line with its rest from the first `p` on replaced by `p + t`
      is again a single line whose first `p` stands at the same place. */
  lemma ReplacedOnce(s: string, p: string, t: string, i: nat)
    requires |p| > 0 && SingleLine(s) && SingleLine(p + t)
    requires IndexFrom(s, p, 0) == Some(i)
    ensures IndexFrom(s[..i] + (p + t), p, 0) == Some(i)
    ensures SingleLine(s[..i] + (p + t))
    ensures (s[..i] + (p + t))[..i] == s[..i]
  {
    var r := p + t;
    var s' := s[..i] + r;
    forall k | 0 <= k < i + |p|
      ensures s'[k] == s[k]
    {
      if k >= i { assert s[i..i + |p|][k - i] == s[k]; }
    }
    SameFirstOccurrence(s, s', p, i);
    forall k | 0 <= k < |s'|
      ensures !IsLineTerminator(s'[k])
    {
      if k >= i { assert s'[k] == r[k - i]; }
    }
  }

  /** Replacing the rest of the line by `p + t` a second time changes nothing:
      refreshing a timer or UUID line twice with the same text is the same as
      refreshing it once. */
  lemma ReplaceToLineEndIdempotent(s: string, p: string, t: string)
    requires |p| > 0 && SingleLine(s) && SingleLine(p + t)
    ensures ReplaceToLineEnd(ReplaceToLineEnd(s, p, p + t), p, p + t) == ReplaceToLineEnd(s, p, p + t)
  {
    ReplaceToLineEndOnLine(s, p, p + t);
    var m := IndexFrom(s, p, 0);
    if m.Some? {
      ReplacedOnce(s, p, t, m.value);
      ReplaceToLineEndOnLine(s[..m.value] + (p + t), p, p + t);
    }
  }

  // ---------------------------------------------------------------------------
  // Rewriting the lore

  /** What a masked UUID line shows after `UUID: `. */
  const Mask := "\U{2588}\U{2588}\U{2588}\U{2588}\U{2588}\U{2588}\U{2588}\U{2588}"

  /** The body of the lore loop for one line: a timer line gets the new time,
      a UUID line gets `uuidText` (the mask or the UUID), any other line is
      kept. Which kind a line is, is read off its text with colours stripped;
      the replacement is applied to the line as it stands. */
  function RewrittenLine(line: string, stripLegacy: string -> string, timeString: string, uuidText: string): string {
    var plain := StripColors(Some(line), stripLegacy);
    if Contains(plain, "Self Destruct:") then
      ReplaceToLineEnd(line, "Self Destruct: ", "Self Destruct: " + timeString)
    else if Contains(plain, "UUID:") then
      ReplaceToLineEnd(line, "UUID: ", "UUID: " + uuidText)
    else line
  }

  /** A single-line timer line keeps what stands before `Self Destruct: `
      and ends in the new time; without `Self Destruct: ` in its raw text it is
      kept as it is. */
  lemma TimerLineMeaning(line: string, stripLegacy: string -> string, timeString: string, uuidText: string)
    requires SingleLine(line) && Contains(StripColors(Some(line), stripLegacy), "Self Destruct:")
    ensures var sd := IndexFrom(line, "Self Destruct: ", 0);
      RewrittenLine(line, stripLegacy, timeString, uuidText) ==
        if sd.Some? then line[..sd.value] + "Self Destruct: " + timeString else line
  {
    assert RewrittenLine(line, stripLegacy, timeString, uuidText) ==
      ReplaceToLineEnd(line, "Self Destruct: ", "Self Destruct: " + timeString);
    ReplaceToLineEndOnLine(line, "Self Destruct: ", "Self Destruct: " + timeString);
  }

  /** A single-line UUID line (one that is not a timer line) keeps what stands
      before `UUID: ` and ends in `uuidText`; without `UUID: ` in its raw text
      it is kept as it is. */
  lemma UuidLineMeaning(line: string, stripLegacy: string -> string, timeString: string, uuidText: string)
    requires SingleLine(line)
    requires !Contains(StripColors(Some(line), stripLegacy), "Self Destruct:")
    requires Contains(StripColors(Some(line), stripLegacy), "UUID:")
    ensures var id := IndexFrom(line, "UUID: ", 0);
      RewrittenLine(line, stripLegacy, timeString, uuidText) ==
        if id.Some? then line[..id.value] + "UUID: " + uuidText else line
  {
    assert RewrittenLine(line, stripLegacy, timeString, uuidText) == ReplaceToLineEnd(line, "UUID: ", "UUID: " + uuidText);
    ReplaceToLineEndOnLine(line, "UUID: ", "UUID: " + uuidText);
  }

  /** Every other line is kept verbatim, whatever line breaks it holds. */
  lemma OtherLineKept(line: string, stripLegacy: string -> string, timeString: string, uuidText: string)
    requires !Contains(StripColors(Some(line), stripLegacy), "Self Destruct:")
    requires !Contains(StripColors(Some(line), stripLegacy), "UUID:")
    ensures RewrittenLine(line, stripLegacy, timeString, uuidText) == line
  {
  }

  /** `RewrittenLine` with the refresh's strip function, time and UUID text
      fixed. */
  function LineRewrite(stripLegacy: string -> string, timeString: string, uuidText: string): string -> string {
    line => RewrittenLine(line, stripLegacy, timeString, uuidText)
  }

  /** The new lore: every line of `lore` rewritten, in order. */
  function RewrittenLore(lore: seq<string>, rewrite: string -> string): (r: seq<string>)
    ensures |r| == |lore|
    decreases |lore|
  {
    if lore == [] then []
    else RewrittenLore(lore[..|lore| - 1], rewrite) + [rewrite(lore[|lore| - 1])]
  }

  /** Line `k` of the new lore is line `k` of the old lore rewritten: the lines
      keep their order. */
  lemma {:induction false} RewrittenLoreLines(lore: seq<string>, rewrite: string -> string)
    ensures forall k :: 0 <= k < |lore| ==> RewrittenLore(lore, rewrite)[k] == rewrite(lore[k])
    decreases |lore|
  {
    if lore != [] {
      var init := lore[..|lore| - 1];
      RewrittenLoreLines(init, rewrite);
      forall k | 0 <= k < |init|
        ensures init[k] == lore[k]
      {
      }
    }
  }

  /** The body of the lore loop for the line `line`. */
  method RewriteLine(line: string, stripLegacy: string -> string, timeString: string, uuidText: string)
    returns (updated: string)
    ensures updated == LineRewrite(stripLegacy, timeString, uuidText)(line)
  {
    var plainLine := StripColors(Some(line), stripLegacy);
    if Contains(plainLine, "Self Destruct:") {
      updated := ReplaceToLineEnd(line, "Self Destruct: ", "Self Destruct: " + timeString);
    } else if Contains(plainLine, "UUID:") {
      updated := ReplaceToLineEnd(line, "UUID: ", "UUID: " + uuidText);
    } else {
      updated := line;
    }
  }

  /** The lore loop: `newLore` gains the rewritten lines one by one. */
  method RewriteLore(lore: seq<string>, stripLegacy: string -> string, timeString: string, uuidText: string)
    returns (newLore: seq<string>)
    ensures newLore == RewrittenLore(lore, LineRewrite(stripLegacy, timeString, uuidText))
  {
    newLore := [];
    var i := 0;
    while i < |lore|
      invariant 0 <= i <= |lore|
      invariant newLore == RewrittenLore(lore[..i], LineRewrite(stripLegacy, timeString, uuidText))
    {
      var updated := RewriteLine(lore[i], stripLegacy, timeString, uuidText);
      newLore := newLore + [updated];
      assert lore[..i + 1][..i] == lore[..i];
      i := i + 1;
    }
    assert lore[..|lore|] == lore;
  }

  /** The item after a lore refresh at clock `now`: nothing changes for a
      non-tool, a tool without lore or one whose UUID does not parse; otherwise
      the lore is rewritten with the remaining time and with the UUID shown
      when `showUuid` holds and masked when it does not. */
  function Refreshed(item: ItemStack, days: int, now: int, stripLegacy: string -> string, showUuid: bool)
    : ItemStack
  {
    var u := GetToolUUID(Some(item));
    if !IsAmethystTool(Some(item)) || item.meta.value.lore == [] || u.None? then item
    else
      var timeString := FormatTimeGlued(GetRemainingTime(Some(item), days, now));
      var uuidText := if showUuid then UuidText(u.value) else Mask;
      item.(meta := Some(item.meta.value.(lore := RewrittenLore(item.meta.value.lore, LineRewrite(stripLegacy, timeString, uuidText)))))
  }

  /** A refresh touches only the lore: the material, the amount, the tags and
      so the kind, UUID, creation time and remaining time read from the item
      stay, the lore keeps its length, and the cases the source returns early
      on leave the item as it was. */
  lemma RefreshedMeaning(item: ItemStack, days: int, now: int, stripLegacy: string -> string, showUuid: bool)
    ensures var r := Refreshed(item, days, now, stripLegacy, showUuid);
      r.material == item.material && r.amount == item.amount &&
      IsAmethystTool(Some(r)) == IsAmethystTool(Some(item)) &&
      GetToolType(Some(r)) == GetToolType(Some(item)) &&
      GetToolUUID(Some(r)) == GetToolUUID(Some(item)) &&
      GetCreationTime(Some(r)) == GetCreationTime(Some(item)) &&
      GetRemainingTime(Some(r), days, now) == GetRemainingTime(Some(item), days, now) &&
      (r.meta.Some? <==> item.meta.Some?) &&
      (r.meta.Some? ==>
        r.meta.value == item.meta.value.(lore := r.meta.value.lore) &&
        |r.meta.value.lore| == |item.meta.value.lore|)
    ensures !IsAmethystTool(Some(item)) || item.meta.value.lore == [] || GetToolUUID(Some(item)).None? ==>
      Refreshed(item, days, now, stripLegacy, showUuid) == item
  {
    RefreshedShape(item, days, now, stripLegacy, showUuid);
    SameTagsSameReads(Refreshed(item, days, now, stripLegacy, showUuid), item, days, now);
  }

  /** A refresh rewrites the lore lines and nothing else. */
  lemma RefreshedShape(item: ItemStack, days: int, now: int, stripLegacy: string -> string, showUuid: bool)
    ensures var r := Refreshed(item, days, now, stripLegacy, showUuid);
      r.material == item.material && r.amount == item.amount &&
      (r.meta.Some? <==> item.meta.Some?) &&
      (r.meta.Some? ==>
        r.meta.value == item.meta.value.(lore := r.meta.value.lore) &&
        |r.meta.value.lore| == |item.meta.value.lore|)
    ensures !IsAmethystTool(Some(item)) || item.meta.value.lore == [] || GetToolUUID(Some(item)).None? ==>
      Refreshed(item, days, now, stripLegacy, showUuid) == item
  {
    var u := GetToolUUID(Some(item));
    if IsAmethystTool(Some(item)) && item.meta.value.lore != [] && u.Some? {
      var timeString := FormatTimeGlued(GetRemainingTime(Some(item), days, now));
      var uuidText := if showUuid then UuidText(u.value) else Mask;
      RewrittenLoreLines(item.meta.value.lore, LineRewrite(stripLegacy, timeString, uuidText));
    }
  }

  /** Two stacks that differ at most in their lore read as the same tool. */
  lemma SameTagsSameReads(a: ItemStack, b: ItemStack, days: int, now: int)
    requires a.material == b.material && (a.meta.Some? <==> b.meta.Some?)
    requires a.meta.Some? ==> a.meta.value == b.meta.value.(lore := a.meta.value.lore)
    ensures IsAmethystTool(Some(a)) == IsAmethystTool(Some(b))
    ensures GetToolType(Some(a)) == GetToolType(Some(b)) && GetToolUUID(Some(a)) == GetToolUUID(Some(b))
    ensures GetCreationTime(Some(a)) == GetCreationTime(Some(b))
    ensures GetRemainingTime(Some(a), days, now) == GetRemainingTime(Some(b), days, now)
  {
  }

  /** The tags survive a refresh, so the item still reads as the same tool. */
  lemma RefreshedKeepsTags(item: ItemStack, days: int, now: int, stripLegacy: string -> string, showUuid: bool)
    ensures var r := Refreshed(item, days, now, stripLegacy, showUuid);
      IsAmethystTool(Some(r)) == IsAmethystTool(Some(item)) && GetToolUUID(Some(r)) == GetToolUUID(Some(item))
  {
  }

  /** The one place the two refreshes differ: a single-line UUID line whose
      raw text holds `UUID: ` ends in the tool's real UUID exactly when the
      UUID is shown, and in the mask otherwise. */
  lemma RefreshedUuidLine(item: ItemStack, days: int, now: int, stripLegacy: string -> string, showUuid: bool, k: nat)
    requires IsAmethystTool(Some(item)) && GetToolUUID(Some(item)).Some?
    requires k < |item.meta.value.lore|
    requires var line := item.meta.value.lore[k];
      var plain := StripColors(Some(line), stripLegacy);
      SingleLine(line) && !Contains(plain, "Self Destruct:") && Contains(plain, "UUID:") &&
      IndexFrom(line, "UUID: ", 0).Some?
    ensures var line := item.meta.value.lore[k];
      Refreshed(item, days, now, stripLegacy, showUuid).meta.value.lore[k] ==
        line[..IndexFrom(line, "UUID: ", 0).value] + "UUID: " +
        (if showUuid then UuidText(GetToolUUID(Some(item)).value) else Mask)
  {
    var line := item.meta.value.lore[k];
    var timeString := FormatTimeGlued(GetRemainingTime(Some(item), days, now));
    var uuidText := if showUuid then UuidText(GetToolUUID(Some(item)).value) else Mask;
    RewrittenLoreLines(item.meta.value.lore, LineRewrite(stripLegacy, timeString, uuidText));
    UuidLineMeaning(line, stripLegacy, timeString, uuidText);
  }

  /** A single-line timer line whose raw text holds `Self Destruct: ` ends in
      the remaining time of the tool after the refresh. */
  lemma RefreshedTimerLine(item: ItemStack, days: int, now: int, stripLegacy: string -> string, showUuid: bool, k: nat)
    requires IsAmethystTool(Some(item)) && GetToolUUID(Some(item)).Some?
    requires k < |item.meta.value.lore|
    requires var line := item.meta.value.lore[k];
      SingleLine(line) && Contains(StripColors(Some(line), stripLegacy), "Self Destruct:") &&
      IndexFrom(line, "Self Destruct: ", 0).Some?
    ensures var line := item.meta.value.lore[k];
      Refreshed(item, days, now, stripLegacy, showUuid).meta.value.lore[k] ==
        line[..IndexFrom(line, "Self Destruct: ", 0).value] + "Self Destruct: " +
        FormatTimeGlued(GetRemainingTime(Some(item), days, now))
  {
    var line := item.meta.value.lore[k];
    var timeString := FormatTimeGlued(GetRemainingTime(Some(item), days, now));
    var uuidText := if showUuid then UuidText(GetToolUUID(Some(item)).value) else Mask;
    RewrittenLoreLines(item.meta.value.lore, LineRewrite(stripLegacy, timeString, uuidText));
    TimerLineMeaning(line, stripLegacy, timeString, uuidText);
  }

  /** `updateToolLore(item)`: the refresh with the permission flag fixed to
      false, so a UUID line is always masked. */
  method UpdateToolLore(item: ItemStack, cfg: Config, now: int, stripLegacy: string -> string)
    returns (r: ItemStack)
    ensures r == Refreshed(item, cfg.toolLifetime, now, stripLegacy, false)
  {
    if !IsAmethystTool(Some(item)) {
      return item;
    }
    var meta := item.meta.value;
    var currentLore := meta.lore;
    if currentLore == [] {
      return item;
    }
    var toolUUID := GetToolUUID(Some(item));
    if toolUUID.None? {
      return item;
    }
    var remainingTime := GetRemainingTime(Some(item), cfg.toolLifetime, now);
    var timeString := FormatTimeGlued(remainingTime);
    var newLore := RewriteLore(currentLore, stripLegacy, timeString, Mask);
    r := item.(meta := Some(meta.(lore := newLore)));
  }

  /** `player != null && (hasPermission("atools.uuid") || hasPermission("atools.op"))`. */
  predicate MayShowUuid(player: Option<Player>) {
    player.Some? && ("atools.uuid" in player.value.permissions || "atools.op" in player.value.permissions)
  }

  /** `updateToolLoreForPlayer(item, player)`: the refresh, with the UUID shown
      to a player holding `atools.uuid` or `atools.op` and masked for anyone
      else and for no player. */
  method UpdateToolLoreForPlayer(item: ItemStack, player: Option<Player>, cfg: Config, now: int,
                                 stripLegacy: string -> string)
    returns (r: ItemStack)
    ensures r == Refreshed(item, cfg.toolLifetime, now, stripLegacy, MayShowUuid(player))
  {
    if !IsAmethystTool(Some(item)) {
      return item;
    }
    var meta := item.meta.value;
    var currentLore := meta.lore;
    if currentLore == [] {
      return item;
    }
    var toolUUID := GetToolUUID(Some(item));
    if toolUUID.None? {
      return item;
    }
    var remainingTime := GetRemainingTime(Some(item), cfg.toolLifetime, now);
    var timeString := FormatTimeGlued(remainingTime);
    var hasUuidPermission := player.Some? &&
      ("atools.uuid" in player.value.permissions || "atools.op" in player.value.permissions);
    var uuidText := if hasUuidPermission then UuidText(toolUUID.value) else Mask;
    var newLore := RewriteLore(currentLore, stripLegacy, timeString, uuidText);
    r := item.(meta := Some(meta.(lore := newLore)));
  }

  // ---------------------------------------------------------------------------
  // Ownership

  /** The registry after `assignToolToPlayer` for an item whose UUID tag reads
      as `id`. */
  function Claim(c: map<Uuid, ToolRecord>, id: Option<Uuid>, player: Uuid): map<Uuid, ToolRecord> {
    if id.Some? && id.value in c then c[id.value := c[id.value].(owner := Some(player))] else c
  }

  /** The UUIDs read from the items of `slots`, slot by slot. */
  function SlotIds(slots: seq<Option<ItemStack>>): (ids: seq<Option<Uuid>>)
    ensures |ids| == |slots|
    ensures forall i :: 0 <= i < |slots| ==> ids[i] == GetToolUUID(slots[i])
  {
    seq(|slots|, i requires 0 <= i < |slots| => GetToolUUID(slots[i]))
  }

  /** The registry after items with the UUIDs `ids` have been claimed in order. */
  function Claimed(c: map<Uuid, ToolRecord>, ids: seq<Option<Uuid>>, player: Uuid): map<Uuid, ToolRecord>
    decreases |ids|
  {
    if ids == [] then c
    else Claim(Claimed(c, ids[..|ids| - 1], player), ids[|ids| - 1], player)
  }

  /** The UUIDs among `ids`. */
  function HeldIds(ids: seq<Option<Uuid>>): set<Uuid> {
    set i | 0 <= i < |ids| && ids[i].Some? :: ids[i].value
  }

  /** After the join loop, every registered tool whose item the player carries
      is owned by that player, and every other entry is as it was. */
  lemma {:induction false} ClaimedMeaning(c: map<Uuid, ToolRecord>, ids: seq<Option<Uuid>>, player: Uuid)
    ensures Claimed(c, ids, player).Keys == c.Keys
    ensures forall u :: u in c ==>
      Claimed(c, ids, player)[u] == (if u in HeldIds(ids) then c[u].(owner := Some(player)) else c[u])
    decreases |ids|
  {
    if ids != [] {
      var init := ids[..|ids| - 1];
      ClaimedMeaning(c, init, player);
      var last := ids[|ids| - 1];
      assert HeldIds(ids) == HeldIds(init) + (if last.Some? then {last.value} else {}) by {
        forall u | u in HeldIds(ids)
          ensures u in HeldIds(init) || last == Some(u)
        {
          var i :| 0 <= i < |ids| && ids[i].Some? && ids[i].value == u;
          if i < |init| { assert init[i] == ids[i]; }
        }
        forall u | u in HeldIds(init)
          ensures u in HeldIds(ids)
        {
          var i :| 0 <= i < |init| && init[i].Some? && init[i].value == u;
          assert ids[i] == init[i];
        }
      }
    }
  }

  /** `onPlayerJoin`: every tool item in the player's inventory is assigned to
      the player. */
  method OnPlayerJoin(tm: ToolManager, player: Uuid, server: Server)
    requires tm.Valid()
    modifies tm.activeTools.Values
    ensures tm.activeTools == old(tm.activeTools) && tm.Valid()
    ensures tm.Contents() == Claimed(old(tm.Contents()), SlotIds(server.Inventory(player)), player)
  {
    var contents := server.Inventory(player);
    ghost var ids := SlotIds(contents);
    var i := 0;
    while i < |contents|
      invariant 0 <= i <= |contents|
      invariant tm.activeTools == old(tm.activeTools) && tm.Valid()
      invariant tm.Contents() == Claimed(old(tm.Contents()), ids[..i], player)
    {
      ClaimSlot(tm, contents[i], player);
      ClaimedLast(old(tm.Contents()), ids, i, player);
      i := i + 1;
    }
    assert ids[..|contents|] == ids;
  }

  /** One pass of the join loop: a tool item is assigned to the player. */
  method ClaimSlot(tm: ToolManager, item: Option<ItemStack>, player: Uuid)
    requires tm.Valid()
    modifies tm.activeTools.Values
    ensures tm.activeTools == old(tm.activeTools) && tm.Valid()
    ensures tm.Contents() == Claim(old(tm.Contents()), GetToolUUID(item), player)
  {
    if item.Some? && IsAmethystTool(item) {
      tm.AssignToolToPlayer(item, player);
    } else {
      assert GetToolUUID(item).None?;
    }
  }

  /** Claiming one more slot's UUID. */
  lemma ClaimedLast(c: map<Uuid, ToolRecord>, ids: seq<Option<Uuid>>, i: nat, player: Uuid)
    requires i < |ids|
    ensures Claimed(c, ids[..i + 1], player) == Claim(Claimed(c, ids[..i], player), ids[i], player)
  {
    assert ids[..i + 1][..i] == ids[..i];
  }

  /** `onPlayerItemHeld`: a tool in the newly selected slot has its lore
      refreshed in place (UUID masked) and is assigned to the player. */
  method OnPlayerItemHeld(tm: ToolManager, player: Uuid, newSlot: nat, server: Server, cfg: Config, now: int,
                          stripLegacy: string -> string)
    requires tm.Valid() && newSlot < |server.Inventory(player)|
    modifies server, tm.activeTools.Values
    ensures tm.activeTools == old(tm.activeTools) && tm.Valid()
    ensures server.online == old(server.online) && server.notices == old(server.notices)
    ensures var item := old(server.Inventory(player))[newSlot];
      IsAmethystTool(item) ==>
        server.inventories == old(server.inventories)[player :=
          old(server.Inventory(player))[newSlot := Some(Refreshed(item.value, cfg.toolLifetime, now, stripLegacy, false))]]
    ensures var item := old(server.Inventory(player))[newSlot];
      IsAmethystTool(item) ==> tm.Contents() == Claim(old(tm.Contents()), GetToolUUID(item), player)
    ensures !IsAmethystTool(old(server.Inventory(player))[newSlot]) ==>
      server.inventories == old(server.inventories) && tm.Contents() == old(tm.Contents())
  {
    var slots := server.Inventory(player);
    var item := slots[newSlot];
    if item.Some? && IsAmethystTool(item) {
      var updated := UpdateToolLore(item.value, cfg, now, stripLegacy);
      server.SetInventory(player, slots[newSlot := Some(updated)]);
      RefreshedKeepsTags(item.value, cfg.toolLifetime, now, stripLegacy, false);
      tm.AssignToolToPlayer(Some(updated), player);
    }
  }

  /** One half of `onInventoryClick`: a tool stack is assigned to the player
      and then has its lore refreshed (UUID masked). */
  method ClaimAndRefresh(tm: ToolManager, item: Option<ItemStack>, player: Uuid, cfg: Config, now: int,
                         stripLegacy: string -> string)
    returns (r: Option<ItemStack>)
    requires tm.Valid()
    modifies tm.activeTools.Values
    ensures tm.activeTools == old(tm.activeTools) && tm.Valid()
    ensures IsAmethystTool(item) ==>
      r == Some(Refreshed(item.value, cfg.toolLifetime, now, stripLegacy, false)) &&
      tm.Contents() == Claim(old(tm.Contents()), GetToolUUID(item), player)
    ensures !IsAmethystTool(item) ==> r == item && tm.Contents() == old(tm.Contents())
  {
    r := item;
    if item.Some? && IsAmethystTool(item) {
      tm.AssignToolToPlayer(item, player);
      var updated := UpdateToolLore(item.value, cfg, now, stripLegacy);
      r := Some(updated);
    }
  }

  /** `onInventoryClick`: for a clicking player, the clicked stack and then
      the stack on the cursor, when they are tools, are assigned to the player
      and have their lore refreshed; nothing happens for another clicker. */
  method OnInventoryClick(tm: ToolManager, clicker: Option<Uuid>, current: Option<ItemStack>,
                          cursor: Option<ItemStack>, cfg: Config, now: int, stripLegacy: string -> string)
    returns (current': Option<ItemStack>, cursor': Option<ItemStack>)
    requires tm.Valid()
    modifies tm.activeTools.Values
    ensures tm.activeTools == old(tm.activeTools) && tm.Valid()
    ensures clicker.None? ==> current' == current && cursor' == cursor && tm.Contents() == old(tm.Contents())
    ensures clicker.Some? ==>
      tm.Contents() == Claim(Claim(old(tm.Contents()), GetToolUUID(current), clicker.value), GetToolUUID(cursor), clicker.value) &&
      current' == (if IsAmethystTool(current) then Some(Refreshed(current.value, cfg.toolLifetime, now, stripLegacy, false)) else current) &&
      cursor' == (if IsAmethystTool(cursor) then Some(Refreshed(cursor.value, cfg.toolLifetime, now, stripLegacy, false)) else cursor)
  {
    if clicker.None? {
      return current, cursor;
    }
    current' := ClaimAndRefresh(tm, current, clicker.value, cfg, now, stripLegacy);
    cursor' := ClaimAndRefresh(tm, cursor, clicker.value, cfg, now, stripLegacy);
  }

  /** `onPlayerDropItem`: a dropped tool has its lore refreshed (UUID masked)
      before it lands; any other stack drops as it is. */
  method OnPlayerDropItem(item: ItemStack, cfg: Config, now: int, stripLegacy: string -> string)
    returns (dropped: ItemStack)
    ensures dropped == Refreshed(item, cfg.toolLifetime, now, stripLegacy, false)
    ensures GetToolUUID(Some(dropped)) == GetToolUUID(Some(item))
  {
    dropped := item;
    if IsAmethystTool(Some(item)) {
      dropped := UpdateToolLore(item, cfg, now, stripLegacy);
    }
    RefreshedKeepsTags(item, cfg.toolLifetime, now, stripLegacy, false);
  }

  /** `onInventoryPickupItem`: a tool taken in by a hopper has its lore
      refreshed (UUID masked). */
  method OnInventoryPickupItem(item: ItemStack, cfg: Config, now: int, stripLegacy: string -> string)
    returns (picked: ItemStack)
    ensures picked == Refreshed(item, cfg.toolLifetime, now, stripLegacy, false)
    ensures GetToolUUID(Some(picked)) == GetToolUUID(Some(item))
  {
    picked := item;
    if IsAmethystTool(Some(item)) {
      picked := UpdateToolLore(item, cfg, now, stripLegacy);
    }
    RefreshedKeepsTags(item, cfg.toolLifetime, now, stripLegacy, false);
  }

  /** `onItemDespawn`: the despawn of a tool item is always cancelled, so a tool
      on the ground disappears only through its timer. The handler only ever
      sets the event's flag, so for any other item the flag it was given
      (`wasCancelled`, an earlier handler's decision) stays as it was. */
  method OnItemDespawn(item: ItemStack, wasCancelled: bool) returns (cancelled: bool)
    ensures IsAmethystTool(Some(item)) ==> cancelled
    ensures !IsAmethystTool(Some(item)) ==> cancelled == wasCancelled
  {
    cancelled := wasCancelled;
    if IsAmethystTool(Some(item)) {
      cancelled := true;
    }
  }
}
