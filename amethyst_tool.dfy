/** `AmethystTool`: the registry entry for one issued tool. Its UUID, kind and
    creation time are fixed when it is made; only the owner changes. */
module ToolEntity {
  import opened Common
  import opened Uuids
  import opened ToolTypes

  class AmethystTool {
    const toolUUID: Uuid
    const toolType: ToolType
    /** Milliseconds since the epoch. */
    const creationTime: int
    var ownerUUID: Option<Uuid>

    constructor(toolUUID: Uuid, toolType: ToolType, creationTime: int, ownerUUID: Option<Uuid>)
      ensures this.toolUUID == toolUUID && this.toolType == toolType
      ensures this.creationTime == creationTime && this.ownerUUID == ownerUUID
    {
      this.toolUUID := toolUUID;
      this.toolType := toolType;
      this.creationTime := creationTime;
      this.ownerUUID := ownerUUID;
    }

    /** Only the owner changes; the other fields are constants. */
    method SetOwnerUUID(owner: Option<Uuid>)
      modifies this
      ensures ownerUUID == owner
    {
      ownerUUID := owner;
    }

    /** `hasOwner()`: an owner has been recorded. */
    predicate HasOwner()
      reads this
    {
      ownerUUID.Some?
    }

    /** `getAge()` at clock reading `now`, in milliseconds. */
    function Age(now: int): (r: int)
      ensures r + creationTime == now
    {
      now - creationTime
    }

    /** `equals(obj)`: the same object, or another tool with the same UUID. */
    predicate Equals(that: AmethystTool?) {
      that == this || (that != null && toolUUID == that.toolUUID)
    }

    /** `hashCode()`: the hash of the UUID. */
    function HashCode(): (h: int)
      ensures IsInt32(h)
    {
      UuidHash(toolUUID)
    }
  }

  /** Two tools are equal exactly when their UUIDs are. */
  lemma EqualsIff(a: AmethystTool, b: AmethystTool)
    ensures a.Equals(b) <==> a.toolUUID == b.toolUUID
  {
  }

  /** `equals` is an equivalence relation. */
  lemma EqualsEquivalence(a: AmethystTool, b: AmethystTool, c: AmethystTool)
    ensures a.Equals(a)
    ensures a.Equals(b) ==> b.Equals(a)
    ensures a.Equals(b) && b.Equals(c) ==> a.Equals(c)
  {
  }

  /** Equal tools have equal hash codes, as `Object.hashCode` requires. */
  lemma EqualsHashCode(a: AmethystTool, b: AmethystTool)
    requires a.Equals(b)
    ensures a.HashCode() == b.HashCode()
  {
  }

  /** A tool's age grows with the clock by exactly the elapsed time. */
  lemma AgeElapsed(t: AmethystTool, now: int, later: int)
    ensures t.Age(later) - t.Age(now) == later - now
  {
  }
}
