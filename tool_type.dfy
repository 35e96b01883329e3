/** The six kinds of Amethyst tool (`ToolType`), their configuration keys,
    enum constant names and display names. */
module ToolTypes {
  import opened Common

  datatype ToolType = TreeChopper | SellAxe | Pickaxe | Bucket | Torch | Rocket

  /** `ToolType.values()`, in declaration order. */
  const AllToolTypes: seq<ToolType> := [TreeChopper, SellAxe, Pickaxe, Bucket, Torch, Rocket]

  lemma AllToolTypesComplete(t: ToolType)
    ensures t in AllToolTypes
  {
  }

  /** `getConfigName()`: the key of the tool's configuration section. */
  function ConfigName(t: ToolType): string {
    match t
    case TreeChopper => "tree-chopper"
    case SellAxe => "sell-axe"
    case Pickaxe => "pickaxe"
    case Bucket => "bucket"
    case Torch => "torch"
    case Rocket => "rocket"
  }

  /** `name()`: the enum constant name, stored in a tool item's kind tag. */
  function Name(t: ToolType): string {
    match t
    case TreeChopper => "TREE_CHOPPER"
    case SellAxe => "SELL_AXE"
    case Pickaxe => "PICKAXE"
    case Bucket => "BUCKET"
    case Torch => "TORCH"
    case Rocket => "ROCKET"
  }

  /** `getDisplayName()`. */
  function DisplayName(t: ToolType): (r: string)
    ensures "Amethyst " <= r
  {
    match t
    case TreeChopper => "Amethyst Tree Chopper"
    case SellAxe => "Amethyst Sell Axe"
    case Pickaxe => "Amethyst Pickaxe"
    case Bucket => "Amethyst Bucket"
    case Torch => "Amethyst Torch"
    case Rocket => "Amethyst Rocket"
  }

  /** The linear search of `fromConfigName`: the first of `types` whose
      configuration key equals `s`. */
  function FindByConfigName(s: string, types: seq<ToolType>): (r: Option<ToolType>)
    ensures r.Some? ==> r.value in types && ConfigName(r.value) == s
    ensures r.None? ==> forall t :: t in types ==> ConfigName(t) != s
  {
    if types == [] then None
    else if ConfigName(types[0]) == s then Some(types[0])
    else FindByConfigName(s, types[1..])
  }

  /** `fromConfigName(s)`; `None` for `null`. */
  function FromConfigName(s: string): Option<ToolType> {
    FindByConfigName(s, AllToolTypes)
  }

  /** The six configuration keys are pairwise distinct. */
  lemma ConfigNamesDistinct(a: ToolType, b: ToolType)
    requires ConfigName(a) == ConfigName(b)
    ensures a == b
  {
  }

  /** `fromConfigName` finds a type exactly for its own key: every key maps back
      to its type, and every other string maps to `None`. */
  lemma FromConfigNameIff(s: string, t: ToolType)
    ensures FromConfigName(s) == Some(t) <==> s == ConfigName(t)
  {
    AllToolTypesComplete(t);
    if s == ConfigName(t) {
      var r := FromConfigName(s);
      assert r.Some?;
      ConfigNamesDistinct(r.value, t);
    }
  }

  /** `ToolType.valueOf(s)`; `None` where Java throws `IllegalArgumentException`. */
  function ValueOf(s: string): (r: Option<ToolType>)
    ensures r.Some? ==> Name(r.value) == s
  {
    if s == "TREE_CHOPPER" then Some(TreeChopper)
    else if s == "SELL_AXE" then Some(SellAxe)
    else if s == "PICKAXE" then Some(Pickaxe)
    else if s == "BUCKET" then Some(Bucket)
    else if s == "TORCH" then Some(Torch)
    else if s == "ROCKET" then Some(Rocket)
    else None
  }

  /** `valueOf(t.name()) == t`. */
  lemma ValueOfName(t: ToolType)
    ensures ValueOf(Name(t)) == Some(t)
  {
  }
}
