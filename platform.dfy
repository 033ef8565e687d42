/**
 * The Bukkit item model the core reads and writes: item stacks, their metadata
 * by shape (potion, banner, leather armour, map, skull), and the foreign
 * name-matching tables (XMaterial, XEnchantment, XPotion, PotionType.valueOf,
 * declared enum constants, Color constants), which the model receives as a
 * `Platform` value instead of implementing.
 */
module Items {
  import opened Wrappers

  /** The variables an expression is evaluated against. */
  datatype Env = Env(variables: map<string, string>)

  /** GPEEE.EMPTY_ENVIRONMENT. */
  const EmptyEnvironment := Env(map[])

  /** The classes whose constants are looked up by name. */
  datatype EnumType = ItemFlagType | PatternTypeType | DyeColorType | ColorType

  /** An enum constant or a static self-typed field of a class, by its declared name. */
  datatype Constant = Constant(kind: EnumType, name: string)

  /** An RGB colour. */
  datatype Color = Color(red: int, green: int, blue: int)

  /** Color.fromRGB and new java.awt.Color(r, g, b): each component must lie in 0..255. */
  function FromRgb(red: int, green: int, blue: int): (r: Option<Color>)
    ensures r.Some? <==> 0 <= red < 256 && 0 <= green < 256 && 0 <= blue < 256
    ensures r.Some? ==> r.value.red == red && r.value.green == green && r.value.blue == blue
  {
    if 0 <= red < 256 && 0 <= green < 256 && 0 <= blue < 256 then Some(Color(red, green, blue)) else None
  }

  datatype Material = Material(name: string)
  datatype Enchantment = Enchantment(key: string)
  datatype PotionType = PotionType(name: string)
  datatype EffectType = EffectType(name: string)

  /** An XPotion entry: the potion type and the effect type it stands for, either of which may be missing. */
  datatype XPotion = XPotion(potionType: Option<PotionType>, effectType: Option<EffectType>)

  /** A banner pattern: a dye colour and a pattern type, both declared constants. */
  datatype Pattern = Pattern(color: Constant, pattern: Constant)

  datatype PotionEffect = PotionEffect(
    kind: EffectType, duration: int, amplifier: int, ambient: bool, particles: bool, icon: bool)

  datatype PotionData = PotionData(kind: PotionType, extended: bool, upgraded: bool)

  /** The meta sub-interface an item's metadata implements, with the state that sub-interface adds. */
  datatype Shape =
    | Plain
    | PotionMeta(potionColor: Option<Color>, base: PotionData, effects: seq<PotionEffect>)
    | BannerMeta(patterns: seq<Pattern>)
    | LeatherArmorMeta(leatherColor: Color)
    | MapMeta(mapColor: Option<Color>)
    | SkullMeta(profileTextures: Option<string>)

  /** ItemMeta: display name and lore may be unset (null); enchantments map to their levels. */
  datatype Meta = Meta(
    displayName: Option<string>,
    lore: Option<seq<string>>,
    flags: set<Constant>,
    enchants: map<Enchantment, int>,
    shape: Shape)

  /** ItemStack: getItemMeta may be null. */
  datatype Item = Item(material: Material, amount: int, meta: Option<Meta>)

  /**
   * The library lookups the core calls but does not define.
   *   constants(t)        the declared constants of class t, in declaration order
   *   colorOf(c)          the Color a Color constant holds
   *   matchMaterial(s)    XMaterial.matchXMaterial
   *   matchEnchantment(s) XEnchantment.matchXEnchantment(s).getEnchant()
   *   matchPotion(s)      XPotion.matchXPotion
   *   potionTypeByName(s) PotionType.valueOf
   *   retype(m, mat)      the metadata of an item after XMaterial.setType
   */
  datatype Platform = Platform(
    constants: EnumType -> seq<Constant>,
    colorOf: Constant -> Color,
    matchMaterial: string -> Option<Material>,
    matchEnchantment: string -> Option<Enchantment>,
    matchPotion: string -> Option<XPotion>,
    potionTypeByName: string -> Option<PotionType>,
    retype: (Meta, Material) -> Meta)

  /** Meta.getEnchantLevel: the level, or 0 when the enchantment is absent. */
  function EnchantLevel(meta: Meta, e: Enchantment): (r: int)
    ensures e !in meta.enchants ==> r == 0
    ensures e in meta.enchants ==> r == meta.enchants[e]
  {
    if e in meta.enchants then meta.enchants[e] else 0
  }

  /** ItemBuilder.applyColor: colours leather armour, potions and maps; other shapes are left alone. */
  function ApplyColor(meta: Meta, c: Color): (r: Meta)
    ensures r.displayName == meta.displayName && r.lore == meta.lore
    ensures r.flags == meta.flags && r.enchants == meta.enchants
    ensures meta.shape.LeatherArmorMeta? ==> r.shape == LeatherArmorMeta(c)
    ensures meta.shape.PotionMeta? ==> r.shape == meta.shape.(potionColor := Some(c))
    ensures meta.shape.MapMeta? ==> r.shape == MapMeta(Some(c))
    ensures !(meta.shape.LeatherArmorMeta? || meta.shape.PotionMeta? || meta.shape.MapMeta?) ==> r == meta
  {
    match meta.shape
    case LeatherArmorMeta(_) => meta.(shape := LeatherArmorMeta(c))
    case PotionMeta(_, base, effects) => meta.(shape := PotionMeta(Some(c), base, effects))
    case MapMeta(_) => meta.(shape := MapMeta(Some(c)))
    case _ => meta
  }

  /** ItemBuilder.applyBaseEffect: only a potion takes a base effect. */
  function ApplyBaseEffect(meta: Meta, data: PotionData): (r: Meta)
    ensures meta.shape.PotionMeta? ==> r == meta.(shape := meta.shape.(base := data))
    ensures !meta.shape.PotionMeta? ==> r == meta
  {
    if meta.shape.PotionMeta? then meta.(shape := meta.shape.(base := data)) else meta
  }

  /** The index of the first effect of kind k, or the length when there is none. */
  function FirstOfKind(effects: seq<PotionEffect>, k: EffectType): (i: nat)
    ensures i <= |effects|
    ensures i < |effects| ==> effects[i].kind == k
    ensures forall j :: 0 <= j < i ==> effects[j].kind != k
    decreases |effects|
  {
    if |effects| == 0 then 0
    else if effects[0].kind == k then 0
    else 1 + FirstOfKind(effects[1..], k)
  }

  /**
   * PotionMeta.addCustomEffect(effect, true): the first effect of the same
   * type is replaced in place, otherwise the effect is appended; every other
   * effect keeps its position.
   */
  function AddCustomEffect(effects: seq<PotionEffect>, e: PotionEffect): (r: seq<PotionEffect>)
    ensures FirstOfKind(effects, e.kind) < |effects| ==>
      r == effects[..FirstOfKind(effects, e.kind)] + [e] + effects[FirstOfKind(effects, e.kind) + 1..]
    ensures FirstOfKind(effects, e.kind) == |effects| ==> r == effects + [e]
    decreases |effects|
  {
    if |effects| == 0 then [e]
    else if effects[0].kind == e.kind then [e] + effects[1..]
    else
      var rest := AddCustomEffect(effects[1..], e);
      assert FirstOfKind(effects, e.kind) == 1 + FirstOfKind(effects[1..], e.kind);
      assert FirstOfKind(effects, e.kind) < |effects| ==>
        [effects[0]] + rest == effects[..FirstOfKind(effects, e.kind)] + [e] + effects[FirstOfKind(effects, e.kind) + 1..];
      [effects[0]] + rest
  }

  /** After adding, e is the first effect of its kind, and every effect of another kind stays where it was. */
  lemma AddCustomEffectPositions(effects: seq<PotionEffect>, e: PotionEffect)
    ensures |AddCustomEffect(effects, e)| >= |effects|
    ensures FirstOfKind(AddCustomEffect(effects, e), e.kind) == FirstOfKind(effects, e.kind)
    ensures AddCustomEffect(effects, e)[FirstOfKind(effects, e.kind)] == e
    ensures forall j :: 0 <= j < |effects| && effects[j].kind != e.kind ==> AddCustomEffect(effects, e)[j] == effects[j]
  {
    var r := AddCustomEffect(effects, e);
    var i := FirstOfKind(effects, e.kind);
    if i < |effects| {
      Splice(effects, i, e);
    } else {
      Appended(effects, e);
    }
    FirstOfKindIs(r, e.kind, i);
  }

  /** Replacing the element at i changes that index only. */
  lemma Splice<T>(a: seq<T>, i: nat, x: T)
    requires i < |a|
    ensures |a[..i] + [x] + a[i + 1..]| == |a|
    ensures (a[..i] + [x] + a[i + 1..])[i] == x
    ensures forall j :: 0 <= j < |a| && j != i ==> (a[..i] + [x] + a[i + 1..])[j] == a[j]
  {
  }

  /** Appending keeps every index and puts x at the end. */
  lemma Appended<T>(a: seq<T>, x: T)
    ensures (a + [x])[|a|] == x
    ensures forall j :: 0 <= j < |a| ==> (a + [x])[j] == a[j]
  {
  }

  /** Whether some effect of the list has kind k. */
  predicate HasKind(effects: seq<PotionEffect>, k: EffectType)
  {
    exists j :: 0 <= j < |effects| && effects[j].kind == k
  }

  /** Adding an effect adds its kind and keeps every other kind. */
  lemma AddCustomEffectKinds(effects: seq<PotionEffect>, e: PotionEffect, k: EffectType)
    ensures HasKind(AddCustomEffect(effects, e), k) <==> HasKind(effects, k) || e.kind == k
  {
    AddCustomEffectPositions(effects, e);
    if e.kind != k {
      AddCustomEffectKeepsKind(effects, e, k);
    } else {
      assert AddCustomEffect(effects, e)[FirstOfKind(effects, e.kind)] == e;
    }
  }

  /** For another kind than the added effect's, presence is unchanged. */
  lemma AddCustomEffectKeepsKind(effects: seq<PotionEffect>, e: PotionEffect, k: EffectType)
    requires e.kind != k
    ensures HasKind(AddCustomEffect(effects, e), k) <==> HasKind(effects, k)
  {
    var r := AddCustomEffect(effects, e);
    var i := FirstOfKind(effects, e.kind);
    AddCustomEffectPositions(effects, e);
    if HasKind(r, k) {
      var j :| 0 <= j < |r| && r[j].kind == k;
      if i < |effects| {
        assert r == effects[..i] + [e] + effects[i + 1..];
        assert j != i && r[j] == effects[j];
      } else {
        assert r == effects + [e];
        assert j < |effects| && r[j] == effects[j];
      }
    }
    if HasKind(effects, k) {
      var j :| 0 <= j < |effects| && effects[j].kind == k;
      assert r[j] == effects[j];
    }
  }

  /** An index holding kind k with no k before it is the first of kind k. */
  lemma {:induction false} FirstOfKindIs(effects: seq<PotionEffect>, k: EffectType, i: nat)
    requires i < |effects| && effects[i].kind == k
    requires forall j :: 0 <= j < i ==> effects[j].kind != k
    ensures FirstOfKind(effects, k) == i
    decreases i
  {
    if i > 0 {
      FirstOfKindIs(effects[1..], k, i - 1);
    }
  }

  /** ItemBuilder.applyCustomEffect: only a potion takes custom effects. */
  function ApplyCustomEffect(meta: Meta, e: PotionEffect): (r: Meta)
    ensures meta.shape.PotionMeta? ==> r == meta.(shape := meta.shape.(effects := AddCustomEffect(meta.shape.effects, e)))
    ensures !meta.shape.PotionMeta? ==> r == meta
  {
    if meta.shape.PotionMeta? then meta.(shape := meta.shape.(effects := AddCustomEffect(meta.shape.effects, e))) else meta
  }

  /** ItemBuilder.applyTextures: only a skull takes a textures profile. */
  function ApplyTextures(meta: Meta, textures: string): (r: Meta)
    ensures meta.shape.SkullMeta? ==> r == meta.(shape := SkullMeta(Some(textures)))
    ensures !meta.shape.SkullMeta? ==> r == meta
  {
    if meta.shape.SkullMeta? then meta.(shape := SkullMeta(Some(textures))) else meta
  }

  /** ItemBuilder.applyPattern: only a banner takes patterns; they are appended. */
  function ApplyPattern(meta: Meta, p: Pattern): (r: Meta)
    ensures meta.shape.BannerMeta? ==> r == meta.(shape := BannerMeta(meta.shape.patterns + [p]))
    ensures !meta.shape.BannerMeta? ==> r == meta
  {
    if meta.shape.BannerMeta? then meta.(shape := BannerMeta(meta.shape.patterns + [p])) else meta
  }
}
