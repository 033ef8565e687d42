/**
 * ItemBuilder: a base item and meta, five repeatable groups (lore blocks,
 * flag values, enchantment sections, custom effect sections, banner pattern
 * sections), each with an override flag, and singleton templates. Setters
 * extend or override the groups in place; copy and patch make new builders;
 * build evaluates every template against clones of the base item.
 *
 * The builder's state as a value is `BuilderState`; each mutator of the
 * class is proved to perform the matching transition on that value, and
 * build is proved to compute `BuildSpec`.
 */
module ItemBuilders {
  import opened Wrappers
  import opened Items
  import opened Evaluables
  import opened EnchantmentSections
  import opened CustomEffectSections
  import opened BannerPatternSections
  import opened BaseEffectSections
  import S = ItemStackSections

  /** A repeatable group: its entries and whether build first clears what the base meta holds. */
  datatype Group<T> = Group(override: bool, entries: seq<T>)

  /** Everything a builder holds, as a value. */
  datatype BuilderState = BuilderState(
    baseItem: Item,
    baseMeta: Meta,
    name: Option<Evaluable>,
    amount: Option<Evaluable>,
    kind: Option<Evaluable>,
    color: Option<Evaluable>,
    textures: Option<Evaluable>,
    baseEffect: Option<BaseEffectSection>,
    lore: Group<Evaluable>,
    flags: Group<Evaluable>,
    enchantments: Group<EnchantmentSection>,
    customEffects: Group<CustomEffectSection>,
    bannerPatterns: Group<BannerPatternSection>)

  //////////////////////////////// Transitions ////////////////////////////////

  /** An empty group that does not override. */
  function EmptyGroup<T>(): Group<T> {
    Group(false, [])
  }

  /** extend…: a null argument changes nothing; otherwise the entries are appended and the override is off. */
  function Extended<T>(g: Group<T>, xs: Option<seq<T>>): (r: Group<T>)
    ensures xs.None? ==> r == g
    ensures xs.Some? ==>
      !r.override && |r.entries| == |g.entries| + |xs.value| &&
      r.entries[..|g.entries|] == g.entries && r.entries[|g.entries|..] == xs.value
  {
    if xs.None? then g else Group(false, g.entries + xs.value)
  }

  /** overrideEnchantments, overrideCustomEffects, overrideBannerPatterns: always override, with nothing for null. */
  function Replaced<T>(xs: Option<seq<T>>): Group<T> {
    Group(true, if xs.None? then [] else xs.value)
  }

  /** overrideLore, overrideFlags: a null value changes nothing; otherwise the group is exactly that value. */
  function ReplacedByValue<T>(g: Group<T>, x: Option<T>): Group<T> {
    if x.None? then g else Group(true, [x.value])
  }

  /** A single nullable value as a nullable list of one. */
  function Single<T>(x: Option<T>): Option<seq<T>> {
    if x.None? then None else Some([x.value])
  }

  /** A nullable setter argument: null keeps the current value. */
  function OrKeep<T>(x: Option<T>, current: Option<T>): Option<T> {
    if x.None? then current else x
  }

  /** A new builder: the item at the given amount, its meta, no templates, no overrides. */
  function NewState(item: Item, amount: int): BuilderState
    requires item.meta.Some?
  {
    BuilderState(item.(amount := amount), item.meta.value, None, None, None, None, None, None,
      EmptyGroup(), EmptyGroup(), EmptyGroup(), EmptyGroup(), EmptyGroup())
  }

  /** setType, setAmount, setColor, setTextures, setBaseEffect: a null argument changes nothing. */
  function WithType(s: BuilderState, kind: Option<Evaluable>): BuilderState {
    s.(kind := OrKeep(kind, s.kind))
  }

  function WithAmount(s: BuilderState, amount: Option<Evaluable>): BuilderState {
    s.(amount := OrKeep(amount, s.amount))
  }

  function WithColor(s: BuilderState, color: Option<Evaluable>): BuilderState {
    s.(color := OrKeep(color, s.color))
  }

  function WithTextures(s: BuilderState, textures: Option<Evaluable>): BuilderState {
    s.(textures := OrKeep(textures, s.textures))
  }

  function WithBaseEffect(s: BuilderState, effect: Option<BaseEffectSection>): BuilderState {
    s.(baseEffect := OrKeep(effect, s.baseEffect))
  }

  /** setName stores its argument, null included. */
  function WithName(s: BuilderState, name: Option<Evaluable>): BuilderState {
    s.(name := name)
  }

  function LoreExtended(s: BuilderState, lore: Option<Evaluable>): BuilderState {
    s.(lore := Extended(s.lore, Single(lore)))
  }

  function LoreOverridden(s: BuilderState, lore: Option<Evaluable>): BuilderState {
    s.(lore := ReplacedByValue(s.lore, lore))
  }

  function FlagsExtended(s: BuilderState, flags: Option<Evaluable>): BuilderState {
    s.(flags := Extended(s.flags, Single(flags)))
  }

  function FlagsOverridden(s: BuilderState, flags: Option<Evaluable>): BuilderState {
    s.(flags := ReplacedByValue(s.flags, flags))
  }

  function EnchantmentsExtended(s: BuilderState, es: Option<seq<EnchantmentSection>>): BuilderState {
    s.(enchantments := Extended(s.enchantments, es))
  }

  function EnchantmentsOverridden(s: BuilderState, es: Option<seq<EnchantmentSection>>): BuilderState {
    s.(enchantments := Replaced(es))
  }

  function CustomEffectsExtended(s: BuilderState, es: Option<seq<CustomEffectSection>>): BuilderState {
    s.(customEffects := Extended(s.customEffects, es))
  }

  function CustomEffectsOverridden(s: BuilderState, es: Option<seq<CustomEffectSection>>): BuilderState {
    s.(customEffects := Replaced(es))
  }

  function BannerPatternsExtended(s: BuilderState, ps: Option<seq<BannerPatternSection>>): BuilderState {
    s.(bannerPatterns := Extended(s.bannerPatterns, ps))
  }

  function BannerPatternsOverridden(s: BuilderState, ps: Option<seq<BannerPatternSection>>): BuilderState {
    s.(bannerPatterns := Replaced(ps))
  }

  /** patch's lore step: overrideLore with the patch flag, extendLore without. */
  function LorePatched(s: BuilderState, data: S.ItemStackSection): BuilderState {
    s.(lore := if S.OverrideLore in data.patchFlags then ReplacedByValue(s.lore, data.lore) else Extended(s.lore, Single(data.lore)))
  }

  /** patch's flags step: overrideFlags with the patch flag, extendFlags without. */
  function FlagsPatched(s: BuilderState, data: S.ItemStackSection): BuilderState {
    s.(flags := if S.OverrideFlags in data.patchFlags then ReplacedByValue(s.flags, data.flags) else Extended(s.flags, Single(data.flags)))
  }

  /** patch's enchantments step: overrideEnchantments with the patch flag, extendEnchantments without. */
  function EnchantmentsPatched(s: BuilderState, data: S.ItemStackSection): BuilderState {
    s.(enchantments := if S.OverrideEnchantments in data.patchFlags then Replaced(data.enchantments)
                       else Extended(s.enchantments, data.enchantments))
  }

  /** patch's custom effects step: overrideCustomEffects with the patch flag, extendCustomEffects without. */
  function CustomEffectsPatched(s: BuilderState, data: S.ItemStackSection): BuilderState {
    s.(customEffects := if S.OverrideCustomEffects in data.patchFlags then Replaced(data.customEffects)
                        else Extended(s.customEffects, data.customEffects))
  }

  /** patch's banner patterns step: overrideBannerPatterns with the patch flag, extendBannerPatterns without. */
  function BannerPatternsPatched(s: BuilderState, data: S.ItemStackSection): BuilderState {
    s.(bannerPatterns := if S.OverrideBannerPatterns in data.patchFlags then Replaced(data.bannerPatterns)
                         else Extended(s.bannerPatterns, data.bannerPatterns))
  }

  /**
   * patch, on a copy, in the code's order: present singletons replace the
   * old ones (a null name is skipped, unlike setName), and each group is
   * overridden when the section carries its patch flag and extended otherwise.
   */
  function Patched(s: BuilderState, data: S.ItemStackSection): BuilderState
  {
    var s1 := WithName(WithType(WithAmount(s, data.amount), data.kind), OrKeep(data.name, s.name));
    var s2 := WithColor(FlagsPatched(LorePatched(s1, data), data), data.color);
    var s3 := WithBaseEffect(WithTextures(EnchantmentsPatched(s2, data), data.textures), data.baseEffect);
    BannerPatternsPatched(CustomEffectsPatched(s3, data), data)
  }

  /**
   * The extend setters: a null argument changes nothing; otherwise the
   * values go to the end of that group only and its override flag turns off.
   */
  lemma ExtendSetters(s: BuilderState, x: Evaluable, es: seq<EnchantmentSection>,
                      cs: seq<CustomEffectSection>, ps: seq<BannerPatternSection>)
    ensures LoreExtended(s, None) == s && FlagsExtended(s, None) == s
    ensures EnchantmentsExtended(s, None) == s && CustomEffectsExtended(s, None) == s && BannerPatternsExtended(s, None) == s
    ensures LoreExtended(s, Some(x)) == s.(lore := Group(false, s.lore.entries + [x]))
    ensures FlagsExtended(s, Some(x)) == s.(flags := Group(false, s.flags.entries + [x]))
    ensures EnchantmentsExtended(s, Some(es)) == s.(enchantments := Group(false, s.enchantments.entries + es))
    ensures CustomEffectsExtended(s, Some(cs)) == s.(customEffects := Group(false, s.customEffects.entries + cs))
    ensures BannerPatternsExtended(s, Some(ps)) == s.(bannerPatterns := Group(false, s.bannerPatterns.entries + ps))
  {
  }

  /**
   * The override setters: overrideLore and overrideFlags ignore null and
   * otherwise leave exactly the one value; the three list overrides always
   * set the flag and leave exactly the given entries, none for null.
   */
  lemma OverrideSetters(s: BuilderState, x: Evaluable, es: Option<seq<EnchantmentSection>>,
                        cs: Option<seq<CustomEffectSection>>, ps: Option<seq<BannerPatternSection>>)
    ensures LoreOverridden(s, None) == s && FlagsOverridden(s, None) == s
    ensures LoreOverridden(s, Some(x)) == s.(lore := Group(true, [x]))
    ensures FlagsOverridden(s, Some(x)) == s.(flags := Group(true, [x]))
    ensures EnchantmentsOverridden(s, es) == s.(enchantments := Group(true, OrEmpty(es)))
    ensures CustomEffectsOverridden(s, cs) == s.(customEffects := Group(true, OrEmpty(cs)))
    ensures BannerPatternsOverridden(s, ps) == s.(bannerPatterns := Group(true, OrEmpty(ps)))
  {
  }

  /** The singleton setters: null keeps the old template, except for setName, which clears it. */
  lemma SingletonSetters(s: BuilderState, x: Evaluable, b: BaseEffectSection)
    ensures WithType(s, None) == s && WithAmount(s, None) == s && WithColor(s, None) == s
    ensures WithTextures(s, None) == s && WithBaseEffect(s, None) == s
    ensures WithName(s, None) == s.(name := None)
    ensures WithType(s, Some(x)) == s.(kind := Some(x)) && WithAmount(s, Some(x)) == s.(amount := Some(x))
    ensures WithColor(s, Some(x)) == s.(color := Some(x)) && WithTextures(s, Some(x)) == s.(textures := Some(x))
    ensures WithBaseEffect(s, Some(b)) == s.(baseEffect := Some(b)) && WithName(s, Some(x)) == s.(name := Some(x))
  {
  }

  /** new ItemStack(Material.BARRIER): a plain item with empty meta. */
  const BarrierItem := Item(Material("BARRIER"), 1, Some(Meta(None, None, {}, map[], Plain)))

  /** asItem: a barrier builder of amount 1, then the section's fields set or extended in the code's order. */
  function AsItemState(sec: S.ItemStackSection): BuilderState
  {
    var s0 := NewState(BarrierItem, 1);
    var s1 := WithAmount(WithType(s0, sec.kind), sec.amount);
    var s2 := FlagsExtended(LoreExtended(WithName(BannerPatternsExtended(s1, sec.bannerPatterns), sec.name), sec.lore), sec.flags);
    var s3 := WithTextures(WithColor(EnchantmentsExtended(s2, sec.enchantments), sec.color), sec.textures);
    CustomEffectsExtended(WithBaseEffect(s3, sec.baseEffect), sec.customEffects)
  }

  /** A nullable list read as a list, null as empty. */
  function OrEmpty<T>(xs: Option<seq<T>>): seq<T> {
    if xs.None? then [] else xs.value
  }

  /**
   * A section turned into a builder: no override flag is set, every group
   * holds exactly the section's entries, and every template is the
   * section's own, over a barrier of amount 1.
   */
  lemma AsItemExtendsOnly(sec: S.ItemStackSection)
    ensures AsItemState(sec) == BuilderState(BarrierItem, BarrierItem.meta.value,
      sec.name, sec.amount, sec.kind, sec.color, sec.textures, sec.baseEffect,
      Group(false, OrEmpty(Single(sec.lore))), Group(false, OrEmpty(Single(sec.flags))),
      Group(false, OrEmpty(sec.enchantments)), Group(false, OrEmpty(sec.customEffects)),
      Group(false, OrEmpty(sec.bannerPatterns)))
  {
  }

  /** Patching with a section whose every field is absent changes nothing. */
  lemma PatchWithEmptySection(s: BuilderState)
    ensures Patched(s, S.EmptySection) == s
  {
  }

  /**
   * What patch does to each group: with its patch flag the group is
   * overridden, otherwise the section's entries are appended. Lore and flags
   * keep their group when the section has none even under the flag, while
   * the three list groups are then emptied.
   */
  lemma PatchGroups(s: BuilderState, data: S.ItemStackSection)
    ensures Patched(s, data).lore ==
      if S.OverrideLore in data.patchFlags then ReplacedByValue(s.lore, data.lore) else Extended(s.lore, Single(data.lore))
    ensures Patched(s, data).flags ==
      if S.OverrideFlags in data.patchFlags then ReplacedByValue(s.flags, data.flags) else Extended(s.flags, Single(data.flags))
    ensures Patched(s, data).enchantments ==
      if S.OverrideEnchantments in data.patchFlags then Group(true, OrEmpty(data.enchantments))
      else Extended(s.enchantments, data.enchantments)
    ensures Patched(s, data).customEffects ==
      if S.OverrideCustomEffects in data.patchFlags then Group(true, OrEmpty(data.customEffects))
      else Extended(s.customEffects, data.customEffects)
    ensures Patched(s, data).bannerPatterns ==
      if S.OverrideBannerPatterns in data.patchFlags then Group(true, OrEmpty(data.bannerPatterns))
      else Extended(s.bannerPatterns, data.bannerPatterns)
  {
  }

  /** Patch never clears a template: a present field replaces, an absent one keeps the old value (the name included). */
  lemma PatchSingletons(s: BuilderState, data: S.ItemStackSection)
    ensures Patched(s, data).name == (if data.name.Some? then data.name else s.name)
    ensures Patched(s, data).kind == (if data.kind.Some? then data.kind else s.kind)
    ensures Patched(s, data).amount == (if data.amount.Some? then data.amount else s.amount)
    ensures Patched(s, data).color == (if data.color.Some? then data.color else s.color)
    ensures Patched(s, data).textures == (if data.textures.Some? then data.textures else s.textures)
    ensures Patched(s, data).baseEffect == (if data.baseEffect.Some? then data.baseEffect else s.baseEffect)
    ensures Patched(s, data).baseItem == s.baseItem && Patched(s, data).baseMeta == s.baseMeta
  {
  }

  ////////////////////////////////// Build stages //////////////////////////////////

  /** The item and meta after the type step: a resolved material retypes the item and re-reads its meta. */
  function TypedItem(s: BuilderState, p: Platform, env: Env): (Item, Meta)
  {
    if s.kind.Some? && AsXMaterial(p, s.kind.value, env).Some? then
      var material := AsXMaterial(p, s.kind.value, env).value;
      (s.baseItem.(material := material), p.retype(s.baseMeta, material))
    else (s.baseItem, s.baseMeta)
  }

  /** The meta after the type and display-name steps. */
  function NamedMeta(s: BuilderState, p: Platform, env: Env): Meta
  {
    var meta := TypedItem(s, p, env).1;
    if s.name.Some? then meta.(displayName := Some(s.name.value.text(env))) else meta
  }

  /** The lines of the lore blocks, block after block. */
  function LoreLines(blocks: seq<Evaluable>, env: Env): seq<string>
    decreases |blocks|
  {
    if |blocks| == 0 then [] else LoreLines(blocks[..|blocks| - 1], env) + blocks[|blocks| - 1].lines(env)
  }

  /** Lore lines of two runs of blocks are the lines of the first run, then those of the second. */
  lemma {:induction false} LoreLinesAppend(a: seq<Evaluable>, b: seq<Evaluable>, env: Env)
    ensures LoreLines(a + b, env) == LoreLines(a, env) + LoreLines(b, env)
    decreases |b|
  {
    if |b| == 0 {
      assert a + b == a;
    } else {
      assert (a + b)[..|a + b| - 1] == a + b[..|b| - 1];
      LoreLinesAppend(a, b[..|b| - 1], env);
    }
  }

  /** A line is in the built lore's new part exactly when some block produced it. */
  lemma {:induction false} LoreLinesMembers(blocks: seq<Evaluable>, env: Env, line: string)
    ensures line in LoreLines(blocks, env) <==> exists i :: 0 <= i < |blocks| && line in blocks[i].lines(env)
    decreases |blocks|
  {
    if |blocks| > 0 {
      var prefix := blocks[..|blocks| - 1];
      LoreLinesMembers(prefix, env, line);
      if line in LoreLines(prefix, env) {
        var i :| 0 <= i < |prefix| && line in prefix[i].lines(env);
        assert blocks[i] == prefix[i];
      }
      if exists i :: 0 <= i < |blocks| && line in blocks[i].lines(env) {
        var i :| 0 <= i < |blocks| && line in blocks[i].lines(env);
        if i < |blocks| - 1 {
          assert prefix[i] == blocks[i];
        }
      }
    }
  }

  /**
   * The lore step: an override first clears the lore; with blocks, the lore
   * becomes the remaining lines (none when cleared or unset) followed by the
   * blocks' lines. Only the lore changes.
   */
  function LoreStage(meta: Meta, override: bool, blocks: seq<Evaluable>, env: Env): (r: Meta)
    ensures r == meta.(lore := r.lore)
    ensures |blocks| == 0 && override ==> r.lore.None?
    ensures |blocks| == 0 && !override ==> r.lore == meta.lore
    ensures |blocks| > 0 ==> r.lore == Some((if override || meta.lore.None? then [] else meta.lore.value) + LoreLines(blocks, env))
  {
    var cleared := if override then meta.(lore := None) else meta;
    if |blocks| > 0 then
      cleared.(lore := Some((if cleared.lore.None? then [] else cleared.lore.value) + LoreLines(blocks, env)))
    else cleared
  }

  /** The colour step: a colour that resolves is applied; only the shape may change. */
  function ColorStage(meta: Meta, color: Option<Evaluable>, p: Platform, env: Env): (r: Meta)
    ensures r == meta.(shape := r.shape)
    ensures color.None? || BukkitColor(p, color.value.text(env)).None? ==> r == meta
    ensures color.Some? && BukkitColor(p, color.value.text(env)).Some? ==>
      r == ApplyColor(meta, BukkitColor(p, color.value.text(env)).value)
  {
    if color.Some? && BukkitColor(p, color.value.text(env)).Some? then ApplyColor(meta, BukkitColor(p, color.value.text(env)).value)
    else meta
  }

  /**
   * Under the corrected colour test, a leather armour, potion or map meta
   * coloured by the colour step satisfies the same colour field, whether or
   * not that colour resolves.
   */
  lemma IntendedColorStageSatisfied(sec: S.ItemStackSection, meta: Meta, p: Platform, env: Env)
    requires meta.shape.LeatherArmorMeta? || meta.shape.PotionMeta? || meta.shape.MapMeta?
    ensures S.IsColorSatisfiedIntended(sec, p, ColorStage(meta, sec.color, p, env), env) == Success(true)
  {
    if sec.color.Some? && BukkitColor(p, sec.color.value.text(env)).Some? {
      S.IntendedColorOfApplied(sec, p, meta, BukkitColor(p, sec.color.value.text(env)).value, env);
    }
  }

  /** The textures step: only the shape may change. */
  function TexturesStage(meta: Meta, textures: Option<Evaluable>, env: Env): (r: Meta)
    ensures r == meta.(shape := r.shape)
  {
    if textures.Some? then ApplyTextures(meta, textures.value.text(env)) else meta
  }

  /** The base effect step: a section that yields data sets a potion's base; only the shape may change. */
  function BaseEffectStage(meta: Meta, effect: Option<BaseEffectSection>, p: Platform, env: Env): (r: Meta)
    ensures r == meta.(shape := r.shape)
    ensures effect.None? || AsData(effect.value, p, env).None? ==> r == meta
  {
    if effect.Some? && AsData(effect.value, p, env).Some? then ApplyBaseEffect(meta, AsData(effect.value, p, env).value)
    else meta
  }

  /** The custom effects of the sections applied in order; sections without an effect are skipped. */
  function AddEffects(meta: Meta, sections: seq<CustomEffectSection>, p: Platform, env: Env): (r: Meta)
    ensures r == meta.(shape := r.shape)
    ensures !meta.shape.PotionMeta? ==> r == meta
    ensures meta.shape.PotionMeta? ==> r.shape.PotionMeta? && r.shape.base == meta.shape.base && r.shape.potionColor == meta.shape.potionColor
    decreases |sections|
  {
    if |sections| == 0 then meta
    else
      var before := AddEffects(meta, sections[..|sections| - 1], p, env);
      match AsEffect(sections[|sections| - 1], p, env)
      case None => before
      case Some(e) => ApplyCustomEffect(before, e)
  }

  /** The custom effects step: only a potion is touched; an override first clears its effects. */
  function EffectsStage(meta: Meta, override: bool, sections: seq<CustomEffectSection>, p: Platform, env: Env): (r: Meta)
    ensures r == meta.(shape := r.shape)
    ensures !meta.shape.PotionMeta? ==> r == meta
  {
    if meta.shape.PotionMeta? then
      AddEffects(if override then meta.(shape := meta.shape.(effects := [])) else meta, sections, p, env)
    else meta
  }

  /** Whether some section builds an effect of kind k. */
  predicate SomeSectionBuilds(sections: seq<CustomEffectSection>, p: Platform, env: Env, k: EffectType)
  {
    exists i :: 0 <= i < |sections| && AsEffect(sections[i], p, env).Some? && AsEffect(sections[i], p, env).value.kind == k
  }

  /** A potion carries an effect kind after the step exactly when it did before or some section builds one. */
  lemma {:induction false} AddEffectsKinds(meta: Meta, sections: seq<CustomEffectSection>, p: Platform, env: Env, k: EffectType)
    requires meta.shape.PotionMeta?
    ensures HasKind(AddEffects(meta, sections, p, env).shape.effects, k) <==>
      HasKind(meta.shape.effects, k) || SomeSectionBuilds(sections, p, env, k)
    decreases |sections|
  {
    if |sections| > 0 {
      var prefix := sections[..|sections| - 1];
      var last := sections[|sections| - 1];
      AddEffectsKinds(meta, prefix, p, env, k);
      assert forall i :: 0 <= i < |prefix| ==> prefix[i] == sections[i];
      var before := AddEffects(meta, prefix, p, env);
      if AsEffect(last, p, env).Some? {
        AddCustomEffectKinds(before.shape.effects, AsEffect(last, p, env).value, k);
      }
      if SomeSectionBuilds(sections, p, env, k) && !SomeSectionBuilds(prefix, p, env, k) {
        var i :| 0 <= i < |sections| && AsEffect(sections[i], p, env).Some? && AsEffect(sections[i], p, env).value.kind == k;
        assert i == |sections| - 1;
      }
    }
  }

  /** The last section that builds an effect decides the first effect of that kind on the potion. */
  lemma AddEffectsLastWins(meta: Meta, sections: seq<CustomEffectSection>, sec: CustomEffectSection, p: Platform, env: Env)
    requires meta.shape.PotionMeta? && AsEffect(sec, p, env).Some?
    ensures var r := AddEffects(meta, sections + [sec], p, env).shape.effects;
      FirstOfKind(r, AsEffect(sec, p, env).value.kind) < |r| &&
      r[FirstOfKind(r, AsEffect(sec, p, env).value.kind)] == AsEffect(sec, p, env).value
  {
    assert (sections + [sec])[..|sections + [sec]| - 1] == sections;
    var before := AddEffects(meta, sections, p, env);
    AddCustomEffectPositions(before.shape.effects, AsEffect(sec, p, env).value);
  }

  /** An effect whose kind no section builds keeps its position. */
  lemma {:induction false} AddEffectsKeepsOthers(meta: Meta, sections: seq<CustomEffectSection>, p: Platform, env: Env, j: nat)
    requires meta.shape.PotionMeta? && j < |meta.shape.effects|
    requires !SomeSectionBuilds(sections, p, env, meta.shape.effects[j].kind)
    ensures j < |AddEffects(meta, sections, p, env).shape.effects|
    ensures AddEffects(meta, sections, p, env).shape.effects[j] == meta.shape.effects[j]
    decreases |sections|
  {
    if |sections| > 0 {
      var prefix := sections[..|sections| - 1];
      var last := sections[|sections| - 1];
      assert forall i :: 0 <= i < |prefix| ==> prefix[i] == sections[i];
      AddEffectsKeepsOthers(meta, prefix, p, env, j);
      var before := AddEffects(meta, prefix, p, env);
      if AsEffect(last, p, env).Some? {
        AddCustomEffectPositions(before.shape.effects, AsEffect(last, p, env).value);
        assert AsEffect(sections[|sections| - 1], p, env).value.kind != meta.shape.effects[j].kind;
      }
    }
  }

  /** The enchantments of the sections added in order; unresolved sections are skipped, a later level wins. */
  function AddEnchantments(enchants: map<Enchantment, int>, sections: seq<EnchantmentSection>, p: Platform, env: Env)
    : map<Enchantment, int>
    decreases |sections|
  {
    if |sections| == 0 then enchants
    else
      var before := AddEnchantments(enchants, sections[..|sections| - 1], p, env);
      match AsEnchantmentData(sections[|sections| - 1], p, env)
      case None => before
      case Some(data) => before[data.0 := data.1]
  }

  /** An enchantment is present after the additions exactly when it was before or some section resolves to it. */
  lemma {:induction false} AddEnchantmentsMembers(enchants: map<Enchantment, int>, sections: seq<EnchantmentSection>,
                                                  p: Platform, env: Env, e: Enchantment)
    ensures e in AddEnchantments(enchants, sections, p, env) <==>
      e in enchants ||
      exists i :: 0 <= i < |sections| && AsEnchantmentData(sections[i], p, env).Some? && AsEnchantmentData(sections[i], p, env).value.0 == e
    decreases |sections|
  {
    if |sections| > 0 {
      var prefix := sections[..|sections| - 1];
      AddEnchantmentsMembers(enchants, prefix, p, env, e);
      assert forall i :: 0 <= i < |prefix| ==> prefix[i] == sections[i];
    }
  }

  /** The last section that resolves to an enchantment decides its level. */
  lemma AddEnchantmentsLastWins(enchants: map<Enchantment, int>, sections: seq<EnchantmentSection>,
                                p: Platform, env: Env, sec: EnchantmentSection)
    requires AsEnchantmentData(sec, p, env).Some?
    ensures AddEnchantments(enchants, sections + [sec], p, env)[AsEnchantmentData(sec, p, env).value.0] == AsEnchantmentData(sec, p, env).value.1
  {
    assert (sections + [sec])[..|sections + [sec]| - 1] == sections;
  }

  /** The enchantments step: an override first removes every enchantment; only the enchantments change. */
  function EnchantmentsStage(meta: Meta, override: bool, sections: seq<EnchantmentSection>, p: Platform, env: Env): (r: Meta)
    ensures r == meta.(enchants := r.enchants)
  {
    meta.(enchants := AddEnchantments(if override then map[] else meta.enchants, sections, p, env))
  }

  /** The declared ItemFlag constants, which a flags override removes one by one. */
  function Declared(constants: seq<Constant>): set<Constant>
  {
    set i | 0 <= i < |constants| :: constants[i]
  }

  /** The union of the flag sets the values resolve to, added to `flags`. */
  function AddFlags(flags: set<Constant>, values: seq<Evaluable>, p: Platform, env: Env): set<Constant>
    decreases |values|
  {
    if |values| == 0 then flags
    else AddFlags(flags, values[..|values| - 1], p, env) + EnumSet(p.constants(ItemFlagType), values[|values| - 1].names(env))
  }

  /** A flag is set after the additions exactly when it was before or some value names it. */
  lemma {:induction false} AddFlagsMembers(flags: set<Constant>, values: seq<Evaluable>, p: Platform, env: Env, c: Constant)
    ensures c in AddFlags(flags, values, p, env) <==>
      c in flags || exists i :: 0 <= i < |values| && c in EnumSet(p.constants(ItemFlagType), values[i].names(env))
    decreases |values|
  {
    if |values| > 0 {
      var prefix := values[..|values| - 1];
      AddFlagsMembers(flags, prefix, p, env, c);
      assert forall i :: 0 <= i < |prefix| ==> prefix[i] == values[i];
    }
  }

  /** The flags step: an override first removes every declared flag; only the flags change. */
  function FlagsStage(meta: Meta, override: bool, values: seq<Evaluable>, p: Platform, env: Env): (r: Meta)
    ensures r == meta.(flags := r.flags)
  {
    meta.(flags := AddFlags(if override then meta.flags - Declared(p.constants(ItemFlagType)) else meta.flags, values, p, env))
  }

  /** The patterns of the sections appended in order; the first section that throws ends the build. */
  function AddPatterns(meta: Meta, sections: seq<BannerPatternSection>, p: Platform, env: Env): (r: Result<Meta, Exception>)
    ensures r.Success? ==> r.value == meta.(shape := r.value.shape)
    decreases |sections|
  {
    if |sections| == 0 then Success(meta)
    else
      match AddPatterns(meta, sections[..|sections| - 1], p, env)
      case Failure(e) => Failure(e)
      case Success(before) =>
        match AsPattern(sections[|sections| - 1], p, env)
        case Failure(e) => Failure(e)
        case Success(None) => Success(before)
        case Success(Some(pattern)) => Success(ApplyPattern(before, pattern))
  }

  /** The patterns the sections build, in order, when none of them throws. */
  function BuiltPatterns(sections: seq<BannerPatternSection>, p: Platform, env: Env): seq<Pattern>
    decreases |sections|
  {
    if |sections| == 0 then []
    else
      var last := AsPattern(sections[|sections| - 1], p, env);
      BuiltPatterns(sections[..|sections| - 1], p, env) + (if last.Success? && last.value.Some? then [last.value.value] else [])
  }

  /** Adding patterns throws exactly when some section has a colour but no pattern. */
  lemma {:induction false} AddPatternsThrows(meta: Meta, sections: seq<BannerPatternSection>, p: Platform, env: Env)
    ensures AddPatterns(meta, sections, p, env).Failure? <==>
      exists i :: 0 <= i < |sections| && sections[i].color.Some? && sections[i].pattern.None?
    decreases |sections|
  {
    if |sections| > 0 {
      var prefix := sections[..|sections| - 1];
      AddPatternsThrows(meta, prefix, p, env);
      assert forall i :: 0 <= i < |prefix| ==> prefix[i] == sections[i];
    }
  }

  /**
   * When adding patterns to a banner does not throw, the banner keeps its
   * patterns and gains the built ones, in order.
   */
  lemma {:induction false} AddPatternsAppends(meta: Meta, sections: seq<BannerPatternSection>, p: Platform, env: Env)
    requires meta.shape.BannerMeta?
    requires AddPatterns(meta, sections, p, env).Success?
    ensures AddPatterns(meta, sections, p, env).value.shape == BannerMeta(meta.shape.patterns + BuiltPatterns(sections, p, env))
    decreases |sections|
  {
    if |sections| == 0 {
      assert meta.shape.patterns + [] == meta.shape.patterns;
    } else {
      var prefix := sections[..|sections| - 1];
      AddPatternsAppends(meta, prefix, p, env);
      var before := AddPatterns(meta, prefix, p, env).value;
      var last := AsPattern(sections[|sections| - 1], p, env);
      if last.value.Some? {
        assert BuiltPatterns(sections, p, env) == BuiltPatterns(prefix, p, env) + [last.value.value];
        assert meta.shape.patterns + BuiltPatterns(sections, p, env) ==
          meta.shape.patterns + BuiltPatterns(prefix, p, env) + [last.value.value];
      } else {
        assert BuiltPatterns(sections, p, env) == BuiltPatterns(prefix, p, env) + [];
      }
    }
  }

  /** Once a section throws, the sections after it are never reached. */
  lemma {:induction false} AddPatternsFailureStays(meta: Meta, sections: seq<BannerPatternSection>, k: nat, p: Platform, env: Env)
    requires k <= |sections|
    requires AddPatterns(meta, sections[..k], p, env).Failure?
    ensures AddPatterns(meta, sections, p, env) == AddPatterns(meta, sections[..k], p, env)
    decreases |sections| - k
  {
    if k < |sections| {
      assert sections[..k + 1][..k] == sections[..k];
      AddPatternsFailureStays(meta, sections, k + 1, p, env);
    } else {
      assert sections[..k] == sections;
    }
  }

  /** The banner patterns step: only a banner is touched; an override first removes its patterns. */
  function PatternsStage(meta: Meta, override: bool, sections: seq<BannerPatternSection>, p: Platform, env: Env)
    : (r: Result<Meta, Exception>)
    ensures !meta.shape.BannerMeta? ==> r == Success(meta)
    ensures r.Success? ==> r.value == meta.(shape := r.value.shape)
  {
    if meta.shape.BannerMeta? then AddPatterns(if override then meta.(shape := BannerMeta([])) else meta, sections, p, env)
    else Success(meta)
  }

  /** The steps from lore to flags, applied to the named meta. */
  function MetaStages(s: BuilderState, named: Meta, p: Platform, env: Env): Meta
  {
    var lored := LoreStage(named, s.lore.override, s.lore.entries, env);
    var colored := ColorStage(lored, s.color, p, env);
    var textured := TexturesStage(colored, s.textures, env);
    var based := BaseEffectStage(textured, s.baseEffect, p, env);
    var effected := EffectsStage(based, s.customEffects.override, s.customEffects.entries, p, env);
    var enchanted := EnchantmentsStage(effected, s.enchantments.override, s.enchantments.entries, p, env);
    FlagsStage(enchanted, s.flags.override, s.flags.entries, p, env)
  }

  /** The meta before the banner patterns step. */
  function StagedMeta(s: BuilderState, p: Platform, env: Env): Meta
  {
    MetaStages(s, NamedMeta(s, p, env), p, env)
  }

  /** build(environment): the steps in the code's order, over clones of the base item and meta. */
  function BuildSpec(s: BuilderState, p: Platform, env: Env): Result<Item, Exception>
  {
    var typed := TypedItem(s, p, env).0;
    var item := if s.amount.Some? then typed.(amount := IntValue(s.amount.value, env)) else typed;
    match PatternsStage(StagedMeta(s, p, env), s.bannerPatterns.override, s.bannerPatterns.entries, p, env)
    case Failure(e) => Failure(e)
    case Success(meta) => Success(item.(meta := Some(meta)))
  }

  /**
   * The built lore is decided by the lore step alone: the later steps never
   * touch it, so it is the meta's lore (or none after an override) followed
   * by every block's lines in block order.
   */
  lemma BuildLore(s: BuilderState, p: Platform, env: Env)
    requires BuildSpec(s, p, env).Success?
    ensures BuildSpec(s, p, env).value.meta.Some?
    ensures BuildSpec(s, p, env).value.meta.value.lore == LoreStage(NamedMeta(s, p, env), s.lore.override, s.lore.entries, env).lore
  {
  }

  /**
   * The built enchantments: those of the meta unless overridden, plus every
   * resolved section's enchantment; nothing else contributes.
   */
  lemma BuildEnchantments(s: BuilderState, p: Platform, env: Env, e: Enchantment)
    requires BuildSpec(s, p, env).Success?
    ensures BuildSpec(s, p, env).value.meta.Some?
    ensures e in BuildSpec(s, p, env).value.meta.value.enchants <==>
      (!s.enchantments.override && e in NamedMeta(s, p, env).enchants) ||
      exists i :: 0 <= i < |s.enchantments.entries| &&
        AsEnchantmentData(s.enchantments.entries[i], p, env).Some? && AsEnchantmentData(s.enchantments.entries[i], p, env).value.0 == e
  {
    AddEnchantmentsMembers(if s.enchantments.override then map[] else NamedMeta(s, p, env).enchants, s.enchantments.entries, p, env, e);
  }

  /**
   * The built flags: those of the meta (without the declared ones after an
   * override), plus every flag some value names.
   */
  lemma BuildFlags(s: BuilderState, p: Platform, env: Env, c: Constant)
    requires BuildSpec(s, p, env).Success?
    ensures BuildSpec(s, p, env).value.meta.Some?
    ensures c in BuildSpec(s, p, env).value.meta.value.flags <==>
      (c in NamedMeta(s, p, env).flags && !(s.flags.override && c in Declared(p.constants(ItemFlagType)))) ||
      exists i :: 0 <= i < |s.flags.entries| && c in EnumSet(p.constants(ItemFlagType), s.flags.entries[i].names(env))
  {
    var named := NamedMeta(s, p, env);
    AddFlagsMembers(if s.flags.override then named.flags - Declared(p.constants(ItemFlagType)) else named.flags, s.flags.entries, p, env, c);
  }

  /**
   * The built custom effects of a potion: a kind is present exactly when the
   * meta had it (without override) or some section builds an effect of it.
   */
  lemma BuildEffects(s: BuilderState, p: Platform, env: Env, k: EffectType)
    requires BuildSpec(s, p, env).Success? && NamedMeta(s, p, env).shape.PotionMeta?
    ensures BuildSpec(s, p, env).value.meta.Some? && BuildSpec(s, p, env).value.meta.value.shape.PotionMeta?
    ensures HasKind(BuildSpec(s, p, env).value.meta.value.shape.effects, k) <==>
      (!s.customEffects.override && HasKind(NamedMeta(s, p, env).shape.effects, k)) ||
      SomeSectionBuilds(s.customEffects.entries, p, env, k)
  {
    var named := NamedMeta(s, p, env);
    var lored := LoreStage(named, s.lore.override, s.lore.entries, env);
    var colored := ColorStage(lored, s.color, p, env);
    var textured := TexturesStage(colored, s.textures, env);
    var based := BaseEffectStage(textured, s.baseEffect, p, env);
    assert based.shape.PotionMeta? && based.shape.effects == named.shape.effects;
    var start := if s.customEffects.override then based.(shape := based.shape.(effects := [])) else based;
    AddEffectsKinds(start, s.customEffects.entries, p, env, k);
  }

  /** Build throws only for a banner with a pattern section that has a colour but no pattern. */
  lemma BuildThrows(s: BuilderState, p: Platform, env: Env)
    ensures BuildSpec(s, p, env).Failure? <==>
      StagedMeta(s, p, env).shape.BannerMeta? &&
      exists i :: 0 <= i < |s.bannerPatterns.entries| && s.bannerPatterns.entries[i].color.Some? && s.bannerPatterns.entries[i].pattern.None?
  {
    var staged := StagedMeta(s, p, env);
    if staged.shape.BannerMeta? {
      AddPatternsThrows(if s.bannerPatterns.override then staged.(shape := BannerMeta([])) else staged, s.bannerPatterns.entries, p, env);
    }
  }

  //////////////////////////////////// The builder ////////////////////////////////////

  class ItemBuilder {
    const baseItem: Item
    const baseMeta: Meta

    var loreOverride: bool
    var flagsOverride: bool
    var enchantmentsOverride: bool
    var customEffectsOverride: bool
    var patternOverride: bool

    var name: Option<Evaluable>
    var loreBlocks: seq<Evaluable>
    var amount: Option<Evaluable>
    var kind: Option<Evaluable>
    var color: Option<Evaluable>
    var textures: Option<Evaluable>
    var baseEffect: Option<BaseEffectSection>
    var customEffects: seq<CustomEffectSection>
    var enchantments: seq<EnchantmentSection>
    var bannerPatterns: seq<BannerPatternSection>
    var flags: seq<Evaluable>

    /** The builder's fields as a value. */
    function State(): BuilderState
      reads this
    {
      BuilderState(baseItem, baseMeta, name, amount, kind, color, textures, baseEffect,
        Group(loreOverride, loreBlocks), Group(flagsOverride, flags), Group(enchantmentsOverride, enchantments),
        Group(customEffectsOverride, customEffects), Group(patternOverride, bannerPatterns))
    }

    /** The public constructor: the item's copy at the given amount, with the item's meta. */
    constructor(item: Item, amount: int)
      requires item.meta.Some?
      ensures State() == NewState(item, amount)
    {
      baseItem := item.(amount := amount);
      baseMeta := item.meta.value;
      name, this.amount, kind, color, textures, baseEffect := None, None, None, None, None, None;
      loreOverride, flagsOverride, enchantmentsOverride, customEffectsOverride, patternOverride := false, false, false, false, false;
      loreBlocks, enchantments, flags, customEffects, bannerPatterns := [], [], [], [], [];
    }

    /** The all-arguments constructor copy uses. */
    constructor FromState(s: BuilderState)
      ensures State() == s
    {
      baseItem, baseMeta := s.baseItem, s.baseMeta;
      name, amount, kind, color, textures, baseEffect := s.name, s.amount, s.kind, s.color, s.textures, s.baseEffect;
      loreOverride, loreBlocks := s.lore.override, s.lore.entries;
      flagsOverride, flags := s.flags.override, s.flags.entries;
      enchantmentsOverride, enchantments := s.enchantments.override, s.enchantments.entries;
      customEffectsOverride, customEffects := s.customEffects.override, s.customEffects.entries;
      patternOverride, bannerPatterns := s.bannerPatterns.override, s.bannerPatterns.entries;
    }

    method SetType(kind: Option<Evaluable>)
      modifies this
      ensures State() == WithType(old(State()), kind)
    {
      if kind.None? {
        return;
      }
      this.kind := kind;
    }

    method SetAmount(amount: Option<Evaluable>)
      modifies this
      ensures State() == WithAmount(old(State()), amount)
    {
      if amount.None? {
        return;
      }
      this.amount := amount;
    }

    method SetName(name: Option<Evaluable>)
      modifies this
      ensures State() == WithName(old(State()), name)
    {
      this.name := name;
    }

    method ExtendLore(lore: Option<Evaluable>)
      modifies this
      ensures State() == LoreExtended(old(State()), lore)
    {
      if lore.None? {
        return;
      }
      loreOverride := false;
      loreBlocks := loreBlocks + [lore.value];
    }

    method OverrideLore(lore: Option<Evaluable>)
      modifies this
      ensures State() == LoreOverridden(old(State()), lore)
    {
      if lore.None? {
        return;
      }
      loreOverride := true;
      loreBlocks := [];
      loreBlocks := loreBlocks + [lore.value];
    }

    method ExtendEnchantments(es: Option<seq<EnchantmentSection>>)
      modifies this
      ensures State() == EnchantmentsExtended(old(State()), es)
    {
      if es.None? {
        return;
      }
      enchantmentsOverride := false;
      enchantments := enchantments + es.value;
    }

    method OverrideEnchantments(es: Option<seq<EnchantmentSection>>)
      modifies this
      ensures State() == EnchantmentsOverridden(old(State()), es)
    {
      enchantmentsOverride := true;
      enchantments := [];
      if es.Some? {
        enchantments := enchantments + es.value;
      }
    }

    method ExtendFlags(flags: Option<Evaluable>)
      modifies this
      ensures State() == FlagsExtended(old(State()), flags)
    {
      if flags.None? {
        return;
      }
      flagsOverride := false;
      this.flags := this.flags + [flags.value];
    }

    method OverrideFlags(flag: Option<Evaluable>)
      modifies this
      ensures State() == FlagsOverridden(old(State()), flag)
    {
      if flag.None? {
        return;
      }
      flagsOverride := true;
      flags := [];
      flags := flags + [flag.value];
    }

    method SetColor(color: Option<Evaluable>)
      modifies this
      ensures State() == WithColor(old(State()), color)
    {
      if color.None? {
        return;
      }
      this.color := color;
    }

    method SetBaseEffect(effect: Option<BaseEffectSection>)
      modifies this
      ensures State() == WithBaseEffect(old(State()), effect)
    {
      if effect.None? {
        return;
      }
      baseEffect := effect;
    }

    method ExtendCustomEffects(es: Option<seq<CustomEffectSection>>)
      modifies this
      ensures State() == CustomEffectsExtended(old(State()), es)
    {
      if es.None? {
        return;
      }
      customEffectsOverride := false;
      customEffects := customEffects + es.value;
    }

    method OverrideCustomEffects(es: Option<seq<CustomEffectSection>>)
      modifies this
      ensures State() == CustomEffectsOverridden(old(State()), es)
    {
      customEffectsOverride := true;
      customEffects := [];
      if es.Some? {
        customEffects := customEffects + es.value;
      }
    }

    method SetTextures(textures: Option<Evaluable>)
      modifies this
      ensures State() == WithTextures(old(State()), textures)
    {
      if textures.None? {
        return;
      }
      this.textures := textures;
    }

    method ExtendBannerPatterns(ps: Option<seq<BannerPatternSection>>)
      modifies this
      ensures State() == BannerPatternsExtended(old(State()), ps)
    {
      if ps.None? {
        return;
      }
      patternOverride := false;
      bannerPatterns := bannerPatterns + ps.value;
    }

    method OverrideBannerPatterns(ps: Option<seq<BannerPatternSection>>)
      modifies this
      ensures State() == BannerPatternsOverridden(old(State()), ps)
    {
      patternOverride := true;
      bannerPatterns := [];
      if ps.Some? {
        bannerPatterns := bannerPatterns + ps.value;
      }
    }

    /** copy: a new builder with the same values and its own lists; this one is untouched. */
    method Copy() returns (r: ItemBuilder)
      ensures fresh(r) && r.State() == State()
    {
      r := new ItemBuilder.FromState(State());
    }

    /** patch: a patched copy; this builder is untouched. */
    method Patch(data: S.ItemStackSection) returns (r: ItemBuilder)
      ensures fresh(r) && r.State() == Patched(State(), data)
    {
      r := Copy();
      r.PatchSingletons(data);
      r.PatchGroups(data);
    }

    /** patch's first steps, on the copy: amount, type and name, each only when present. */
    method PatchSingletons(data: S.ItemStackSection)
      modifies this
      ensures State() == WithName(WithType(WithAmount(old(State()), data.amount), data.kind), OrKeep(data.name, old(State()).name))
    {
      if data.amount.Some? {
        SetAmount(data.amount);
      }
      if data.kind.Some? {
        SetType(data.kind);
      }
      if data.name.Some? {
        SetName(data.name);
      }
    }

    /** patch's remaining steps, on the copy: each group by its patch flag, and colour, textures and base effect. */
    method PatchGroups(data: S.ItemStackSection)
      modifies this
      ensures State() == BannerPatternsPatched(CustomEffectsPatched(WithBaseEffect(WithTextures(EnchantmentsPatched(
        WithColor(FlagsPatched(LorePatched(old(State()), data), data), data.color), data), data.textures), data.baseEffect), data), data)
    {
      PatchLore(data);
      PatchFlags(data);
      if data.color.Some? {
        SetColor(data.color);
      }
      PatchEnchantments(data);
      if data.textures.Some? {
        SetTextures(data.textures);
      }
      if data.baseEffect.Some? {
        SetBaseEffect(data.baseEffect);
      }
      PatchCustomEffects(data);
      PatchBannerPatterns(data);
    }

    method PatchLore(data: S.ItemStackSection)
      modifies this
      ensures State() == LorePatched(old(State()), data)
    {
      if S.OverrideLore in data.patchFlags {
        OverrideLore(data.lore);
      } else {
        ExtendLore(data.lore);
      }
    }

    method PatchFlags(data: S.ItemStackSection)
      modifies this
      ensures State() == FlagsPatched(old(State()), data)
    {
      if S.OverrideFlags in data.patchFlags {
        OverrideFlags(data.flags);
      } else {
        ExtendFlags(data.flags);
      }
    }

    method PatchEnchantments(data: S.ItemStackSection)
      modifies this
      ensures State() == EnchantmentsPatched(old(State()), data)
    {
      if S.OverrideEnchantments in data.patchFlags {
        OverrideEnchantments(data.enchantments);
      } else {
        ExtendEnchantments(data.enchantments);
      }
    }

    method PatchCustomEffects(data: S.ItemStackSection)
      modifies this
      ensures State() == CustomEffectsPatched(old(State()), data)
    {
      if S.OverrideCustomEffects in data.patchFlags {
        OverrideCustomEffects(data.customEffects);
      } else {
        ExtendCustomEffects(data.customEffects);
      }
    }

    method PatchBannerPatterns(data: S.ItemStackSection)
      modifies this
      ensures State() == BannerPatternsPatched(old(State()), data)
    {
      if S.OverrideBannerPatterns in data.patchFlags {
        OverrideBannerPatterns(data.bannerPatterns);
      } else {
        ExtendBannerPatterns(data.bannerPatterns);
      }
    }

    /** build(): build in the empty environment. */
    method BuildWithoutEnvironment(p: Platform) returns (r: Result<Item, Exception>)
      ensures r == BuildSpec(State(), p, EmptyEnvironment)
    {
      r := Build(p, EmptyEnvironment);
    }

    /** build(environment): every step works on a clone of the base item and meta; the builder is not changed. */
    method Build(p: Platform, env: Env) returns (r: Result<Item, Exception>)
      ensures r == BuildSpec(State(), p, env)
    {
      var res, resMeta := ApplyType(p, env);
      if amount.Some? {
        res := res.(amount := IntValue(amount.value, env));
      }
      if name.Some? {
        resMeta := resMeta.(displayName := Some(name.value.text(env)));
      }
      resMeta := ApplyMetaStages(resMeta, p, env);
      var patterned := ApplyBannerPatterns(resMeta, p, env);
      if patterned.Failure? {
        return Failure(patterned.error);
      }
      res := res.(meta := Some(patterned.value));
      return Success(res);
    }

    /** The type step of build: a material that resolves retypes the clones. */
    method ApplyType(p: Platform, env: Env) returns (item: Item, meta: Meta)
      ensures (item, meta) == TypedItem(State(), p, env)
    {
      item, meta := baseItem, baseMeta;
      if kind.Some? {
        var material := AsXMaterial(p, kind.value, env);
        if material.Some? {
          item := item.(material := material.value);
          meta := p.retype(meta, material.value);
        }
      }
    }

    /** The steps of build from lore to flags. */
    method ApplyMetaStages(meta: Meta, p: Platform, env: Env) returns (r: Meta)
      ensures r == MetaStages(State(), meta, p, env)
    {
      var lored := ApplyLore(meta, env);
      var shaped := ApplyShapeStages(lored, p, env);
      var effected := ApplyCustomEffects(shaped, p, env);
      var enchanted := ApplyEnchantments(effected, p, env);
      r := ApplyFlags(enchanted, p, env);
    }

    /** The colour, textures and base effect steps of build. */
    method ApplyShapeStages(meta: Meta, p: Platform, env: Env) returns (r: Meta)
      ensures r == BaseEffectStage(TexturesStage(ColorStage(meta, color, p, env), textures, env), baseEffect, p, env)
    {
      r := ColorStage(meta, color, p, env);
      if textures.Some? {
        r := ApplyTextures(r, textures.value.text(env));
      }
      if baseEffect.Some? {
        var data := AsData(baseEffect.value, p, env);
        if data.Some? {
          r := ApplyBaseEffect(r, data.value);
        }
      }
    }

    /** The lore step of build. */
    method ApplyLore(meta: Meta, env: Env) returns (r: Meta)
      ensures r == LoreStage(meta, loreOverride, loreBlocks, env)
    {
      r := meta;
      if loreOverride {
        r := r.(lore := None);
      }
      if |loreBlocks| > 0 {
        var lines := if r.lore.None? then [] else r.lore.value;
        ghost var start := lines;
        for i := 0 to |loreBlocks|
          invariant lines == start + LoreLines(loreBlocks[..i], env)
        {
          assert loreBlocks[..i + 1][..i] == loreBlocks[..i];
          lines := lines + loreBlocks[i].lines(env);
        }
        assert loreBlocks[..|loreBlocks|] == loreBlocks;
        r := r.(lore := Some(lines));
      }
    }

    /** The custom effects step of build. */
    method ApplyCustomEffects(meta: Meta, p: Platform, env: Env) returns (r: Meta)
      ensures r == EffectsStage(meta, customEffectsOverride, customEffects, p, env)
    {
      r := meta;
      if r.shape.PotionMeta? {
        if customEffectsOverride {
          r := r.(shape := r.shape.(effects := []));
        }
        ghost var start := r;
        for i := 0 to |customEffects|
          invariant r == AddEffects(start, customEffects[..i], p, env)
        {
          assert customEffects[..i + 1][..i] == customEffects[..i];
          var effect := AsEffect(customEffects[i], p, env);
          if effect.Some? {
            r := ApplyCustomEffect(r, effect.value);
          }
        }
        assert customEffects[..|customEffects|] == customEffects;
      }
    }

    /** The enchantments step of build: an override removes each present enchantment first. */
    method ApplyEnchantments(meta: Meta, p: Platform, env: Env) returns (r: Meta)
      ensures r == EnchantmentsStage(meta, enchantmentsOverride, enchantments, p, env)
    {
      r := meta;
      if enchantmentsOverride {
        var keys := r.enchants.Keys;
        while keys != {}
          invariant r == meta.(enchants := r.enchants)
          invariant r.enchants.Keys == keys
          decreases |keys|
        {
          var k :| k in keys;
          r := r.(enchants := r.enchants - {k});
          keys := keys - {k};
        }
        assert r.enchants == map[];
      }
      ghost var start := r.enchants;
      for i := 0 to |enchantments|
        invariant r == meta.(enchants := AddEnchantments(start, enchantments[..i], p, env))
      {
        assert enchantments[..i + 1][..i] == enchantments[..i];
        var data := AsEnchantmentData(enchantments[i], p, env);
        if data.Some? {
          r := r.(enchants := r.enchants[data.value.0 := data.value.1]);
        }
      }
      assert enchantments[..|enchantments|] == enchantments;
    }

    /** The flags step of build: an override removes each declared flag first. */
    method ApplyFlags(meta: Meta, p: Platform, env: Env) returns (r: Meta)
      ensures r == FlagsStage(meta, flagsOverride, flags, p, env)
    {
      r := meta;
      var declared := p.constants(ItemFlagType);
      if flagsOverride {
        for i := 0 to |declared|
          invariant r == meta.(flags := meta.flags - Declared(declared[..i]))
        {
          assert Declared(declared[..i + 1]) == Declared(declared[..i]) + {declared[i]} by {
            assert forall j :: 0 <= j < i ==> declared[..i + 1][j] == declared[..i][j];
          }
          r := r.(flags := r.flags - {declared[i]});
        }
        assert declared[..|declared|] == declared;
      }
      ghost var start := r.flags;
      for i := 0 to |flags|
        invariant r == meta.(flags := AddFlags(start, flags[..i], p, env))
      {
        assert flags[..i + 1][..i] == flags[..i];
        var resolved := EnumSet(declared, flags[i].names(env));
        r := r.(flags := r.flags + resolved);
      }
      assert flags[..|flags|] == flags;
    }

    /** The banner patterns step of build: an override removes the first pattern until none is left. */
    method ApplyBannerPatterns(meta: Meta, p: Platform, env: Env) returns (r: Result<Meta, Exception>)
      ensures r == PatternsStage(meta, patternOverride, bannerPatterns, p, env)
    {
      if !meta.shape.BannerMeta? {
        return Success(meta);
      }
      var m := meta;
      if patternOverride {
        while |m.shape.patterns| > 0
          invariant m.shape.BannerMeta? && m == meta.(shape := m.shape)
          decreases |m.shape.patterns|
        {
          m := m.(shape := BannerMeta(m.shape.patterns[1..]));
        }
      }
      ghost var start := m;
      for i := 0 to |bannerPatterns|
        invariant AddPatterns(start, bannerPatterns[..i], p, env) == Success(m)
      {
        assert bannerPatterns[..i + 1][..i] == bannerPatterns[..i];
        var pattern := AsPattern(bannerPatterns[i], p, env);
        if pattern.Failure? {
          AddPatternsFailureStays(start, bannerPatterns, i + 1, p, env);
          assert bannerPatterns[..i + 1] == bannerPatterns[..i] + [bannerPatterns[i]];
          return Failure(pattern.error);
        }
        if pattern.value.Some? {
          m := ApplyPattern(m, pattern.value.value);
        }
      }
      assert bannerPatterns[..|bannerPatterns|] == bannerPatterns;
      return Success(m);
    }
  }

  /** new ItemBuilder(item, amount): an item without readable meta throws IllegalStateException. */
  method NewItemBuilder(item: Item, amount: int) returns (r: Result<ItemBuilder, Exception>)
    ensures item.meta.None? <==> r.Failure?
    ensures r.Failure? ==> r.error == IllegalStateException
    ensures r.Success? ==> fresh(r.value) && r.value.State() == NewState(item, amount)
  {
    if item.meta.None? {
      return Failure(IllegalStateException);
    }
    var b := new ItemBuilder(item, amount);
    return Success(b);
  }

  /**
   * A copy owns its lists: extending or overriding it afterwards leaves the
   * builder it was copied from as it was.
   */
  method CopyIsIndependent(b: ItemBuilder, lore: Option<Evaluable>, es: Option<seq<EnchantmentSection>>)
    returns (c: ItemBuilder)
    ensures fresh(c)
    ensures c.State() == EnchantmentsOverridden(LoreExtended(b.State(), lore), es)
  {
    c := b.Copy();
    c.ExtendLore(lore);
    c.OverrideEnchantments(es);
  }

  /** asItem: a fresh builder from a section. */
  method AsItem(sec: S.ItemStackSection) returns (b: ItemBuilder)
    ensures fresh(b) && b.State() == AsItemState(sec)
  {
    b := new ItemBuilder(BarrierItem, 1);
    b.SetType(sec.kind);
    b.SetAmount(sec.amount);
    b.ExtendBannerPatterns(sec.bannerPatterns);
    b.SetName(sec.name);
    b.ExtendLore(sec.lore);
    b.ExtendFlags(sec.flags);
    b.ExtendEnchantments(sec.enchantments);
    b.SetColor(sec.color);
    b.SetTextures(sec.textures);
    b.SetBaseEffect(sec.baseEffect);
    b.ExtendCustomEffects(sec.customEffects);
  }
}
