/**
 * ItemStackEnchantmentSection: an enchantment name with an optional level,
 * its validation after parsing, its three-way check against a meta, and the
 * enchantment presence check the item matcher applies to it.
 */
module EnchantmentSections {
  import opened Wrappers
  import opened Text
  import opened Items
  import opened Evaluables

  /** The section as mapped from configuration, before validation. */
  datatype RawEnchantmentSection = RawEnchantmentSection(enchantment: Option<Evaluable>, level: Option<Evaluable>)

  /** A validated section: the enchantment is always present. */
  datatype EnchantmentSection = EnchantmentSection(enchantment: Evaluable, level: Option<Evaluable>)

  /** afterParsing: a section without an enchantment is a mapping error. */
  function AfterParsing(raw: RawEnchantmentSection): (r: Result<EnchantmentSection, Exception>)
    ensures r.Failure? <==> raw.enchantment.None?
    ensures r.Failure? ==> r.error == MappingError
    ensures r.Success? ==> r.value == EnchantmentSection(raw.enchantment.value, raw.level)
  {
    match raw.enchantment
    case None => Failure(MappingError)
    case Some(e) => Success(EnchantmentSection(e, raw.level))
  }

  datatype CheckResult = InvalidSection | MismatchingSection | MatchingSection

  /** The level the section asks for, as asScalar(INT). */
  function ExpectedLevel(sec: EnchantmentSection, env: Env): Option<int>
  {
    match sec.level
    case None => None
    case Some(l) => Some(IntValue(l, env))
  }

  /**
   * isContainedByMeta: invalid when the name does not resolve, mismatching
   * when the enchantment is absent (level 0) or at another level than asked.
   */
  function IsContainedByMeta(sec: EnchantmentSection, p: Platform, meta: Meta, env: Env): (r: CheckResult)
    ensures r == InvalidSection <==> AsEnchantment(p, sec.enchantment, env).None?
    ensures r == MatchingSection <==>
      AsEnchantment(p, sec.enchantment, env).Some? &&
      EnchantLevel(meta, AsEnchantment(p, sec.enchantment, env).value) != 0 &&
      (sec.level.None? || ExpectedLevel(sec, env) == Some(EnchantLevel(meta, AsEnchantment(p, sec.enchantment, env).value)))
  {
    match AsEnchantment(p, sec.enchantment, env)
    case None => InvalidSection
    case Some(expected) =>
      var contained := EnchantLevel(meta, expected);
      if contained == 0 then MismatchingSection
      else if sec.level.None? then MatchingSection
      else if IntValue(sec.level.value, env) == contained then MatchingSection
      else MismatchingSection
  }

  /**
   * The presence check applied to each described enchantment: with neither
   * part given it holds; a given enchantment must be present, at the given
   * level when one is given; a level alone must be held by some enchantment.
   */
  function EnchantmentPresent(e: Option<Enchantment>, l: Option<int>, meta: Meta): (r: bool)
    ensures e.None? && l.None? ==> r
    ensures e.Some? && l.None? ==> (r <==> e.value in meta.enchants)
    ensures e.Some? && l.Some? ==> (r <==> e.value in meta.enchants && meta.enchants[e.value] == l.value)
    ensures e.None? && l.Some? ==> (r <==> exists k :: k in meta.enchants && meta.enchants[k] == l.value)
  {
    if e.None? && l.None? then true
    else if e.Some? && e.value !in meta.enchants then false
    else if l.Some? then
      if e.Some? then EnchantLevel(meta, e.value) == l.value
      else l.value in meta.enchants.Values
    else true
  }

  /** The section's description of an enchantment, checked against a meta: resolved name and level. */
  function DescribesEnchantment(sec: EnchantmentSection, p: Platform, meta: Meta, env: Env): bool
  {
    EnchantmentPresent(AsEnchantment(p, sec.enchantment, env), ExpectedLevel(sec, env), meta)
  }

  /**
   * For a name that resolves, and a meta holding no level-0 enchantment, the
   * three-way check and the presence check agree.
   */
  lemma ContainedAgreesWithPresence(sec: EnchantmentSection, p: Platform, meta: Meta, env: Env)
    requires AsEnchantment(p, sec.enchantment, env).Some?
    requires forall k :: k in meta.enchants ==> meta.enchants[k] != 0
    ensures IsContainedByMeta(sec, p, meta, env) == MatchingSection <==> DescribesEnchantment(sec, p, meta, env)
  {
  }

  /** An unresolved name with a level only asks for some enchantment at that level. */
  lemma UnresolvedNameChecksLevelOnly(sec: EnchantmentSection, p: Platform, meta: Meta, env: Env)
    requires AsEnchantment(p, sec.enchantment, env).None? && sec.level.Some?
    ensures DescribesEnchantment(sec, p, meta, env) <==>
      exists k :: k in meta.enchants && meta.enchants[k] == IntValue(sec.level.value, env)
  {
  }

  /** The enchantment and level build applies for this section: unresolved names are skipped, the level defaults to 1. */
  function AsEnchantmentData(sec: EnchantmentSection, p: Platform, env: Env): (r: Option<(Enchantment, int)>)
    ensures r.Some? <==> AsEnchantment(p, sec.enchantment, env).Some?
    ensures r.Some? ==> r.value.0 == AsEnchantment(p, sec.enchantment, env).value
    ensures r.Some? && sec.level.None? ==> r.value.1 == 1
    ensures r.Some? && sec.level.Some? ==> r.value.1 == IntValue(sec.level.value, env)
  {
    match AsEnchantment(p, sec.enchantment, env)
    case None => None
    case Some(e) => Some((e, if sec.level.None? then 1 else IntValue(sec.level.value, env)))
  }

  /** An enchantment added as build adds it is found by the section's own check, unless its level is 0. */
  lemma AddedEnchantmentIsContained(sec: EnchantmentSection, p: Platform, meta: Meta, env: Env)
    requires AsEnchantmentData(sec, p, env).Some?
    requires AsEnchantmentData(sec, p, env).value.1 != 0
    ensures IsContainedByMeta(sec, p,
      meta.(enchants := meta.enchants[AsEnchantmentData(sec, p, env).value.0 := AsEnchantmentData(sec, p, env).value.1]),
      env) == MatchingSection
  {
  }
}
