/**
 * ItemStackBaseEffectSection: a potion type with optional extended and
 * upgraded flags. Building gives the upgraded flag priority; the test reads
 * the upgraded constraint against the extended flag, exactly as the code does.
 */
module BaseEffectSections {
  import opened Wrappers
  import opened Text
  import opened Items
  import opened Evaluables

  datatype BaseEffectSection = BaseEffectSection(kind: Option<Evaluable>, extended: Option<bool>, upgraded: Option<bool>)

  /** The potion type the section names, when present and resolvable. */
  function PotionTypeOf(sec: BaseEffectSection, p: Platform, env: Env): Option<PotionType>
  {
    if sec.kind.None? then None else AsPotionType(p, sec.kind.value, env)
  }

  /**
   * asData: null without a resolvable type; null flags count as false, and
   * an upgraded potion is never also extended.
   */
  function AsData(sec: BaseEffectSection, p: Platform, env: Env): (r: Option<PotionData>)
    ensures r.None? <==> PotionTypeOf(sec, p, env).None?
    ensures r.Some? ==> r.value.kind == PotionTypeOf(sec, p, env).value
    ensures r.Some? ==> r.value.upgraded == (sec.upgraded == Some(true))
    ensures r.Some? ==> r.value.extended == (sec.extended == Some(true) && sec.upgraded != Some(true))
    ensures r.Some? ==> !(r.value.extended && r.value.upgraded)
  {
    var upgraded := sec.upgraded.Some? && sec.upgraded.value;
    var extended := sec.extended.Some? && sec.extended.value;
    var kind := PotionTypeOf(sec, p, env);
    if kind.None? then None
    else Some(PotionData(kind.value, !upgraded && extended, upgraded))
  }

  /**
   * describesData, as written: an absent or unresolvable type matches any
   * type, and both flag constraints are compared with the extended flag.
   */
  function DescribesData(sec: BaseEffectSection, p: Platform, data: PotionData, env: Env): bool
  {
    (PotionTypeOf(sec, p, env).None? || PotionTypeOf(sec, p, env).value == data.kind) &&
    (sec.extended.None? || sec.extended.value == data.extended) &&
    (sec.upgraded.None? || sec.upgraded.value == data.extended)
  }

  /** A section with every field absent describes every base effect. */
  lemma EmptySectionDescribesEvery(p: Platform, data: PotionData, env: Env)
    ensures DescribesData(BaseEffectSection(None, None, None), p, data, env)
  {
  }

  /** An upgraded potion is rejected by upgraded: true, because the constraint reads the extended flag. */
  lemma UpgradedComparedWithExtended(p: Platform, k: PotionType, env: Env)
    ensures !DescribesData(BaseEffectSection(None, None, Some(true)), p, PotionData(k, false, true), env)
    ensures DescribesData(BaseEffectSection(None, None, Some(true)), p, PotionData(k, true, false), env)
  {
  }

  /**
   * A section describes the data it builds exactly when it does not ask for
   * an upgraded potion and does not ask for an extended one while saying
   * upgraded: false.
   */
  lemma DescribesOwnData(sec: BaseEffectSection, p: Platform, env: Env)
    requires AsData(sec, p, env).Some?
    ensures DescribesData(sec, p, AsData(sec, p, env).value, env) <==>
      sec.upgraded != Some(true) && !(sec.upgraded == Some(false) && sec.extended == Some(true))
  {
  }

  /**
   * describesData as its field names mean it: the upgraded constraint is
   * tested against the upgraded flag. The matcher keeps the code's reading,
   * DescribesData; this is the corrected definition beside it.
   */
  predicate DescribesDataIntended(sec: BaseEffectSection, p: Platform, data: PotionData, env: Env)
  {
    (PotionTypeOf(sec, p, env).None? || PotionTypeOf(sec, p, env).value == data.kind) &&
    (sec.extended.None? || sec.extended.value == data.extended) &&
    (sec.upgraded.None? || sec.upgraded.value == data.upgraded)
  }

  /**
   * Under the corrected reading a section describes the data it builds
   * exactly unless it asks for both extended and upgraded, which building
   * resolves in favour of upgraded.
   */
  lemma IntendedDescribesOwnData(sec: BaseEffectSection, p: Platform, env: Env)
    requires AsData(sec, p, env).Some?
    ensures DescribesDataIntended(sec, p, AsData(sec, p, env).value, env) <==>
      !(sec.extended == Some(true) && sec.upgraded == Some(true))
  {
  }

  /**
   * Under the corrected reading a section with every field present, a
   * resolvable type and not both flags set describes exactly the data it builds.
   */
  lemma IntendedFullSectionIsExact(sec: BaseEffectSection, p: Platform, data: PotionData, env: Env)
    requires PotionTypeOf(sec, p, env).Some? && sec.extended.Some? && sec.upgraded.Some?
    requires !(sec.extended.value && sec.upgraded.value)
    ensures AsData(sec, p, env).Some?
    ensures DescribesDataIntended(sec, p, data, env) <==> data == AsData(sec, p, env).value
  {
  }

  /** The two readings differ only in the upgraded constraint. */
  lemma IntendedAgreesElsewhere(sec: BaseEffectSection, p: Platform, data: PotionData, env: Env)
    requires sec.upgraded.None?
    ensures DescribesDataIntended(sec, p, data, env) == DescribesData(sec, p, data, env)
  {
  }

  /** The corrected reading decides the two data of UpgradedComparedWithExtended the other way round. */
  lemma IntendedReadsUpgraded(p: Platform, k: PotionType, env: Env)
    ensures DescribesDataIntended(BaseEffectSection(None, None, Some(true)), p, PotionData(k, false, true), env)
    ensures !DescribesDataIntended(BaseEffectSection(None, None, Some(true)), p, PotionData(k, true, false), env)
  {
  }
}
