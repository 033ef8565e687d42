/**
 * ItemStackCustomEffectSection: a partial description of a potion effect,
 * turned into an effect (with defaults) or used to test one. The test
 * compares the amplifier constraint with the effect's duration and the
 * particles constraint with its ambient flag, exactly as the code does.
 */
module CustomEffectSections {
  import opened Wrappers
  import opened Text
  import opened Items
  import opened Evaluables

  datatype CustomEffectSection = CustomEffectSection(
    effect: Option<Evaluable>,
    duration: Option<Evaluable>,
    amplifier: Option<Evaluable>,
    ambient: Option<bool>,
    particles: Option<bool>,
    icon: Option<bool>)

  /** The effect type the section names, when present and resolvable. */
  function EffectTypeOf(sec: CustomEffectSection, p: Platform, env: Env): Option<EffectType>
  {
    if sec.effect.None? then None else AsPotionEffectType(p, sec.effect.value, env)
  }

  /** A nullable Boolean read as a primitive: null counts as false. */
  function IsTrue(b: Option<bool>): bool
  {
    b == Some(true)
  }

  /**
   * asEffect: no effect without a resolvable type and a duration; the
   * amplifier defaults to 0 and the three flags to false. The one-minute
   * duration default can never apply, since a missing duration already
   * returned null.
   */
  function AsEffect(sec: CustomEffectSection, p: Platform, env: Env): (r: Option<PotionEffect>)
    ensures r.None? <==> EffectTypeOf(sec, p, env).None? || sec.duration.None?
    ensures r.Some? ==>
      r.value.kind == EffectTypeOf(sec, p, env).value &&
      r.value.duration == IntValue(sec.duration.value, env) &&
      r.value.amplifier == (if sec.amplifier.None? then 0 else IntValue(sec.amplifier.value, env)) &&
      r.value.ambient == IsTrue(sec.ambient) &&
      r.value.particles == IsTrue(sec.particles) &&
      r.value.icon == IsTrue(sec.icon)
  {
    var kind := EffectTypeOf(sec, p, env);
    if kind.None? || sec.duration.None? then None
    else
      var amplifier := if sec.amplifier.None? then None else Some(IntValue(sec.amplifier.value, env));
      var duration := Some(IntValue(sec.duration.value, env));
      Some(PotionEffect(
        kind.value,
        if duration.None? then 20 * 60 else duration.value,
        if amplifier.None? then 0 else amplifier.value,
        IsTrue(sec.ambient), IsTrue(sec.particles), IsTrue(sec.icon)))
  }

  /**
   * describesEffect, as written: an absent or unresolvable type matches any
   * type; the amplifier constraint is tested against the duration and the
   * particles constraint against the ambient flag.
   */
  function DescribesEffect(sec: CustomEffectSection, p: Platform, e: PotionEffect, env: Env): bool
  {
    (EffectTypeOf(sec, p, env).None? || EffectTypeOf(sec, p, env).value == e.kind) &&
    (sec.duration.None? || IntValue(sec.duration.value, env) == e.duration) &&
    (sec.amplifier.None? || IntValue(sec.amplifier.value, env) == e.duration) &&
    (sec.ambient.None? || sec.ambient.value == e.ambient) &&
    (sec.particles.None? || sec.particles.value == e.ambient) &&
    (sec.icon.None? || sec.icon.value == e.icon)
  }

  /** A section with every field absent describes every effect. */
  lemma EmptySectionDescribesEvery(p: Platform, e: PotionEffect, env: Env)
    ensures DescribesEffect(CustomEffectSection(None, None, None, None, None, None), p, e, env)
  {
  }

  /**
   * The amplifier constraint reads the duration: an effect whose amplifier
   * equals the constraint is rejected, and one whose duration equals it is accepted.
   */
  lemma AmplifierComparedWithDuration(p: Platform, k: EffectType, env: Env)
    ensures !DescribesEffect(CustomEffectSection(None, None, Some(ConstantEvaluable("", 2)), None, None, None),
      p, PotionEffect(k, 600, 2, false, false, false), env)
    ensures DescribesEffect(CustomEffectSection(None, None, Some(ConstantEvaluable("", 2)), None, None, None),
      p, PotionEffect(k, 2, 0, false, false, false), env)
  {
  }

  /**
   * The particles constraint reads the ambient flag: an effect showing
   * particles is rejected by particles: true unless it is also ambient.
   */
  lemma ParticlesComparedWithAmbient(p: Platform, k: EffectType, env: Env)
    ensures !DescribesEffect(CustomEffectSection(None, None, None, None, Some(true), None),
      p, PotionEffect(k, 600, 0, false, true, false), env)
    ensures DescribesEffect(CustomEffectSection(None, None, None, None, Some(true), None),
      p, PotionEffect(k, 600, 0, true, false, false), env)
  {
  }

  /**
   * A section describes the effect it builds exactly when the misread
   * constraints happen to agree: the amplifier constraint with the duration,
   * and the particles constraint with the ambient flag.
   */
  lemma DescribesOwnEffect(sec: CustomEffectSection, p: Platform, env: Env)
    requires AsEffect(sec, p, env).Some?
    ensures DescribesEffect(sec, p, AsEffect(sec, p, env).value, env) <==>
      (sec.amplifier.None? || IntValue(sec.amplifier.value, env) == IntValue(sec.duration.value, env)) &&
      (sec.particles.None? || sec.particles.value == IsTrue(sec.ambient))
  {
  }

  /**
   * describesEffect as its field names mean it: the amplifier constraint is
   * tested against the effect's amplifier and the particles constraint
   * against its particles flag. The matcher keeps the code's reading,
   * DescribesEffect; this is the corrected definition beside it.
   */
  predicate DescribesEffectIntended(sec: CustomEffectSection, p: Platform, e: PotionEffect, env: Env)
  {
    (EffectTypeOf(sec, p, env).None? || EffectTypeOf(sec, p, env).value == e.kind) &&
    (sec.duration.None? || IntValue(sec.duration.value, env) == e.duration) &&
    (sec.amplifier.None? || IntValue(sec.amplifier.value, env) == e.amplifier) &&
    (sec.ambient.None? || sec.ambient.value == e.ambient) &&
    (sec.particles.None? || sec.particles.value == e.particles) &&
    (sec.icon.None? || sec.icon.value == e.icon)
  }

  /** Under the corrected reading every section describes the effect it builds. */
  lemma IntendedDescribesOwnEffect(sec: CustomEffectSection, p: Platform, env: Env)
    requires AsEffect(sec, p, env).Some?
    ensures DescribesEffectIntended(sec, p, AsEffect(sec, p, env).value, env)
  {
  }

  /**
   * Under the corrected reading a section with every field present and a
   * resolvable type describes exactly the effect it builds.
   */
  lemma IntendedFullSectionIsExact(sec: CustomEffectSection, p: Platform, e: PotionEffect, env: Env)
    requires EffectTypeOf(sec, p, env).Some? && sec.duration.Some? && sec.amplifier.Some?
    requires sec.ambient.Some? && sec.particles.Some? && sec.icon.Some?
    ensures AsEffect(sec, p, env).Some?
    ensures DescribesEffectIntended(sec, p, e, env) <==> e == AsEffect(sec, p, env).value
  {
  }

  /** The two readings differ only in the amplifier and particles constraints. */
  lemma IntendedAgreesElsewhere(sec: CustomEffectSection, p: Platform, e: PotionEffect, env: Env)
    requires sec.amplifier.None? && sec.particles.None?
    ensures DescribesEffectIntended(sec, p, e, env) == DescribesEffect(sec, p, e, env)
  {
  }

  /**
   * The corrected reading decides the two effects of AmplifierComparedWithDuration
   * and ParticlesComparedWithAmbient the other way round.
   */
  lemma IntendedReadsOwnFields(p: Platform, k: EffectType, env: Env)
    ensures DescribesEffectIntended(CustomEffectSection(None, None, Some(ConstantEvaluable("", 2)), None, None, None),
      p, PotionEffect(k, 600, 2, false, false, false), env)
    ensures !DescribesEffectIntended(CustomEffectSection(None, None, Some(ConstantEvaluable("", 2)), None, None, None),
      p, PotionEffect(k, 2, 0, false, false, false), env)
    ensures DescribesEffectIntended(CustomEffectSection(None, None, None, None, Some(true), None),
      p, PotionEffect(k, 600, 0, false, true, false), env)
    ensures !DescribesEffectIntended(CustomEffectSection(None, None, None, None, Some(true), None),
      p, PotionEffect(k, 600, 0, true, false, false), env)
  {
  }

  /** Whether some effect of the list is described, scanning from the front. */
  function AnyEffectDescribed(sec: CustomEffectSection, p: Platform, effects: seq<PotionEffect>, env: Env): (r: bool)
    ensures r <==> exists i :: 0 <= i < |effects| && DescribesEffect(sec, p, effects[i], env)
    decreases |effects|
  {
    if |effects| == 0 then false
    else if DescribesEffect(sec, p, effects[0], env) then true
    else
      var rest := AnyEffectDescribed(sec, p, effects[1..], env);
      assert forall i :: 1 <= i < |effects| ==> effects[i] == effects[1..][i - 1];
      rest
  }
}
