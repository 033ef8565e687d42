/**
 * ItemStackBannerPatternSection: a pattern type and a dye colour, each
 * optional. Building a pattern resolves the colour from the pattern field,
 * as the code does, so a section with a colour but no pattern throws.
 */
module BannerPatternSections {
  import opened Wrappers
  import opened Text
  import opened Items
  import opened Evaluables

  datatype BannerPatternSection = BannerPatternSection(pattern: Option<Evaluable>, color: Option<Evaluable>)

  /** The pattern type the pattern field names, when present and resolvable. */
  function PatternTypeOf(sec: BannerPatternSection, p: Platform, env: Env): Option<Constant>
  {
    if sec.pattern.None? then None else AsEnumerationConstant(p, PatternTypeType, sec.pattern.value, env)
  }

  /** The dye colour the colour field names, when present and resolvable. */
  function DyeColorOf(sec: BannerPatternSection, p: Platform, env: Env): Option<Constant>
  {
    if sec.color.None? then None else AsEnumerationConstant(p, DyeColorType, sec.color.value, env)
  }

  /**
   * asPattern, as written: the colour is looked up in the pattern field's
   * text, which throws NullPointerException when a colour is given without a
   * pattern; a pattern needs both lookups to succeed.
   */
  function AsPattern(sec: BannerPatternSection, p: Platform, env: Env): (r: Result<Option<Pattern>, Exception>)
    ensures r.Failure? <==> sec.color.Some? && sec.pattern.None?
    ensures r.Failure? ==> r.error == NullPointerException
    ensures r.Success? && r.value.Some? ==>
      sec.pattern.Some? && sec.color.Some? &&
      Some(r.value.value.pattern) == AsEnumerationConstant(p, PatternTypeType, sec.pattern.value, env) &&
      Some(r.value.value.color) == AsEnumerationConstant(p, DyeColorType, sec.pattern.value, env)
    ensures r.Success? && r.value.None? <==>
      (sec.pattern.None? && sec.color.None?) ||
      (sec.pattern.Some? && (sec.color.None? ||
        AsEnumerationConstant(p, PatternTypeType, sec.pattern.value, env).None? ||
        AsEnumerationConstant(p, DyeColorType, sec.pattern.value, env).None?))
  {
    var pattern := PatternTypeOf(sec, p, env);
    if sec.color.Some? && sec.pattern.None? then Failure(NullPointerException)
    else
      var color := if sec.color.None? then None else AsEnumerationConstant(p, DyeColorType, sec.pattern.value, env);
      if pattern.None? || color.None? then Success(None)
      else Success(Some(Pattern(color.value, pattern.value)))
  }

  /** The colour field's own text never influences the pattern that is built. */
  lemma AsPatternIgnoresColorText(sec: BannerPatternSection, c: Evaluable, p: Platform, env: Env)
    requires sec.color.Some?
    ensures AsPattern(sec.(color := Some(c)), p, env) == AsPattern(sec, p, env)
  {
  }

  /**
   * asPattern as its fields mean it: the dye colour is read from the colour
   * field. It never throws, and builds a pattern exactly when both fields
   * resolve. The builder keeps the code's reading, AsPattern; this is the
   * corrected definition beside it.
   */
  function AsPatternIntended(sec: BannerPatternSection, p: Platform, env: Env): (r: Option<Pattern>)
    ensures r.Some? <==> PatternTypeOf(sec, p, env).Some? && DyeColorOf(sec, p, env).Some?
    ensures r.Some? ==> r.value == Pattern(DyeColorOf(sec, p, env).value, PatternTypeOf(sec, p, env).value)
  {
    var pattern := PatternTypeOf(sec, p, env);
    var color := DyeColorOf(sec, p, env);
    if pattern.None? || color.None? then None else Some(Pattern(color.value, pattern.value))
  }

  /** Where the code's reading builds a pattern, the colour text differs in only the lookup it feeds. */
  lemma IntendedAgreesOnColorText(sec: BannerPatternSection, p: Platform, env: Env)
    requires sec.pattern.Some? && sec.color.Some?
    requires AsEnumerationConstant(p, DyeColorType, sec.color.value, env) ==
      AsEnumerationConstant(p, DyeColorType, sec.pattern.value, env)
    ensures AsPattern(sec, p, env) == Success(AsPatternIntended(sec, p, env))
  {
  }

  /**
   * describesPattern: each field that is present and resolves must equal the
   * pattern's corresponding part; the others are vacuous.
   */
  function DescribesPattern(sec: BannerPatternSection, p: Platform, pat: Pattern, env: Env): (r: bool)
    ensures r <==>
      (PatternTypeOf(sec, p, env).None? || PatternTypeOf(sec, p, env).value == pat.pattern) &&
      (DyeColorOf(sec, p, env).None? || DyeColorOf(sec, p, env).value == pat.color)
  {
    if sec.pattern.Some? && PatternTypeOf(sec, p, env).Some? && PatternTypeOf(sec, p, env).value != pat.pattern then false
    else if sec.color.Some? && DyeColorOf(sec, p, env).Some? && DyeColorOf(sec, p, env).value != pat.color then false
    else true
  }

  /** A section with both fields absent describes every pattern. */
  lemma EmptySectionDescribesEvery(p: Platform, pat: Pattern, env: Env)
    ensures DescribesPattern(BannerPatternSection(None, None), p, pat, env)
  {
  }

  /**
   * A section describes the pattern it builds exactly when its colour field
   * is unresolvable or names the dye that the pattern field's text names.
   */
  lemma DescribesOwnPattern(sec: BannerPatternSection, p: Platform, env: Env)
    requires AsPattern(sec, p, env).Success? && AsPattern(sec, p, env).value.Some?
    ensures DescribesPattern(sec, p, AsPattern(sec, p, env).value.value, env) <==>
      DyeColorOf(sec, p, env).None? ||
      DyeColorOf(sec, p, env) == AsEnumerationConstant(p, DyeColorType, sec.pattern.value, env)
  {
  }

  /**
   * isContainedByMeta: some pattern of the banner is described by the
   * section; the search only reads the patterns.
   */
  function IsContainedByMeta(sec: BannerPatternSection, p: Platform, meta: Meta, env: Env): (r: bool)
    requires meta.shape.BannerMeta?
    ensures r <==> exists i :: 0 <= i < |meta.shape.patterns| && DescribesPattern(sec, p, meta.shape.patterns[i], env)
  {
    AnyDescribed(sec, p, meta.shape.patterns, env)
  }

  /** Whether some pattern of the list is described, scanning from the front. */
  function AnyDescribed(sec: BannerPatternSection, p: Platform, patterns: seq<Pattern>, env: Env): (r: bool)
    ensures r <==> exists i :: 0 <= i < |patterns| && DescribesPattern(sec, p, patterns[i], env)
    decreases |patterns|
  {
    if |patterns| == 0 then false
    else if DescribesPattern(sec, p, patterns[0], env) then true
    else
      var rest := AnyDescribed(sec, p, patterns[1..], env);
      assert forall i :: 1 <= i < |patterns| ==> patterns[i] == patterns[1..][i - 1];
      rest
  }

  /** Under the corrected reading every section describes the pattern it builds. */
  lemma IntendedDescribesOwnPattern(sec: BannerPatternSection, p: Platform, env: Env)
    requires AsPatternIntended(sec, p, env).Some?
    ensures DescribesPattern(sec, p, AsPatternIntended(sec, p, env).value, env)
  {
  }

  /** Under the corrected reading a section whose fields both resolve describes exactly the pattern it builds. */
  lemma IntendedFullSectionIsExact(sec: BannerPatternSection, p: Platform, pat: Pattern, env: Env)
    requires PatternTypeOf(sec, p, env).Some? && DyeColorOf(sec, p, env).Some?
    ensures DescribesPattern(sec, p, pat, env) <==> Some(pat) == AsPatternIntended(sec, p, env)
  {
  }
}
