/**
 * ItemStackSection: an optional-everywhere description of an item, and the
 * matcher that tests an item against it. The matcher runs eleven checks in
 * a fixed order, collects the tag of each failing check, and stops at the
 * first failure whose tag is not declared non-breaking.
 */
module ItemStackSections {
  import opened Wrappers
  import opened Text
  import opened Items
  import opened Evaluables
  import opened EnchantmentSections
  import opened CustomEffectSections
  import opened BannerPatternSections
  import opened BaseEffectSections

  /**
   * ComparisonMismatch, with the two tags the matcher uses beyond the
   * declared enum: MetaUnreadable and BannerPatternsMismatch.
   */
  datatype Mismatch =
    | IsNull
    | TypeMismatch
    | AmountMismatch
    | DisplayNameMismatch
    | LoreMismatch
    | FlagsMismatch
    | ColorMismatch
    | EnchantmentsMismatch
    | TexturesMismatch
    | BaseEffectMismatch
    | CustomEffectsMismatch
    | BannerPatternsMismatch
    | MetaUnreadable

  /** The per-group toggles that make a patch override a group instead of extending it. */
  datatype PatchFlag = OverrideLore | OverrideFlags | OverrideEnchantments | OverrideCustomEffects | OverrideBannerPatterns

  datatype ItemStackSection = ItemStackSection(
    amount: Option<Evaluable>,
    kind: Option<Evaluable>,
    name: Option<Evaluable>,
    lore: Option<Evaluable>,
    flags: Option<Evaluable>,
    color: Option<Evaluable>,
    enchantments: Option<seq<EnchantmentSection>>,
    textures: Option<Evaluable>,
    baseEffect: Option<BaseEffectSection>,
    customEffects: Option<seq<CustomEffectSection>>,
    bannerPatterns: Option<seq<BannerPatternSection>>,
    patchFlags: seq<PatchFlag>)

  /** A section in which every field is absent. */
  const EmptySection := ItemStackSection(None, None, None, None, None, None, None, None, None, None, None, [])

  //////////////////////////////// Collections ////////////////////////////////

  /** A java.util.Collection: a list (size counts duplicates) or a set. */
  datatype Collection<T> = ListOf(items: seq<T>) | SetOf(members: set<T>)

  function Size<T>(c: Collection<T>): nat
  {
    match c
    case ListOf(items) => |items|
    case SetOf(members) => |members|
  }

  predicate Contains<T(==)>(c: Collection<T>, x: T)
  {
    match c
    case ListOf(items) => x in items
    case SetOf(members) => x in members
  }

  /** Collection.containsAll: every element of `b` is in `a`. */
  predicate ContainsAll<T(==)>(a: Collection<T>, b: Collection<T>)
  {
    match b
    case ListOf(items) => forall i :: 0 <= i < |items| ==> Contains(a, items[i])
    case SetOf(members) => forall x :: x in members ==> Contains(a, x)
  }

  /**
   * doCollectionsDiffer: two nulls are equal, one null differs, different
   * sizes differ, and otherwise they differ when `a` misses an element of `b`.
   */
  function DoCollectionsDiffer<T(==,!new)>(a: Option<Collection<T>>, b: Option<Collection<T>>): (r: bool)
    ensures a.None? && b.None? ==> !r
    ensures a.None? != b.None? ==> r
    ensures a.Some? && b.Some? ==>
      (r <==> Size(a.value) != Size(b.value) || exists x :: Contains(b.value, x) && !Contains(a.value, x))
  {
    if a.None? && b.None? then false
    else if a.None? || b.None? then true
    else if Size(a.value) != Size(b.value) then true
    else !ContainsAll(a.value, b.value)
  }

  /** For two sets the comparison is exactly inequality. */
  lemma SetsDifferIffUnequal<T(!new)>(a: set<T>, b: set<T>)
    ensures DoCollectionsDiffer(Some(SetOf(a)), Some(SetOf(b))) <==> a != b
  {
    if |a| == |b| && b <= a {
      assert |a - b| == |a| - |b|;
      assert a - b == {};
      assert a == b;
    }
  }

  /** For lists, order is ignored: a permutation never differs. */
  lemma ListsIgnoreOrder<T(!new)>(a: seq<T>, b: seq<T>)
    ensures multiset(a) == multiset(b) ==> !DoCollectionsDiffer(Some(ListOf(a)), Some(ListOf(b)))
  {
    if multiset(a) == multiset(b) {
      assert |a| == |multiset(a)| && |b| == |multiset(b)|;
      forall x | x in b
        ensures x in a
      {
        assert x in multiset(b);
      }
    }
  }

  /** For lists, multiplicity is ignored when the sizes agree. */
  lemma ListsIgnoreMultiplicity()
    ensures !DoCollectionsDiffer(Some(ListOf(["a", "a", "b"])), Some(ListOf(["a", "b", "b"])))
  {
    assert forall x :: x in ["a", "b", "b"] ==> x in ["a", "a", "b"];
  }

  //////////////////////////////////// Checks ///////////////////////////////////

  /** An absent or unresolvable type matches; otherwise the item must be of that material. */
  predicate TypeSatisfied(sec: ItemStackSection, p: Platform, item: Item, env: Env)
  {
    sec.kind.None? || AsXMaterial(p, sec.kind.value, env).None? || AsXMaterial(p, sec.kind.value, env).value == item.material
  }

  predicate AmountSatisfied(sec: ItemStackSection, item: Item, env: Env)
  {
    sec.amount.None? || IntValue(sec.amount.value, env) == item.amount
  }

  /** The evaluated name equals the display name; an unset display name equals nothing. */
  predicate NameSatisfied(sec: ItemStackSection, meta: Meta, env: Env)
  {
    sec.name.None? || Some(sec.name.value.text(env)) == meta.displayName
  }

  function LoreOf(meta: Meta): Option<Collection<string>>
  {
    if meta.lore.None? then None else Some(ListOf(meta.lore.value))
  }

  predicate LoreSatisfied(sec: ItemStackSection, meta: Meta, env: Env)
  {
    sec.lore.None? || !DoCollectionsDiffer(Some(ListOf(sec.lore.value.lines(env))), LoreOf(meta))
  }

  predicate FlagsSatisfied(sec: ItemStackSection, p: Platform, meta: Meta, env: Env)
  {
    sec.flags.None? ||
    !DoCollectionsDiffer(Some(SetOf(EnumSet(p.constants(ItemFlagType), sec.flags.value.names(env)))), Some(SetOf(meta.flags)))
  }

  /**
   * isColorSatisfied, as written: after the colour is resolved the code tests
   * the field for null a second time instead of the resolved colour, so an
   * unresolvable colour is compared (and fails) rather than being vacuous.
   * A potion or map without a colour throws NullPointerException.
   */
  function IsColorSatisfied(sec: ItemStackSection, p: Platform, meta: Meta, env: Env): (r: Result<bool, Exception>)
    ensures sec.color.None? ==> r == Success(true)
    ensures r.Failure? ==> r.error == NullPointerException
    ensures r.Failure? <==> (sec.color.Some? &&
      ((meta.shape.PotionMeta? && meta.shape.potionColor.None?) || (meta.shape.MapMeta? && meta.shape.mapColor.None?)))
    ensures sec.color.Some? && r.Success? && r.value ==> BukkitColor(p, sec.color.value.text(env)).Some?
  {
    if sec.color.None? then Success(true)
    else
      var bukkitColor := BukkitColor(p, sec.color.value.text(env));
      match meta.shape
      case PotionMeta(c, _, _) => if c.None? then Failure(NullPointerException) else Success(Some(c.value) == bukkitColor)
      case LeatherArmorMeta(c) => Success(Some(c) == bukkitColor)
      case MapMeta(c) => if c.None? then Failure(NullPointerException) else Success(Some(c.value) == bukkitColor)
      case _ => Success(false)
  }

  /** An unresolvable colour is a mismatch even for a coloured item. */
  lemma UnresolvedColorFails(sec: ItemStackSection, p: Platform, meta: Meta, env: Env)
    requires sec.color.Some? && BukkitColor(p, sec.color.value.text(env)).None?
    requires meta.shape.LeatherArmorMeta?
    ensures IsColorSatisfied(sec, p, meta, env) == Success(false)
  {
  }

  /**
   * isColorSatisfied with its second null test on the resolved colour, as
   * evidently intended: an unresolvable colour is vacuous like an absent one.
   * The matcher keeps the code's reading, IsColorSatisfied; this is the
   * corrected definition beside it.
   */
  function IsColorSatisfiedIntended(sec: ItemStackSection, p: Platform, meta: Meta, env: Env): (r: Result<bool, Exception>)
    ensures sec.color.None? || BukkitColor(p, sec.color.value.text(env)).None? ==> r == Success(true)
    ensures sec.color.Some? && BukkitColor(p, sec.color.value.text(env)).Some? ==>
      r == IsColorSatisfied(sec, p, meta, env)
  {
    if sec.color.None? then Success(true)
    else
      var bukkitColor := BukkitColor(p, sec.color.value.text(env));
      if bukkitColor.None? then Success(true)
      else
        match meta.shape
        case PotionMeta(c, _, _) => if c.None? then Failure(NullPointerException) else Success(c == bukkitColor)
        case LeatherArmorMeta(c) => Success(Some(c) == bukkitColor)
        case MapMeta(c) => if c.None? then Failure(NullPointerException) else Success(c == bukkitColor)
        case _ => Success(false)
  }

  /**
   * Under the corrected reading a leather armour, potion or map meta that
   * was given colour c satisfies a resolving colour exactly when it is c,
   * without throwing.
   */
  lemma IntendedColorOfApplied(sec: ItemStackSection, p: Platform, meta: Meta, c: Color, env: Env)
    requires sec.color.Some?
    requires meta.shape.LeatherArmorMeta? || meta.shape.PotionMeta? || meta.shape.MapMeta?
    requires BukkitColor(p, sec.color.value.text(env)).Some?
    ensures IsColorSatisfiedIntended(sec, p, ApplyColor(meta, c), env) == Success(BukkitColor(p, sec.color.value.text(env)) == Some(c))
  {
  }

  /** Every described enchantment passes the presence check against the meta. */
  predicate EnchantmentsSatisfied(sec: ItemStackSection, p: Platform, meta: Meta, env: Env)
  {
    sec.enchantments.None? ||
    forall i :: 0 <= i < |sec.enchantments.value| ==> DescribesEnchantment(sec.enchantments.value[i], p, meta, env)
  }

  /**
   * areTexturesSatisfied as written: an absent textures template passes; a
   * non-skull or a skull without owner fails; otherwise the game profile is
   * read reflectively from the owning player through the "profile" field of
   * the meta's class. The player is not an instance of that class, so the
   * read throws, the exception is swallowed, and the check fails. A present
   * textures template therefore never passes, whatever the skull holds.
   */
  predicate TexturesSatisfied(sec: ItemStackSection, meta: Meta)
  {
    sec.textures.None?
  }

  predicate BaseEffectSatisfied(sec: ItemStackSection, p: Platform, meta: Meta, env: Env)
  {
    sec.baseEffect.None? || (meta.shape.PotionMeta? && DescribesData(sec.baseEffect.value, p, meta.shape.base, env))
  }

  /** Each described effect is described-by at least one effect of a potion. */
  predicate CustomEffectsSatisfied(sec: ItemStackSection, p: Platform, meta: Meta, env: Env)
  {
    sec.customEffects.None? ||
    (meta.shape.PotionMeta? &&
     forall i :: 0 <= i < |sec.customEffects.value| ==>
       AnyEffectDescribed(sec.customEffects.value[i], p, meta.shape.effects, env))
  }

  /** Each described pattern is described-by at least one pattern of a banner. */
  predicate BannerPatternsSatisfied(sec: ItemStackSection, p: Platform, meta: Meta, env: Env)
  {
    sec.bannerPatterns.None? ||
    (meta.shape.BannerMeta? &&
     forall i :: 0 <= i < |sec.bannerPatterns.value| ==>
       AnyDescribed(sec.bannerPatterns.value[i], p, meta.shape.patterns, env))
  }

  /** The number of checks the matcher runs. */
  const CheckCount := 11

  /** The tag of the k-th check, in the fixed order of the matcher. */
  function Tag(k: nat): Mismatch
    requires k < CheckCount
  {
    [TypeMismatch, AmountMismatch, DisplayNameMismatch, LoreMismatch, FlagsMismatch, ColorMismatch,
     EnchantmentsMismatch, TexturesMismatch, BaseEffectMismatch, CustomEffectsMismatch, BannerPatternsMismatch][k]
  }

  /** The outcome of the k-th check: it passes, fails, or throws. */
  function CheckOutcome(sec: ItemStackSection, p: Platform, item: Item, meta: Meta, env: Env, k: nat): Result<bool, Exception>
    requires k < CheckCount
  {
    if k == 0 then Success(TypeSatisfied(sec, p, item, env))
    else if k == 1 then Success(AmountSatisfied(sec, item, env))
    else if k == 2 then Success(NameSatisfied(sec, meta, env))
    else if k == 3 then Success(LoreSatisfied(sec, meta, env))
    else if k == 4 then Success(FlagsSatisfied(sec, p, meta, env))
    else if k == 5 then IsColorSatisfied(sec, p, meta, env)
    else if k == 6 then Success(EnchantmentsSatisfied(sec, p, meta, env))
    else if k == 7 then Success(TexturesSatisfied(sec, meta))
    else if k == 8 then Success(BaseEffectSatisfied(sec, p, meta, env))
    else if k == 9 then Success(CustomEffectsSatisfied(sec, p, meta, env))
    else Success(BannerPatternsSatisfied(sec, p, meta, env))
  }

  /** The outcomes of the eleven checks, in the matcher's order. */
  function Outcomes(sec: ItemStackSection, p: Platform, item: Item, meta: Meta, env: Env): (r: seq<Result<bool, Exception>>)
    ensures |r| == CheckCount
    ensures forall k :: 0 <= k < CheckCount ==> r[k] == CheckOutcome(sec, p, item, meta, env, k)
  {
    [CheckOutcome(sec, p, item, meta, env, 0), CheckOutcome(sec, p, item, meta, env, 1),
     CheckOutcome(sec, p, item, meta, env, 2), CheckOutcome(sec, p, item, meta, env, 3),
     CheckOutcome(sec, p, item, meta, env, 4), CheckOutcome(sec, p, item, meta, env, 5),
     CheckOutcome(sec, p, item, meta, env, 6), CheckOutcome(sec, p, item, meta, env, 7),
     CheckOutcome(sec, p, item, meta, env, 8), CheckOutcome(sec, p, item, meta, env, 9),
     CheckOutcome(sec, p, item, meta, env, 10)]
  }

  /** Whether a failing check with this tag ends the matching. */
  predicate Breaks(m: Mismatch, nonBreakers: Option<set<Mismatch>>)
  {
    nonBreakers.None? || m !in nonBreakers.value
  }

  /** The mismatches collected from check k onwards, starting from `acc`. */
  function Collect(outcomes: seq<Result<bool, Exception>>, nonBreakers: Option<set<Mismatch>>, k: nat, acc: set<Mismatch>)
    : Result<set<Mismatch>, Exception>
    requires |outcomes| == CheckCount && k <= CheckCount
    decreases CheckCount - k
  {
    if k == CheckCount then Success(acc)
    else match outcomes[k]
      case Failure(e) => Failure(e)
      case Success(true) => Collect(outcomes, nonBreakers, k + 1, acc)
      case Success(false) =>
        if Breaks(Tag(k), nonBreakers) then Success(acc + {Tag(k)})
        else Collect(outcomes, nonBreakers, k + 1, acc + {Tag(k)})
  }

  /** describesItem as a function: a null item, a null meta, or the collected check failures. */
  function DescribesItemSpec(sec: ItemStackSection, p: Platform, item: Option<Item>,
                             nonBreakers: Option<set<Mismatch>>, env: Env): Result<set<Mismatch>, Exception>
  {
    if item.None? then Success({IsNull})
    else if item.value.meta.None? then Success({MetaUnreadable})
    else Collect(Outcomes(sec, p, item.value, item.value.meta.value, env), nonBreakers, 0, {})
  }

  /** The tags of the checks from k onwards that fail. */
  function FailingFrom(outcomes: seq<Result<bool, Exception>>, k: nat): set<Mismatch>
    requires |outcomes| == CheckCount && k <= CheckCount
  {
    set j | k <= j < CheckCount && outcomes[j] == Success(false) :: Tag(j)
  }

  /** The failing tags from k are those from k + 1, plus check k's tag when it fails. */
  lemma FailingFromStep(outcomes: seq<Result<bool, Exception>>, k: nat)
    requires |outcomes| == CheckCount && k < CheckCount
    ensures FailingFrom(outcomes, k) ==
      FailingFrom(outcomes, k + 1) + (if outcomes[k] == Success(false) then {Tag(k)} else {})
  {
    var lhs := FailingFrom(outcomes, k);
    var rhs := FailingFrom(outcomes, k + 1) + (if outcomes[k] == Success(false) then {Tag(k)} else {});
    forall m | m in lhs ensures m in rhs {
      var j :| k <= j < CheckCount && outcomes[j] == Success(false) && Tag(j) == m;
      if j > k {
        assert m in FailingFrom(outcomes, k + 1);
      }
    }
    forall m | m in rhs ensures m in lhs {
      if m in FailingFrom(outcomes, k + 1) {
        var j :| k + 1 <= j < CheckCount && outcomes[j] == Success(false) && Tag(j) == m;
        assert m in lhs;
      }
    }
  }

  /** One step of the collector: a pass moves on, a failure adds its tag and stops when the tag breaks. */
  lemma CollectStep(outcomes: seq<Result<bool, Exception>>, nonBreakers: Option<set<Mismatch>>,
                    k: nat, acc: set<Mismatch>)
    requires |outcomes| == CheckCount && k < CheckCount
    ensures outcomes[k] == Success(true) ==> Collect(outcomes, nonBreakers, k, acc) == Collect(outcomes, nonBreakers, k + 1, acc)
    ensures outcomes[k] == Success(false) && Breaks(Tag(k), nonBreakers) ==>
      Collect(outcomes, nonBreakers, k, acc) == Success(acc + {Tag(k)})
    ensures outcomes[k] == Success(false) && !Breaks(Tag(k), nonBreakers) ==>
      Collect(outcomes, nonBreakers, k, acc) == Collect(outcomes, nonBreakers, k + 1, acc + {Tag(k)})
    ensures outcomes[k].Failure? ==> Collect(outcomes, nonBreakers, k, acc) == Failure(outcomes[k].error)
  {
  }

  /** Whatever is collected lies between what was already collected and the failing tags. */
  lemma {:induction false} CollectBounds(outcomes: seq<Result<bool, Exception>>, nonBreakers: Option<set<Mismatch>>,
                                         k: nat, acc: set<Mismatch>)
    requires |outcomes| == CheckCount && k <= CheckCount
    ensures Collect(outcomes, nonBreakers, k, acc).Success? ==>
      acc <= Collect(outcomes, nonBreakers, k, acc).value <= acc + FailingFrom(outcomes, k)
    decreases CheckCount - k
  {
    if k < CheckCount {
      CollectBounds(outcomes, nonBreakers, k + 1, acc);
      CollectBounds(outcomes, nonBreakers, k + 1, acc + {Tag(k)});
      FailingFromStep(outcomes, k);
    }
  }

  /** With every tag non-breaking and no check throwing, exactly the failing tags are collected. */
  lemma {:induction false} CollectAllNonBreaking(outcomes: seq<Result<bool, Exception>>, nonBreakers: set<Mismatch>,
                                                 k: nat, acc: set<Mismatch>)
    requires |outcomes| == CheckCount && k <= CheckCount
    requires forall j :: k <= j < CheckCount ==> Tag(j) in nonBreakers
    requires forall j :: k <= j < CheckCount ==> outcomes[j].Success?
    ensures Collect(outcomes, Some(nonBreakers), k, acc) == Success(acc + FailingFrom(outcomes, k))
    decreases CheckCount - k
  {
    if k == CheckCount {
      assert FailingFrom(outcomes, k) == {};
      assert acc + FailingFrom(outcomes, k) == acc;
    } else {
      FailingFromStep(outcomes, k);
      if outcomes[k] == Success(false) {
        assert !Breaks(Tag(k), Some(nonBreakers));
        CollectAllNonBreaking(outcomes, nonBreakers, k + 1, acc + {Tag(k)});
        assert Collect(outcomes, Some(nonBreakers), k, acc) == Collect(outcomes, Some(nonBreakers), k + 1, acc + {Tag(k)});
        assert acc + {Tag(k)} + FailingFrom(outcomes, k + 1) == acc + FailingFrom(outcomes, k);
      } else {
        assert outcomes[k] == Success(true) by {
          assert outcomes[k].Success? && outcomes[k].value;
        }
        CollectAllNonBreaking(outcomes, nonBreakers, k + 1, acc);
        assert Collect(outcomes, Some(nonBreakers), k, acc) == Collect(outcomes, Some(nonBreakers), k + 1, acc);
        assert FailingFrom(outcomes, k) == FailingFrom(outcomes, k + 1);
      }
    }
  }

  /** With no non-breaking tags, matching stops at the first failure: at most one tag is reported. */
  lemma {:induction false} CollectStopsAtFirst(outcomes: seq<Result<bool, Exception>>, k: nat)
    requires |outcomes| == CheckCount && k <= CheckCount
    ensures Collect(outcomes, None, k, {}).Success? ==> |Collect(outcomes, None, k, {}).value| <= 1
    ensures Collect(outcomes, None, k, {}) == Success({}) <==> forall j :: k <= j < CheckCount ==> outcomes[j] == Success(true)
    decreases CheckCount - k
  {
    if k < CheckCount {
      CollectStopsAtFirst(outcomes, k + 1);
    }
  }

  /** With every check passing, nothing is reported, whatever the non-breakers. */
  lemma {:induction false} CollectAllPass(outcomes: seq<Result<bool, Exception>>, nonBreakers: Option<set<Mismatch>>,
                                          k: nat, acc: set<Mismatch>)
    requires |outcomes| == CheckCount && k <= CheckCount
    requires forall j :: k <= j < CheckCount ==> outcomes[j] == Success(true)
    ensures Collect(outcomes, nonBreakers, k, acc) == Success(acc)
    decreases CheckCount - k
  {
    if k < CheckCount {
      CollectAllPass(outcomes, nonBreakers, k + 1, acc);
    }
  }

  /** A null item is reported as exactly {IsNull}; an item without meta as exactly {MetaUnreadable}. */
  lemma NullItemAndUnreadableMeta(sec: ItemStackSection, p: Platform, item: Item, nonBreakers: Option<set<Mismatch>>, env: Env)
    ensures DescribesItemSpec(sec, p, None, nonBreakers, env) == Success({IsNull})
    ensures item.meta.None? ==> DescribesItemSpec(sec, p, Some(item), nonBreakers, env) == Success({MetaUnreadable})
  {
  }

  /**
   * Non-breaking mode: when every tag is non-breaking and the colour check
   * does not throw, the result is exactly the set of failing categories.
   */
  lemma DescribesAllNonBreaking(sec: ItemStackSection, p: Platform, item: Item, nonBreakers: set<Mismatch>, env: Env)
    requires item.meta.Some?
    requires forall j :: 0 <= j < CheckCount ==> Tag(j) in nonBreakers
    requires IsColorSatisfied(sec, p, item.meta.value, env).Success?
    ensures DescribesItemSpec(sec, p, Some(item), Some(nonBreakers), env) ==
      Success(FailingFrom(Outcomes(sec, p, item, item.meta.value, env), 0))
  {
    var outcomes := Outcomes(sec, p, item, item.meta.value, env);
    assert forall j :: 0 <= j < CheckCount ==> outcomes[j].Success?;
    CollectAllNonBreaking(outcomes, nonBreakers, 0, {});
    assert {} + FailingFrom(outcomes, 0) == FailingFrom(outcomes, 0);
  }

  /** Stop-at-first mode: without non-breakers at most one tag is reported, and none only when every check passes. */
  lemma DescribesStopsAtFirst(sec: ItemStackSection, p: Platform, item: Item, env: Env)
    requires item.meta.Some?
    ensures DescribesItemSpec(sec, p, Some(item), None, env).Success? ==>
      |DescribesItemSpec(sec, p, Some(item), None, env).value| <= 1
    ensures DescribesItemSpec(sec, p, Some(item), None, env) == Success({}) <==>
      forall j :: 0 <= j < CheckCount ==> Outcomes(sec, p, item, item.meta.value, env)[j] == Success(true)
  {
    CollectStopsAtFirst(Outcomes(sec, p, item, item.meta.value, env), 0);
  }

  /** Every reported tag belongs to a failing check. */
  lemma DescribesReportsOnlyFailures(sec: ItemStackSection, p: Platform, item: Item, nonBreakers: Option<set<Mismatch>>, env: Env)
    requires item.meta.Some?
    ensures DescribesItemSpec(sec, p, Some(item), nonBreakers, env).Success? ==>
      DescribesItemSpec(sec, p, Some(item), nonBreakers, env).value <= FailingFrom(Outcomes(sec, p, item, item.meta.value, env), 0)
  {
    CollectBounds(Outcomes(sec, p, item, item.meta.value, env), nonBreakers, 0, {});
  }

  /**
   * As written, a section with textures reports a textures mismatch for every
   * item with a meta: always when every tag is non-breaking and the colour
   * check does not throw, and in stop-at-first mode the result is never empty.
   */
  lemma {:induction false} TexturesAlwaysMismatch(sec: ItemStackSection, p: Platform, item: Item,
                                                  nonBreakers: set<Mismatch>, env: Env)
    requires item.meta.Some? && sec.textures.Some?
    ensures ((forall j :: 0 <= j < CheckCount ==> Tag(j) in nonBreakers) &&
             IsColorSatisfied(sec, p, item.meta.value, env).Success?) ==>
      DescribesItemSpec(sec, p, Some(item), Some(nonBreakers), env).Success? &&
      TexturesMismatch in DescribesItemSpec(sec, p, Some(item), Some(nonBreakers), env).value
    ensures DescribesItemSpec(sec, p, Some(item), None, env) != Success({})
  {
    var outcomes := Outcomes(sec, p, item, item.meta.value, env);
    assert outcomes[7] == Success(false);
    if (forall j :: 0 <= j < CheckCount ==> Tag(j) in nonBreakers) && IsColorSatisfied(sec, p, item.meta.value, env).Success? {
      DescribesAllNonBreaking(sec, p, item, nonBreakers, env);
      assert Tag(7) in FailingFrom(outcomes, 0);
    }
    DescribesStopsAtFirst(sec, p, item, env);
  }

  /** A section with every field absent describes every item that has a meta. */
  lemma EmptySectionDescribesEvery(p: Platform, item: Item, nonBreakers: Option<set<Mismatch>>, env: Env)
    requires item.meta.Some?
    ensures DescribesItemSpec(EmptySection, p, Some(item), nonBreakers, env) == Success({})
  {
    var outcomes := Outcomes(EmptySection, p, item, item.meta.value, env);
    assert forall j :: 0 <= j < CheckCount ==> outcomes[j] == Success(true);
    CollectAllPass(outcomes, nonBreakers, 0, {});
  }

  //////////////////////////////// The matcher ////////////////////////////////

  /** addMismatchAndPossiblyBreak: record the tag, and say whether matching must stop. */
  method AddMismatchAndPossiblyBreak(m: Mismatch, mismatches: set<Mismatch>, nonBreakers: Option<set<Mismatch>>)
    returns (result: set<Mismatch>, stop: bool)
    ensures result == mismatches + {m}
    ensures stop <==> Breaks(m, nonBreakers)
  {
    result := mismatches + {m};
    stop := nonBreakers.None? || m !in nonBreakers.value;
  }

  /** areEnchantmentsSatisfied: every described enchantment must pass the presence check. */
  method AreEnchantmentsSatisfied(sec: ItemStackSection, p: Platform, meta: Meta, env: Env) returns (r: bool)
    ensures r == EnchantmentsSatisfied(sec, p, meta, env)
  {
    if sec.enchantments.None? {
      return true;
    }
    var enchantments := sec.enchantments.value;
    var i := 0;
    while i < |enchantments|
      invariant 0 <= i <= |enchantments|
      invariant forall k :: 0 <= k < i ==> DescribesEnchantment(enchantments[k], p, meta, env)
    {
      var satisfied := DescribesEnchantment(enchantments[i], p, meta, env);
      if !satisfied {
        return false;
      }
      i := i + 1;
    }
    return true;
  }

  /** areCustomEffectsSatisfied: every described effect must match some effect of a potion. */
  method AreCustomEffectsSatisfied(sec: ItemStackSection, p: Platform, meta: Meta, env: Env) returns (r: bool)
    ensures r == CustomEffectsSatisfied(sec, p, meta, env)
  {
    if sec.customEffects.None? {
      return true;
    }
    if !meta.shape.PotionMeta? {
      return false;
    }
    var effects := meta.shape.effects;
    var sections := sec.customEffects.value;
    var i := 0;
    while i < |sections|
      invariant 0 <= i <= |sections|
      invariant forall k :: 0 <= k < i ==> AnyEffectDescribed(sections[k], p, effects, env)
    {
      var anyMatched := false;
      var j := 0;
      while j < |effects|
        invariant 0 <= j <= |effects|
        invariant !anyMatched ==> forall m :: 0 <= m < j ==> !DescribesEffect(sections[i], p, effects[m], env)
        invariant anyMatched ==> AnyEffectDescribed(sections[i], p, effects, env)
      {
        if DescribesEffect(sections[i], p, effects[j], env) {
          anyMatched := true;
          break;
        }
        j := j + 1;
      }
      if !anyMatched {
        assert !AnyEffectDescribed(sections[i], p, effects, env);
        return false;
      }
      i := i + 1;
    }
    return true;
  }

  /** areBannerPatternsSatisfied: every described pattern must match some pattern of a banner. */
  method AreBannerPatternsSatisfied(sec: ItemStackSection, p: Platform, meta: Meta, env: Env) returns (r: bool)
    ensures r == BannerPatternsSatisfied(sec, p, meta, env)
  {
    if sec.bannerPatterns.None? {
      return true;
    }
    if !meta.shape.BannerMeta? {
      return false;
    }
    var patterns := meta.shape.patterns;
    var sections := sec.bannerPatterns.value;
    var i := 0;
    while i < |sections|
      invariant 0 <= i <= |sections|
      invariant forall k :: 0 <= k < i ==> AnyDescribed(sections[k], p, patterns, env)
    {
      var anyMatched := false;
      var j := 0;
      while j < |patterns|
        invariant 0 <= j <= |patterns|
        invariant !anyMatched ==> forall m :: 0 <= m < j ==> !DescribesPattern(sections[i], p, patterns[m], env)
        invariant anyMatched ==> AnyDescribed(sections[i], p, patterns, env)
      {
        if DescribesPattern(sections[i], p, patterns[j], env) {
          anyMatched := true;
          break;
        }
        j := j + 1;
      }
      if !anyMatched {
        assert !AnyDescribed(sections[i], p, patterns, env);
        return false;
      }
      i := i + 1;
    }
    return true;
  }

  /**
   * One check's bookkeeping: a failing check records its tag through
   * addMismatchAndPossiblyBreak. `spec` is what the collector yields from
   * this check on; it is reached when matching stops, or after the last check.
   */
  method RecordOutcome(ghost outcomes: seq<Result<bool, Exception>>, ghost spec: Result<set<Mismatch>, Exception>,
                       k: nat, satisfied: bool, mismatches: set<Mismatch>, nonBreakers: Option<set<Mismatch>>)
    returns (result: set<Mismatch>, stop: bool)
    requires |outcomes| == CheckCount && k < CheckCount
    requires outcomes[k] == Success(satisfied)
    requires spec == Collect(outcomes, nonBreakers, k, mismatches)
    ensures stop ==> spec == Success(result)
    ensures !stop && k + 1 < CheckCount ==> spec == Collect(outcomes, nonBreakers, k + 1, result)
    ensures !stop && k + 1 == CheckCount ==> spec == Success(result)
  {
    if satisfied {
      result, stop := mismatches, false;
    } else {
      result, stop := AddMismatchAndPossiblyBreak(Tag(k), mismatches, nonBreakers);
    }
  }

  /**
   * describesItem: null item, null meta, then the eleven checks in order,
   * each failure adding its tag and returning unless the tag is non-breaking.
   */
  method DescribesItem(sec: ItemStackSection, p: Platform, item: Option<Item>,
                       nonBreakers: Option<set<Mismatch>>, env: Env) returns (r: Result<set<Mismatch>, Exception>)
    ensures r == DescribesItemSpec(sec, p, item, nonBreakers, env)
  {
    if item.None? {
      return Success({IsNull});
    }
    var it := item.value;
    if it.meta.None? {
      return Success({MetaUnreadable});
    }
    var meta := it.meta.value;
    ghost var outcomes := Outcomes(sec, p, it, meta, env);
    r := DescribesPresentItem(sec, p, it, meta, outcomes, nonBreakers, env);
  }

  /**
   * describesItem past its null checks: the six checks on the item, its
   * name, lore, flags and colour, then the remaining five.
   */
  method DescribesPresentItem(sec: ItemStackSection, p: Platform, it: Item, meta: Meta,
                              ghost outcomes: seq<Result<bool, Exception>>, nonBreakers: Option<set<Mismatch>>, env: Env)
    returns (r: Result<set<Mismatch>, Exception>)
    requires |outcomes| == CheckCount
    requires outcomes[0] == Success(TypeSatisfied(sec, p, it, env))
    requires outcomes[1] == Success(AmountSatisfied(sec, it, env))
    requires outcomes[2] == Success(NameSatisfied(sec, meta, env))
    requires outcomes[3] == Success(LoreSatisfied(sec, meta, env))
    requires outcomes[4] == Success(FlagsSatisfied(sec, p, meta, env))
    requires outcomes[5] == IsColorSatisfied(sec, p, meta, env)
    requires outcomes[6] == Success(EnchantmentsSatisfied(sec, p, meta, env))
    requires outcomes[7] == Success(TexturesSatisfied(sec, meta))
    requires outcomes[8] == Success(BaseEffectSatisfied(sec, p, meta, env))
    requires outcomes[9] == Success(CustomEffectsSatisfied(sec, p, meta, env))
    requires outcomes[10] == Success(BannerPatternsSatisfied(sec, p, meta, env))
    ensures r == Collect(outcomes, nonBreakers, 0, {})
  {
    ghost var spec := Collect(outcomes, nonBreakers, 0, {});
    var mismatches, stop := DescribesIdentity(sec, p, it, meta, outcomes, spec, nonBreakers, env);
    if stop { return Success(mismatches); }
    var collected;
    collected, stop := DescribesListsAndColor(sec, p, meta, outcomes, spec, mismatches, nonBreakers, env);
    if stop { return collected; }
    r := DescribesContents(sec, p, meta, outcomes, spec, collected.value, nonBreakers, env);
  }

  /** The type, amount and display name checks, from an empty set of mismatches. */
  method DescribesIdentity(sec: ItemStackSection, p: Platform, it: Item, meta: Meta,
                           ghost outcomes: seq<Result<bool, Exception>>, ghost spec: Result<set<Mismatch>, Exception>,
                           nonBreakers: Option<set<Mismatch>>, env: Env)
    returns (mismatches: set<Mismatch>, stop: bool)
    requires |outcomes| == CheckCount
    requires outcomes[0] == Success(TypeSatisfied(sec, p, it, env))
    requires outcomes[1] == Success(AmountSatisfied(sec, it, env))
    requires outcomes[2] == Success(NameSatisfied(sec, meta, env))
    requires spec == Collect(outcomes, nonBreakers, 0, {})
    ensures stop ==> spec == Success(mismatches)
    ensures !stop ==> spec == Collect(outcomes, nonBreakers, 3, mismatches)
  {
    mismatches := {};
    var typeSatisfied := TypeSatisfied(sec, p, it, env);
    mismatches, stop := RecordOutcome(outcomes, spec, 0, typeSatisfied, mismatches, nonBreakers);
    if stop { return; }

    var amountSatisfied := AmountSatisfied(sec, it, env);
    mismatches, stop := RecordOutcome(outcomes, spec, 1, amountSatisfied, mismatches, nonBreakers);
    if stop { return; }

    var nameSatisfied := NameSatisfied(sec, meta, env);
    mismatches, stop := RecordOutcome(outcomes, spec, 2, nameSatisfied, mismatches, nonBreakers);
  }

  /**
   * The lore, flags and colour checks, continuing from the mismatches
   * collected so far; the colour check may throw.
   */
  method DescribesListsAndColor(sec: ItemStackSection, p: Platform, meta: Meta,
                                ghost outcomes: seq<Result<bool, Exception>>, ghost spec: Result<set<Mismatch>, Exception>,
                                collected: set<Mismatch>, nonBreakers: Option<set<Mismatch>>, env: Env)
    returns (r: Result<set<Mismatch>, Exception>, stop: bool)
    requires |outcomes| == CheckCount
    requires outcomes[3] == Success(LoreSatisfied(sec, meta, env))
    requires outcomes[4] == Success(FlagsSatisfied(sec, p, meta, env))
    requires outcomes[5] == IsColorSatisfied(sec, p, meta, env)
    requires spec == Collect(outcomes, nonBreakers, 3, collected)
    ensures stop ==> spec == r
    ensures !stop ==> r.Success? && spec == Collect(outcomes, nonBreakers, 6, r.value)
  {
    var mismatches := collected;
    var loreSatisfied := LoreSatisfied(sec, meta, env);
    mismatches, stop := RecordOutcome(outcomes, spec, 3, loreSatisfied, mismatches, nonBreakers);
    if stop { return Success(mismatches), true; }

    var flagsSatisfied := FlagsSatisfied(sec, p, meta, env);
    mismatches, stop := RecordOutcome(outcomes, spec, 4, flagsSatisfied, mismatches, nonBreakers);
    if stop { return Success(mismatches), true; }

    var colorSatisfied := IsColorSatisfied(sec, p, meta, env);
    if colorSatisfied.Failure? {
      CollectStep(outcomes, nonBreakers, 5, mismatches);
      return Failure(colorSatisfied.error), true;
    }
    mismatches, stop := RecordOutcome(outcomes, spec, 5, colorSatisfied.value, mismatches, nonBreakers);
    return Success(mismatches), stop;
  }

  /**
   * The second half of describesItem: the enchantment, textures, base
   * effect, custom effect and banner pattern checks, continuing from the
   * mismatches the first six checks collected.
   */
  method DescribesContents(sec: ItemStackSection, p: Platform, meta: Meta,
                           ghost outcomes: seq<Result<bool, Exception>>, ghost spec: Result<set<Mismatch>, Exception>,
                           collected: set<Mismatch>, nonBreakers: Option<set<Mismatch>>, env: Env)
    returns (r: Result<set<Mismatch>, Exception>)
    requires |outcomes| == CheckCount
    requires outcomes[6] == Success(EnchantmentsSatisfied(sec, p, meta, env))
    requires outcomes[7] == Success(TexturesSatisfied(sec, meta))
    requires outcomes[8] == Success(BaseEffectSatisfied(sec, p, meta, env))
    requires outcomes[9] == Success(CustomEffectsSatisfied(sec, p, meta, env))
    requires outcomes[10] == Success(BannerPatternsSatisfied(sec, p, meta, env))
    requires spec == Collect(outcomes, nonBreakers, 6, collected)
    ensures r == spec
  {
    var mismatches := collected;
    var stop: bool;
    var enchantmentsSatisfied := AreEnchantmentsSatisfied(sec, p, meta, env);
    mismatches, stop := RecordOutcome(outcomes, spec, 6, enchantmentsSatisfied, mismatches, nonBreakers);
    if stop { return Success(mismatches); }

    var texturesSatisfied := TexturesSatisfied(sec, meta);
    mismatches, stop := RecordOutcome(outcomes, spec, 7, texturesSatisfied, mismatches, nonBreakers);
    if stop { return Success(mismatches); }

    var baseEffectSatisfied := BaseEffectSatisfied(sec, p, meta, env);
    mismatches, stop := RecordOutcome(outcomes, spec, 8, baseEffectSatisfied, mismatches, nonBreakers);
    if stop { return Success(mismatches); }

    var effectsSatisfied := AreCustomEffectsSatisfied(sec, p, meta, env);
    mismatches, stop := RecordOutcome(outcomes, spec, 9, effectsSatisfied, mismatches, nonBreakers);
    if stop { return Success(mismatches); }

    var patternsSatisfied := AreBannerPatternsSatisfied(sec, p, meta, env);
    mismatches, stop := RecordOutcome(outcomes, spec, 10, patternsSatisfied, mismatches, nonBreakers);
    if stop { return Success(mismatches); }

    return Success(mismatches);
  }
}
