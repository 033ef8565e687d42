# BukkitEvaluable item templating core, in Dafny

BukkitEvaluable turns configuration sections into Minecraft items and compares items against
descriptions. This project models its core and proves properties about it:

- **Evaluable values.** A configured template that evaluates in an environment to text, a
  number, lore lines, a set of names or a raw value. These values feed enumeration lookups
  that are trimmed, lower-cased and memoised in a cache that stores only hits. They also feed
  RGB colour parsing that fails softly (`evaluable.dfy`, over the platform model in
  `platform.dfy`).
- **The item builder** (`item_builder.dfy`). It has five repeatable groups (lore, flags,
  enchantments, custom effects, banner patterns), each an append-only list with an override
  flag, plus singleton templates.
  - The class `ItemBuilder` keeps the source's fields. Every setter is proved to perform a
    transition on the value `BuilderState`.
  - `copy` and `patch` are proved to return fresh builders and to leave the receiver alone.
  - `build` runs its loops over clones of the base item. It is proved equal to the function
    `BuildSpec`, whose lore, enchantments, flags and failure cases are characterised by
    lemmas.
- **The description matcher** (`item_stack_section.dfy`). It runs eleven checks in a fixed
  order, collects mismatch tags into a set and stops at the first tag that is not
  non-breaking. It is proved equal to a recursive specification, and the lemmas give what that
  specification reports.
  - It also covers the order-blind and multiplicity-blind collection comparison and the
  at-least-one-entry semantics of the group checks.
  - It relies on the per-entry resolvers and predicates of the enchantment, custom effect,
  banner pattern and base effect sections (`*_section.dfy`).
- **The legacy applicator** (`applicator.dfy`). It covers lore appending that skips null
  lines, message flattening, and the guards of the action bar and title senders. Meta and
  receiver are small classes that the methods update.
- **The configuration manager's string logic** (`config_manager.dfy`). It covers folder-name
  normalisation, resource paths, the pre-processor header scanner, output file naming and the
  case-insensitive mapper registry.
- **The skin-URL expression functions** (`skin_functions.dfy`). They wrap a URL in the
  textures JSON, then apply UTF-8 (`utf8.dfy`) and standard Base64 from section 4 of RFC 4648
  (`base64.dfy`). The round trip is proved, and so is `decode(encode(b)) == b` for every byte
  sequence.

Platform lookups that live in libraries are fields of a `Platform` value passed as a
parameter. These are XMaterial, XEnchantment and XPotion matching, the enumeration constants
of ItemFlag, PatternType, DyeColor and Color, and re-typing an item.
Evaluation of expressions is a set of functions of an `Env`. Java `null` is `Option.None`, and
an exception is a `Result.Failure` carrying its class.

Three behaviours of the code shape the model:

- The enumeration cache stores only hits (BukkitEvaluable.java:218-219). A name that is not
  found is scanned again on every call.
- `doCollectionsDiffer` (ItemStackSection.java:403-419) compares sizes and then `containsAll`,
  so lore and flag lists are compared ignoring order and, beyond their sizes, multiplicity.
  Lore order therefore does not matter when matching.
- The matcher and build follow the code as written, including the lines listed under
  "## Findings".

## Model

| member | source | states |
|---|---|---|
| Items.FromRgb | src/main/java/me/blvckbytes/bukkitevaluable/BukkitEvaluable.java:116 | Color.fromRGB accepts exactly components in 0..255 and keeps them |
| Items.EnchantLevel | src/main/java/me/blvckbytes/bukkitevaluable/section/ItemStackEnchantmentSection.java:62 | getEnchantLevel: the stored level, 0 for an enchantment the meta lacks |
| Items.ApplyColor | src/main/java/me/blvckbytes/bukkitevaluable/ItemBuilder.java:459-469 | only leather armour, potion and map metas take the colour; every other meta and every other field stays as it was |
| Items.ApplyBaseEffect | src/main/java/me/blvckbytes/bukkitevaluable/ItemBuilder.java:475-478 | only a potion meta takes the base data; any other meta is unchanged |
| Items.AddCustomEffect | src/main/java/me/blvckbytes/bukkitevaluable/ItemBuilder.java:484-490 | addCustomEffect with overwrite: the first effect of the same type is replaced in place, with every effect before and after it kept in order; without one the effect is appended |
| Items.FirstOfKind | src/main/java/me/blvckbytes/bukkitevaluable/ItemBuilder.java:489 | the index of the first effect of a type: it has that type and no earlier effect has it, or the length when none has |
| Items.AddCustomEffectPositions | src/main/java/me/blvckbytes/bukkitevaluable/ItemBuilder.java:484-490 | after adding, the new effect is the first of its type, and every effect of another type stays at its index |
| Items.FirstOfKindIs | src/main/java/me/blvckbytes/bukkitevaluable/ItemBuilder.java:489 | an index holding the type with no earlier one is the first index of that type |
| Items.AddCustomEffectKinds | src/main/java/me/blvckbytes/bukkitevaluable/ItemBuilder.java:484-490 | after adding an effect, a type is present exactly when it was before or is the added effect's |
| Items.AddCustomEffectKeepsKind | src/main/java/me/blvckbytes/bukkitevaluable/ItemBuilder.java:484-490 | a type other than the added effect's is present afterwards exactly when it was before |
| Items.ApplyCustomEffect | src/main/java/me/blvckbytes/bukkitevaluable/ItemBuilder.java:484-490 | only a potion meta takes the custom effect |
| Items.ApplyTextures | src/main/java/me/blvckbytes/bukkitevaluable/ItemBuilder.java:496-500 | only a skull meta takes the textures value |
| Items.ApplyPattern | src/main/java/me/blvckbytes/bukkitevaluable/ItemBuilder.java:506-509 | only a banner meta takes the pattern, appended after its existing patterns |
| Evaluables.IntValue | src/main/java/me/blvckbytes/bukkitevaluable/ItemBuilder.java:272 | Long.intValue(): always a 32-bit value, equal to the evaluated number when that fits |
| Evaluables.FindConstant | src/main/java/me/blvckbytes/bukkitevaluable/BukkitEvaluable.java:189-196 | the scan finds a constant whose lower-cased name is the key, and finds none exactly when no constant has that name |
| Evaluables.ResolveEnum | src/main/java/me/blvckbytes/bukkitevaluable/BukkitEvaluable.java:179-222 | parseEnum without the cache: the trimmed, lower-cased name scanned with FindConstant; ResolveEnumIsNormalized and EnumCache.ParseEnum characterise it |
| Evaluables.AsXMaterial | src/main/java/me/blvckbytes/bukkitevaluable/BukkitEvaluable.java:72-74 | asXMaterial: the XMaterial match of the evaluated text, a Platform lookup; used by the type check and build's type step |
| Evaluables.AsEnchantment | src/main/java/me/blvckbytes/bukkitevaluable/BukkitEvaluable.java:76-79 | asEnchantment: the XEnchantment match of the evaluated text, a Platform lookup; AsEnchantmentData and DescribesEnchantment build on it |
| Evaluables.FindConstantIsFirst | src/main/java/me/blvckbytes/bukkitevaluable/BukkitEvaluable.java:190-195 | the scan stops at the first matching constant |
| Evaluables.ResolveEnumIsNormalized | src/main/java/me/blvckbytes/bukkitevaluable/BukkitEvaluable.java:180 | names differing only in letter case or surrounding whitespace resolve to the same constant |
| Evaluables.EnumSet | src/main/java/me/blvckbytes/bukkitevaluable/BukkitEvaluable.java:143-157 | asEnumerationConstantSet yields only declared constants |
| Evaluables.EnumSetMembers | src/main/java/me/blvckbytes/bukkitevaluable/BukkitEvaluable.java:143-157 | a constant is in the set exactly when some input name resolves to it; unresolved names are dropped |
| Evaluables.EnumSetAdd | src/main/java/me/blvckbytes/bukkitevaluable/BukkitEvaluable.java:147-154 | one more name adds its constant when it resolves and nothing otherwise |
| Evaluables.EnumSetSize | src/main/java/me/blvckbytes/bukkitevaluable/BukkitEvaluable.java:143-157 | the set never has more constants than there are names |
| Evaluables.ParseRgbNotation | src/main/java/me/blvckbytes/bukkitevaluable/BukkitEvaluable.java:119-125 | no value unless splitting on a space yields exactly three parts |
| Evaluables.ParseRgbNotationCases | src/main/java/me/blvckbytes/bukkitevaluable/BukkitEvaluable.java:119-137 | a colour exactly when there are three parts, each an int, and the constructor accepts them; every other case is null, never an exception |
| Evaluables.ParseRgbTrailingSpace | src/main/java/me/blvckbytes/bukkitevaluable/BukkitEvaluable.java:121 | String.split drops trailing empty parts, so "1 2 3 " parses |
| Evaluables.ParseRgbRejectsRange | src/main/java/me/blvckbytes/bukkitevaluable/BukkitEvaluable.java:127-136 | any text of three int parts with a component outside 0..255 gives null, since Color.fromRGB throws and the exception is caught |
| Evaluables.BukkitColor | src/main/java/me/blvckbytes/bukkitevaluable/BukkitEvaluable.java:108-117 | asBukkitColor prefers a named colour constant and otherwise falls back to RGB notation |
| Evaluables.JavaColor | src/main/java/me/blvckbytes/bukkitevaluable/BukkitEvaluable.java:103-106 | asJavaColor: a colour exactly when the text splits into three parts that parse as ints within 0..255, and then the colour of those three ints in order |
| Evaluables.AsPotionType | src/main/java/me/blvckbytes/bukkitevaluable/BukkitEvaluable.java:81-96 | the XPotion match wins; otherwise PotionType.valueOf of the upper-cased text |
| Evaluables.AsPotionEffectType | src/main/java/me/blvckbytes/bukkitevaluable/BukkitEvaluable.java:98-101 | the effect type of the matching XPotion (null when it has none), and null when XPotion does not match |
| Evaluables.OnlyAddsTrans | src/main/java/me/blvckbytes/bukkitevaluable/BukkitEvaluable.java:143-157 | two lookups in one class change the cache only by adding entries under the union of their keys |
| Evaluables.OnlyAddsStore | src/main/java/me/blvckbytes/bukkitevaluable/BukkitEvaluable.java:252-254 | storing a new entry changes the cache only by adding that entry under its key |
| Evaluables.NormalizedNames | src/main/java/me/blvckbytes/bukkitevaluable/BukkitEvaluable.java:180 | the keys a set of names is cached under: the normalised form of each name, and nothing else |
| Evaluables.EnumCache.PerformEnumCacheLookup | src/main/java/me/blvckbytes/bukkitevaluable/BukkitEvaluable.java:243-250 | a hit exactly when the (type, name) entry is cached, returning the stored constant, which is the one a scan would find |
| Evaluables.EnumCache.CacheEnumLookup | src/main/java/me/blvckbytes/bukkitevaluable/BukkitEvaluable.java:252-254 | adds or overwrites only the (type, name) entry; every other entry is untouched |
| Evaluables.EnumCache.ParseEnum | src/main/java/me/blvckbytes/bukkitevaluable/BukkitEvaluable.java:179-222 | the result is the normalised uncached lookup; a cached name or a miss leaves the cache as it was; a new hit is cached under the normalised name; OnlyAdds states this frame for the callers |
| Evaluables.EnumCache.AsEnumerationConstant | src/main/java/me/blvckbytes/bukkitevaluable/BukkitEvaluable.java:139-141 | the constant named by the evaluated text, through the cache; the cache only gains an entry of that class under the normalised text |
| Evaluables.EnumCache.AsEnumerationConstantSet | src/main/java/me/blvckbytes/bukkitevaluable/BukkitEvaluable.java:143-157 | the loop collects exactly EnumSet of the evaluated names; the cache only gains entries of that class under the normalised names |
| Evaluables.EnumCache.AsBukkitColor | src/main/java/me/blvckbytes/bukkitevaluable/BukkitEvaluable.java:108-117 | through the cache, the same colour as BukkitColor; the cache only gains a Color entry under the normalised text |
| EnchantmentSections.AfterParsing | src/main/java/me/blvckbytes/bukkitevaluable/section/ItemStackEnchantmentSection.java:49-54 | MappingError exactly when the enchantment field is absent; otherwise the section as parsed |
| EnchantmentSections.IsContainedByMeta | src/main/java/me/blvckbytes/bukkitevaluable/section/ItemStackEnchantmentSection.java:56-76 | INVALID_SECTION exactly when the enchantment does not resolve; MATCHING exactly when it is present (level not 0) and the level is absent or equal; MISMATCHING otherwise |
| EnchantmentSections.EnchantmentPresent | src/main/java/me/blvckbytes/bukkitevaluable/section/ItemStackSection.java:326-348 | the presence check: both absent is true; an enchantment must be present, at the level when one is given; a level alone matches any enchantment at that level |
| EnchantmentSections.ContainedAgreesWithPresence | src/main/java/me/blvckbytes/bukkitevaluable/section/FEnchantmentPresenceChecker.java:33-44 | for a resolving enchantment on a meta without level-0 entries, isContainedByMeta and the presence check agree |
| EnchantmentSections.UnresolvedNameChecksLevelOnly | src/main/java/me/blvckbytes/bukkitevaluable/section/ItemStackSection.java:336-343 | an unresolved enchantment with a level matches any enchantment at that level |
| EnchantmentSections.AsEnchantmentData | src/main/java/me/blvckbytes/bukkitevaluable/ItemBuilder.java:338-342 | an (enchantment, level) pair exactly when the enchantment resolves; level 1 when absent, the evaluated int otherwise |
| EnchantmentSections.DescribesEnchantment | src/main/java/me/blvckbytes/bukkitevaluable/section/ItemStackSection.java:322-355 | the per-section enchantment check the matcher runs: the presence test on the resolved enchantment and expected level; characterised by EnchantmentPresent, ContainedAgreesWithPresence and UnresolvedNameChecksLevelOnly |
| EnchantmentSections.AddedEnchantmentIsContained | src/main/java/me/blvckbytes/bukkitevaluable/ItemBuilder.java:341 | after build adds a section's enchantment, that section finds itself MATCHING on the meta |
| CustomEffectSections.AsEffect | src/main/java/me/blvckbytes/bukkitevaluable/section/ItemStackCustomEffectSection.java:49-69 | null when the effect is absent or unresolved or the duration absent; otherwise the evaluated duration, amplifier defaulting to 0 and flags defaulting to false |
| CustomEffectSections.EmptySectionDescribesEvery | src/main/java/me/blvckbytes/bukkitevaluable/section/ItemStackCustomEffectSection.java:71-95 | a section with every field absent describes every effect |
| CustomEffectSections.DescribesEffect | src/main/java/me/blvckbytes/bukkitevaluable/section/ItemStackCustomEffectSection.java:71-95 | describesEffect: every present field constrains the effect; characterised by EmptySectionDescribesEvery, DescribesOwnEffect, AmplifierComparedWithDuration and ParticlesComparedWithAmbient |
| CustomEffectSections.AmplifierComparedWithDuration | src/main/java/me/blvckbytes/bukkitevaluable/section/ItemStackCustomEffectSection.java:83-86 | as written, the amplifier constraint is compared with the duration: amplifier 2 rejects an effect of duration 600 and amplifier 2, and accepts one of duration 2 and amplifier 0 |
| CustomEffectSections.ParticlesComparedWithAmbient | src/main/java/me/blvckbytes/bukkitevaluable/section/ItemStackCustomEffectSection.java:91-92 | as written, the particles constraint is compared with isAmbient |
| CustomEffectSections.DescribesOwnEffect | src/main/java/me/blvckbytes/bukkitevaluable/section/ItemStackCustomEffectSection.java:49-95 | a section describes its own effect exactly when the amplifier constraint is absent or equal to the duration and the particles constraint is absent or equal to ambient |
| CustomEffectSections.IntendedDescribesOwnEffect | src/main/java/me/blvckbytes/bukkitevaluable/section/ItemStackCustomEffectSection.java:83-92 | with the amplifier and particles constraints read from the amplifier and particles (the corrected DescribesEffectIntended), every section describes the effect it builds |
| CustomEffectSections.IntendedFullSectionIsExact | src/main/java/me/blvckbytes/bukkitevaluable/section/ItemStackCustomEffectSection.java:49-95 | under the corrected reading, a section with every field present and a resolvable type describes an effect exactly when it is the effect the section builds |
| CustomEffectSections.IntendedAgreesElsewhere | src/main/java/me/blvckbytes/bukkitevaluable/section/ItemStackCustomEffectSection.java:71-95 | without amplifier and particles constraints, the corrected and as-written readings agree on every effect |
| CustomEffectSections.IntendedReadsOwnFields | src/main/java/me/blvckbytes/bukkitevaluable/section/ItemStackCustomEffectSection.java:83-92 | the corrected reading decides the two example effects of each as-written lemma the other way round |
| CustomEffectSections.AnyEffectDescribed | src/main/java/me/blvckbytes/bukkitevaluable/section/ItemStackSection.java:278-291 | some effect of the potion is described by the section |
| BannerPatternSections.AsPattern | src/main/java/me/blvckbytes/bukkitevaluable/section/ItemStackBannerPatternSection.java:46-55 | NullPointerException exactly when the colour is set and the pattern absent; a pattern needs the pattern text to name both a PatternType and a DyeColor |
| BannerPatternSections.AsPatternIgnoresColorText | src/main/java/me/blvckbytes/bukkitevaluable/section/ItemStackBannerPatternSection.java:48 | as written, the colour's own text never matters |
| BannerPatternSections.AsPatternIntended | src/main/java/me/blvckbytes/bukkitevaluable/section/ItemStackBannerPatternSection.java:46-55 | asPattern with the colour read from the colour field: never throws; a pattern exactly when both fields resolve, made of the resolved dye and pattern type |
| BannerPatternSections.IntendedAgreesOnColorText | src/main/java/me/blvckbytes/bukkitevaluable/section/ItemStackBannerPatternSection.java:46-55 | when both fields are set and the colour text names the same dye as the pattern text, the as-written and corrected asPattern agree |
| BannerPatternSections.IntendedDescribesOwnPattern | src/main/java/me/blvckbytes/bukkitevaluable/section/ItemStackBannerPatternSection.java:46-88 | every pattern built by the corrected asPattern is described by its section |
| BannerPatternSections.IntendedFullSectionIsExact | src/main/java/me/blvckbytes/bukkitevaluable/section/ItemStackBannerPatternSection.java:46-88 | for a section whose fields both resolve, a pattern is described exactly when it is the one the corrected asPattern builds |
| BannerPatternSections.DescribesPattern | src/main/java/me/blvckbytes/bukkitevaluable/section/ItemStackBannerPatternSection.java:74-88 | true exactly when every field that is present and resolves equals the pattern's |
| BannerPatternSections.EmptySectionDescribesEvery | src/main/java/me/blvckbytes/bukkitevaluable/section/ItemStackBannerPatternSection.java:74-88 | a section with both fields absent describes every pattern |
| BannerPatternSections.DescribesOwnPattern | src/main/java/me/blvckbytes/bukkitevaluable/section/ItemStackBannerPatternSection.java:46-88 | the pattern built from a section is described by it exactly when the colour field does not resolve or names the dye the pattern text names |
| BannerPatternSections.IsContainedByMeta | src/main/java/me/blvckbytes/bukkitevaluable/section/ItemStackBannerPatternSection.java:65-72 | true exactly when some pattern of the banner is described |
| BannerPatternSections.AnyDescribed | src/main/java/me/blvckbytes/bukkitevaluable/section/ItemStackSection.java:249-262 | some pattern of the banner is described by the section |
| BaseEffectSections.AsData | src/main/java/me/blvckbytes/bukkitevaluable/section/ItemStackBaseEffectSection.java:42-54 | null exactly when the type is absent or unresolved; upgraded as given, extended only when not upgraded, never both |
| BaseEffectSections.EmptySectionDescribesEvery | src/main/java/me/blvckbytes/bukkitevaluable/section/ItemStackBaseEffectSection.java:56-74 | a section with every field absent describes all potion data |
| BaseEffectSections.DescribesData | src/main/java/me/blvckbytes/bukkitevaluable/section/ItemStackBaseEffectSection.java:56-74 | describesData: every present field constrains the data; characterised by EmptySectionDescribesEvery, DescribesOwnData and UpgradedComparedWithExtended |
| BaseEffectSections.UpgradedComparedWithExtended | src/main/java/me/blvckbytes/bukkitevaluable/section/ItemStackBaseEffectSection.java:68-71 | as written, upgraded=true rejects upgraded data that is not extended and accepts extended data |
| BaseEffectSections.DescribesOwnData | src/main/java/me/blvckbytes/bukkitevaluable/section/ItemStackBaseEffectSection.java:42-74 | the data built from a section is described by it exactly when upgraded is not true and not false beside extended true: an upgraded section never describes its own data |
| BaseEffectSections.IntendedDescribesOwnData | src/main/java/me/blvckbytes/bukkitevaluable/section/ItemStackBaseEffectSection.java:42-74 | with upgraded compared with the upgraded flag (the corrected DescribesDataIntended), a section describes the data it builds exactly unless it asks for both extended and upgraded |
| BaseEffectSections.IntendedFullSectionIsExact | src/main/java/me/blvckbytes/bukkitevaluable/section/ItemStackBaseEffectSection.java:42-74 | under the corrected reading, a section with every field present, a resolvable type and not both flags describes data exactly when it is the data the section builds |
| BaseEffectSections.IntendedAgreesElsewhere | src/main/java/me/blvckbytes/bukkitevaluable/section/ItemStackBaseEffectSection.java:56-74 | without an upgraded constraint, the corrected and as-written readings agree |
| BaseEffectSections.IntendedReadsUpgraded | src/main/java/me/blvckbytes/bukkitevaluable/section/ItemStackBaseEffectSection.java:68-71 | the corrected reading decides the two example data of UpgradedComparedWithExtended the other way round |
| ItemStackSections.DoCollectionsDiffer | src/main/java/me/blvckbytes/bukkitevaluable/section/ItemStackSection.java:408-419 | both null: equal; one null: differ; sizes differ: differ; otherwise differ exactly when b holds an element a lacks |
| ItemStackSections.SetsDifferIffUnequal | src/main/java/me/blvckbytes/bukkitevaluable/section/ItemStackSection.java:408-419 | on two sets, they differ exactly when they are unequal |
| ItemStackSections.ListsIgnoreOrder | src/main/java/me/blvckbytes/bukkitevaluable/section/ItemStackSection.java:415-418 | any two lists that are permutations of each other (equal multisets) do not differ |
| ItemStackSections.ListsIgnoreMultiplicity | src/main/java/me/blvckbytes/bukkitevaluable/section/ItemStackSection.java:415-418 | [a, a, b] and [a, b, b] do not differ |
| ItemStackSections.IsColorSatisfied | src/main/java/me/blvckbytes/bukkitevaluable/section/ItemStackSection.java:298-319 | an absent colour passes; a potion or map meta without a colour throws NullPointerException; a pass means the colour resolved |
| ItemStackSections.UnresolvedColorFails | src/main/java/me/blvckbytes/bukkitevaluable/section/ItemStackSection.java:301-305 | as written, the second null test checks the field again, so an unresolved colour fails rather than passing |
| ItemStackSections.IsColorSatisfiedIntended | src/main/java/me/blvckbytes/bukkitevaluable/section/ItemStackSection.java:298-319 | isColorSatisfied with the second null test on the resolved colour: an absent or unresolvable colour passes; a resolving colour is tested exactly as the code tests it |
| ItemStackSections.IntendedColorOfApplied | src/main/java/me/blvckbytes/bukkitevaluable/section/ItemStackSection.java:298-319 | under the corrected reading, a leather armour, potion or map meta given colour c satisfies a resolving colour exactly when it is c, without throwing |
| ItemStackSections.Outcomes | src/main/java/me/blvckbytes/bukkitevaluable/section/ItemStackSection.java:171-235 | the eleven checks in the fixed order type, amount, name, lore, flags, colour, enchantments, textures, base effect, custom effects, banner patterns |
| ItemStackSections.TexturesAlwaysMismatch | src/main/java/me/blvckbytes/bukkitevaluable/section/ItemStackSection.java:367-401 | as written, a section with textures reports TEXTURES_MISMATCH for every item with meta when all tags are non-breaking, and never describes it in stop-at-first mode, because the reflective profile read from the owning player always throws and is swallowed |
| ItemStackSections.CollectStep | src/main/java/me/blvckbytes/bukkitevaluable/section/ItemStackSection.java:136-143 | a passing check adds nothing; a failing one adds its tag and returns when it breaks; an exception propagates |
| ItemStackSections.CollectBounds | src/main/java/me/blvckbytes/bukkitevaluable/section/ItemStackSection.java:171-237 | the collected set holds the tags already collected plus only tags of failing checks |
| ItemStackSections.CollectAllNonBreaking | src/main/java/me/blvckbytes/bukkitevaluable/section/ItemStackSection.java:171-237 | with every tag non-breaking the result is exactly the set of failing checks |
| ItemStackSections.CollectStopsAtFirst | src/main/java/me/blvckbytes/bukkitevaluable/section/ItemStackSection.java:136-143 | with nonBreakers null at most one tag is reported, and none exactly when every check passes |
| ItemStackSections.CollectAllPass | src/main/java/me/blvckbytes/bukkitevaluable/section/ItemStackSection.java:237 | when every check passes nothing is added |
| ItemStackSections.NullItemAndUnreadableMeta | src/main/java/me/blvckbytes/bukkitevaluable/section/ItemStackSection.java:160-169 | a null item gives exactly {IS_NULL}; an item without meta gives exactly {META_UNREADABLE} |
| ItemStackSections.DescribesItemSpec | src/main/java/me/blvckbytes/bukkitevaluable/section/ItemStackSection.java:153-237 | the specification of describesItem: IS_NULL, META_UNREADABLE, otherwise the collector over the eleven outcomes; characterised by NullItemAndUnreadableMeta, DescribesAllNonBreaking, DescribesStopsAtFirst and DescribesReportsOnlyFailures |
| ItemStackSections.DescribesAllNonBreaking | src/main/java/me/blvckbytes/bukkitevaluable/section/ItemStackSection.java:171-237 | for a real item with every tag non-breaking, describesItem reports exactly the failing categories |
| ItemStackSections.DescribesStopsAtFirst | src/main/java/me/blvckbytes/bukkitevaluable/section/ItemStackSection.java:136-143 | with nonBreakers null at most one mismatch, and none exactly when every check passes |
| ItemStackSections.DescribesReportsOnlyFailures | src/main/java/me/blvckbytes/bukkitevaluable/section/ItemStackSection.java:171-237 | every reported tag is the tag of a failing check |
| ItemStackSections.EmptySectionDescribesEvery | src/main/java/me/blvckbytes/bukkitevaluable/section/ItemStackSection.java:171-237 | a section with every field absent describes every item with meta: no description field yields its mismatch |
| ItemStackSections.AddMismatchAndPossiblyBreak | src/main/java/me/blvckbytes/bukkitevaluable/section/ItemStackSection.java:136-143 | the tag is added, and the caller stops exactly when nonBreakers is null or lacks the tag |
| ItemStackSections.AreEnchantmentsSatisfied | src/main/java/me/blvckbytes/bukkitevaluable/section/ItemStackSection.java:321-355 | the loop passes exactly when every described enchantment passes the presence check |
| ItemStackSections.AreCustomEffectsSatisfied | src/main/java/me/blvckbytes/bukkitevaluable/section/ItemStackSection.java:269-296 | absent passes; otherwise the meta must be a potion and each described effect must describe some effect of it |
| ItemStackSections.AreBannerPatternsSatisfied | src/main/java/me/blvckbytes/bukkitevaluable/section/ItemStackSection.java:240-267 | absent passes; otherwise the meta must be a banner and each described pattern must describe some pattern of it |
| ItemStackSections.RecordOutcome | src/main/java/me/blvckbytes/bukkitevaluable/section/ItemStackSection.java:207-210 | one check step keeps the collected set on track with the specification |
| ItemStackSections.DescribesItem | src/main/java/me/blvckbytes/bukkitevaluable/section/ItemStackSection.java:153-238 | describesItem computes DescribesItemSpec, the set the lemmas above characterise |
| ItemStackSections.DescribesPresentItem | src/main/java/me/blvckbytes/bukkitevaluable/section/ItemStackSection.java:171-205 | the checks on an item with meta collect what the specification collects |
| ItemStackSections.DescribesIdentity | src/main/java/me/blvckbytes/bukkitevaluable/section/ItemStackSection.java:171-191 | the type, amount and display-name checks either stop with what the specification collects or leave it to be collected from the lore check on |
| ItemStackSections.DescribesListsAndColor | src/main/java/me/blvckbytes/bukkitevaluable/section/ItemStackSection.java:193-210 | the lore, flags and colour checks stop with what the specification yields (a throwing colour check included) or hand over a mismatch set from which it continues at enchantments |
| ItemStackSections.DescribesContents | src/main/java/me/blvckbytes/bukkitevaluable/section/ItemStackSection.java:212-237 | the content checks from enchantments onwards collect what the specification collects |
| ItemBuilders.Extended | src/main/java/me/blvckbytes/bukkitevaluable/ItemBuilder.java:125-132 | extending with null changes nothing; otherwise the old entries come first, the new ones last, and the override is off |
| ItemBuilders.AsItemExtendsOnly | src/main/java/me/blvckbytes/bukkitevaluable/section/ItemStackSection.java:73-86 | asItem builds a barrier of amount 1 whose groups hold exactly the section's entries, with every override flag false |
| ItemBuilders.PatchWithEmptySection | src/main/java/me/blvckbytes/bukkitevaluable/ItemBuilder.java:401-449 | patching with an all-absent section leaves the state as it was |
| ItemBuilders.PatchGroups | src/main/java/me/blvckbytes/bukkitevaluable/ItemBuilder.java:414-446 | each group is overridden when the section carries its patch flag and extended otherwise |
| ItemBuilders.PatchSingletons | src/main/java/me/blvckbytes/bukkitevaluable/ItemBuilder.java:405-436 | present singletons replace the old ones, absent ones keep them (the name included); base item and meta are kept |
| ItemBuilders.ExtendSetters | src/main/java/me/blvckbytes/bukkitevaluable/ItemBuilder.java:125-132 | every extend setter: null is a no-op; otherwise the values are appended to that group only and its flag is cleared (also lines 144-151, 163-170, 198-205, 225-232) |
| ItemBuilders.OverrideSetters | src/main/java/me/blvckbytes/bukkitevaluable/ItemBuilder.java:134-142 | overrideLore/overrideFlags ignore null and otherwise leave exactly [value] with the flag set; the three list overrides always set the flag and leave exactly the argument, empty for null (also lines 153-161, 172-180, 207-215, 234-242) |
| ItemBuilders.SingletonSetters | src/main/java/me/blvckbytes/bukkitevaluable/ItemBuilder.java:104-123 | setType/setAmount/setColor/setTextures/setBaseEffect keep the field on null; setName stores null (also lines 182-196, 217-223) |
| ItemBuilders.LoreLinesAppend | src/main/java/me/blvckbytes/bukkitevaluable/ItemBuilder.java:292-293 | the lines of two block lists are the lines of each, in order |
| ItemBuilders.LoreLinesMembers | src/main/java/me/blvckbytes/bukkitevaluable/ItemBuilder.java:292-293 | a line is in the result exactly when some block yields it |
| ItemBuilders.LoreStage | src/main/java/me/blvckbytes/bukkitevaluable/ItemBuilder.java:281-296 | only the lore changes; override without blocks leaves no lore; with blocks the lore is the base lore (empty under override or when null) followed by every block's lines |
| ItemBuilders.ColorStage | src/main/java/me/blvckbytes/bukkitevaluable/ItemBuilder.java:300-305 | the colour step touches only the shape; a resolving colour is applied with applyColor, and nothing changes when the colour is absent or unresolved |
| ItemBuilders.IntendedColorStageSatisfied | src/main/java/me/blvckbytes/bukkitevaluable/ItemBuilder.java:300-305 | under the corrected colour test, a leather armour, potion or map meta coloured by build's colour step satisfies the same colour field, resolving or not |
| ItemBuilders.TexturesStage | src/main/java/me/blvckbytes/bukkitevaluable/ItemBuilder.java:309-310 | the textures step touches only the shape |
| ItemBuilders.BaseEffectStage | src/main/java/me/blvckbytes/bukkitevaluable/ItemBuilder.java:314-318 | the base effect step touches only the shape, and nothing when no data resolves |
| ItemBuilders.AddEffects | src/main/java/me/blvckbytes/bukkitevaluable/ItemBuilder.java:326-330 | adding effects changes only a potion's effect list |
| ItemBuilders.AddEffectsKinds | src/main/java/me/blvckbytes/bukkitevaluable/ItemBuilder.java:326-330 | a potion carries an effect type afterwards exactly when it did before or some section builds an effect of it |
| ItemBuilders.AddEffectsLastWins | src/main/java/me/blvckbytes/bukkitevaluable/ItemBuilder.java:326-330 | the last section building an effect of a type decides the first effect of that type |
| ItemBuilders.AddEffectsKeepsOthers | src/main/java/me/blvckbytes/bukkitevaluable/ItemBuilder.java:326-330 | an effect whose type no section builds keeps its index |
| ItemBuilders.EffectsStage | src/main/java/me/blvckbytes/bukkitevaluable/ItemBuilder.java:322-331 | the custom effects step changes only a potion meta's shape |
| ItemBuilders.AddEnchantmentsMembers | src/main/java/me/blvckbytes/bukkitevaluable/ItemBuilder.java:338-342 | an enchantment is present afterwards exactly when it was before or some section resolves to it |
| ItemBuilders.AddEnchantmentsLastWins | src/main/java/me/blvckbytes/bukkitevaluable/ItemBuilder.java:341 | the level of the last section naming an enchantment wins |
| ItemBuilders.EnchantmentsStage | src/main/java/me/blvckbytes/bukkitevaluable/ItemBuilder.java:335-342 | the enchantment step changes only the enchantments |
| ItemBuilders.AddFlagsMembers | src/main/java/me/blvckbytes/bukkitevaluable/ItemBuilder.java:351-354 | a flag is present afterwards exactly when it was before or some flag value resolves to it |
| ItemBuilders.FlagsStage | src/main/java/me/blvckbytes/bukkitevaluable/ItemBuilder.java:346-354 | the flag step changes only the flags |
| ItemBuilders.AddPatterns | src/main/java/me/blvckbytes/bukkitevaluable/ItemBuilder.java:366-370 | adding patterns changes only the shape |
| ItemBuilders.AddPatternsThrows | src/main/java/me/blvckbytes/bukkitevaluable/ItemBuilder.java:366-370 | adding patterns throws exactly when some section has a colour and no pattern |
| ItemBuilders.AddPatternsAppends | src/main/java/me/blvckbytes/bukkitevaluable/ItemBuilder.java:366-370 | on a banner, the built patterns are appended after the existing ones in section order |
| ItemBuilders.AddPatternsFailureStays | src/main/java/me/blvckbytes/bukkitevaluable/ItemBuilder.java:366-370 | once a section throws, the later ones are never reached |
| ItemBuilders.PatternsStage | src/main/java/me/blvckbytes/bukkitevaluable/ItemBuilder.java:358-371 | a meta that is not a banner is returned unchanged; otherwise only the shape changes |
| ItemBuilders.BuildLore | src/main/java/me/blvckbytes/bukkitevaluable/ItemBuilder.java:281-296 | the built item's lore is the lore step's result |
| ItemBuilders.BuildEnchantments | src/main/java/me/blvckbytes/bukkitevaluable/ItemBuilder.java:335-342 | an enchantment is on the built item exactly when it was on the base (without override) or some section resolves to it |
| ItemBuilders.BuildFlags | src/main/java/me/blvckbytes/bukkitevaluable/ItemBuilder.java:346-354 | a flag is on the built item exactly when it was on the base (without override) or some flag value resolves to it |
| ItemBuilders.BuildEffects | src/main/java/me/blvckbytes/bukkitevaluable/ItemBuilder.java:322-331 | for a potion, an effect type is on the built item exactly when the base had it (without override) or some custom effect section builds one |
| ItemBuilders.BuildThrows | src/main/java/me/blvckbytes/bukkitevaluable/ItemBuilder.java:358-371 | build throws exactly when the meta is a banner and some pattern section has a colour and no pattern |
| ItemBuilders.BuildSpec | src/main/java/me/blvckbytes/bukkitevaluable/ItemBuilder.java:254-375 | the specification of build: type, amount, then the meta steps over clones of the base; characterised by BuildLore, BuildEnchantments, BuildFlags and BuildThrows |
| ItemBuilders.ItemBuilder.constructor | src/main/java/me/blvckbytes/bukkitevaluable/ItemBuilder.java:81-98 | a new builder: the item at the given amount, its meta, no templates, empty groups, no overrides |
| ItemBuilders.ItemBuilder.FromState | src/main/java/me/blvckbytes/bukkitevaluable/ItemBuilder.java:377-399 | the all-arguments constructor copy uses holds exactly the given state |
| ItemBuilders.ItemBuilder.SetType | src/main/java/me/blvckbytes/bukkitevaluable/ItemBuilder.java:104-110 | the new state is WithType of the old |
| ItemBuilders.ItemBuilder.SetAmount | src/main/java/me/blvckbytes/bukkitevaluable/ItemBuilder.java:112-118 | the new state is WithAmount of the old |
| ItemBuilders.ItemBuilder.SetName | src/main/java/me/blvckbytes/bukkitevaluable/ItemBuilder.java:120-123 | the new state is WithName of the old |
| ItemBuilders.ItemBuilder.ExtendLore | src/main/java/me/blvckbytes/bukkitevaluable/ItemBuilder.java:125-132 | the new state is LoreExtended of the old |
| ItemBuilders.ItemBuilder.OverrideLore | src/main/java/me/blvckbytes/bukkitevaluable/ItemBuilder.java:134-142 | the new state is LoreOverridden of the old |
| ItemBuilders.ItemBuilder.ExtendEnchantments | src/main/java/me/blvckbytes/bukkitevaluable/ItemBuilder.java:144-151 | the new state is EnchantmentsExtended of the old |
| ItemBuilders.ItemBuilder.OverrideEnchantments | src/main/java/me/blvckbytes/bukkitevaluable/ItemBuilder.java:153-161 | the new state is EnchantmentsOverridden of the old |
| ItemBuilders.ItemBuilder.ExtendFlags | src/main/java/me/blvckbytes/bukkitevaluable/ItemBuilder.java:163-170 | the new state is FlagsExtended of the old |
| ItemBuilders.ItemBuilder.OverrideFlags | src/main/java/me/blvckbytes/bukkitevaluable/ItemBuilder.java:172-180 | the new state is FlagsOverridden of the old |
| ItemBuilders.ItemBuilder.SetColor | src/main/java/me/blvckbytes/bukkitevaluable/ItemBuilder.java:182-188 | the new state is WithColor of the old |
| ItemBuilders.ItemBuilder.SetBaseEffect | src/main/java/me/blvckbytes/bukkitevaluable/ItemBuilder.java:190-196 | the new state is WithBaseEffect of the old |
| ItemBuilders.ItemBuilder.ExtendCustomEffects | src/main/java/me/blvckbytes/bukkitevaluable/ItemBuilder.java:198-205 | the new state is CustomEffectsExtended of the old |
| ItemBuilders.ItemBuilder.OverrideCustomEffects | src/main/java/me/blvckbytes/bukkitevaluable/ItemBuilder.java:207-215 | the new state is CustomEffectsOverridden of the old |
| ItemBuilders.ItemBuilder.SetTextures | src/main/java/me/blvckbytes/bukkitevaluable/ItemBuilder.java:217-223 | the new state is WithTextures of the old |
| ItemBuilders.ItemBuilder.ExtendBannerPatterns | src/main/java/me/blvckbytes/bukkitevaluable/ItemBuilder.java:225-232 | the new state is BannerPatternsExtended of the old |
| ItemBuilders.ItemBuilder.OverrideBannerPatterns | src/main/java/me/blvckbytes/bukkitevaluable/ItemBuilder.java:234-242 | the new state is BannerPatternsOverridden of the old |
| ItemBuilders.ItemBuilder.Copy | src/main/java/me/blvckbytes/bukkitevaluable/ItemBuilder.java:377-399 | a fresh builder with the same state; the receiver is not modified |
| ItemBuilders.ItemBuilder.Patch | src/main/java/me/blvckbytes/bukkitevaluable/ItemBuilder.java:401-449 | a fresh builder in the patched state; the receiver is not modified |
| ItemBuilders.ItemBuilder.PatchSingletons | src/main/java/me/blvckbytes/bukkitevaluable/ItemBuilder.java:405-412 | amount, type and name are set on the copy only when present |
| ItemBuilders.ItemBuilder.PatchGroups | src/main/java/me/blvckbytes/bukkitevaluable/ItemBuilder.java:414-446 | the remaining patch steps in the code's order |
| ItemBuilders.ItemBuilder.PatchLore | src/main/java/me/blvckbytes/bukkitevaluable/ItemBuilder.java:414-417 | overrideLore under OVERRIDE_LORE, extendLore otherwise |
| ItemBuilders.ItemBuilder.PatchFlags | src/main/java/me/blvckbytes/bukkitevaluable/ItemBuilder.java:419-422 | overrideFlags under OVERRIDE_FLAGS, extendFlags otherwise |
| ItemBuilders.ItemBuilder.PatchEnchantments | src/main/java/me/blvckbytes/bukkitevaluable/ItemBuilder.java:427-430 | overrideEnchantments under OVERRIDE_ENCHANTMENTS, extendEnchantments otherwise |
| ItemBuilders.ItemBuilder.PatchCustomEffects | src/main/java/me/blvckbytes/bukkitevaluable/ItemBuilder.java:438-441 | overrideCustomEffects under OVERRIDE_CUSTOM_EFFECTS, extendCustomEffects otherwise |
| ItemBuilders.ItemBuilder.PatchBannerPatterns | src/main/java/me/blvckbytes/bukkitevaluable/ItemBuilder.java:443-446 | overrideBannerPatterns under OVERRIDE_BANNER_PATTERNS, extendBannerPatterns otherwise |
| ItemBuilders.ItemBuilder.BuildWithoutEnvironment | src/main/java/me/blvckbytes/bukkitevaluable/ItemBuilder.java:249-251 | build() is build in the empty environment |
| ItemBuilders.ItemBuilder.Build | src/main/java/me/blvckbytes/bukkitevaluable/ItemBuilder.java:254-375 | build computes BuildSpec of the builder's state and changes nothing in the builder (the lemmas above give lore, enchantments, flags and failure) |
| ItemBuilders.ItemBuilder.ApplyType | src/main/java/me/blvckbytes/bukkitevaluable/ItemBuilder.java:255-267 | clones of the base item and meta, retyped when the material resolves |
| ItemBuilders.ItemBuilder.ApplyMetaStages | src/main/java/me/blvckbytes/bukkitevaluable/ItemBuilder.java:281-354 | the meta steps from lore to flags in the code's order |
| ItemBuilders.ItemBuilder.ApplyShapeStages | src/main/java/me/blvckbytes/bukkitevaluable/ItemBuilder.java:300-318 | colour, textures and base effect are applied to the meta in the code's order, each only when set |
| ItemBuilders.ItemBuilder.ApplyLore | src/main/java/me/blvckbytes/bukkitevaluable/ItemBuilder.java:281-296 | the lore loop computes LoreStage |
| ItemBuilders.ItemBuilder.ApplyCustomEffects | src/main/java/me/blvckbytes/bukkitevaluable/ItemBuilder.java:322-331 | the effect loop computes EffectsStage |
| ItemBuilders.ItemBuilder.ApplyEnchantments | src/main/java/me/blvckbytes/bukkitevaluable/ItemBuilder.java:335-342 | the removal and add loops compute EnchantmentsStage |
| ItemBuilders.ItemBuilder.ApplyFlags | src/main/java/me/blvckbytes/bukkitevaluable/ItemBuilder.java:346-354 | the removal and add loops compute FlagsStage |
| ItemBuilders.ItemBuilder.ApplyBannerPatterns | src/main/java/me/blvckbytes/bukkitevaluable/ItemBuilder.java:358-371 | the while-removal and add loops compute PatternsStage |
| ItemBuilders.NewItemBuilder | src/main/java/me/blvckbytes/bukkitevaluable/ItemBuilder.java:81-98 | an item without meta throws IllegalStateException; otherwise a fresh builder in the initial state |
| ItemBuilders.CopyIsIndependent | src/main/java/me/blvckbytes/bukkitevaluable/ItemBuilder.java:377-399 | extending and overriding a copy gives the copy the transformed state without modifying the original |
| ItemBuilders.AsItem | src/main/java/me/blvckbytes/bukkitevaluable/section/ItemStackSection.java:73-86 | the setter chain of asItem yields AsItemState |
| Applicators.PresentMembers | src/main/java/me/blvckbytes/bukkitevaluable/applicator/LegacyEvaluableApplicator.java:39-44 | a line is kept exactly when it occurs as a non-null line |
| Applicators.PresentWithoutNulls | src/main/java/me/blvckbytes/bukkitevaluable/applicator/LegacyEvaluableApplicator.java:39-44 | without nulls every line is kept, in order |
| Applicators.PresentLength | src/main/java/me/blvckbytes/bukkitevaluable/applicator/LegacyEvaluableApplicator.java:39-44 | never more lines than were evaluated |
| Applicators.LoreAfterSetCases | src/main/java/me/blvckbytes/bukkitevaluable/applicator/LegacyEvaluableApplicator.java:30-47 | with override the lore is exactly the non-null lines; without, the existing lore (null as empty) followed by them |
| Applicators.AppendLore | src/main/java/me/blvckbytes/bukkitevaluable/applicator/LegacyEvaluableApplicator.java:31-44 | the loop computes LoreAfterSet |
| Applicators.SetLore | src/main/java/me/blvckbytes/bukkitevaluable/applicator/LegacyEvaluableApplicator.java:30-47 | the meta's lore becomes a list (never null) equal to LoreAfterSet; nothing else changes |
| Applicators.SetDisplayName | src/main/java/me/blvckbytes/bukkitevaluable/applicator/LegacyEvaluableApplicator.java:24-27 | the display name becomes the evaluated string; nothing else changes |
| Applicators.CollectionMessagesAppend | src/main/java/me/blvckbytes/bukkitevaluable/applicator/LegacyEvaluableApplicator.java:53-69 | the messages of a collection are those of its items, in order |
| Applicators.CollectionMessagesCount | src/main/java/me/blvckbytes/bukkitevaluable/applicator/LegacyEvaluableApplicator.java:53-69 | one message per plain item and per non-collection result, one per element of a collection result |
| Applicators.PlainCollectionMessages | src/main/java/me/blvckbytes/bukkitevaluable/applicator/LegacyEvaluableApplicator.java:68 | a collection of plain items sends each item once, in order |
| Applicators.SendMessage | src/main/java/me/blvckbytes/bukkitevaluable/applicator/LegacyEvaluableApplicator.java:50-75 | the receiver's messages grow by exactly Messages of the value; action bar and titles are untouched |
| Applicators.SendActionBarMessage | src/main/java/me/blvckbytes/bukkitevaluable/applicator/LegacyEvaluableApplicator.java:85-91 | a player gets exactly the evaluated message; a non-player gets nothing |
| Applicators.TitlePart | src/main/java/me/blvckbytes/bukkitevaluable/applicator/LegacyEvaluableApplicator.java:105-109 | a title part is evaluated exactly when both it and its environment are present |
| Applicators.TitleToSend | src/main/java/me/blvckbytes/bukkitevaluable/applicator/LegacyEvaluableApplicator.java:100-114 | nothing for a non-player or when both parts are null; otherwise both parts with the timings |
| Applicators.SendTitles | src/main/java/me/blvckbytes/bukkitevaluable/applicator/LegacyEvaluableApplicator.java:94-115 | the receiver's titles grow by exactly TitleToSend; other outputs untouched |
| ConfigManagers.NormalizeFolderName | src/main/java/me/blvckbytes/bukkitevaluable/ConfigManager.java:97 | a leading '/' exactly when missing; an empty name throws StringIndexOutOfBoundsException |
| ConfigManagers.NormalizeFolderNameIdempotent | src/main/java/me/blvckbytes/bukkitevaluable/ConfigManager.java:97 | normalising twice is normalising once |
| ConfigManagers.PluginResourcePath | src/main/java/me/blvckbytes/bukkitevaluable/ConfigManager.java:283-285 | the path is as long as the folder name (less its first character) plus '/' plus the file name |
| ConfigManagers.ResourcePathOfConfiguredFolder | src/main/java/me/blvckbytes/bukkitevaluable/ConfigManager.java:283-285 | for a configured folder the path is the name without its leading '/', then '/', then the file name |
| ConfigManagers.FirstTerminator | src/main/java/me/blvckbytes/bukkitevaluable/ConfigManager.java:333-342 | the first ' ' or '\\n' from the start position, or the end |
| ConfigManagers.PreProcessorFileName | src/main/java/me/blvckbytes/bukkitevaluable/ConfigManager.java:322-352 | null without the marker; a found name ends in ".txt" and is the text after the marker up to the first terminator |
| ConfigManagers.ParsePreProcessorFileName | src/main/java/me/blvckbytes/bukkitevaluable/ConfigManager.java:322-352 | the scanning loop computes PreProcessorFileName |
| ConfigManagers.PreProcessorFileNameFound | src/main/java/me/blvckbytes/bukkitevaluable/ConfigManager.java:330-351 | marker, a ".txt" name and a terminator give exactly that name |
| ConfigManagers.FirstTerminatorIsFirst | src/main/java/me/blvckbytes/bukkitevaluable/ConfigManager.java:333-342 | the scan stops at the first terminator |
| ConfigManagers.PreProcessorFileNameAtEndThrows | src/main/java/me/blvckbytes/bukkitevaluable/ConfigManager.java:333-344 | with no terminator after the marker the substring end passes the header's end and an exception is thrown |
| ConfigManagers.OutputFileName | src/main/java/me/blvckbytes/bukkitevaluable/ConfigManager.java:412-413 | "result." + the name up to its last '.' + ".yml"; a name without '.' throws |
| ConfigManagers.OutputFileNameOfTxt | src/main/java/me/blvckbytes/bukkitevaluable/ConfigManager.java:412-413 | for an input ending in ".txt" the output is "result." + the name without ".txt" + ".yml" |
| ConfigManagers.RequiredTypeFor | src/main/java/me/blvckbytes/bukkitevaluable/ConfigManager.java:262-270 | Object for BukkitEvaluable, ItemStackSection for IItemBuildable, null for anything else |
| ConfigManagers.MapperIn | src/main/java/me/blvckbytes/bukkitevaluable/ConfigManager.java:252-258 | the mapper stored under the lower-cased name, FileNotFoundException when there is none |
| ConfigManagers.MapperInIgnoresCase | src/main/java/me/blvckbytes/bukkitevaluable/ConfigManager.java:253 | names equal up to case find the same mapper |
| ConfigManagers.ConfigManager.ResourcePath | src/main/java/me/blvckbytes/bukkitevaluable/ConfigManager.java:283-285 | the folder name without its leading '/', then '/', then the file name |
| ConfigManagers.ConfigManager.Register | src/main/java/me/blvckbytes/bukkitevaluable/ConfigManager.java:438 | the mapper is stored under the lower-cased file name; other entries untouched |
| ConfigManagers.ConfigManager.GetMapper | src/main/java/me/blvckbytes/bukkitevaluable/ConfigManager.java:252-258 | the lookup is MapperIn of the registry |
| ConfigManagers.NewConfigManager | src/main/java/me/blvckbytes/bukkitevaluable/ConfigManager.java:97 | an empty folder name throws; otherwise the manager holds the normalised name and no mappers |
| ConfigManagers.RegisteredIsFound | src/main/java/me/blvckbytes/bukkitevaluable/ConfigManager.java:253-258 | a mapper registered under one spelling is found under any spelling equal up to case |
| Base64.SextetRoundTrip | src/main/java/me/blvckbytes/bukkitevaluable/functions/SkinUrlToBase64Function.java:47 | the RFC 4648 alphabet decodes each of its 64 characters back |
| Base64.CharRoundTrip | src/main/java/me/blvckbytes/bukkitevaluable/functions/Base64ToSkinUrlFunction.java:53 | every alphabet character encodes back to itself |
| Base64.EncodeTriple | src/main/java/me/blvckbytes/bukkitevaluable/functions/SkinUrlToBase64Function.java:47 | three bytes give four characters |
| Base64.Encode | src/main/java/me/blvckbytes/bukkitevaluable/functions/SkinUrlToBase64Function.java:47 | n bytes give 4 * ceil(n / 3) characters, padding included |
| Base64.EncodeCharacters | src/main/java/me/blvckbytes/bukkitevaluable/functions/SkinUrlToBase64Function.java:47 | every output character is an alphabet character or '=' padding at the end |
| Base64.DecodeQuad | src/main/java/me/blvckbytes/bukkitevaluable/functions/Base64ToSkinUrlFunction.java:53 | four characters give three bytes |
| Base64.Decode | src/main/java/me/blvckbytes/bukkitevaluable/functions/Base64ToSkinUrlFunction.java:53 | malformed input fails with IllegalArgumentException |
| Base64.ByteSplits | src/main/java/me/blvckbytes/bukkitevaluable/functions/Base64ToSkinUrlFunction.java:53 | the sextet split of three bytes reassembles them |
| Base64.TripleRoundTrip | src/main/java/me/blvckbytes/bukkitevaluable/functions/Base64ToSkinUrlFunction.java:53 | decoding an encoded triple gives it back |
| Base64.OneByteRoundTrip | src/main/java/me/blvckbytes/bukkitevaluable/functions/Base64ToSkinUrlFunction.java:53 | one padded byte decodes back |
| Base64.TwoBytesRoundTrip | src/main/java/me/blvckbytes/bukkitevaluable/functions/Base64ToSkinUrlFunction.java:53 | two padded bytes decode back |
| Base64.DecodeEncode | src/main/java/me/blvckbytes/bukkitevaluable/functions/Base64ToSkinUrlFunction.java:53 | decode(encode(bytes)) == bytes for every byte sequence |
| Base64.DecodeFullGroup | src/main/java/me/blvckbytes/bukkitevaluable/functions/Base64ToSkinUrlFunction.java:53 | a leading group of four alphabet characters decodes to its three bytes followed by the decoding of the rest, and a failing rest fails the whole |
| Base64.DecodeRejectsShortUnit | src/main/java/me/blvckbytes/bukkitevaluable/functions/Base64ToSkinUrlFunction.java:53 | a lone character, or a unit with one padding character too few, is rejected |
| Utf8.EncodeScalar | src/main/java/me/blvckbytes/bukkitevaluable/functions/SkinUrlToBase64Function.java:47 | one to four bytes; one exactly for ASCII, equal to the code; continuation bytes in 128..191 |
| Utf8.Encode | src/main/java/me/blvckbytes/bukkitevaluable/functions/SkinUrlToBase64Function.java:47 | at least one byte per character |
| Utf8.EncodeAppend | src/main/java/me/blvckbytes/bukkitevaluable/functions/SkinUrlToBase64Function.java:47 | encoding distributes over concatenation |
| Utf8.EncodeAscii | src/main/java/me/blvckbytes/bukkitevaluable/functions/SkinUrlToBase64Function.java:47 | an ASCII string encodes to its codes, one byte each |
| Utf8.EncodeAsciiExactly | src/main/java/me/blvckbytes/bukkitevaluable/functions/SkinUrlToBase64Function.java:47 | the bytes are all below 128 exactly when the string is ASCII |
| SkinFunctions.NonNull | src/main/java/me/blvckbytes/bukkitevaluable/functions/SkinUrlToBase64Function.java:45 | argument 0 when present and non-null, an error otherwise |
| SkinFunctions.SkinUrlToBase64 | src/main/java/me/blvckbytes/bukkitevaluable/functions/SkinUrlToBase64Function.java:44-48 | Base64 of the UTF-8 bytes of the textures JSON with the URL inserted unescaped; fails exactly when the argument is null |
| SkinFunctions.TextureJsonAscii | src/main/java/me/blvckbytes/bukkitevaluable/functions/SkinUrlToBase64Function.java:46 | the JSON is ASCII exactly when the URL is |
| SkinFunctions.SkinUrlToBase64Length | src/main/java/me/blvckbytes/bukkitevaluable/functions/SkinUrlToBase64Function.java:46-47 | an ASCII URL of n characters gives 4 * ceil((n + 32) / 3) characters |
| SkinFunctions.SkinUrlToBase64Arguments | src/main/java/me/blvckbytes/bukkitevaluable/functions/SkinUrlToBase64Function.java:50-57 | exactly one required String argument named "input" |
| SkinFunctions.Base64ToSkinUrlArguments | src/main/java/me/blvckbytes/bukkitevaluable/functions/Base64ToSkinUrlFunction.java:65-72 | exactly one required String argument named "input" |
| SkinFunctions.GetAsString | src/main/java/me/blvckbytes/bukkitevaluable/functions/Base64ToSkinUrlFunction.java:62 | a string primitive reads as its text; an object or JSON null throws |
| SkinFunctions.MemberObject | src/main/java/me/blvckbytes/bukkitevaluable/functions/Base64ToSkinUrlFunction.java:59-60 | getAsJsonObject(name): null when absent, the object when it is one, ClassCastException otherwise |
| SkinFunctions.SkinUrlOfSucceeds | src/main/java/me/blvckbytes/bukkitevaluable/functions/Base64ToSkinUrlFunction.java:57-62 | the field chain succeeds exactly on textures.SKIN.url reading as a string, and returns it |
| SkinFunctions.SkinUrlOfTextureTree | src/main/java/me/blvckbytes/bukkitevaluable/functions/Base64ToSkinUrlFunction.java:57-62 | the chain reads the URL back out of the textures tree |
| SkinFunctions.AsciiText | src/main/java/me/blvckbytes/bukkitevaluable/functions/Base64ToSkinUrlFunction.java:54 | one character per byte, ASCII bytes read as themselves |
| SkinFunctions.Base64ToSkinUrl | src/main/java/me/blvckbytes/bukkitevaluable/functions/Base64ToSkinUrlFunction.java:50-63 | a null argument fails; malformed Base64 throws IllegalArgumentException |
| SkinFunctions.AsciiTextOfEncoding | src/main/java/me/blvckbytes/bukkitevaluable/functions/Base64ToSkinUrlFunction.java:54 | reading an ASCII string's UTF-8 bytes as ASCII gives the string back |
| SkinFunctions.SkinUrlRoundTrip | src/main/java/me/blvckbytes/bukkitevaluable/functions/Base64ToSkinUrlFunction.java:37-40 | base64_to_skin_url(skin_url_to_base64(url)) == url for an ASCII URL without '"' or '\\', given a charset that reads ASCII as ASCII |
| Text.Lower | src/main/java/me/blvckbytes/bukkitevaluable/BukkitEvaluable.java:180 | toLowerCase: same length, each character lowered |
| Text.Upper | src/main/java/me/blvckbytes/bukkitevaluable/BukkitEvaluable.java:92 | toUpperCase: same length, each character raised |
| Text.NormalizeIgnoresCase | src/main/java/me/blvckbytes/bukkitevaluable/BukkitEvaluable.java:180 | names equal up to case normalise alike |
| Text.NormalizeIgnoresPadding | src/main/java/me/blvckbytes/bukkitevaluable/BukkitEvaluable.java:180 | surrounding whitespace does not change the normalised name |
| Text.IndexOf | src/main/java/me/blvckbytes/bukkitevaluable/ConfigManager.java:325 | indexOf: the first occurrence, or -1 when there is none |
| Text.LastIndexOf | src/main/java/me/blvckbytes/bukkitevaluable/ConfigManager.java:412 | lastIndexOf: the last occurrence, or -1 |
| Text.SplitDropsTrailingSpace | src/main/java/me/blvckbytes/bukkitevaluable/BukkitEvaluable.java:121 | split(" ") of any three non-empty space-free words separated by single spaces and followed by any run of spaces gives exactly the three words |
| Text.PiecesJoin | src/main/java/me/blvckbytes/bukkitevaluable/BukkitEvaluable.java:121 | the pieces of a split hold no space and joined with single spaces give the text back |
| Text.PiecesOfWord | src/main/java/me/blvckbytes/bukkitevaluable/BukkitEvaluable.java:121 | a space-free word followed by a space is the first piece, then the pieces of the rest |
| Text.PiecesOfSpaceFree | src/main/java/me/blvckbytes/bukkitevaluable/BukkitEvaluable.java:121 | a space-free text is a single piece |
| Text.PiecesOfSpaces | src/main/java/me/blvckbytes/bukkitevaluable/BukkitEvaluable.java:121 | a run of n spaces splits into n + 1 empty pieces |
| Text.DropTrailingEmpties | src/main/java/me/blvckbytes/bukkitevaluable/BukkitEvaluable.java:121 | trailing empty pieces after a non-empty one are all removed |
| Text.DigitsValue | src/main/java/me/blvckbytes/bukkitevaluable/BukkitEvaluable.java:130-132 | a value exactly for a non-empty run of digits, and that value is the positional decimal reading `DecimalValue` |
| Text.DecimalValueAppend | src/main/java/me/blvckbytes/bukkitevaluable/BukkitEvaluable.java:130-132 | appending a digit multiplies the positional value by ten and adds the digit |
| Text.ParseInt | src/main/java/me/blvckbytes/bukkitevaluable/BukkitEvaluable.java:130-132 | Integer.parseInt: a result only for an optional sign followed by digits, within 32 bits; its value is the decimal value of the digits, negated after '-' |
| Text.ParseIntAccepts | src/main/java/me/blvckbytes/bukkitevaluable/BukkitEvaluable.java:130-132 | every digit string, bare, after '+' or after '-', parses to its signed decimal value exactly when that fits in 32 bits, and fails otherwise |
| Text.Int32 | src/main/java/me/blvckbytes/bukkitevaluable/ItemBuilder.java:272 | intValue(): the 32-bit value congruent modulo 2^32, unchanged when in range |

## Left out

- File I/O, YAML loading and saving, resource-folder walking, pre-processor migration and logging (ConfigManager.java:117-249, 287-320, 354-441): plumbing over the filesystem and libraries. Only the string logic they use is modelled.
- evaluateLeafExpressions and every expression evaluation: they run in an external evaluator, so evaluation is a set of functions of the environment inside `Evaluable`.
- XMaterial, XEnchantment, XPotion matching, PotionType.valueOf, enumeration constant tables and Color constants: foreign tables, so they are fields of the `Platform` parameter.
- Textures application (applyHeadProfile and the textures handlers): reflection over the game profile, so the textures value is an opaque string on a skull meta. The skull textures check is modelled by what its reflection does: the profile is read from the owning player through a field of the meta's class, which always throws and is swallowed, so `ItemStackSections.TexturesSatisfied` fails whenever a textures template is set; the skull-without-owner and empty-property cases lead to the same result and are not told apart.
- ItemBuilders.ColorStage: build calls `asColor` (ItemBuilder.java:301), which is not among the BukkitEvaluable methods in the source files; it is taken to be `asBukkitColor` (BukkitEvaluable.java:108-117), the only one that yields a Bukkit Color.
- Text.DigitsValue: accepts only the ASCII digits '0'..'9'; Integer.parseInt also accepts every other Unicode decimal digit through Character.digit (Arabic-Indic, fullwidth and so on), which the model rejects.
- Text.ParseInt: the same restriction to ASCII digits, so a colour or number written with non-ASCII decimal digits parses in Java but yields null here.
- The enumeration cache's concurrency: the static map is modelled as one sequential `EnumCache` object.
- asChatComponent, getConverterFor and asTextComponent: they build platform objects or converters without logic of their own.
- ItemBuilders.ItemBuilder.constructor: requires a readable meta; the throwing case of the Java constructor is `NewItemBuilder`, which returns IllegalStateException instead. Its other throwing case, a null item (ItemBuilder.java:82-83), cannot arise: `Item` is a value and never null.
- ConfigManagers.ConfigManager.constructor: takes the normalised folder name; `NewConfigManager` models the normalisation and its exception for an empty name.
- ConfigManagers.PluginResourcePath: requires a non-empty folder name, which the normalised name always is.
- SkinFunctions.NonNull: the evaluator library's exception for a null argument is not visible; it is modelled as one `InvalidFunctionArgument` failure, and a missing argument is treated like a null one.
- SkinFunctions.Base64ToSkinUrl: Gson's JSON parser and the platform default charset are parameters, so its contract states only the argument and Base64 failures; the round trip `SkinFunctions.SkinUrlRoundTrip` assumes a parser that reads the textures JSON of an escape-free URL as its tree and a charset that reads ASCII bytes as ASCII.
- Java strings are sequences of UTF-16 code units, while the model's characters are Unicode scalar values; `Utf8.Encode` encodes scalar values, so Java's replacement of a lone surrogate by '?' is not modelled.
- `Text.Lower`, `Text.Upper` and `Text.Normalize` change only ASCII letters and treat characters up to U+0020 as whitespace; Unicode case mapping is not modelled.
- The enchantment section's asEnchantment and describesEnchantment, which build and the matcher call, are not among the source files; they are modelled from their call sites (`EnchantmentSections.AsEnchantmentData`, `EnchantmentSections.EnchantmentPresent`).
- The matcher returns a `Result`: a potion or map meta without a colour makes `isColorSatisfied` throw, and so does a banner pattern section with only a colour during build.

## Findings

Five lines read a different field from the one their surrounding code names. For each, one
member models the line as written and a lemma exhibits the difference. A corrected definition
stands beside it, with the property the code evidently intends proved about it. The matcher
(`ItemStackSections.DescribesItem`) and build keep the as-written members, because that is
what the code does.

| source | as written | input that shows it | evidently intended | confidence | as-written member | corrected member |
|---|---|---|---|---|---|---|
| src/main/java/me/blvckbytes/bukkitevaluable/section/ItemStackCustomEffectSection.java:84 | the amplifier constraint is compared with `getDuration()` | amplifier 2 against an effect of duration 600 and amplifier 2 | compared with `getAmplifier()`, so every section describes the effect it builds | not executed | `CustomEffectSections.AmplifierComparedWithDuration` | `CustomEffectSections.IntendedDescribesOwnEffect` |
| src/main/java/me/blvckbytes/bukkitevaluable/section/ItemStackCustomEffectSection.java:91 | the particles constraint is compared with `isAmbient()` | particles true against an effect with particles that is not ambient | compared with `hasParticles()` | not executed | `CustomEffectSections.ParticlesComparedWithAmbient` | `CustomEffectSections.IntendedFullSectionIsExact` |
| src/main/java/me/blvckbytes/bukkitevaluable/section/ItemStackBannerPatternSection.java:48 | the dye colour is looked up in `this.pattern` | a section with a colour and no pattern throws NullPointerException | looked up in `this.color`, so every section describes the pattern it builds | not executed | `BannerPatternSections.AsPatternIgnoresColorText` | `BannerPatternSections.IntendedDescribesOwnPattern` |
| src/main/java/me/blvckbytes/bukkitevaluable/section/ItemStackBaseEffectSection.java:69 | the upgraded constraint is compared with `isExtended()` | upgraded true against upgraded, unextended data | compared with `isUpgraded()`, so a section describes the data it builds unless it asks for both flags | not executed | `BaseEffectSections.UpgradedComparedWithExtended` | `BaseEffectSections.IntendedDescribesOwnData` |
| src/main/java/me/blvckbytes/bukkitevaluable/section/ItemStackSection.java:304 | the second null test is on `color` again | a colour text that names no colour, against leather armour | the test is on `bukkitColor`, so an unresolvable colour passes like an absent one and a coloured meta satisfies the colour build gave it | not executed | `ItemStackSections.UnresolvedColorFails` | `ItemBuilders.IntendedColorStageSatisfied` |

Two more lines fail on some inputs. They are modelled as written:

| behaviour as written | lemma |
|---|---|
| `areTexturesSatisfied` reads the meta class's `profile` field from the owning player, which throws and is swallowed, so a textures constraint never passes | `TexturesAlwaysMismatch` |
| the pre-processor scanner throws when no terminator follows the file name | `PreProcessorFileNameAtEndThrows` |
