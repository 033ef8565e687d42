/**
 * BukkitEvaluable: a configuration value that is evaluated against an
 * environment, and the typed views the core takes of it — enum constants
 * looked up by name through a memo cache, colours, RGB triples, materials,
 * enchantments and potion types.
 */
module Evaluables {
  import opened Wrappers
  import opened Text
  import opened Items

  /** The result of evaluating one expression item of a collection value. */
  datatype ExprValue = Single(text: string) | Many(texts: seq<string>)

  /** One item of a collection value: a literal, or an expression with its evaluated result. */
  datatype RawItem = Literal(text: string) | Expression(value: ExprValue)

  /** asRawObject: either a collection of items or a single (non-collection) value. */
  datatype RawValue = NonCollection | Collection(items: seq<RawItem>)

  /**
   * A value whose views are functions of the environment:
   *   text          asScalar(STRING)
   *   number        asScalar(LONG)
   *   lines         asList(STRING)
   *   nullableLines asList(STRING_PRESERVE_NULLS)
   *   names         asSet(STRING)
   *   raw           asRawObject
   */
  datatype Evaluable = Evaluable(
    text: Env -> string,
    number: Env -> int,
    lines: Env -> seq<string>,
    nullableLines: Env -> seq<Option<string>>,
    names: Env -> set<string>,
    raw: Env -> RawValue)

  /** A value that evaluates to the same text and number in every environment. */
  function ConstantEvaluable(text: string, number: int): (r: Evaluable)
    ensures forall env :: r.text(env) == text && r.number(env) == number
  {
    Evaluable(
      (env: Env) => text, (env: Env) => number, (env: Env) => [text], (env: Env) => [Some(text)],
      (env: Env) => {text}, (env: Env) => NonCollection)
  }

  /** asScalar(LONG).intValue(): the low 32 bits of the evaluated number. */
  function IntValue(e: Evaluable, env: Env): (r: int)
    ensures MinInt32 <= r <= MaxInt32
    ensures MinInt32 <= e.number(env) <= MaxInt32 ==> r == e.number(env)
  {
    Int32(e.number(env))
  }

  /** The first declared constant whose lower-cased name equals `key`. */
  function FindConstant(constants: seq<Constant>, key: string): (r: Option<Constant>)
    ensures r.Some? ==> r.value in constants && Lower(r.value.name) == key
    ensures r.None? <==> forall i :: 0 <= i < |constants| ==> Lower(constants[i].name) != key
    decreases |constants|
  {
    if |constants| == 0 then None
    else if Lower(constants[0].name) == key then Some(constants[0])
    else FindConstant(constants[1..], key)
  }

  /** An earlier constant with the same lower-cased name shadows every later one. */
  lemma {:induction false} FindConstantIsFirst(constants: seq<Constant>, key: string, i: int)
    requires 0 <= i < |constants| && Lower(constants[i].name) == key
    requires forall j :: 0 <= j < i ==> Lower(constants[j].name) != key
    ensures FindConstant(constants, key) == Some(constants[i])
    decreases i
  {
    if i > 0 {
      FindConstantIsFirst(constants[1..], key, i - 1);
    }
  }

  /** parseEnum without its cache: trim and lower-case the name, then take the first match. */
  function ResolveEnum(constants: seq<Constant>, value: string): (r: Option<Constant>)
  {
    FindConstant(constants, Normalize(value))
  }

  /** Names differing only in ASCII case or in surrounding whitespace resolve alike. */
  lemma ResolveEnumIsNormalized(constants: seq<Constant>, s: string, t: string, pre: string, post: string)
    requires Lower(s) == Lower(t)
    requires AllTrimmable(pre) && AllTrimmable(post)
    ensures ResolveEnum(constants, pre + s + post) == ResolveEnum(constants, t)
  {
    NormalizeIgnoresPadding(pre, s, post);
    NormalizeIgnoresCase(s, t);
  }

  /** asEnumerationConstantSet without the cache: every name that resolves, by its constant. */
  function EnumSet(constants: seq<Constant>, names: set<string>): (r: set<Constant>)
    ensures forall c :: c in r ==> c in constants
  {
    set v | v in names && ResolveEnum(constants, v).Some? :: ResolveEnum(constants, v).value
  }

  /** Exactly the resolved constants of the names are in the set; unresolved names contribute nothing. */
  lemma EnumSetMembers(constants: seq<Constant>, names: set<string>, c: Constant)
    ensures c in EnumSet(constants, names) <==> exists v :: v in names && ResolveEnum(constants, v) == Some(c)
  {
    if c in EnumSet(constants, names) {
      var v :| v in names && ResolveEnum(constants, v).Some? && ResolveEnum(constants, v).value == c;
    }
  }

  lemma EnumSetAdd(constants: seq<Constant>, names: set<string>, v: string)
    ensures EnumSet(constants, names + {v}) ==
      EnumSet(constants, names) + (if ResolveEnum(constants, v).Some? then {ResolveEnum(constants, v).value} else {})
  {
  }

  /** A set of names never yields more constants than it has names. */
  lemma {:induction false} EnumSetSize(constants: seq<Constant>, names: set<string>)
    ensures |EnumSet(constants, names)| <= |names|
    decreases |names|
  {
    if names != {} {
      var v :| v in names;
      EnumSetSize(constants, names - {v});
      EnumSetAdd(constants, names - {v}, v);
      assert names - {v} + {v} == names;
    }
  }

  /**
   * parseRGBNotation: exactly three space-separated parts, each an int, handed
   * to a constructor that may reject them; every failure is a null result.
   */
  function ParseRgbNotation<T>(value: string, construct: (int, int, int) -> Option<T>): (r: Option<T>)
    ensures |SplitOnSpace(value)| != 3 ==> r.None?
  {
    var parts := SplitOnSpace(value);
    if |parts| != 3 then None
    else match (ParseInt(parts[0]), ParseInt(parts[1]), ParseInt(parts[2]))
      case (Some(red), Some(green), Some(blue)) => construct(red, green, blue)
      case _ => None
  }

  /** A well-formed triple yields the constructor's value; each way of failing yields null. */
  lemma ParseRgbNotationCases<T>(value: string, construct: (int, int, int) -> Option<T>)
    ensures ParseRgbNotation(value, construct).Some? <==>
      |SplitOnSpace(value)| == 3 &&
      ParseInt(SplitOnSpace(value)[0]).Some? && ParseInt(SplitOnSpace(value)[1]).Some? &&
      ParseInt(SplitOnSpace(value)[2]).Some? &&
      construct(ParseInt(SplitOnSpace(value)[0]).value, ParseInt(SplitOnSpace(value)[1]).value,
                ParseInt(SplitOnSpace(value)[2]).value).Some?
  {
  }

  /** With a trailing space the triple "1 2 3 " still parses, since split drops the empty tail. */
  lemma ParseRgbTrailingSpace()
    ensures ParseRgbNotation("1 2 3 ", FromRgb) == Some(Color(1, 2, 3))
  {
    SplitDropsTrailingSpace("1", "2", "3", " ");
    assert "1" + " " + "2" + " " + "3" + " " == "1 2 3 ";
    assert DigitsValue("1") == Some(1);
    assert DigitsValue("2") == Some(2);
    assert DigitsValue("3") == Some(3);
  }

  /**
   * Three int parts with a component outside 0..255 are rejected by
   * Color.fromRGB, and the exception becomes a null result.
   */
  lemma ParseRgbRejectsRange(value: string)
    requires |SplitOnSpace(value)| == 3
    requires forall i :: 0 <= i < 3 ==> ParseInt(SplitOnSpace(value)[i]).Some?
    requires exists i :: 0 <= i < 3 && !(0 <= ParseInt(SplitOnSpace(value)[i]).value < 256)
    ensures ParseRgbNotation(value, FromRgb).None?
  {
    var parts := SplitOnSpace(value);
    assert ParseInt(parts[0]).Some? && ParseInt(parts[1]).Some? && ParseInt(parts[2]).Some?;
  }

  /** asBukkitColor without the cache: a declared Color constant first, then RGB notation. */
  function BukkitColor(p: Platform, value: string): (r: Option<Color>)
    ensures ResolveEnum(p.constants(ColorType), value).Some? ==>
      r == Some(p.colorOf(ResolveEnum(p.constants(ColorType), value).value))
    ensures ResolveEnum(p.constants(ColorType), value).None? ==> r == ParseRgbNotation(value, FromRgb)
  {
    match ResolveEnum(p.constants(ColorType), value)
    case Some(c) => Some(p.colorOf(c))
    case None => ParseRgbNotation(value, FromRgb)
  }

  /**
   * asJavaColor: RGB notation only, built by java.awt.Color's constructor,
   * which rejects a component outside 0..255 as Color.fromRGB does.
   */
  function JavaColor(value: string): (r: Option<Color>)
    ensures r.Some? <==>
      |SplitOnSpace(value)| == 3 &&
      ParseInt(SplitOnSpace(value)[0]).Some? && 0 <= ParseInt(SplitOnSpace(value)[0]).value < 256 &&
      ParseInt(SplitOnSpace(value)[1]).Some? && 0 <= ParseInt(SplitOnSpace(value)[1]).value < 256 &&
      ParseInt(SplitOnSpace(value)[2]).Some? && 0 <= ParseInt(SplitOnSpace(value)[2]).value < 256
    ensures r.Some? ==> r.value == Color(ParseInt(SplitOnSpace(value)[0]).value,
                                         ParseInt(SplitOnSpace(value)[1]).value,
                                         ParseInt(SplitOnSpace(value)[2]).value)
  {
    ParseRgbNotation(value, FromRgb)
  }

  function AsXMaterial(p: Platform, e: Evaluable, env: Env): Option<Material> {
    p.matchMaterial(e.text(env))
  }

  function AsEnchantment(p: Platform, e: Evaluable, env: Env): Option<Enchantment> {
    p.matchEnchantment(e.text(env))
  }

  /**
   * asPotionType: a matching XPotion decides (even when it has no potion type);
   * only without one is PotionType.valueOf tried on the upper-cased text.
   */
  function AsPotionType(p: Platform, e: Evaluable, env: Env): (r: Option<PotionType>)
    ensures p.matchPotion(e.text(env)).Some? ==> r == p.matchPotion(e.text(env)).value.potionType
    ensures p.matchPotion(e.text(env)).None? ==> r == p.potionTypeByName(Upper(e.text(env)))
  {
    match p.matchPotion(e.text(env))
    case Some(x) => x.potionType
    case None => p.potionTypeByName(Upper(e.text(env)))
  }

  /** asPotionEffectType: the effect type of the matching XPotion, null without one. */
  function AsPotionEffectType(p: Platform, e: Evaluable, env: Env): (r: Option<EffectType>)
    ensures p.matchPotion(e.text(env)).None? ==> r.None?
    ensures p.matchPotion(e.text(env)).Some? ==> r == p.matchPotion(e.text(env)).value.effectType
  {
    match p.matchPotion(e.text(env))
    case Some(x) => x.effectType
    case None => None
  }

  /** asEnumerationConstant without the cache. */
  function AsEnumerationConstant(p: Platform, t: EnumType, e: Evaluable, env: Env): Option<Constant> {
    ResolveEnum(p.constants(t), e.text(env))
  }

  /** The entries a cache map holds for one class, empty when it has none. */
  function Cached(m: map<EnumType, map<string, Constant>>, t: EnumType): map<string, Constant>
  {
    if t in m then m[t] else map[]
  }

  /**
   * The cache frame of a lookup in class t: the entries of every other class
   * are unchanged, every entry of t is kept, and each new entry of t is
   * under one of the given keys.
   */
  predicate OnlyAdds(before: map<EnumType, map<string, Constant>>, after: map<EnumType, map<string, Constant>>,
                     t: EnumType, keys: set<string>)
  {
    (forall u :: u != t ==> Cached(after, u) == Cached(before, u)) &&
    (forall k :: k in Cached(before, t) ==> k in Cached(after, t) && Cached(after, t)[k] == Cached(before, t)[k]) &&
    (forall k :: k in Cached(after, t) && k !in Cached(before, t) ==> k in keys)
  }

  /** Two lookups in the same class add under the union of their keys. */
  lemma OnlyAddsTrans(a: map<EnumType, map<string, Constant>>, b: map<EnumType, map<string, Constant>>,
                      c: map<EnumType, map<string, Constant>>, t: EnumType, k1: set<string>, k2: set<string>)
    requires OnlyAdds(a, b, t, k1) && OnlyAdds(b, c, t, k2)
    ensures OnlyAdds(a, c, t, k1 + k2)
  {
  }

  /** A cache map is its own frame. */
  lemma OnlyAddsNothing(m: map<EnumType, map<string, Constant>>, t: EnumType, keys: set<string>)
    ensures OnlyAdds(m, m, t, keys)
  {
  }

  /** Storing a new entry of class t adds under that entry's key. */
  lemma OnlyAddsStore(m: map<EnumType, map<string, Constant>>, t: EnumType, key: string, c: Constant)
    requires key !in Cached(m, t)
    ensures OnlyAdds(m, m[t := Cached(m, t)[key := c]], t, {key})
  {
    var after := m[t := Cached(m, t)[key := c]];
    assert Cached(after, t) == Cached(m, t)[key := c];
    forall u | u != t
      ensures Cached(after, u) == Cached(m, u)
    {
    }
    forall k | k in Cached(after, t) && k !in Cached(m, t)
      ensures k in {key}
    {
    }
  }

  /** The keys a set of names is cached under. */
  function NormalizedNames(names: set<string>): (r: set<string>)
    ensures forall v :: v in names ==> Normalize(v) in r
    ensures forall k :: k in r ==> exists v :: v in names && Normalize(v) == k
  {
    set v | v in names :: Normalize(v)
  }

  /**
   * The static enum cache: per class, a map from normalised name to constant.
   * It is valid when every entry agrees with an uncached scan.
   */
  class EnumCache {
    const constants: EnumType -> seq<Constant>
    var entries: map<EnumType, map<string, Constant>>

    ghost predicate Valid()
      reads this
    {
      forall t, k :: t in entries && k in entries[t] ==> FindConstant(constants(t), k) == Some(entries[t][k])
    }

    /** The entries of one class, empty when the class has none yet. */
    function Entries(t: EnumType): map<string, Constant>
      reads this
    {
      Cached(entries, t)
    }

    constructor(constants: EnumType -> seq<Constant>)
      ensures this.constants == constants && entries == map[]
      ensures Valid()
    {
      this.constants := constants;
      entries := map[];
    }

    /** performEnumCacheLookup: the stored constant, if any; in a valid cache it is the scan's answer. */
    method PerformEnumCacheLookup(t: EnumType, key: string) returns (r: Option<Constant>)
      ensures r.Some? <==> key in Entries(t)
      ensures r.Some? ==> r.value == Entries(t)[key]
      ensures Valid() && r.Some? ==> r == FindConstant(constants(t), key)
    {
      if t in entries && key in entries[t] {
        r := Some(entries[t][key]);
      } else {
        r := None;
      }
    }

    /** cacheEnumLookup: adds or overwrites the one entry (t, key); nothing else changes. */
    method CacheEnumLookup(t: EnumType, key: string, c: Constant)
      modifies this
      ensures entries == old(entries)[t := old(Entries(t))[key := c]]
    {
      entries := entries[t := Entries(t)[key := c]];
    }

    /**
     * parseEnum: normalise the name, answer from the cache on a hit, otherwise
     * scan the declared constants and cache the result only when one is found.
     */
    method ParseEnum(t: EnumType, value: string) returns (r: Option<Constant>)
      requires Valid()
      modifies this
      ensures Valid()
      ensures r == ResolveEnum(constants(t), value)
      ensures old(Normalize(value) in Entries(t)) || r.None? ==> entries == old(entries)
      ensures r.Some? ==> entries == old(entries)[t := old(Entries(t))[Normalize(value) := r.value]]
      ensures OnlyAdds(old(entries), entries, t, {Normalize(value)})
    {
      var key := Normalize(value);
      var hit := PerformEnumCacheLookup(t, key);
      if hit.Some? {
        assert t in entries && Entries(t) == entries[t];
        assert Entries(t)[key := hit.value] == Entries(t);
        assert entries[t := entries[t]] == entries;
        OnlyAddsNothing(entries, t, {key});
        return hit;
      }
      var cs := constants(t);
      var i := 0;
      r := None;
      while i < |cs|
        invariant 0 <= i <= |cs|
        invariant FindConstant(cs, key) == FindConstant(cs[i..], key)
        invariant r.None?
      {
        assert cs[i..][1..] == cs[i + 1..];
        if Lower(cs[i].name) == key {
          r := Some(cs[i]);
          break;
        }
        i := i + 1;
      }
      if r.Some? {
        OnlyAddsStore(entries, t, key, r.value);
        CacheEnumLookup(t, key, r.value);
      } else {
        OnlyAddsNothing(entries, t, {key});
      }
    }

    /** asEnumerationConstant. */
    method AsEnumerationConstant(t: EnumType, e: Evaluable, env: Env) returns (r: Option<Constant>)
      requires Valid()
      modifies this
      ensures Valid()
      ensures r == ResolveEnum(constants(t), e.text(env))
      ensures OnlyAdds(old(entries), entries, t, {Normalize(e.text(env))})
    {
      r := ParseEnum(t, e.text(env));
    }

    /** asEnumerationConstantSet: the resolved constants of every evaluated name, unknown names skipped. */
    method AsEnumerationConstantSet(t: EnumType, e: Evaluable, env: Env) returns (r: set<Constant>)
      requires Valid()
      modifies this
      ensures Valid()
      ensures r == EnumSet(constants(t), e.names(env))
      ensures OnlyAdds(old(entries), entries, t, NormalizedNames(e.names(env)))
    {
      var names := e.names(env);
      var remaining := names;
      r := {};
      while remaining != {}
        invariant remaining <= names
        invariant Valid()
        invariant r == EnumSet(constants(t), names - remaining)
        invariant OnlyAdds(old(entries), entries, t, NormalizedNames(names - remaining))
        decreases |remaining|
      {
        var v :| v in remaining;
        ghost var before := entries;
        var c := ParseEnum(t, v);
        OnlyAddsTrans(old(entries), before, entries, t, NormalizedNames(names - remaining), {Normalize(v)});
        assert NormalizedNames(names - remaining) + {Normalize(v)} == NormalizedNames(names - (remaining - {v}));
        EnumSetAdd(constants(t), names - remaining, v);
        if c.Some? {
          r := r + {c.value};
        }
        assert names - (remaining - {v}) == (names - remaining) + {v};
        remaining := remaining - {v};
      }
    }

    /** asBukkitColor: a named Color constant, else RGB notation. */
    method AsBukkitColor(colorOf: Constant -> Color, e: Evaluable, env: Env) returns (r: Option<Color>)
      requires Valid()
      modifies this
      ensures Valid()
      ensures forall p: Platform :: p.constants == constants && p.colorOf == colorOf ==> r == BukkitColor(p, e.text(env))
      ensures OnlyAdds(old(entries), entries, ColorType, {Normalize(e.text(env))})
    {
      var value := e.text(env);
      var named := ParseEnum(ColorType, value);
      if named.Some? {
        return Some(colorOf(named.value));
      }
      r := ParseRgbNotation(value, FromRgb);
    }
  }
}
