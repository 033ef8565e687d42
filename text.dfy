/**
 * The java.lang.String and Integer operations the modelled code relies on:
 * case mapping, trim, split on a single space, indexOf, endsWith and parseInt.
 * Case mapping covers the ASCII letters only.
 */
module Text {
  import opened Wrappers

  /** Character.toLowerCase restricted to ASCII letters. */
  function LowerChar(c: char): char {
    if 'A' <= c <= 'Z' then (c as int + 32) as char else c
  }

  /** Character.toUpperCase restricted to ASCII letters. */
  function UpperChar(c: char): char {
    if 'a' <= c <= 'z' then (c as int - 32) as char else c
  }

  /** String.toLowerCase. */
  function Lower(s: string): (r: string)
    ensures |r| == |s|
    ensures forall i :: 0 <= i < |s| ==> r[i] == LowerChar(s[i])
  {
    seq(|s|, i requires 0 <= i < |s| => LowerChar(s[i]))
  }

  /** String.toUpperCase. */
  function Upper(s: string): (r: string)
    ensures |r| == |s|
    ensures forall i :: 0 <= i < |s| ==> r[i] == UpperChar(s[i])
  {
    seq(|s|, i requires 0 <= i < |s| => UpperChar(s[i]))
  }

  /** The characters String.trim removes: every code point up to and including the space. */
  predicate IsTrimmable(c: char) {
    c <= ' '
  }

  predicate AllTrimmable(s: string) {
    forall i :: 0 <= i < |s| ==> IsTrimmable(s[i])
  }

  function TrimStart(s: string): (r: string)
    decreases |s|
  {
    if |s| > 0 && IsTrimmable(s[0]) then TrimStart(s[1..]) else s
  }

  function TrimEnd(s: string): (r: string)
    decreases |s|
  {
    if |s| > 0 && IsTrimmable(s[|s| - 1]) then TrimEnd(s[..|s| - 1]) else s
  }

  /** String.trim: drops leading and trailing characters up to ' '. */
  function Trim(s: string): (r: string)
  {
    TrimEnd(TrimStart(s))
  }

  /** The key under which enum names are looked up: trimmed, then lower-cased. */
  function Normalize(s: string): string {
    Lower(Trim(s))
  }

  lemma {:induction false} TrimStartLower(s: string)
    ensures Lower(TrimStart(s)) == TrimStart(Lower(s))
    decreases |s|
  {
    if |s| > 0 && IsTrimmable(s[0]) {
      assert Lower(s)[1..] == Lower(s[1..]);
      TrimStartLower(s[1..]);
    }
  }

  lemma {:induction false} TrimEndLower(s: string)
    ensures Lower(TrimEnd(s)) == TrimEnd(Lower(s))
    decreases |s|
  {
    if |s| > 0 && IsTrimmable(s[|s| - 1]) {
      assert Lower(s)[..|s| - 1] == Lower(s[..|s| - 1]);
      TrimEndLower(s[..|s| - 1]);
    }
  }

  /** Lower-casing never turns a trimmable character into a kept one, so the two commute. */
  lemma NormalizeIsTrimOfLower(s: string)
    ensures Normalize(s) == Trim(Lower(s))
  {
    TrimEndLower(TrimStart(s));
    TrimStartLower(s);
  }

  /** Two names that differ only in ASCII case have the same lookup key. */
  lemma NormalizeIgnoresCase(s: string, t: string)
    requires Lower(s) == Lower(t)
    ensures Normalize(s) == Normalize(t)
  {
    NormalizeIsTrimOfLower(s);
    NormalizeIsTrimOfLower(t);
  }

  lemma {:induction false} TrimStartDropsPrefix(pre: string, s: string)
    requires AllTrimmable(pre)
    ensures TrimStart(pre + s) == TrimStart(s)
    decreases |pre|
  {
    if |pre| > 0 {
      assert IsTrimmable((pre + s)[0]);
      assert (pre + s)[1..] == pre[1..] + s;
      TrimStartDropsPrefix(pre[1..], s);
      assert TrimStart(pre + s) == TrimStart(pre[1..] + s);
    } else {
      assert pre + s == s;
    }
  }

  lemma {:induction false} TrimEndDropsSuffix(s: string, post: string)
    requires AllTrimmable(post)
    ensures TrimEnd(s + post) == TrimEnd(s)
    decreases |post|
  {
    if |post| > 0 {
      assert IsTrimmable((s + post)[|s + post| - 1]);
      assert (s + post)[..|s + post| - 1] == s + post[..|post| - 1];
      TrimEndDropsSuffix(s, post[..|post| - 1]);
    } else {
      assert s + post == s;
    }
  }

  lemma {:induction false} TrimStartOfAppend(s: string, post: string)
    ensures TrimStart(s + post) == if TrimStart(s) == [] then TrimStart(post) else TrimStart(s) + post
    decreases |s|
  {
    if |s| == 0 {
      assert s + post == post;
    } else if IsTrimmable(s[0]) {
      assert (s + post)[1..] == s[1..] + post;
      TrimStartOfAppend(s[1..], post);
    }
  }

  lemma {:induction false} TrimEndOfAllTrimmable(s: string)
    requires AllTrimmable(s)
    ensures TrimEnd(s) == []
    decreases |s|
  {
    if |s| > 0 {
      TrimEndOfAllTrimmable(s[..|s| - 1]);
    }
  }

  lemma {:induction false} TrimStartOfAllTrimmable(s: string)
    requires AllTrimmable(s)
    ensures TrimStart(s) == []
    decreases |s|
  {
    if |s| > 0 {
      TrimStartOfAllTrimmable(s[1..]);
    }
  }

  /** Surrounding whitespace never changes the lookup key. */
  lemma NormalizeIgnoresPadding(pre: string, s: string, post: string)
    requires AllTrimmable(pre) && AllTrimmable(post)
    ensures Normalize(pre + s + post) == Normalize(s)
  {
    assert pre + s + post == pre + (s + post);
    TrimStartDropsPrefix(pre, s + post);
    TrimStartOfAppend(s, post);
    if TrimStart(s) == [] {
      TrimStartOfAllTrimmable(post);
    } else {
      TrimEndDropsSuffix(TrimStart(s), post);
    }
  }

  /** String.endsWith. */
  predicate EndsWith(s: string, suffix: string) {
    |suffix| <= |s| && s[|s| - |suffix|..] == suffix
  }

  /** String.startsWith. */
  predicate StartsWith(s: string, prefix: string) {
    |prefix| <= |s| && s[..|prefix|] == prefix
  }

  /** True when `pat` occurs in `s` at index `i`. */
  predicate OccursAt(s: string, pat: string, i: int) {
    0 <= i && i + |pat| <= |s| && s[i..i + |pat|] == pat
  }

  /** String.indexOf(pat, from): the first occurrence at or after `from`, or -1. */
  function IndexOfFrom(s: string, pat: string, from: nat): (r: int)
    requires from <= |s|
    ensures r == -1 || (from <= r && OccursAt(s, pat, r))
    ensures forall i :: from <= i && (r == -1 || i < r) ==> !OccursAt(s, pat, i)
    decreases |s| - from
  {
    if from + |pat| > |s| then -1
    else if s[from..from + |pat|] == pat then from
    else IndexOfFrom(s, pat, from + 1)
  }

  /** String.indexOf(pat). */
  function IndexOf(s: string, pat: string): (r: int)
    ensures r == -1 || OccursAt(s, pat, r)
    ensures forall i :: 0 <= i && (r == -1 || i < r) ==> !OccursAt(s, pat, i)
  {
    IndexOfFrom(s, pat, 0)
  }

  /** String.lastIndexOf(c): the last index holding `c`, or -1. */
  function LastIndexOf(s: string, c: char): (r: int)
    ensures -1 <= r < |s|
    ensures r >= 0 ==> s[r] == c
    ensures forall i :: r < i < |s| ==> s[i] != c
    decreases |s|
  {
    if |s| == 0 then -1
    else if s[|s| - 1] == c then |s| - 1
    else LastIndexOf(s[..|s| - 1], c)
  }

  /** The pieces of `s` between single spaces, empty pieces included. */
  function Pieces(s: string): (r: seq<string>)
    ensures |r| >= 1
    decreases |s|
  {
    if |s| == 0 then [""]
    else if s[0] == ' ' then [""] + Pieces(s[1..])
    else var rest := Pieces(s[1..]); [[s[0]] + rest[0]] + rest[1..]
  }

  function DropTrailingEmpty(ps: seq<string>): (r: seq<string>)
    ensures |r| <= |ps| && r == ps[..|r|]
    ensures |r| > 0 ==> r[|r| - 1] != ""
    decreases |ps|
  {
    if |ps| > 0 && ps[|ps| - 1] == "" then DropTrailingEmpty(ps[..|ps| - 1]) else ps
  }

  /**
   * String.split(" "): the pieces between single spaces with trailing empty
   * pieces removed; the empty string splits into one empty piece.
   */
  function SplitOnSpace(s: string): seq<string> {
    if |s| == 0 then [""] else DropTrailingEmpty(Pieces(s))
  }

  /** How Pieces unfolds on a leading character. */
  lemma PiecesOfCons(c: char, s: string)
    ensures Pieces([c] + s) ==
      if c == ' ' then [""] + Pieces(s) else [[c] + Pieces(s)[0]] + Pieces(s)[1..]
  {
    assert ([c] + s)[0] == c && ([c] + s)[1..] == s;
  }

  /** The pieces joined back with single spaces. */
  function Join(ps: seq<string>): string
    requires |ps| >= 1
  {
    ps[0] + JoinTail(ps[1..])
  }

  function JoinTail(ps: seq<string>): string
    decreases |ps|
  {
    if |ps| == 0 then "" else " " + ps[0] + JoinTail(ps[1..])
  }

  predicate SpaceFree(s: string)
  {
    forall i :: 0 <= i < |s| ==> s[i] != ' '
  }

  /** The pieces are the text between the spaces: none holds a space, and joining them gives the text back. */
  lemma {:induction false} PiecesJoin(s: string)
    ensures Join(Pieces(s)) == s
    ensures forall i :: 0 <= i < |Pieces(s)| ==> SpaceFree(Pieces(s)[i])
    decreases |s|
  {
    if |s| > 0 {
      var c, rest := s[0], s[1..];
      assert s == [c] + rest;
      PiecesOfCons(c, rest);
      PiecesJoin(rest);
      var ps := Pieces(rest);
      if c == ' ' {
        assert Pieces(s)[1..] == ps;
        assert JoinTail(ps) == " " + ps[0] + JoinTail(ps[1..]);
      } else {
        assert Pieces(s)[1..] == ps[1..];
        assert Join(Pieces(s)) == [c] + ps[0] + JoinTail(ps[1..]);
        forall i | 0 <= i < |Pieces(s)|
          ensures SpaceFree(Pieces(s)[i])
        {
          if i > 0 {
            assert Pieces(s)[i] == ps[i];
          }
        }
      }
    }
  }

  /** A space-free word followed by a space starts the pieces of the text. */
  lemma {:induction false} PiecesOfWord(x: string, rest: string)
    requires SpaceFree(x)
    ensures Pieces(x + " " + rest) == [x] + Pieces(rest)
    decreases |x|
  {
    if |x| == 0 {
      assert x + " " + rest == [' '] + rest;
      PiecesOfCons(' ', rest);
    } else {
      assert x + " " + rest == [x[0]] + (x[1..] + " " + rest);
      PiecesOfCons(x[0], x[1..] + " " + rest);
      PiecesOfWord(x[1..], rest);
      assert [x[0]] + x[1..] == x;
    }
  }

  /** A space-free word is a single piece. */
  lemma {:induction false} PiecesOfSpaceFree(x: string)
    requires SpaceFree(x)
    ensures Pieces(x) == [x]
    decreases |x|
  {
    if |x| > 0 {
      assert x == [x[0]] + x[1..];
      PiecesOfCons(x[0], x[1..]);
      PiecesOfSpaceFree(x[1..]);
    }
  }

  /** A run of n spaces splits into n + 1 empty pieces. */
  lemma {:induction false} PiecesOfSpaces(t: string)
    requires forall i :: 0 <= i < |t| ==> t[i] == ' '
    ensures |Pieces(t)| == |t| + 1
    ensures forall i :: 0 <= i < |Pieces(t)| ==> Pieces(t)[i] == ""
    decreases |t|
  {
    if |t| > 0 {
      assert t == [' '] + t[1..];
      PiecesOfCons(' ', t[1..]);
      PiecesOfSpaces(t[1..]);
    }
  }

  /** Trailing empty pieces are dropped up to the last non-empty one. */
  lemma {:induction false} DropTrailingEmpties(ps: seq<string>, es: seq<string>)
    requires |ps| > 0 && ps[|ps| - 1] != ""
    requires forall i :: 0 <= i < |es| ==> es[i] == ""
    ensures DropTrailingEmpty(ps + es) == ps
    decreases |es|
  {
    if |es| > 0 {
      assert (ps + es)[..|ps + es| - 1] == ps + es[..|es| - 1];
      DropTrailingEmpties(ps, es[..|es| - 1]);
    } else {
      assert ps + es == ps;
    }
  }

  /**
   * split(" ") of three space-free words separated by single spaces, followed
   * by any run of spaces: the trailing empty parts are dropped, leaving the
   * three words.
   */
  lemma SplitDropsTrailingSpace(x: string, y: string, z: string, t: string)
    requires |x| > 0 && |y| > 0 && |z| > 0 && SpaceFree(x) && SpaceFree(y) && SpaceFree(z)
    requires forall i :: 0 <= i < |t| ==> t[i] == ' '
    ensures SplitOnSpace(x + " " + y + " " + z + t) == [x, y, z]
  {
    var s := x + " " + y + " " + z + t;
    assert s == x + " " + (y + " " + z + t);
    PiecesOfWord(x, y + " " + z + t);
    assert y + " " + z + t == y + " " + (z + t);
    PiecesOfWord(y, z + t);
    var tail: seq<string>;
    if |t| == 0 {
      assert z + t == z;
      PiecesOfSpaceFree(z);
      tail := [];
    } else {
      assert z + t == z + " " + t[1..];
      PiecesOfWord(z, t[1..]);
      PiecesOfSpaces(t[1..]);
      tail := Pieces(t[1..]);
    }
    assert Pieces(s) == [x, y, z] + tail;
    DropTrailingEmpties([x, y, z], tail);
  }

  predicate IsDigit(c: char) {
    '0' <= c <= '9'
  }

  /** Character.digit(c, 10) for an ASCII digit. */
  function DigitOf(c: char): int {
    c as int - '0' as int
  }

  function Pow10(n: nat): (r: nat)
    ensures r >= 1
  {
    if n == 0 then 1 else 10 * Pow10(n - 1)
  }

  /** The positional reading of a digit string, most significant digit first. */
  function DecimalValue(s: string): int
    decreases |s|
  {
    if |s| == 0 then 0 else DigitOf(s[0]) * Pow10(|s| - 1) + DecimalValue(s[1..])
  }

  /** Appending a digit shifts the positional value by one decimal place. */
  lemma {:induction false} DecimalValueAppend(s: string, d: char)
    ensures DecimalValue(s + [d]) == 10 * DecimalValue(s) + DigitOf(d)
    decreases |s|
  {
    var t := s + [d];
    if |s| == 0 {
      assert t[1..] == [];
    } else {
      assert t[0] == s[0] && t[1..] == s[1..] + [d];
      DecimalValueAppend(s[1..], d);
      assert Pow10(|t| - 1) == 10 * Pow10(|s| - 1);
      assert DigitOf(s[0]) * (10 * Pow10(|s| - 1)) == 10 * (DigitOf(s[0]) * Pow10(|s| - 1));
    }
  }

  /**
   * The value of a non-empty run of ASCII decimal digits, read from the last
   * digit backwards; it agrees with the positional reading.
   */
  function DigitsValue(s: string): (r: Option<nat>)
    ensures r.Some? <==> |s| > 0 && forall i :: 0 <= i < |s| ==> IsDigit(s[i])
    ensures r.Some? ==> r.value == DecimalValue(s)
    decreases |s|
  {
    if |s| == 0 || !IsDigit(s[|s| - 1]) then None
    else if |s| == 1 then Some(DigitOf(s[0]))
    else
      var init := s[..|s| - 1];
      assert init + [s[|s| - 1]] == s;
      DecimalValueAppend(init, s[|s| - 1]);
      match DigitsValue(init)
      case None => None
      case Some(v) => Some(10 * v + DigitOf(s[|s| - 1]))
  }

  const MinInt32: int := -0x8000_0000
  const MaxInt32: int := 0x7fff_ffff

  /**
   * Integer.parseInt: an optional sign followed by decimal digits whose value
   * fits in 32 bits; anything else raises NumberFormatException (None here).
   */
  function ParseInt(s: string): (r: Option<int>)
    ensures r.Some? ==> MinInt32 <= r.value <= MaxInt32
    ensures r.Some? ==> |s| > 0 && (IsDigit(s[0]) || s[0] == '-' || s[0] == '+')
    ensures r.Some? ==> forall i :: 1 <= i < |s| ==> IsDigit(s[i])
    ensures r.Some? && IsDigit(s[0]) ==> r.value == DecimalValue(s)
    ensures r.Some? && s[0] == '+' ==> r.value == DecimalValue(s[1..])
    ensures r.Some? && s[0] == '-' ==> r.value == -DecimalValue(s[1..])
  {
    if |s| == 0 then None
    else
      var negative := s[0] == '-';
      var digits := if s[0] == '-' || s[0] == '+' then s[1..] else s;
      match DigitsValue(digits)
      case None => None
      case Some(v) =>
        var value: int := if negative then -(v as int) else v as int;
        if MinInt32 <= value <= MaxInt32 then Some(value) else None
  }

  /**
   * Every digit string is accepted, bare or behind a sign, exactly when its
   * signed value fits in 32 bits, and then yields that value.
   */
  lemma ParseIntAccepts(ds: string)
    requires |ds| > 0 && forall i :: 0 <= i < |ds| ==> IsDigit(ds[i])
    ensures ParseInt(ds) == (if DecimalValue(ds) <= MaxInt32 then Some(DecimalValue(ds)) else None)
    ensures ParseInt("+" + ds) == (if DecimalValue(ds) <= MaxInt32 then Some(DecimalValue(ds)) else None)
    ensures ParseInt("-" + ds) == (if -DecimalValue(ds) >= MinInt32 then Some(-DecimalValue(ds)) else None)
  {
    assert ("+" + ds)[1..] == ds;
    assert ("-" + ds)[1..] == ds;
  }

  /** Long.intValue / an int cast: keep the low 32 bits as a two's-complement value. */
  function Int32(x: int): (r: int)
    ensures MinInt32 <= r <= MaxInt32
    ensures (x - r) % 0x1_0000_0000 == 0
    ensures MinInt32 <= x <= MaxInt32 ==> r == x
  {
    (x + 0x8000_0000) % 0x1_0000_0000 - 0x8000_0000
  }
}
