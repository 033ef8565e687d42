/**
 * LegacyEvaluableApplicator: writes evaluated values into an item meta and
 * sends them to a command sender. The meta and the sender are platform
 * objects changed in place, so both are classes here; what a sender receives
 * is recorded in sequences.
 */
module Applicators {
  import opened Wrappers
  import opened Items
  import opened Evaluables

  /** An ItemMeta handed to the applicator, updated through its setters. */
  class MetaHandle {
    var meta: Meta

    constructor(meta: Meta)
      ensures this.meta == meta
    {
      this.meta := meta;
    }
  }

  /** A title as Player.sendTitle receives it. */
  datatype Title = Title(title: Option<string>, subTitle: Option<string>, fadeIn: int, stay: int, fadeOut: int)

  /** A CommandSender: whether it is a player, and what it has been sent so far. */
  class Receiver {
    const isPlayer: bool
    var messages: seq<string>
    var actionBarMessages: seq<string>
    var titles: seq<Title>

    constructor(isPlayer: bool)
      ensures this.isPlayer == isPlayer && messages == [] && actionBarMessages == [] && titles == []
    {
      this.isPlayer := isPlayer;
      messages, actionBarMessages, titles := [], [], [];
    }
  }

  /////////////////////////////////// Lore ///////////////////////////////////

  /** The lines that are not null, in order. */
  function Present(lines: seq<Option<string>>): seq<string>
    decreases |lines|
  {
    if |lines| == 0 then []
    else
      var last := lines[|lines| - 1];
      Present(lines[..|lines| - 1]) + (if last.Some? then [last.value] else [])
  }

  /** A string is among the kept lines exactly when some line holds it: no null is added, no line is lost. */
  lemma {:induction false} PresentMembers(lines: seq<Option<string>>, s: string)
    ensures s in Present(lines) <==> Some(s) in lines
    decreases |lines|
  {
    if |lines| > 0 {
      var prefix := lines[..|lines| - 1];
      PresentMembers(prefix, s);
      assert lines == prefix + [lines[|lines| - 1]];
    }
  }

  /** Only null lines are dropped: without nulls every line is kept, in order. */
  lemma {:induction false} PresentWithoutNulls(lines: seq<Option<string>>)
    requires forall i :: 0 <= i < |lines| ==> lines[i].Some?
    ensures |Present(lines)| == |lines|
    ensures forall i :: 0 <= i < |lines| ==> Present(lines)[i] == lines[i].value
    decreases |lines|
  {
    if |lines| > 0 {
      PresentWithoutNulls(lines[..|lines| - 1]);
    }
  }

  /** The kept lines never outnumber the lines. */
  lemma {:induction false} PresentLength(lines: seq<Option<string>>)
    ensures |Present(lines)| <= |lines|
    decreases |lines|
  {
    if |lines| > 0 {
      PresentLength(lines[..|lines| - 1]);
    }
  }

  /**
   * The lore setLore writes: none when overriding or when the meta had no
   * lore, else the meta's lore, followed by the evaluated lines that are not null.
   */
  function LoreAfterSet(current: Option<seq<string>>, lines: seq<Option<string>>, override: bool): seq<string>
  {
    (if override || current.None? then [] else current.value) + Present(lines)
  }

  /** With the override the lore is exactly the present lines; without it the old lore is kept as a prefix. */
  lemma LoreAfterSetCases(current: Option<seq<string>>, lines: seq<Option<string>>, override: bool)
    ensures override ==> LoreAfterSet(current, lines, override) == Present(lines)
    ensures !override && current.Some? ==>
      LoreAfterSet(current, lines, override)[..|current.value|] == current.value
  {
    assert [] + Present(lines) == Present(lines);
  }

  /** The loop of setLore: the existing lines (cleared when overriding), then each line that is not null. */
  method AppendLore(current: Option<seq<string>>, lines: seq<Option<string>>, override: bool) returns (r: seq<string>)
    ensures r == LoreAfterSet(current, lines, override)
  {
    r := if current.None? then [] else current.value;
    if override {
      r := [];
    }
    ghost var start := r;
    for i := 0 to |lines|
      invariant r == start + Present(lines[..i])
    {
      assert lines[..i + 1][..i] == lines[..i];
      if lines[i].None? {
        continue;
      }
      r := r + [lines[i].value];
    }
    assert lines[..|lines|] == lines;
  }

  /** setLore: the meta's lore becomes a list (never null); nothing else changes. */
  method SetLore(m: MetaHandle, e: Evaluable, env: Env, override: bool)
    modifies m
    ensures m.meta == old(m.meta).(lore := Some(LoreAfterSet(old(m.meta).lore, e.nullableLines(env), override)))
  {
    var lines := AppendLore(m.meta.lore, e.nullableLines(env), override);
    m.meta := m.meta.(lore := Some(lines));
  }

  /** setDisplayName: the display name becomes the evaluated string; nothing else changes. */
  method SetDisplayName(m: MetaHandle, e: Evaluable, env: Env)
    modifies m
    ensures m.meta == old(m.meta).(displayName := Some(e.text(env)))
  {
    m.meta := m.meta.(displayName := Some(e.text(env)));
  }

  ///////////////////////////////// Messages /////////////////////////////////

  /** The messages one item of a collection sends: an expression yielding a collection sends one per element. */
  function ItemMessages(item: RawItem): seq<string>
  {
    match item
    case Literal(t) => [t]
    case Expression(Single(t)) => [t]
    case Expression(Many(ts)) => ts
  }

  /** The messages a collection sends, item after item. */
  function CollectionMessages(items: seq<RawItem>): seq<string>
    decreases |items|
  {
    if |items| == 0 then [] else CollectionMessages(items[..|items| - 1]) + ItemMessages(items[|items| - 1])
  }

  /** sendMessage: a non-collection value sends its text once; a collection is flattened. */
  function Messages(raw: RawValue, text: string): seq<string>
  {
    match raw
    case NonCollection => [text]
    case Collection(items) => CollectionMessages(items)
  }

  /** The number of messages a collection sends: one per item that is not an expression yielding a collection. */
  function MessageCount(items: seq<RawItem>): nat
    decreases |items|
  {
    if |items| == 0 then 0
    else MessageCount(items[1..]) + (if items[0].Expression? && items[0].value.Many? then |items[0].value.texts| else 1)
  }

  /** Messages of two runs of items are those of the first run, then those of the second. */
  lemma {:induction false} CollectionMessagesAppend(a: seq<RawItem>, b: seq<RawItem>)
    ensures CollectionMessages(a + b) == CollectionMessages(a) + CollectionMessages(b)
    decreases |b|
  {
    if |b| == 0 {
      assert a + b == a;
    } else {
      assert (a + b)[..|a + b| - 1] == a + b[..|b| - 1];
      CollectionMessagesAppend(a, b[..|b| - 1]);
    }
  }

  /** A collection sends exactly as many messages as its items account for. */
  lemma {:induction false} CollectionMessagesCount(items: seq<RawItem>)
    ensures |CollectionMessages(items)| == MessageCount(items)
    decreases |items|
  {
    if |items| > 0 {
      CollectionMessagesCount(items[1..]);
      CollectionMessagesAppend([items[0]], items[1..]);
      assert [items[0]] + items[1..] == items;
      assert CollectionMessages([items[0]]) == ItemMessages(items[0]) by {
        assert [items[0]][..0] == [];
      }
    }
  }

  /** A collection of plain items sends each item's text once, in order. */
  lemma {:induction false} PlainCollectionMessages(items: seq<RawItem>)
    requires forall i :: 0 <= i < |items| ==> items[i].Literal?
    ensures |CollectionMessages(items)| == |items|
    ensures forall i :: 0 <= i < |items| ==> CollectionMessages(items)[i] == items[i].text
    decreases |items|
  {
    if |items| > 0 {
      PlainCollectionMessages(items[..|items| - 1]);
    }
  }

  /** sendMessage: the receiver gets the flattened messages, in order; nothing else is sent. */
  method SendMessage(receiver: Receiver, e: Evaluable, env: Env)
    modifies receiver
    ensures receiver.messages == old(receiver.messages) + Messages(e.raw(env), e.text(env))
    ensures receiver.actionBarMessages == old(receiver.actionBarMessages) && receiver.titles == old(receiver.titles)
  {
    var value := e.raw(env);
    if value.Collection? {
      var items := value.items;
      for i := 0 to |items|
        invariant receiver.messages == old(receiver.messages) + CollectionMessages(items[..i])
        invariant receiver.actionBarMessages == old(receiver.actionBarMessages) && receiver.titles == old(receiver.titles)
      {
        assert items[..i + 1][..i] == items[..i];
        var item := items[i];
        if item.Expression? {
          if item.value.Many? {
            var lines := item.value.texts;
            ghost var before := receiver.messages;
            for j := 0 to |lines|
              invariant receiver.messages == before + lines[..j]
              invariant receiver.actionBarMessages == old(receiver.actionBarMessages) && receiver.titles == old(receiver.titles)
            {
              receiver.messages := receiver.messages + [lines[j]];
              assert lines[..j + 1] == lines[..j] + [lines[j]];
            }
            assert lines[..|lines|] == lines;
            continue;
          }
          receiver.messages := receiver.messages + [item.value.text];
          continue;
        }
        receiver.messages := receiver.messages + [item.text];
      }
      assert items[..|items|] == items;
      return;
    }
    receiver.messages := receiver.messages + [e.text(env)];
  }

  /** sendActionBarMessage: a player gets the evaluated text on the action bar; any other sender gets nothing. */
  method SendActionBarMessage(receiver: Receiver, e: Evaluable, env: Env)
    modifies receiver
    ensures receiver.actionBarMessages == old(receiver.actionBarMessages) + (if receiver.isPlayer then [e.text(env)] else [])
    ensures receiver.messages == old(receiver.messages) && receiver.titles == old(receiver.titles)
  {
    if !receiver.isPlayer {
      return;
    }
    receiver.actionBarMessages := receiver.actionBarMessages + [e.text(env)];
  }

  /** A title part is evaluated only when both the value and its environment are present. */
  function TitlePart(e: Option<Evaluable>, env: Option<Env>): (r: Option<string>)
    ensures r.Some? <==> e.Some? && env.Some?
    ensures r.Some? ==> r.value == e.value.text(env.value)
  {
    if e.Some? && env.Some? then Some(e.value.text(env.value)) else None
  }

  /**
   * The title sendTitles sends, if any: none to a sender that is not a
   * player, and none when neither part was evaluated.
   */
  function TitleToSend(isPlayer: bool, title: Option<Evaluable>, titleEnv: Option<Env>,
                       subTitle: Option<Evaluable>, subTitleEnv: Option<Env>,
                       fadeIn: int, stay: int, fadeOut: int): (r: Option<Title>)
    ensures r.None? <==> !isPlayer || ((title.None? || titleEnv.None?) && (subTitle.None? || subTitleEnv.None?))
    ensures r.Some? ==> r.value == Title(TitlePart(title, titleEnv), TitlePart(subTitle, subTitleEnv), fadeIn, stay, fadeOut)
  {
    if !isPlayer then None
    else
      var titleMessage := TitlePart(title, titleEnv);
      var subTitleMessage := TitlePart(subTitle, subTitleEnv);
      if titleMessage.None? && subTitleMessage.None? then None
      else Some(Title(titleMessage, subTitleMessage, fadeIn, stay, fadeOut))
  }

  /** sendTitles: the receiver gets the title TitleToSend describes, or nothing. */
  method SendTitles(receiver: Receiver, title: Option<Evaluable>, titleEnv: Option<Env>,
                    subTitle: Option<Evaluable>, subTitleEnv: Option<Env>, fadeIn: int, stay: int, fadeOut: int)
    modifies receiver
    ensures var sent := TitleToSend(receiver.isPlayer, title, titleEnv, subTitle, subTitleEnv, fadeIn, stay, fadeOut);
      receiver.titles == old(receiver.titles) + (if sent.Some? then [sent.value] else [])
    ensures receiver.messages == old(receiver.messages) && receiver.actionBarMessages == old(receiver.actionBarMessages)
  {
    if !receiver.isPlayer {
      return;
    }
    var titleMessage: Option<string> := None;
    var subTitleMessage: Option<string> := None;
    if title.Some? && titleEnv.Some? {
      titleMessage := Some(title.value.text(titleEnv.value));
    }
    if subTitle.Some? && subTitleEnv.Some? {
      subTitleMessage := Some(subTitle.value.text(subTitleEnv.value));
    }
    if titleMessage.None? && subTitleMessage.None? {
      return;
    }
    receiver.titles := receiver.titles + [Title(titleMessage, subTitleMessage, fadeIn, stay, fadeOut)];
  }
}
