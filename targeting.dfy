/**
 * Dot-notation targeting: resolving `sword` or `2.sword` against the items
 * on a room's floor, the NPCs in a room or a player's inventory.
 */
module Targeting {
  import opened Wrappers
  import opened Seqs
  import opened Entities

  /** The part of `s` before the first `c`, or all of `s` when it has none: `s.split(c)[0]`. */
  function Before(s: string, c: char): (r: string)
    ensures r <= s && c !in r
    ensures |r| < |s| ==> s[|r|] == c
  {
    if s == [] || s[0] == c then [] else [s[0]] + Before(s[1..], c)
  }

  /** The first space-delimited word of a command's argument string. */
  function FirstToken(arg: string): string
  {
    Before(arg, ' ')
  }

  predicate IsDigit(ch: char)
  {
    '0' <= ch <= '9'
  }

  /** The length of the run of decimal digits `s` starts with. */
  function DigitRun(s: string): (k: nat)
    ensures k <= |s|
    ensures forall j :: 0 <= j < k ==> IsDigit(s[j])
    ensures k < |s| ==> !IsDigit(s[k])
  {
    if s != [] && IsDigit(s[0]) then 1 + DigitRun(s[1..]) else 0
  }

  /** The value of a string of decimal digits, as `parseInt(d, 10)` reads it. */
  function Decimal(d: string): (n: nat)
    requires forall j :: 0 <= j < |d| ==> IsDigit(d[j])
    ensures n < Pow10(|d|)
    ensures d != [] ==> n % 10 == d[|d| - 1] as int - '0' as int
  {
    if d == [] then 0
    else
      var last := d[|d| - 1];
      assert IsDigit(last);
      10 * Decimal(d[..|d| - 1]) + (last as int - '0' as int)
  }

  /** Ten to the power `k`: a bound on the value of `k` digits. */
  function Pow10(k: nat): (p: nat)
    ensures p >= 1
  {
    if k == 0 then 1 else 10 * Pow10(k - 1)
  }

  /** A parsed target: the keyword to test and the ordinal given before a dot, if any. */
  datatype Query = Query(keyword: string, nth: Option<nat>)

  /**
   * Parses one word: `<digits>.<rest>` yields the digits' value as the
   * ordinal and the part of `<rest>` before any further dot as the keyword;
   * any other word is a bare keyword.
   */
  function ParseQuery(token: string): (q: Query)
    ensures q.nth.None? ==> q.keyword == token
    ensures q.nth.Some? ==> '.' in token && '.' !in q.keyword && |q.keyword| < |token|
    ensures '.' !in token ==> q == Query(token, None)
    ensures q.nth.Some? <==>
      exists k :: 0 < k < |token| && token[k] == '.' && forall j :: 0 <= j < k ==> IsDigit(token[j])
  {
    var k := DigitRun(token);
    if 0 < k < |token| && token[k] == '.' then
      Query(Before(token[k + 1..], '.'), Some(Decimal(token[..k])))
    else
      Query(token, None)
  }

  function KeywordOf(arg: string): string
  {
    ParseQuery(FirstToken(arg)).keyword
  }

  function OrdinalOf(arg: string): Option<nat>
  {
    ParseQuery(FirstToken(arg)).nth
  }

  /** The candidate test for one keyword, as the filter callback sees it. */
  function Matcher<T>(hasKeyword: (T, string) -> bool, keyword: string): T -> bool
  {
    o => hasKeyword(o, keyword)
  }

  /**
   * Resolves the first word of `arg` against `objects`. The candidates that
   * have the keyword are kept in order; a non-zero ordinal within their
   * number picks that one, anything else the first. No candidate: `None`.
   */
  function ParseDot<T>(arg: string, objects: seq<T>, hasKeyword: (T, string) -> bool): (r: Option<T>)
    ensures r.None? <==> forall k :: 0 <= k < |objects| ==> !hasKeyword(objects[k], KeywordOf(arg))
    ensures r.Some? ==> r.value in objects && hasKeyword(r.value, KeywordOf(arg))
  {
    var q := ParseQuery(FirstToken(arg));
    var found := Filter(objects, Matcher(hasKeyword, q.keyword));
    if |found| == 0 then
      None
    else if q.nth.Some? && q.nth.value != 0 && q.nth.value <= |found| then
      Some(found[q.nth.value - 1])
    else
      Some(found[0])
  }

  /** JavaScript's truthiness test on a resolved uuid: the empty string reads as "not found". */
  function Truthy(r: Option<string>): (t: Option<string>)
    ensures t.Some? <==> r.Some? && r.value != ""
    ensures t.Some? ==> t == r
  {
    if r.Some? && r.value != "" then r else None
  }

  /** `find_item_in_room`: an item uuid from the room's floor. */
  function FindItemInRoom(lookString: string, room: Room, hasKeyword: (ItemId, string) -> bool): (r: Option<ItemId>)
    ensures r.Some? ==> r.value in room.items && r.value != "" && hasKeyword(r.value, KeywordOf(lookString))
    ensures r.None? <==> ParseDot(lookString, room.items, hasKeyword) in {None, Some("")}
    ensures r.Some? ==> ParseDot(lookString, room.items, hasKeyword) == r
  {
    Truthy(ParseDot(lookString, room.items, hasKeyword))
  }

  /** `find_npc_in_room`: an NPC uuid from the room. */
  function FindNpcInRoom(lookString: string, room: Room, hasKeyword: (NpcId, string) -> bool): (r: Option<NpcId>)
    ensures r.Some? ==> r.value in room.npcs && r.value != "" && hasKeyword(r.value, KeywordOf(lookString))
    ensures r.None? <==> ParseDot(lookString, room.npcs, hasKeyword) in {None, Some("")}
    ensures r.Some? ==> ParseDot(lookString, room.npcs, hasKeyword) == r
  {
    Truthy(ParseDot(lookString, room.npcs, hasKeyword))
  }

  /**
   * `find_item_in_inventory`: an item the player carries. Inventory entries
   * are objects, which are always truthy, so any resolved entry is found.
   */
  function FindItemInInventory(lookString: string, inventory: seq<ItemId>, hasKeyword: (ItemId, string) -> bool): (r: Option<ItemId>)
    ensures r.None? <==> forall k :: 0 <= k < |inventory| ==> !hasKeyword(inventory[k], KeywordOf(lookString))
    ensures r.Some? ==> r.value in inventory && hasKeyword(r.value, KeywordOf(lookString))
  {
    ParseDot(lookString, inventory, hasKeyword)
  }

  /** What `look <thing>` settles on. */
  datatype Target = RoomItem(item: ItemId) | CarriedItem(item: ItemId) | RoomNpc(npc: NpcId)

  /**
   * `look` with an argument searches the room's floor first, then the
   * inventory, then the room's NPCs. The search only runs for a non-empty
   * (truthy) argument; an empty one renders the room instead.
   */
  function LookTarget(args: string, room: Room, inventory: seq<ItemId>,
                      itemHasKeyword: (ItemId, string) -> bool,
                      npcHasKeyword: (NpcId, string) -> bool): (r: Option<Target>)
    requires args != ""
    ensures FindItemInRoom(args, room, itemHasKeyword).Some? ==>
      r == Some(RoomItem(FindItemInRoom(args, room, itemHasKeyword).value))
    ensures r.Some? && r.value.RoomItem? ==>
      FindItemInRoom(args, room, itemHasKeyword) == Some(r.value.item)
    ensures r.Some? && r.value.CarriedItem? ==>
      FindItemInRoom(args, room, itemHasKeyword).None? &&
      FindItemInInventory(args, inventory, itemHasKeyword) == Some(r.value.item) && r.value.item in inventory
    ensures r.Some? && r.value.RoomNpc? ==>
      FindItemInRoom(args, room, itemHasKeyword).None? &&
      FindItemInInventory(args, inventory, itemHasKeyword).None? &&
      FindNpcInRoom(args, room, npcHasKeyword) == Some(r.value.npc) && r.value.npc in room.npcs
    ensures r.None? <==>
      FindItemInRoom(args, room, itemHasKeyword).None? &&
      FindItemInInventory(args, inventory, itemHasKeyword).None? &&
      FindNpcInRoom(args, room, npcHasKeyword).None?
  {
    match FindItemInRoom(args, room, itemHasKeyword)
    case Some(id) => Some(RoomItem(id))
    case None =>
      match FindItemInInventory(args, inventory, itemHasKeyword)
      case Some(id) => Some(CarriedItem(id))
      case None =>
        match FindNpcInRoom(args, room, npcHasKeyword)
        case Some(id) => Some(RoomNpc(id))
        case None => None
  }

  // ---------------------------------------------------------------------
  // Properties of the resolver

  /** Only the first space-delimited word of the argument takes part. */
  lemma {:induction false} FirstTokenOfPhrase(word: string, rest: string)
    requires ' ' !in word
    ensures FirstToken(word + " " + rest) == word
    ensures FirstToken(word) == word
  {
    if word != [] {
      assert (word + " " + rest)[1..] == word[1..] + " " + rest;
      FirstTokenOfPhrase(word[1..], rest);
    }
  }

  lemma ParseDotIgnoresTrailingWords<T>(word: string, rest: string, objects: seq<T>, hasKeyword: (T, string) -> bool)
    requires ' ' !in word
    ensures ParseDot(word + " " + rest, objects, hasKeyword) == ParseDot(word, objects, hasKeyword)
  {
    FirstTokenOfPhrase(word, rest);
  }

  /** Splitting the first word off again changes nothing (why `remove` and `wield` pre-split harmlessly). */
  lemma FirstTokenIdempotent(arg: string)
    ensures FirstToken(FirstToken(arg)) == FirstToken(arg)
  {
    FirstTokenOfPhrase(FirstToken(arg), "");
  }

  lemma {:induction false} BeforeAbsent(s: string, c: char)
    requires c !in s
    ensures Before(s, c) == s
  {
    if s != [] {
      BeforeAbsent(s[1..], c);
    }
  }

  lemma {:induction false} DigitRunOfDotted(d: string, rest: string)
    requires forall j :: 0 <= j < |d| ==> IsDigit(d[j])
    ensures DigitRun(d + "." + rest) == |d|
  {
    if d != [] {
      assert (d + "." + rest)[1..] == d[1..] + "." + rest;
      DigitRunOfDotted(d[1..], rest);
    }
  }

  /** `<digits>.<keyword>` parses into the keyword and the digits' value as ordinal. */
  lemma DottedQuery(d: string, keyword: string)
    requires d != [] && forall j :: 0 <= j < |d| ==> IsDigit(d[j])
    requires '.' !in keyword
    ensures ParseQuery(d + "." + keyword) == Query(keyword, Some(Decimal(d)))
  {
    var t := d + "." + keyword;
    DigitRunOfDotted(d, keyword);
    assert t[..|d|] == d;
    assert t[|d| + 1..] == keyword;
    BeforeAbsent(keyword, '.');
  }

  /**
   * `<digits>.<rest>` takes as keyword only the part of `<rest>` before a
   * further dot: the keyword of `2.a.b` is `a`.
   */
  lemma DottedQueryRest(d: string, rest: string)
    requires d != [] && forall j :: 0 <= j < |d| ==> IsDigit(d[j])
    ensures ParseQuery(d + "." + rest) == Query(Before(rest, '.'), Some(Decimal(d)))
  {
    var t := d + "." + rest;
    DigitRunOfDotted(d, rest);
    assert t[..|d|] == d;
    assert t[|d| + 1..] == rest;
  }

  /** A word without a dot is a bare keyword. */
  lemma PlainQuery(word: string)
    requires '.' !in word
    ensures ParseQuery(word) == Query(word, None)
  {
    var k := DigitRun(word);
    if 0 < k < |word| {
      assert word[k] in word;
    }
  }

  /**
   * An ordinal `n` with `1 <= n <=` the number of candidates having the
   * keyword picks the `n`-th such candidate in the collection's order.
   */
  lemma ParseDotPicksNth<T>(arg: string, objects: seq<T>, hasKeyword: (T, string) -> bool, n: nat)
    requires OrdinalOf(arg) == Some(n)
    requires 1 <= n <= Count(objects, Matcher(hasKeyword, KeywordOf(arg)))
    ensures ParseDot(arg, objects, hasKeyword) == Some(objects[NthIndex(objects, Matcher(hasKeyword, KeywordOf(arg)), n)])
  {
    NthMatchIsFiltered(objects, Matcher(hasKeyword, KeywordOf(arg)), n);
  }

  /**
   * Without an ordinal, with ordinal 0, or with one past the number of
   * candidates having the keyword, the first such candidate is picked.
   */
  lemma ParseDotFallsBackToFirst<T>(arg: string, objects: seq<T>, hasKeyword: (T, string) -> bool)
    requires 1 <= Count(objects, Matcher(hasKeyword, KeywordOf(arg)))
    requires OrdinalOf(arg) in {None, Some(0)} ||
             OrdinalOf(arg).value > Count(objects, Matcher(hasKeyword, KeywordOf(arg)))
    ensures ParseDot(arg, objects, hasKeyword) == Some(objects[NthIndex(objects, Matcher(hasKeyword, KeywordOf(arg)), 1)])
  {
    NthMatchIsFiltered(objects, Matcher(hasKeyword, KeywordOf(arg)), 1);
  }

  /** Digits, a dot and a keyword without spaces contain no space. */
  lemma NoSpaceInDotted(d: string, keyword: string)
    requires forall j :: 0 <= j < |d| ==> IsDigit(d[j])
    requires ' ' !in keyword
    ensures ' ' !in d + "." + keyword
  {
    var t := d + "." + keyword;
    forall j | 0 <= j < |t|
      ensures t[j] != ' '
    {
      if j < |d| {
        assert IsDigit(d[j]);
      } else if j > |d| {
        assert t[j] == keyword[j - |d| - 1];
      }
    }
  }

  /** A whole argument `<digits>.<keyword>` yields that keyword and the digits' value as ordinal. */
  lemma DottedArgument(d: string, keyword: string)
    requires d != [] && forall j :: 0 <= j < |d| ==> IsDigit(d[j])
    requires '.' !in keyword && ' ' !in keyword
    ensures OrdinalOf(d + "." + keyword) == Some(Decimal(d))
    ensures KeywordOf(d + "." + keyword) == keyword
  {
    var t := d + "." + keyword;
    NoSpaceInDotted(d, keyword);
    FirstTokenOfPhrase(t, "");
    DottedQuery(d, keyword);
  }

  lemma DecimalTwo()
    ensures Decimal("2") == 2
  {
    assert "2"[..0] == [];
  }

  lemma SecondOfTwoMatches<T>(first: T, second: T, p: T -> bool)
    requires p(first) && p(second)
    ensures Count([first, second], p) == 2 && NthIndex([first, second], p, 2) == 1
  {
    assert [first, second][1..] == [second] && [second][1..] == [];
  }

  /** Two carried potions: `2.potion` resolves to the second one, not the first. */
  lemma SecondPotion(first: ItemId, second: ItemId, hasKeyword: (ItemId, string) -> bool)
    requires hasKeyword(first, "potion") && hasKeyword(second, "potion")
    ensures FindItemInInventory("2.potion", [first, second], hasKeyword) == Some(second)
  {
    assert "2" + "." + "potion" == "2.potion";
    DottedArgument("2", "potion");
    DecimalTwo();
    SecondOfTwoMatches(first, second, Matcher(hasKeyword, "potion"));
    ParseDotPicksNth("2.potion", [first, second], hasKeyword, 2);
  }
}
