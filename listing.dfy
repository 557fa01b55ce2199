/**
 * Pure display rules: the grouped `inventory` listing and the colour an
 * NPC's name is shown in by `look`.
 */
module Listing {
  import opened Wrappers
  import opened Seqs
  import opened Entities

  /** One inventory line: the `(n) ` prefix when one is shown, then the item whose description follows. */
  datatype Line = Line(count: Option<nat>, item: ItemId)

  /** Every uuid in `ids` names a known item. */
  ghost predicate Known(ids: seq<ItemId>, items: map<ItemId, Item>)
  {
    forall id :: id in ids ==> id in items
  }

  /** The test "carried, not equipped, of template `vnum`". */
  function UnwornOf(items: map<ItemId, Item>, vnum: int): ItemId -> bool
  {
    id => id in items && !items[id].equipped && items[id].vnum == vnum
  }

  /** How many non-equipped items of template `vnum` the inventory holds. */
  function Tally(inv: seq<ItemId>, items: map<ItemId, Item>, vnum: int): (n: nat)
    ensures n <= |inv|
    ensures n == 0 <==> forall j :: 0 <= j < |inv| ==> !UnwornOf(items, vnum)(inv[j])
  {
    var p := UnwornOf(items, vnum);
    assert |Filter(inv, p)| == Count(inv, p);
    assert Count(inv, p) > 0 ==> Filter(inv, p)[0] in inv;
    Count(inv, p)
  }

  /** The prefix rule: a count is shown only when there is more than one. */
  function CountPrefix(n: nat): (p: Option<nat>)
    ensures p.Some? <==> n > 1
    ensures p.Some? ==> p.value == n
  {
    if n > 1 then Some(n) else None
  }

  /** `inv[j]` is not equipped and no earlier non-equipped item has its template. */
  ghost predicate FirstOfItsKind(inv: seq<ItemId>, items: map<ItemId, Item>, j: nat)
    requires Known(inv, items) && j < |inv|
  {
    !items[inv[j]].equipped &&
    forall j' :: 0 <= j' < j ==> items[inv[j']].equipped || items[inv[j']].vnum != items[inv[j]].vnum
  }

  /**
   * The listing the first `n` inventory entries produce: a line for each
   * first occurrence of a template among the non-equipped items, counted
   * over the whole inventory.
   */
  ghost function Grouped(inv: seq<ItemId>, items: map<ItemId, Item>, n: nat): (g: seq<Line>)
    requires Known(inv, items) && n <= |inv|
    ensures |g| <= n
  {
    if n == 0 then []
    else
      Grouped(inv, items, n - 1) +
      if FirstOfItsKind(inv, items, n - 1)
      then [Line(CountPrefix(Tally(inv, items, items[inv[n - 1]].vnum)), inv[n - 1])]
      else []
  }

  /** The templates of the non-equipped items among the first `n` entries. */
  ghost function UnwornVnums(inv: seq<ItemId>, items: map<ItemId, Item>, n: nat): set<int>
    requires Known(inv, items) && n <= |inv|
  {
    set j | 0 <= j < n && !items[inv[j]].equipped :: items[inv[j]].vnum
  }

  /** The templates of the items a listing shows. */
  ghost function ShownVnums(lines: seq<Line>, items: map<ItemId, Item>): set<int>
    requires forall k :: 0 <= k < |lines| ==> lines[k].item in items
  {
    set k | 0 <= k < |lines| :: items[lines[k].item].vnum
  }

  lemma ShownVnumsAppend(lines: seq<Line>, line: Line, items: map<ItemId, Item>)
    requires forall k :: 0 <= k < |lines| ==> lines[k].item in items
    requires line.item in items
    ensures ShownVnums(lines + [line], items) == ShownVnums(lines, items) + {items[line.item].vnum}
  {
    var all := lines + [line];
    forall x | x in ShownVnums(all, items)
      ensures x in ShownVnums(lines, items) + {items[line.item].vnum}
    {
      var k :| 0 <= k < |all| && items[all[k].item].vnum == x;
      if k < |lines| {
        assert all[k] == lines[k];
      }
    }
    forall x | x in ShownVnums(lines, items)
      ensures x in ShownVnums(all, items)
    {
      var k :| 0 <= k < |lines| && items[lines[k].item].vnum == x;
      assert all[k] == lines[k];
    }
    assert all[|lines|] == line;
  }

  /**
   * What the listing promises: every line is a non-equipped carried item
   * with the count prefix of its template; no template is listed twice; and
   * the templates listed are exactly those of the non-equipped items.
   */
  lemma {:induction false} GroupedShape(inv: seq<ItemId>, items: map<ItemId, Item>, n: nat)
    requires Known(inv, items) && n <= |inv|
    ensures var g := Grouped(inv, items, n);
      forall k :: 0 <= k < |g| ==>
        g[k].item in inv[..n] && g[k].item in items && !items[g[k].item].equipped &&
        g[k].count == CountPrefix(Tally(inv, items, items[g[k].item].vnum))
    ensures var g := Grouped(inv, items, n);
      forall k1, k2 :: 0 <= k1 < k2 < |g| ==> items[g[k1].item].vnum != items[g[k2].item].vnum
    ensures ShownVnums(Grouped(inv, items, n), items) == UnwornVnums(inv, items, n)
  {
    if n > 0 {
      GroupedShape(inv, items, n - 1);
      var g0 := Grouped(inv, items, n - 1);
      var g := Grouped(inv, items, n);
      assert inv[..n - 1] <= inv[..n];
      var v := items[inv[n - 1]].vnum;
      if FirstOfItsKind(inv, items, n - 1) {
        assert g == g0 + [Line(CountPrefix(Tally(inv, items, v)), inv[n - 1])];
        assert v !in UnwornVnums(inv, items, n - 1);
        assert UnwornVnums(inv, items, n) == UnwornVnums(inv, items, n - 1) + {v};
        ShownVnumsAppend(g0, Line(CountPrefix(Tally(inv, items, v)), inv[n - 1]), items);
      } else {
        assert g == g0;
        if !items[inv[n - 1]].equipped {
          var j' :| 0 <= j' < n - 1 && !items[inv[j']].equipped && items[inv[j']].vnum == v;
          assert v in UnwornVnums(inv, items, n - 1);
        }
        assert UnwornVnums(inv, items, n) == UnwornVnums(inv, items, n - 1);
      }
    }
  }

  /** The first pass of `inventory`: the count map of non-equipped items per template. */
  method TallyUnworn(inv: seq<ItemId>, items: map<ItemId, Item>) returns (itemcounts: map<int, nat>)
    requires Known(inv, items)
    ensures forall v :: v in itemcounts <==> Tally(inv, items, v) > 0
    ensures forall v :: v in itemcounts ==> itemcounts[v] == Tally(inv, items, v)
  {
    itemcounts := map[];
    for i := 0 to |inv|
      invariant forall v :: v in itemcounts <==> Tally(inv[..i], items, v) > 0
      invariant forall v :: v in itemcounts ==> itemcounts[v] == Tally(inv[..i], items, v)
    {
      assert inv[..i + 1] == inv[..i] + [inv[i]];
      forall v {
        CountAppend(inv[..i], [inv[i]], UnwornOf(items, v));
      }
      var it := items[inv[i]];
      if !it.equipped {
        if it.vnum in itemcounts {
          itemcounts := itemcounts[it.vnum := itemcounts[it.vnum] + 1];
        } else {
          itemcounts := itemcounts[it.vnum := 1];
        }
      }
    }
    assert inv[..|inv|] == inv;
  }

  /**
   * `inventory`: first tallies the non-equipped items per template, then
   * walks the inventory again and lists each template once, at its first
   * non-equipped item, with the tally as prefix when above one.
   */
  method InventoryLines(inv: seq<ItemId>, items: map<ItemId, Item>) returns (lines: seq<Line>)
    requires Known(inv, items)
    ensures lines == Grouped(inv, items, |inv|)
  {
    var itemcounts := TallyUnworn(inv, items);
    var displayed: set<int> := {};
    lines := [];
    for i := 0 to |inv|
      invariant lines == Grouped(inv, items, i)
      invariant displayed == UnwornVnums(inv, items, i)
    {
      var it := items[inv[i]];
      if it.vnum !in displayed && !it.equipped {
        assert FirstOfItsKind(inv, items, i);
        assert it.vnum in itemcounts by {
          FilterAt(inv, UnwornOf(items, it.vnum), i);
        }
        displayed := displayed + {it.vnum};
        lines := lines + [Line(if itemcounts[it.vnum] > 1 then Some(itemcounts[it.vnum]) else None, inv[i])];
      } else {
        assert !FirstOfItsKind(inv, items, i);
      }
      assert UnwornVnums(inv, items, i + 1) == displayed;
    }
  }

  // ---------------------------------------------------------------------
  // NPC name colour in `look`

  datatype Colour = Red | Yellow | Green

  /**
   * The colour band of an NPC by how many levels it is above the player:
   * more than three is red, one to three yellow, otherwise green.
   */
  function NpcColour(npcLevel: int, playerLevel: int): (c: Colour)
    ensures c == Red <==> npcLevel - playerLevel > 3
    ensures c == Yellow <==> 1 <= npcLevel - playerLevel <= 3
    ensures c == Green <==> npcLevel - playerLevel <= 0
  {
    if npcLevel - playerLevel > 3 then Red
    else if npcLevel - playerLevel >= 1 then Yellow
    else Green
  }

  function Danger(c: Colour): nat
  {
    match c
    case Green => 0
    case Yellow => 1
    case Red => 2
  }

  /** A stronger NPC is never shown in a calmer colour, and only the level difference matters. */
  lemma NpcColourMonotone(a: int, b: int, playerLevel: int, shift: int)
    requires a <= b
    ensures Danger(NpcColour(a, playerLevel)) <= Danger(NpcColour(b, playerLevel))
    ensures NpcColour(a + shift, playerLevel + shift) == NpcColour(a, playerLevel)
  {
  }
}
