/**
 * The commands that change the game: movement through exits, picking up,
 * dropping, removing and wielding items, the inventory listing and quit.
 * Everything a command says or emits is appended to one event trace.
 */
module Game {
  import opened Wrappers
  import opened Seqs
  import opened Entities
  import opened Targeting
  import opened Exits
  import opened Listing

  /** Message keys said to a player; their wording lives in the localisation file. */
  datatype Msg =
    | GetCombat | CarryMax | ItemNotFound | ItemPickup(item: ItemId)
    | ItemWorn | ItemDrop(item: ItemId) | AmbigExit | MoveCombat | Limbo
    | CantWield(item: ItemId) | ItemNotEquipped | CombatCommandFail
    | Inv | InvLine(line: Line)

  /** The departure text of a move: the exit's own when it has a non-empty one, else the default naming the player. */
  datatype LeaveText = CustomLeave(text: string) | DefaultLeave(player: string)

  /** What the commands say and emit, in order. */
  datatype Event =
    | Said(to: string, msg: Msg)
    | RoomLeave(room: RoomId, player: string)              // room 'playerLeave'
    | RoomEnter(room: RoomId, player: string)              // room 'playerEnter'
    | NpcEnter(npc: NpcId, player: string)                 // NPC 'playerEnter'
    | NpcDrop(npc: NpcId, player: string, item: ItemId)    // NPC 'playerDropItem'
    | Broadcast(text: LeaveText, recipients: seq<string>)
    | Prompt(player: string)
    | Look(player: string, room: RoomId)                   // the forced `look`
    | WieldAsked(item: ItemId, player: string)             // item 'wield'
    | Unequip(player: string, item: ItemId)
    | Quitting(player: string)                             // player 'quit'

  /** A connected player, as far as the commands read and change one. */
  class Player {
    const name: string
    var location: RoomId
    var inventory: seq<ItemId>
    var inCombat: bool
    var equipment: map<string, ItemId>   // wear slot to item uuid

    constructor (name: string, location: RoomId)
      ensures this.name == name && this.location == location
      ensures inventory == [] && !inCombat && equipment == map[]
    {
      this.name := name;
      this.location := location;
      inventory := [];
      inCombat := false;
      equipment := map[];
    }
  }

  /** `exit.leave_message || L('LEAVE', name)`: an absent or empty message is falsy. */
  function LeaveTextOf(exit: Exit, name: string): (t: LeaveText)
    ensures t.CustomLeave? <==> exit.leaveMessage.Some? && exit.leaveMessage.value != ""
    ensures t.CustomLeave? ==> t.text == exit.leaveMessage.value
    ensures t.DefaultLeave? ==> t.player == name
  {
    if exit.leaveMessage.Some? && exit.leaveMessage.value != "" then CustomLeave(exit.leaveMessage.value)
    else DefaultLeave(name)
  }

  /** The prompts refreshed for the players other than `me` standing in `here`, in player-list order. */
  function Prompts(ps: seq<Player>, me: Player, here: RoomId): (r: seq<Event>)
    reads ps
    ensures |r| <= |ps|
    ensures forall k :: 0 <= k < |r| ==> r[k].Prompt?
  {
    if ps == [] then []
    else
      var p := ps[|ps| - 1];
      Prompts(ps[..|ps| - 1], me, here) + if p != me && p.location == here then [Prompt(p.name)] else []
  }

  /** Every prompt goes to another player standing in `here`. */
  lemma {:induction false} PromptsOnlyOthersHere(ps: seq<Player>, me: Player, here: RoomId)
    ensures forall e :: e in Prompts(ps, me, here) ==>
      exists p :: p in ps && p != me && p.location == here && e == Prompt(p.name)
  {
    if ps != [] {
      var init := ps[..|ps| - 1];
      PromptsOnlyOthersHere(init, me, here);
      forall e | e in Prompts(ps, me, here)
        ensures exists p :: p in ps && p != me && p.location == here && e == Prompt(p.name)
      {
        if e in Prompts(init, me, here) {
          var p :| p in init && p != me && p.location == here && e == Prompt(p.name);
          assert p in ps;
        } else {
          assert ps[|ps| - 1] in ps;
        }
      }
    }
  }

  /** Every other player standing in `here` gets a prompt. */
  lemma {:induction false} PromptsReachAllOthersHere(ps: seq<Player>, me: Player, here: RoomId)
    ensures forall k :: 0 <= k < |ps| && ps[k] != me && ps[k].location == here ==>
      Prompt(ps[k].name) in Prompts(ps, me, here)
  {
    if ps != [] {
      var init := ps[..|ps| - 1];
      PromptsReachAllOthersHere(init, me, here);
      forall k | 0 <= k < |ps| && ps[k] != me && ps[k].location == here
        ensures Prompt(ps[k].name) in Prompts(ps, me, here)
      {
        if k < |ps| - 1 {
          assert ps[k] == init[k];
        }
      }
    }
  }

  ghost predicate NoRepeats(s: seq<Event>)
  {
    forall i, j :: 0 <= i < j < |s| ==> s[i] != s[j]
  }

  /** Players with distinct names are prompted at most once each: no prompt repeats. */
  lemma {:induction false} PromptsOncePerPlayer(ps: seq<Player>, me: Player, here: RoomId)
    requires forall i, j :: 0 <= i < j < |ps| ==> ps[i].name != ps[j].name
    ensures NoRepeats(Prompts(ps, me, here))
  {
    if ps != [] {
      var init := ps[..|ps| - 1];
      var last := ps[|ps| - 1];
      PromptsOncePerPlayer(init, me, here);
      var r0 := Prompts(init, me, here);
      if last != me && last.location == here {
        PromptsOnlyOthersHere(init, me, here);
        forall i | 0 <= i < |r0|
          ensures r0[i] != Prompt(last.name)
        {
          assert r0[i] in r0;
          var p :| p in init && p != me && p.location == here && r0[i] == Prompt(p.name);
          var k :| 0 <= k < |init| && init[k] == p;
          assert ps[k] == p;
        }
        assert Prompts(ps, me, here) == r0 + [Prompt(last.name)];
      } else {
        assert Prompts(ps, me, here) == r0;
      }
    }
  }

  /** `playerEnter` for each NPC of the destination, in the room's order. */
  function NpcEnters(npcs: seq<NpcId>, name: string): (r: seq<Event>)
    ensures |r| == |npcs|
    ensures forall k :: 0 <= k < |npcs| ==> r[k] == NpcEnter(npcs[k], name)
  {
    seq(|npcs|, k requires 0 <= k < |npcs| => NpcEnter(npcs[k], name))
  }

  /** `playerDropItem` for each NPC of the room, in the room's order. */
  function DropNotices(npcs: seq<NpcId>, name: string, item: ItemId): (r: seq<Event>)
    ensures |r| == |npcs|
    ensures forall k :: 0 <= k < |npcs| ==> r[k] == NpcDrop(npcs[k], name, item)
  {
    seq(|npcs|, k requires 0 <= k < |npcs| => NpcDrop(npcs[k], name, item))
  }

  function SayLines(name: string, lines: seq<Line>): (r: seq<Event>)
    ensures |r| == |lines|
    ensures forall k :: 0 <= k < |lines| ==> r[k] == Said(name, InvLine(lines[k]))
  {
    seq(|lines|, k requires 0 <= k < |lines| => Said(name, InvLine(lines[k])))
  }

  /**
   * The events of a move of `name` from `from` through `exit`: the leave
   * event of the old room always comes first; a missing destination then
   * only reports the void. Otherwise the departure broadcast (whose
   * filter, as written, matches nobody), the prompts of the players left
   * behind, the forced look at the destination, each NPC's enter event and
   * last the room's enter event.
   */
  function MoveEvents(from: RoomId, exit: Exit, name: string, rooms: map<RoomId, Room>, prompts: seq<Event>): seq<Event>
  {
    [RoomLeave(from, name)] +
    if exit.location !in rooms then [Said(name, Limbo)]
    else
      [Broadcast(LeaveTextOf(exit, name), [])] + prompts + [Look(name, exit.location)] +
      NpcEnters(rooms[exit.location].npcs, name) + [RoomEnter(exit.location, name)]
  }

  /**
   * The order `move` promises: leave first; then either the void message
   * alone, or the (empty) broadcast, the prompts, the look, the NPCs'
   * enter events and last the room's enter event.
   */
  lemma MoveEventsOrder(from: RoomId, exit: Exit, name: string, rooms: map<RoomId, Room>, prompts: seq<Event>)
    ensures var r := MoveEvents(from, exit, name, rooms, prompts);
      |r| >= 2 && r[0] == RoomLeave(from, name)
    ensures exit.location !in rooms ==> MoveEvents(from, exit, name, rooms, prompts)[1..] == [Said(name, Limbo)]
    ensures exit.location in rooms ==>
      var r := MoveEvents(from, exit, name, rooms, prompts);
      var npcs := rooms[exit.location].npcs;
      |r| == 4 + |prompts| + |npcs| &&
      r[1].Broadcast? && r[1].recipients == [] &&
      r[2..2 + |prompts|] == prompts &&
      r[2 + |prompts|] == Look(name, exit.location) &&
      r[3 + |prompts|..|r| - 1] == NpcEnters(npcs, name) &&
      r[|r| - 1] == RoomEnter(exit.location, name)
  {
  }

  /** The shared game state: rooms by location, items by uuid, the connected players and what has been said and emitted. */
  class World {
    var rooms: map<RoomId, Room>
    var items: map<ItemId, Item>
    var players: seq<Player>
    var trace: seq<Event>

    /** `player` stands in an existing room and every item uuid on a floor or in its inventory is a known item. */
    ghost predicate Valid(player: Player)
      reads this, player
    {
      player.location in rooms &&
      (forall r :: r in rooms ==> Known(rooms[r].items, items)) &&
      Known(player.inventory, items)
    }

    /** `players.eachExcept(me, ...)`: refreshes the prompt of every other player standing in `here`. */
    method PromptOthers(me: Player, here: RoomId)
      modifies this`trace
      ensures trace == old(trace) + Prompts(players, me, here)
    {
      ghost var t0 := trace;
      for i := 0 to |players|
        invariant trace == t0 + Prompts(players[..i], me, here)
      {
        var p := players[i];
        assert players[..i + 1][..i] == players[..i];
        if p != me && p.location == here {
          trace := trace + [Prompt(p.name)];
        }
      }
      assert players[..|players|] == players;
    }

    /** Emits `playerEnter` on each NPC of `npcs`, in order. */
    method NotifyNpcsEnter(npcs: seq<NpcId>, name: string)
      modifies this`trace
      ensures trace == old(trace) + NpcEnters(npcs, name)
    {
      ghost var t0 := trace;
      for k := 0 to |npcs|
        invariant trace == t0 + NpcEnters(npcs[..k], name)
      {
        trace := trace + [NpcEnter(npcs[k], name)];
      }
      assert npcs[..|npcs|] == npcs;
    }

    /** Emits `playerDropItem` on each NPC of `npcs`, in order. */
    method NotifyNpcsDrop(npcs: seq<NpcId>, name: string, item: ItemId)
      modifies this`trace
      ensures trace == old(trace) + DropNotices(npcs, name, item)
    {
      ghost var t0 := trace;
      for k := 0 to |npcs|
        invariant trace == t0 + DropNotices(npcs[..k], name, item)
      {
        trace := trace + [NpcDrop(npcs[k], name, item)];
      }
      assert npcs[..|npcs|] == npcs;
    }

    /**
     * `move`: a player leaves the current room through `exit`. A missing
     * destination leaves the player where they are.
     */
    method Move(exit: Exit, player: Player)
      requires player.location in rooms
      modifies this`trace, player`location
      ensures player.location == if exit.location in rooms then exit.location else old(player.location)
      ensures player.location in rooms
      ensures trace == old(trace) + MoveEvents(old(player.location), exit, player.name, rooms, old(Prompts(players, player, player.location)))
    {
      var from := player.location;
      trace := trace + [RoomLeave(from, player.name)];
      if exit.location !in rooms {
        trace := trace + [Said(player.name, Limbo)];
        return;
      }
      var room := rooms[exit.location];
      // The broadcast compares each location with the getter itself, so no one receives it.
      trace := trace + [Broadcast(LeaveTextOf(exit, player.name), [])];
      PromptOthers(player, from);
      player.location := exit.location;
      trace := trace + [Look(player.name, exit.location)];
      NotifyNpcsEnter(room.npcs, player.name);
      trace := trace + [RoomEnter(exit.location, player.name)];
    }

    /**
     * `room_exits`: the typed word tried as the start of an exit direction.
     * `false` when there is no room or no matching exit; `true` after
     * reporting ambiguity or after moving; `undefined` when combat blocks
     * the single matching exit. Ambiguity is decided before combat.
     */
    method RoomExits(input: string, player: Player) returns (r: JsValue)
      modifies this`trace, player`location
      ensures old(player.location) !in rooms ==>
        r == JsFalse && trace == old(trace) && player.location == old(player.location)
      ensures old(player.location) in rooms && |MatchingExits(rooms[old(player.location)].exits, input)| == 0 ==>
        r == JsFalse && trace == old(trace) && player.location == old(player.location)
      ensures old(player.location) in rooms && |MatchingExits(rooms[old(player.location)].exits, input)| > 1 ==>
        r == JsTrue && trace == old(trace) + [Said(player.name, AmbigExit)] && player.location == old(player.location)
      ensures old(player.location) in rooms && |MatchingExits(rooms[old(player.location)].exits, input)| == 1 && player.inCombat ==>
        r == JsUndefined && trace == old(trace) + [Said(player.name, MoveCombat)] && player.location == old(player.location)
      ensures old(player.location) in rooms && |MatchingExits(rooms[old(player.location)].exits, input)| == 1 && !player.inCombat ==>
        var exit := MatchingExits(rooms[old(player.location)].exits, input)[0];
        r == JsTrue &&
        player.location == (if exit.location in rooms then exit.location else old(player.location)) &&
        trace == old(trace) + MoveEvents(old(player.location), exit, player.name, rooms, old(Prompts(players, player, player.location)))
    {
      if player.location !in rooms {
        return JsFalse;
      }
      var exits := MatchingExits(rooms[player.location].exits, input);
      if |exits| == 0 {
        return JsFalse;
      }
      if |exits| > 1 {
        trace := trace + [Said(player.name, AmbigExit)];
        return JsTrue;
      }
      if player.inCombat {
        trace := trace + [Said(player.name, MoveCombat)];
        return JsUndefined;
      }
      Move(exits[|exits| - 1], player);
      return JsTrue;
    }

    /**
     * `get`: picks an item up from the floor. Refused in combat and when
     * twenty or more items are carried; otherwise the resolved item leaves
     * the room's list for the end of the inventory.
     */
    method Get(args: string, player: Player, hasKeyword: (ItemId, string) -> bool)
      requires Valid(player)
      modifies this`rooms, this`items, this`trace, player`inventory
      ensures Valid(player)
      ensures player.inCombat ==>
        rooms == old(rooms) && items == old(items) && player.inventory == old(player.inventory) &&
        trace == old(trace) + [Said(player.name, GetCombat)]
      ensures !player.inCombat && |old(player.inventory)| >= 20 ==>
        rooms == old(rooms) && items == old(items) && player.inventory == old(player.inventory) &&
        trace == old(trace) + [Said(player.name, CarryMax)]
      ensures !player.inCombat && |old(player.inventory)| < 20 &&
              FindItemInRoom(args, old(rooms)[player.location], hasKeyword).None? ==>
        rooms == old(rooms) && items == old(items) && player.inventory == old(player.inventory) &&
        trace == old(trace) + [Said(player.name, ItemNotFound)]
      ensures !player.inCombat && |old(player.inventory)| < 20 &&
              FindItemInRoom(args, old(rooms)[player.location], hasKeyword).Some? ==>
        var id := FindItemInRoom(args, old(rooms)[player.location], hasKeyword).value;
        var room := old(rooms)[player.location];
        id in old(items) &&
        items == old(items)[id := old(items)[id].(room := None, holder := Some(player.name))] &&
        player.inventory == old(player.inventory) + [id] &&
        rooms == old(rooms)[player.location := room.(items := RemoveAll(room.items, id))] &&
        trace == old(trace) + [Said(player.name, ItemPickup(id))] &&
        id in player.inventory && id !in rooms[player.location].items
    {
      if player.inCombat {
        trace := trace + [Said(player.name, GetCombat)];
        return;
      }
      var room := rooms[player.location];
      if |player.inventory| >= 20 {
        trace := trace + [Said(player.name, CarryMax)];
        return;
      }
      var found := FindItemInRoom(args, room, hasKeyword);
      if found.None? {
        trace := trace + [Said(player.name, ItemNotFound)];
        return;
      }
      var id := found.value;
      assert forall r :: r in rooms ==> Known(rooms[r].items, items);
      var item := items[id];
      trace := trace + [Said(player.name, ItemPickup(id))];
      items := items[id := item.(room := None, holder := Some(player.name))];
      player.inventory := player.inventory + [id];
      rooms := rooms[player.location := room.(items := RemoveAll(room.items, id))];
    }

    /**
     * `drop`: puts a carried item on the floor. An equipped item is refused;
     * otherwise the room's NPCs are told, and the item leaves the inventory
     * for the end of the room's list.
     */
    method Drop(args: string, player: Player, hasKeyword: (ItemId, string) -> bool)
      requires Valid(player)
      modifies this`rooms, this`items, this`trace, player`inventory
      ensures Valid(player)
      ensures FindItemInInventory(args, old(player.inventory), hasKeyword).None? ==>
        rooms == old(rooms) && items == old(items) && player.inventory == old(player.inventory) &&
        trace == old(trace) + [Said(player.name, ItemNotFound)]
      ensures FindItemInInventory(args, old(player.inventory), hasKeyword).Some? &&
              old(items)[FindItemInInventory(args, old(player.inventory), hasKeyword).value].equipped ==>
        rooms == old(rooms) && items == old(items) && player.inventory == old(player.inventory) &&
        trace == old(trace) + [Said(player.name, ItemWorn)]
      ensures FindItemInInventory(args, old(player.inventory), hasKeyword).Some? &&
              !old(items)[FindItemInInventory(args, old(player.inventory), hasKeyword).value].equipped ==>
        var id := FindItemInInventory(args, old(player.inventory), hasKeyword).value;
        var room := old(rooms)[player.location];
        trace == old(trace) + [Said(player.name, ItemDrop(id))] + DropNotices(room.npcs, player.name, id) &&
        player.inventory == RemoveAll(old(player.inventory), id) &&
        rooms == old(rooms)[player.location := room.(items := room.items + [id])] &&
        items == old(items)[id := old(items)[id].(holder := None, room := Some(player.location))] &&
        id !in player.inventory && id in rooms[player.location].items
    {
      assert forall r :: r in rooms ==> Known(rooms[r].items, items);
      var room := rooms[player.location];
      var found := FindItemInInventory(args, player.inventory, hasKeyword);
      if found.None? {
        trace := trace + [Said(player.name, ItemNotFound)];
        return;
      }
      var id := found.value;
      assert forall r :: r in rooms ==> Known(rooms[r].items, items);
      var item := items[id];
      if item.equipped {
        trace := trace + [Said(player.name, ItemWorn)];
        return;
      }
      trace := trace + [Said(player.name, ItemDrop(id))];
      NotifyNpcsDrop(room.npcs, player.name, id);
      player.inventory := RemoveAll(player.inventory, id);
      rooms := rooms[player.location := room.(items := room.items + [id])];
      items := items[id := item.(holder := None, room := Some(player.location))];
    }

    /**
     * `remove`: takes off an equipped item named by the first word. An item
     * not found or not equipped is reported; otherwise it is unequipped.
     */
    method Remove(args: string, player: Player, hasKeyword: (ItemId, string) -> bool)
      requires Known(player.inventory, items)
      modifies this`items, this`trace, player`equipment
      ensures Known(player.inventory, items)
      ensures FindItemInInventory(FirstToken(args), player.inventory, hasKeyword).None? ==>
        items == old(items) && player.equipment == old(player.equipment) &&
        trace == old(trace) + [Said(player.name, ItemNotFound)]
      ensures FindItemInInventory(FirstToken(args), player.inventory, hasKeyword).Some? &&
              !old(items)[FindItemInInventory(FirstToken(args), player.inventory, hasKeyword).value].equipped ==>
        items == old(items) && player.equipment == old(player.equipment) &&
        trace == old(trace) + [Said(player.name, ItemNotEquipped)]
      ensures FindItemInInventory(FirstToken(args), player.inventory, hasKeyword).Some? &&
              old(items)[FindItemInInventory(FirstToken(args), player.inventory, hasKeyword).value].equipped ==>
        var id := FindItemInInventory(FirstToken(args), player.inventory, hasKeyword).value;
        items == old(items)[id := old(items)[id].(equipped := false)] &&
        player.equipment == (map slot | slot in old(player.equipment) && old(player.equipment)[slot] != id :: old(player.equipment)[slot]) &&
        trace == old(trace) + [Unequip(player.name, id)]
    {
      var found := FindItemInInventory(FirstToken(args), player.inventory, hasKeyword);
      if found.None? {
        trace := trace + [Said(player.name, ItemNotFound)];
        return;
      }
      var id := found.value;
      if !items[id].equipped {
        trace := trace + [Said(player.name, ItemNotEquipped)];
        return;
      }
      items := items[id := items[id].(equipped := false)];
      player.equipment := map slot | slot in player.equipment && player.equipment[slot] != id :: player.equipment[slot];
      trace := trace + [Unequip(player.name, id)];
    }

    /**
     * `wield`: refused while something is wielded; otherwise the item named
     * by the first word, if carried, is asked to be wielded.
     */
    method Wield(args: string, player: Player, hasKeyword: (ItemId, string) -> bool)
      modifies this`trace
      ensures "wield" in player.equipment && player.equipment["wield"] != "" ==>
        trace == old(trace) + [Said(player.name, CantWield(player.equipment["wield"]))]
      ensures !("wield" in player.equipment && player.equipment["wield"] != "") ==>
        trace == old(trace) + match FindItemInInventory(FirstToken(args), player.inventory, hasKeyword)
          case None => [Said(player.name, ItemNotFound)]
          case Some(id) => [WieldAsked(id, player.name)]
    {
      if "wield" in player.equipment && player.equipment["wield"] != "" {
        trace := trace + [Said(player.name, CantWield(player.equipment["wield"]))];
        return;
      }
      var found := FindItemInInventory(FirstToken(args), player.inventory, hasKeyword);
      if found.None? {
        trace := trace + [Said(player.name, ItemNotFound)];
        return;
      }
      trace := trace + [WieldAsked(found.value, player.name)];
    }

    /** `inventory`: the heading, then the grouped lines. */
    method Inventory(player: Player)
      requires Known(player.inventory, items)
      modifies this`trace
      ensures trace == old(trace) + [Said(player.name, Inv)] + SayLines(player.name, Grouped(player.inventory, items, |player.inventory|))
    {
      trace := trace + [Said(player.name, Inv)];
      var lines := InventoryLines(player.inventory, items);
      trace := trace + SayLines(player.name, lines);
    }

    /** `quit`: refused in combat (returning `undefined`); otherwise announces the quit and returns `false`, which ends the session. */
    method Quit(player: Player) returns (r: JsValue)
      modifies this`trace
      ensures player.inCombat ==> r == JsUndefined && trace == old(trace) + [Said(player.name, CombatCommandFail)]
      ensures !player.inCombat ==> r == JsFalse && trace == old(trace) + [Quitting(player.name)]
    {
      if player.inCombat {
        trace := trace + [Said(player.name, CombatCommandFail)];
        return JsUndefined;
      }
      trace := trace + [Quitting(player.name)];
      return JsFalse;
    }
  }
}
