/**
 * The game entities the commands read and update: exits, rooms and items.
 * Rooms are keyed by their numeric location, items and NPCs by their uuid.
 */
module Entities {
  import opened Wrappers

  type RoomId = int
  type ItemId = string
  type NpcId = string

  /** An exit of a room: the direction typed to take it, where it leads and an optional custom departure text. */
  datatype Exit = Exit(direction: string, location: RoomId, leaveMessage: Option<string>)

  /** A room as the commands see it: its exits, the uuids of the items on its floor and of the NPCs in it, in placement order. */
  datatype Room = Room(exits: seq<Exit>, items: seq<ItemId>, npcs: seq<NpcId>)

  /**
   * An item: its template number (`vnum`), whether it is worn or wielded,
   * and where it lies: the room it is on the floor of, or the name of the
   * player carrying it.
   */
  datatype Item = Item(vnum: int, equipped: bool, room: Option<RoomId>, holder: Option<string>)
}
