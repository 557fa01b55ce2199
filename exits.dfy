/**
 * The exit matcher: a word that is not a command is tried as the start of
 * one of the room's exit directions.
 */
module Exits {
  import opened Wrappers
  import opened Seqs
  import opened Entities

  /** The exit test: the direction begins with what was typed. */
  function DirectionStartsWith(input: string): Exit -> bool
  {
    (e: Exit) => input <= e.direction
  }

  /** The room's exits whose direction begins with `input`, in the room's order. */
  function MatchingExits(exits: seq<Exit>, input: string): (r: seq<Exit>)
    ensures forall k :: 0 <= k < |r| ==> r[k] in exits && input <= r[k].direction
    ensures forall k :: 0 <= k < |exits| && input <= exits[k].direction ==> exits[k] in r
  {
    Filter(exits, DirectionStartsWith(input))
  }

  /** Typing more of a direction never adds matches: the matches only narrow. */
  lemma LongerInputNarrows(exits: seq<Exit>, input: string, more: string)
    ensures |MatchingExits(exits, input + more)| <= |MatchingExits(exits, input)|
    ensures forall e :: e in MatchingExits(exits, input + more) ==> e in MatchingExits(exits, input)
  {
    FilterWeaker(exits, DirectionStartsWith(input + more), DirectionStartsWith(input));
  }

  /**
   * A room whose exits are "north" and "northeast": both "n" and the full
   * word "north" are ambiguous, because "north" begins "northeast" too;
   * only "northe" or longer singles out "northeast".
   */
  lemma NorthNortheast(m1: RoomId, m2: RoomId)
    ensures var exits := [Exit("north", m1, None), Exit("northeast", m2, None)];
      |MatchingExits(exits, "n")| == 2 &&
      |MatchingExits(exits, "north")| == 2 &&
      MatchingExits(exits, "northe") == [exits[1]] &&
      MatchingExits(exits, "s") == []
  {
    var exits := [Exit("north", m1, None), Exit("northeast", m2, None)];
    assert "north" <= "northeast";
    assert !("northe" <= "north");
    assert "north"[0] != "s"[0] && "northeast"[0] != "s"[0];
  }
}
