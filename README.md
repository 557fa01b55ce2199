# RanvierMUD command core, in Dafny

This project models the command layer of RanvierMUD (`src/commands.js`): the
part of the MUD server that turns a typed word into an action on rooms, items
and players, and proves what that layer promises.

- **Target resolution** (`Targeting`). The dot notation `2.sword` / `sword`
  (`parse_dot`) and its three wrappers (`find_item_in_room`,
  `find_npc_in_room`, `find_item_in_inventory`). Also the search order of
  `look <thing>`. These are pure functions over the candidate lists.
  Keyword matching (`hasKeyword` on items and NPCs) is a predicate parameter.
- **Exit matching** (`Exits`). The room's exits whose direction begins with
  the typed word, in the room's order.
- **The game commands** (`Game`). A `World` class holds the rooms, the items,
  the connected players and an event trace. A `Player` class holds location,
  inventory, combat flag and equipment. `move`, `room_exits`, `get`, `drop`,
  `remove`, `wield`, `inventory` and `quit` are methods that update these
  fields in place. Every message said and every event emitted is appended
  to `trace`, in order.
- **Inventory grouping and NPC colour** (`Listing`). The two-pass grouping
  of carried items by template (vnum) is a method with loops over a count
  map and a displayed set. It is proved equal to a specification function,
  and the shape of that function is proved as a lemma. The colour band of
  an NPC comes from the level difference.
- **The command table** (`Registry`). The handler table is a class whose
  `Alias` method writes an entry. `Invoke` gives the meaning of calling a
  name: an alias looks its target up at call time and drops its return
  value. The `commands` listing is a method with the source's two loops.
- `Seqs` holds the order-preserving filter that `parse_dot` and
  `room_exits` both use, with its counting and n-th-match lemmas.

Four behaviours of the code are easy to misread; the model keeps them:

- The word `north` is **ambiguous** in a room with `north` and `northeast`.
  The code's match is anchored only at the start (`^` + input), so the full
  word `north` also begins `northeast` (`Exits.NorthNortheast`).
- `alias` binds **late**. The target is looked up in the table on every
  call, and the target's return value is dropped
  (`Registry.AliasFollowsRedefinition`, `Registry.AliasForwards`).
- The `commands` listing shows **every key** of the table, aliases
  included, in insertion order (`Registry.CommandTable.constructor`).
- The departure broadcast in `move` compares each player's location with
  the getter function itself, not with its value, so it reaches nobody.
  The model keeps this: the `Broadcast` event carries an empty recipient
  list.

## Model

| member | source | states |
|---|---|---|
| `Seqs.Filter` | src/commands.js:507-510 | The filtered list holds exactly the candidates that pass the test, each from the input, and has as many entries as there are passing candidates |
| `Seqs.NthMatchIsFiltered` | src/commands.js:517-518 | The (n-1)-th entry of the filtered list is the n-th passing candidate in the list's own order |
| `Seqs.NthIndex` | src/commands.js:517-518 | The position of the n-th candidate that passes the test: it passes, and exactly n-1 passing candidates come before it |
| `Seqs.RemoveAll` | src/commands.js:61 | The id is gone from the list, nothing new is added, and every other entry stays |
| `Seqs.FilterWeaker` | src/commands.js:355-357 | A stricter test never keeps more candidates than a weaker one |
| `Targeting.Before` | src/commands.js:497 | The text before the first separator is a prefix of the input without the separator, and the separator (if any) follows it |
| `Targeting.DigitRun` | src/commands.js:501 | Measures the leading run of decimal digits, stopping at the first non-digit |
| `Targeting.ParseDot` | src/commands.js:495-524 | Returns nothing exactly when no candidate has the keyword; otherwise returns a candidate from the list that has the keyword |
| `Targeting.ParseDotPicksNth` | src/commands.js:501-518 | For an ordinal n with 1 <= n <= the number of matches, the n-th matching candidate in list order is returned |
| `Targeting.ParseDotFallsBackToFirst` | src/commands.js:517-521 | An absent ordinal, ordinal 0, or one above the number of matches gives the first match |
| `Targeting.ParseDotIgnoresTrailingWords` | src/commands.js:497 | Only the first space-delimited word of the argument takes part in the resolution |
| `Targeting.FirstTokenOfPhrase` | src/commands.js:497 | The first token of `word + " " + rest` is `word`, for a word without spaces |
| `Targeting.FirstTokenIdempotent` | src/commands.js:232 | Splitting off the first word twice is the same as once, so the pre-split in `remove` and `wield` changes nothing |
| `Targeting.DottedQuery` | src/commands.js:501-504 | `<digits>.<keyword>` parses into the keyword and the digits' decimal value as ordinal |
| `Targeting.DottedArgument` | src/commands.js:497-504 | A whole argument `<digits>.<keyword>` yields that keyword and that ordinal |
| `Targeting.PlainQuery` | src/commands.js:501 | A word without a dot is a bare keyword with no ordinal |
| `Targeting.BeforeAbsent` | src/commands.js:503 | Splitting at a character the text does not contain keeps the whole text |
| `Targeting.DigitRunOfDotted` | src/commands.js:501 | The digit run of `<digits>.<rest>` is exactly the digits |
| `Targeting.SecondPotion` | src/commands.js:478-486 | With two carried potions, `2.potion` resolves to the second one |
| `Targeting.Truthy` | src/commands.js:449 | A result is kept exactly when it is present and not the empty (falsy) id |
| `Targeting.FindItemInRoom` | src/commands.js:442-450 | A found item is the resolver's own pick over the room's floor (so an ordinal selects it), is a non-empty id and has the keyword; nothing is found exactly when the resolver finds nothing or the empty id |
| `Targeting.FindNpcInRoom` | src/commands.js:461-469 | A found NPC is the resolver's own pick over the room's NPCs (so an ordinal selects it), is a non-empty id and has the keyword; nothing is found exactly when the resolver finds nothing or the empty id |
| `Targeting.FindItemInInventory` | src/commands.js:478-486 | Nothing is found exactly when no carried item has the keyword; a found item is carried and has it |
| `Targeting.LookTarget` | src/commands.js:126-145 | For a non-empty argument, `look <thing>` takes the floor item the room search resolves, else the carried item the inventory search resolves, else the NPC the NPC search resolves; nothing is found exactly when all three searches fail |
| `Targeting.ParseQuery` | src/commands.js:497-505 | An ordinal is read exactly when the word starts with one or more digits followed by a dot; without one the keyword is the whole word; with one the keyword is shorter than the word and free of dots |
| `Targeting.DottedQueryRest` | src/commands.js:501-504 | `<digits>.<rest>` takes as keyword only the text of `<rest>` before a further dot (`2.a.b` gives `a`), with the digits' value as ordinal |
| `Targeting.Decimal` | src/commands.js:502 | The value of k digits is below ten to the k, and its last decimal digit is the last digit written |
| `Exits.MatchingExits` | src/commands.js:355-357 | Keeps exactly the room's exits whose direction begins with the typed word |
| `Exits.LongerInputNarrows` | src/commands.js:355-357 | Typing more of a direction never adds matches |
| `Exits.NorthNortheast` | src/commands.js:355-366 | With exits north and northeast, both `n` and `north` match both exits, `northe` singles out northeast, and `s` matches neither |
| `Game.Prompts` | src/commands.js:412-416 | No more prompts than players, and every entry is a prompt |
| `Game.PromptsOncePerPlayer` | src/commands.js:412-416 | When players' names are distinct, no prompt repeats: each other player is prompted at most once |
| `Game.PromptsOnlyOthersHere` | src/commands.js:412-416 | Every prompt goes to a player in the list other than the mover who stands in the room being left |
| `Game.PromptsReachAllOthersHere` | src/commands.js:412-416 | Every player other than the mover who stands in the room being left is prompted |
| `Game.LeaveTextOf` | src/commands.js:408 | The exit's own leave message is used exactly when it is present and non-empty; otherwise the default text names the player |
| `Game.MoveEventsOrder` | src/commands.js:398-429 | The leave event comes first; a missing destination is followed only by the void message; otherwise the empty broadcast, the prompts, the look, each NPC's enter event and last the room's enter event, at fixed positions |
| `Game.NpcEnters` | src/commands.js:424-427 | One `playerEnter` per NPC of the destination, in the room's order |
| `Game.DropNotices` | src/commands.js:57-59 | One `playerDropItem` per NPC of the room, in the room's order |
| `Game.SayLines` | src/commands.js:115-120 | One said line per inventory line, in order |
| `Game.World.PromptOthers` | src/commands.js:412-416 | The loop appends exactly the prompts of the other players standing in the room |
| `Game.World.NotifyNpcsEnter` | src/commands.js:424-427 | The loop emits `playerEnter` on each NPC in order |
| `Game.World.NotifyNpcsDrop` | src/commands.js:57-59 | The loop emits `playerDropItem` on each NPC in order |
| `Game.World.Move` | src/commands.js:396-431 | The leave event always comes first. A missing destination reports the void and keeps the location. Otherwise the (empty) departure broadcast and the prompts of those left behind come next; then the location becomes the exit's, followed by the forced look, each NPC's enter event and the room's enter event |
| `Game.World.RoomExits` | src/commands.js:347-376 | No room or no match: returns false and changes nothing. Several matches: reports ambiguity, returns true, stays. One match in combat: reports it, returns undefined, stays. One match otherwise: moves through it and returns true |
| `Game.World.Get` | src/commands.js:74-101 | In combat or carrying 20 or more, or nothing found: only the matching message. Otherwise the item leaves the room's list for the end of the inventory, its holder becomes the player, and it then sits in the inventory and not on the floor |
| `Game.World.Drop` | src/commands.js:41-65 | Not found or equipped: only the matching message. Otherwise the room's NPCs are told, the item leaves the inventory for the end of the room's list, and it then sits on the floor and not in the inventory |
| `Game.World.Remove` | src/commands.js:230-244 | Not found or not equipped: only the matching message. Otherwise the item is unequipped and no wear slot holds it any more |
| `Game.World.Wield` | src/commands.js:289-303 | Something already wielded: refused, naming it. Otherwise the first word is resolved among carried items and that item is asked to wield, or not-found is reported |
| `Game.World.Inventory` | src/commands.js:102-121 | Says the heading and then the grouped lines of the specification function |
| `Game.World.Quit` | src/commands.js:217-229 | In combat: refused, returns undefined. Otherwise the quit is announced and false is returned |
| `Listing.CountPrefix` | src/commands.js:118 | The `(n) ` prefix is present exactly when the count is above one, and then shows the count |
| `Listing.ShownVnumsAppend` | src/commands.js:116-117 | Listing one more line adds its template to the set of shown templates |
| `Listing.Tally` | src/commands.js:108-112 | The count of non-equipped items of a template is at most the inventory size, and zero exactly when there is none |
| `Listing.Grouped` | src/commands.js:114-120 | The listing has at most one line per inventory entry (its shape is stated by `Listing.GroupedShape`) |
| `Listing.TallyUnworn` | src/commands.js:107-112 | The count map holds a template exactly when some non-equipped item has it, with the number of such items |
| `Listing.GroupedShape` | src/commands.js:107-120 | Every listed line is a carried, non-equipped item with the prefix of its template's tally; no template is listed twice; the listed templates are exactly those of the non-equipped items |
| `Listing.InventoryLines` | src/commands.js:102-121 | The count-map loop and the displayed-set loop produce exactly the grouped listing |
| `Listing.NpcColour` | src/commands.js:179-189 | Red exactly when the NPC is more than 3 levels above the player, yellow for 1 to 3 above, green otherwise |
| `Listing.NpcColourMonotone` | src/commands.js:179-189 | A higher-level NPC never shows a less dangerous colour, and only the level difference matters |
| `Registry.Invoke` | src/commands.js:531-535 | A name runs something only if it is in the table. A result is passed on exactly when a built-in was called directly. Aliases forward to the target as it is at call time |
| `Registry.InvokeDeeper` | src/commands.js:531-535 | A chain that resolves with some stack resolves the same way with more |
| `Registry.AliasForwards` | src/commands.js:533-534 | An alias runs what its target runs and drops the result |
| `Registry.AliasFollowsRedefinition` | src/commands.js:533-534 | Redefining the target after the alias was made changes what the alias runs |
| `Registry.CommandTable.constructor` | src/commands.js:383-387 | Starting from the fifteen built-ins in declaration order, the five `alias` calls leave the default table, with the aliases' names appended in call order |
| `Registry.CommandTable.Alias` | src/commands.js:531-536 | Installs or overwrites the forwarding entry; a new name is appended to the key order |
| `Registry.DefaultAliasesResolve` | src/commands.js:383-387 | Each load-time alias runs a built-in and drops its result |
| `Registry.DefaultNamesDistinct` | src/commands.js:26-304 | The built-in and alias names are all distinct |
| `Registry.MaxLength` | src/commands.js:31-35 | No name is longer than the computed maximum; an empty table gives 0 |
| `Registry.MaxLengthAttained` | src/commands.js:33 | Some name has exactly the maximum length |
| `Registry.PadRight` | src/commands.js:38 | The name, left-aligned and padded with spaces to the field width (never cut) |
| `Registry.ListCommands` | src/commands.js:28-40 | One cell per name, in table order, padded to one more than the longest name; every fifth cell ends the line |

## Left out

- Localisation and formatting: `Localize`, the YAML load in `configure`,
  `L`, `sayL10n`, ANSI colour tags and `sprintf`. Messages are tags
  (`Msg`), and item descriptions are replaced by item ids.
- `setLocale` only forwards to the localisation library.
- `tnl` uses floating-point percentages. `skills` reads an external skill
  table. `kill` depends on listener counts and a combat callback defined
  elsewhere. `who`, `where`, `equipment` and the room rendering of `look`
  only read external collaborators. None of these is modelled.
- `save` persists the player asynchronously and then says `SAVED`; it is
  not modelled. `quit`'s save callback and `removePlayer` are asynchronous
  I/O too. In combat,
  `quit` calls `player.L10n`; whether that method exists depends on
  `src/player.js`, which is not part of this model. The call is modelled as
  saying `COMBAT_COMMAND_FAIL`.
- Event listeners behind `emit` are not modelled; emissions are trace
  entries. The forced `look` in `move` is a single `Look` event.
- The dispatcher that splits input and falls back to `room_exits` is not in
  `src/commands.js`. `Registry.Invoke` models only what calling a name in
  the table amounts to.
- `Exits.MatchingExits`: the exit direction is compared with a literal
  prefix. The source builds a regular
  expression from the typed word, so regex metacharacters in the input
  behave differently there, and an input that is not a valid pattern
  (such as `(`) makes `new RegExp` throw at line 356.
- `Targeting.ParseDot`: `parseInt` of a very long digit run loses
  precision in floating point. The model reads the digits as an exact
  integer.
- `Registry.Invoke`: the `depth` bound stands for the finite call stack; an
  alias cycle ends in `TooDeep` instead of a stack overflow.
- `Game.World.Get` requires the player to stand in an existing room. The
  source reads that room only at line 88, after the combat and carry-limit
  refusals (77-86): with a missing room it still answers `GET_COMBAT` or
  `CARRY_MAX`, and only then throws. The model does not cover a missing
  room.
- `Game.World.Drop` requires the same. The source touches the room only at
  line 57, after the not-found and equipped refusals (46-54): with a
  missing room it still answers `ITEM_NOT_FOUND` or `ITEM_WORN`, and only
  then throws. The model does not cover a missing room.
- `Game.World.Get`, `Game.World.Drop`, `Game.World.Remove` and
  `Game.World.Inventory` require every item id on a floor or in the
  inventory to name a known item. This comes from representing items by
  ids; the source's inventory holds the item objects themselves.
- `Targeting.LookTarget` covers `look` with a non-empty argument only; with
  an empty one `look` renders the room, which is not modelled.
- `Player.addItem`, `Player.removeItem`, `Room.addItem`, `Room.removeItem`
  and `Player.unequip` live in `src/player.js` and `src/rooms.js`, which are
  not part of this model. Adding is modelled as appending the id, removing
  as dropping every occurrence of it, and unequipping as clearing the
  item's equipped flag together with every wear slot that holds it.
- The `hydrate` flag of the `find_*` wrappers only chooses between an id and
  the object it names. Ids stand for objects here.
- `Registry.ListCommands` takes the table's key order as a parameter
  (`Registry.CommandTable.names` holds it). JavaScript's ordering of
  integer-like keys is not modelled, since no command name is one.
