# Echoes of the Manor, modelled in Dafny

This project models the rules of `horror.py`, a small terminal text adventure.
The player walks through five rooms of a manor, picks up items and loses
sanity along the way. The goal is to escape through a locked gate.

The model follows the program's own structure:

- **Rules** holds the state as values: rooms, items, the player and the whole
  game. It defines `Room.get_description`, the case-insensitive item lookup of
  `Room.remove_item`, `Player.drain_sanity`, the status band of
  `Player.print_status`, `Player.move` and `Player.take_item` as functions,
  with lemmas about what each one changes and keeps.
- **Text** covers `str.lower` (ASCII letters), `str.split` (Python's
  whitespace set) and `" ".join`, with the facts the command parser relies on.
- **Commands** is the command table of `Game.play`: a line is lower-cased and
  split into tokens, and the first token picks the action.
- **World** is `Game.setup_world`: the five rooms, seven exits, three items
  and the locked gate. `Player.__init__` lives there too.
- **Turns** is one pass of the `while self.player.alive` loop, in the
  program's order: hallucination, then reading the command, then dispatch,
  then the win check. It also holds the loop itself, run over a finite list of
  turns.
- **Engine** holds the objects as the program runs them. It has the classes
  `Room`, `Player` and `Game`, whose fields are updated in place.
  - `Player.DrainSanity`, `Player.Move`, `Player.TakeItem` and the `Game`
    methods `TakeMatching`, `Dispatch`, `Turn` and `Play` are proved to change
    the objects exactly as the matching Rules or Turns function changes their
    values.
  - `Room.RemoveItem` is proved against `Rules.FirstNamed` and
    `Rules.RemoveAt`.
  - `Room.AddExit`, `Room.AddItem` and the construction steps `CreateRooms`,
    `LinkRooms`, `PlaceItemsAndLock` and `NewRooms` state the new fields
    directly.
  - The `Game` constructor builds new objects whose state is `World.Initial`,
    so a caller can go on to play the game it built.
- **Session** builds a `Game` and runs its loop on the escape. So what
  Scenarios proves about the values holds of the objects.
- **Scenarios** plays the game from the start and proves the escape: north,
  take the rusty key, south, south, east.

The random calls become ordinary inputs:

- `random.randint(1, 3)` is a `cost` parameter in the range 1 to 3.
- `random.random() < 0.3` is a boolean `hallucinate`.

Every operation is proved for all values of both.

Three facts about the code shape the model:

- **The win check ignores `alive`.** The test at horror.py:264 looks only at
  the name of the player's room. So the move that unlocks the gate wins the
  game even when its drain of 2 takes sanity to zero.
- **A deadly hallucination does not stop the turn.** The drain at
  horror.py:211-213 is followed by reading and dispatching the command at
  216-261 in the same pass of the loop. `Turns.TurnFacts` states it: the
  state after a move or a take is `Move` or `TakeMatching` applied to
  `Hallucinate(g, hallucinate)`, whatever the drain did to `alive`.
- **The gate is reached only east from the garden.** South of the kitchen is
  the hallway (horror.py:172), whose only exits are north and south
  (170-171). The one exit into the gate is the garden's east exit (176).

## Model

| member | source | states |
|---|---|---|
| Rules.Describe | horror.py:58-62 | the base description is always a prefix. The result is exactly the base description iff sanity is at least 40 or the room has no dark text; otherwise the base is followed by a blank line and the dark text. `None` and `""` both count as no dark text |
| Rules.FirstNamed | horror.py:70-75 | the index `remove_item` stops at: the first item whose name equals the given name ignoring case. None iff no item matches |
| Rules.RemoveAt | horror.py:73 | exactly the element at the index is removed. The other elements keep their order, and the multiset of items loses exactly that one |
| Rules.DrainFacts | horror.py:118-121 | sanity drops by exactly the amount. The player dies exactly when sanity reaches zero or below, and a dead player stays dead. Location and inventory are unchanged. A non-negative drain keeps `alive <==> sanity > 0` |
| Rules.StatusBand | horror.py:123-131 | green above 70, warning above 30 and up to 70, failing at 30 and below; each band is stated in both directions |
| Rules.StatusSuffix | horror.py:129-131 | " (MIND FRACTURING)" is appended exactly in the lowest band |
| Rules.BandMonotone | horror.py:125-131 | lower sanity never shows a better band |
| Rules.MoveBlocked | horror.py:84-100 | with no exit that way, or a locked room whose key is not carried (names compared case-sensitively, a missing key name never matching), the move changes nothing |
| Rules.MoveUnlocks | horror.py:87-93 | carrying the key: the room is unlocked and entered, sanity drops by exactly 2 whatever the roll, the inventory is kept, and `alive` follows the drain |
| Rules.MoveEnters | horror.py:96-98 | into a room that is not locked: it is entered, sanity drops by exactly the roll, and no room changes |
| Rules.MoveFacts | horror.py:84-100 | every move keeps the world well formed, changes no layout, only opens locks, keeps all items and the inventory, and costs nothing, 2 or the roll. It never revives the player, and keeps `alive <==> sanity > 0` |
| Rules.TakeFacts | horror.py:102-108 | with no item of that name nothing changes. Otherwise exactly the first matching item leaves the current room and the rest keep their order. It is appended to the inventory. Every room, the current room's lock included, is otherwise unchanged, and so is everything else about the player |
| Rules.TakeConservesItems | horror.py:102-105 | taking neither creates nor loses an item: the multiset of items in rooms and pockets together is unchanged |
| Rules.MoveConservesItems | horror.py:84-100 | moving neither creates nor loses an item |
| Rules.RoomItemsUpdate | horror.py:70-75 | replacing one room changes the world's items by exactly that room's items |
| Rules.Drain | horror.py:118-121 | `drain_sanity` on the player's value; its behaviour is stated by Rules.DrainFacts |
| Rules.HoldsKey | horror.py:89 | the key test: some carried item's name equals `key_needed` exactly, and a missing `key_needed` never matches. Its use is stated by Rules.MoveBlocked and Rules.MoveUnlocks |
| Rules.TakeItem | horror.py:102-108 | the result is well formed; its behaviour is stated by Rules.TakeFacts |
| Rules.Move | horror.py:84-100 | the result is well formed; its behaviour is stated by the Move lemmas |
| Text.LowerChar | horror.py:216 | an ASCII upper-case letter maps to its lower-case letter; every other character is unchanged |
| Text.Lower | horror.py:216 | same length, lower-cased character by character |
| Text.Join | horror.py:243 | `" ".join`; stated by Text.SplitJoin and Text.JoinLowerCase |
| Text.Contains | horror.py:247 | the substring test `in`; its use is stated by Turns.FirstContaining |
| Text.LowerFacts | horror.py:216 | the result is lower-case, lower-casing lower-case text changes nothing, and lower-casing is idempotent |
| Text.LowerKeepsSpace | horror.py:216 | lower-casing neither creates nor removes whitespace |
| Text.WordLength | horror.py:216 | the length of the leading run of non-whitespace characters |
| Text.Split | horror.py:216 | every token is non-empty and free of whitespace; that the tokens are the maximal runs of non-whitespace is stated by Text.SplitSkipsSpace and Text.SplitWordThen |
| Text.SplitSkipsSpace | horror.py:216 | whitespace in front of a line adds no token and changes none |
| Text.SplitWordThen | horror.py:216 | a token followed by one or more whitespace characters comes out whole as the first token, and the rest of the line is split on its own |
| Text.SplitEmpty | horror.py:216-219 | a line splits into no tokens iff it is all whitespace |
| Text.SplitKeepsCharacters | horror.py:216 | the tokens, concatenated, are the line with its whitespace removed |
| Text.SplitJoin | horror.py:243 | splitting a single-space join of tokens gives back those tokens |
| Text.SplitLowerCase | horror.py:216 | the tokens of a lower-case line are lower-case |
| Text.JoinLowerCase | horror.py:243 | joining lower-case tokens gives a lower-case string |
| Commands.DirectionOf | horror.py:226-237 | a word names a direction iff it is one of the six directions or its initial, and then that direction |
| Commands.ParseWords | horror.py:218-261 | the `if`/`elif` chain on the token list, in source order; stated by Commands.ParseBlank, ParseQuit, ParseGo, ParseTake and ParseJoined |
| Commands.Parse | horror.py:216-261 | `input().lower().split()` then the chain; stated by Commands.ParseBlank, ParseQuit, ParseIgnoresCase, ParseGo and ParseTake |
| Commands.ParseBlank | horror.py:216-219 | a line does nothing iff it is all whitespace |
| Commands.ParseIgnoresCase | horror.py:216 | lower-casing a line first never changes its command |
| Commands.ParseQuit | horror.py:216-223 | a line quits iff it has a first token and that token is "quit" or "exit" |
| Commands.ParseGo | horror.py:226-237 | a line is a move iff its first token is a direction or an initial. The move then goes in the direction that token names, which is one of the six |
| Commands.ParseTake | horror.py:242-243 | a line is a take iff it has at least two tokens and the first is `take`. The name searched for is the remaining tokens joined by single spaces; it is non-empty and lower-case, and splits back into those tokens. A bare `take` is not understood |
| Commands.ParseJoined | horror.py:216-261 | a line of lower-case tokens joined by single spaces is dispatched on exactly those tokens |
| Commands.ParseTakeTwo | horror.py:242-243 | `take a b` searches for `a b` |
| World.InitialRooms | horror.py:145-184 | the rooms as `setup_world` leaves them; stated by World.WorldShape, SevenExits, InitialItems, TheGate and Descriptions |
| World.Initial | horror.py:140-187 | the rooms of `setup_world` and the player of `Player.__init__` placed in the hallway; stated by World.StartState |
| World.WorldShape | horror.py:144-187 | the world as built has five rooms and is well formed |
| World.SevenExits | horror.py:170-176 | there are seven exits in all |
| World.StartState | horror.py:77-82 | the player starts alive in the Grand Hallway with sanity 100 and no items |
| World.InitialItems | horror.py:146-148 | the world holds exactly the note, the key and the flashlight, lying in the hallway, the kitchen and the garden |
| World.TheGate | horror.py:183-184 | only the gate is locked and only it needs a key, the Rusty Key. Its only way in is east from the garden |
| World.Descriptions | horror.py:151-167 | the gate always shows its base description (its dark text is empty); every other room shows its dark text exactly below 40 sanity |
| Turns.FirstContaining | horror.py:246-250 | the first room item whose lower-cased name contains the typed words. None iff no item does |
| Turns.FoundItemIsRemoved | horror.py:246-248 | `take_item`, called with the full name of the found item, removes that very item |
| Turns.TakeMatchingFacts | horror.py:242-252 | with no match nothing changes. Otherwise exactly the found item moves from the room to the end of the inventory. The layout, the locks and the world's items are kept |
| Turns.TakeMatching | horror.py:242-252 | the result is well formed; its behaviour is stated by Turns.TakeMatchingFacts |
| Turns.Hallucinate | horror.py:210-213 | the hallucination event; stated by Turns.HallucinationFacts |
| Turns.HallucinationFacts | horror.py:210-213 | a hallucination happens only below 50 sanity and on the roll. It drains exactly 5 and touches no room |
| Turns.Dispatch | horror.py:223-261 | the result is well formed; that only a move or a take changes the state, and how, is stated by Turns.DispatchFacts |
| Turns.DispatchFacts | horror.py:223-261 | any command keeps the layout and the world's items, and locks only open. Only a move costs sanity, 2 or the roll. It never revives the player. Look, inventory, help and an unknown command leave the state exactly as it was |
| Turns.AtGate | horror.py:264 | the win test: the player's room is named "The Gate"; its use is stated by Turns.TurnFacts and Turns.PlayFacts |
| Turns.Turn | horror.py:210-264 | the result is well formed; what each command does to the state after the hallucination is stated by Turns.TurnFacts |
| Turns.TurnFacts | horror.py:210-264 | a turn keeps what a command keeps and costs between 0 and 8 sanity. It ends as abandoned iff the line is quit or exit. It ends as won iff a command other than quit or a blank line leaves the player in the gate room, alive or not. It ends in no other way. The new state is the hallucination's state for a blank line, quit and every command but a move or a take. For a move it is that move, and for a take that take, applied to the hallucination's state even when the drain killed the player. With Commands.ParseQuit this fixes when a line quits |
| Turns.TakeTurn | horror.py:242-252 | a take turn with no hallucination, outside the gate, is exactly the take branch and does not end the game |
| Turns.MoveTurn | horror.py:226-237 | a move turn with no hallucination is exactly the move followed by the win check |
| Turns.Play | horror.py:195-264 | the result is well formed; its behaviour is stated by Turns.PlayFacts |
| Turns.PlayOn | horror.py:218-264 | the result is well formed |
| Turns.PlayFacts | horror.py:195-264 | over a whole game the layout and the items are kept, locks only open, sanity never rises, and `alive <==> sanity > 0` is kept. The game ends as won only at the gate, as died only with the player dead, and runs out of input only with the player alive |
| Scenarios.TakeTheNote | horror.py:242-252 | `take crumbled note` in the hallway puts the note in the pockets and empties the hallway, at no cost |
| Scenarios.StepNorth | horror.py:170 | north from the hallway enters the kitchen for the roll |
| Scenarios.StepTakeKey | horror.py:180 | `take rusty key` in the kitchen puts the key in the pockets |
| Scenarios.StepSouthToHallway | horror.py:172 | south from the kitchen is the hallway |
| Scenarios.StepSouthToGarden | horror.py:171 | south from the hallway is the garden |
| Scenarios.StepThroughGate | horror.py:87-93 | east from the garden with the key unlocks the gate for exactly 2 sanity and wins, even when those 2 points were the last |
| Scenarios.GateStaysLocked | horror.py:94-95 | without the key, east from the garden changes nothing and the game goes on |
| Scenarios.Escape | horror.py:144-264 | from the start, north, take rusty key, south, south, east wins at the open gate. The player holds the key, and sanity is down by the three move rolls plus 2, whatever the hallucination rolls say |
| Scenarios.EscapeFromKitchen | horror.py:195-264 | the rest of the escape from the kitchen |
| Scenarios.EscapeWithKey | horror.py:195-264 | the escape from the kitchen with the key |
| Scenarios.EscapeFromHallway | horror.py:195-264 | the escape from the hallway with the key |
| Scenarios.EscapeFromGarden | horror.py:195-264 | the escape from the garden with the key |
| Engine.Room.constructor | horror.py:48-56 | a new room has its name, description and dark text, no exits, no items and no lock |
| Engine.Room.AddExit | horror.py:64-65 | the exit in that direction now leads to the room, replacing any old one; nothing else changes |
| Engine.Room.AddItem | horror.py:67-68 | the item is appended; nothing else changes |
| Engine.Room.RemoveItem | horror.py:70-75 | with no item of that name, returns nothing and the list is unchanged. Otherwise returns the first match and removes exactly that element. Only the item list changes |
| Engine.Player.constructor | horror.py:77-82 | a new player is alive with sanity 100 and no items |
| Engine.Player.DrainSanity | horror.py:118-121 | the player changes exactly as `Rules.Drain` says |
| Engine.Player.Move | horror.py:84-100 | the rooms and the player change exactly as `Rules.Move` says |
| Engine.Player.TakeItem | horror.py:102-108 | the rooms and the player change exactly as `Rules.TakeItem` says |
| Engine.Game.constructor | horror.py:140-187 | the player and the rooms are new objects, the rooms are distinct, and their state is exactly the world of `World.Initial` |
| Engine.Game.NewRooms | horror.py:145-184 | five new, distinct rooms whose state is exactly `World.InitialRooms` |
| Engine.Game.CreateRooms | horror.py:151-167 | five new, distinct rooms with the game's names, no exits, no items and no lock |
| Engine.Game.LinkRooms | horror.py:170-176 | exactly the seven exits are added |
| Engine.Game.PlaceItemsAndLock | horror.py:179-184 | the note, the key and the flashlight are appended to their rooms, and the gate is locked with the Rusty Key |
| Engine.Game.TakeMatching | horror.py:242-252 | the objects change exactly as `Turns.TakeMatching` says |
| Engine.Game.Dispatch | horror.py:223-261 | the objects change exactly as `Turns.Dispatch` says |
| Engine.Game.Turn | horror.py:210-264 | returns the ending and changes the objects exactly as `Turns.Turn` says |
| Engine.Game.Play | horror.py:195-264 | returns the ending and changes the objects exactly as `Turns.Play` says |
| Session.PlayEscape | horror.py:140-264 | a new game played on north, take rusty key, south, south, east ends won. The key is carried, the gate is open, and sanity is down by the three move rolls plus 2 |

## Left out

- Output: `type_text`, `clear_screen`, the colour codes, `textwrap.fill`, `time.sleep` and every printed message. None of them changes the game's state.
- Rules.Describe: the colour codes the program puts around the dark text are not part of the result. The blank line between the two texts is kept.
- The room texts: the five descriptions and four dark texts are parameters (`World.Prose`), not the literal strings. The gate's empty dark text is fixed as in the program.
- Item descriptions: they are only ever printed, so `Rules.Item` carries the name and `is_key` only.
- `Player.check_inventory`, `look` and `help` only print, so they change nothing in the model. The per-turn rendering at the top of the loop (status bar, room name, description, item list) is left out for the same reason. Its pure parts are `Rules.StatusBand`, `Rules.StatusSuffix` and `Rules.Describe`.
- Randomness: each turn's `random.random() < 0.3` and `random.randint(1, 3)` are inputs. The probability 0.3 is not modelled, only that the hallucination needs the roll.
- Turns.Play: the loop runs over a finite list of turns. Running out of turns ends the game as `OutOfInput`, an ending the program does not have. End of file on `input()`, which raises an exception in Python, is not modelled.
- Text.LowerChar: only the ASCII letters A to Z are mapped to lower case. Python's `str.lower` also lowers other Unicode upper-case letters.
- Text.Lower: only ASCII letters are lower-cased. Python's `str.lower` also maps other Unicode upper-case letters, some of them to more than one character.
- Engine.Player.constructor: `location` starts as room 0 rather than `None`. `setup_world` sets it to the hallway before any move.
- The win branch from line 265 on is cut off in the available source. The model ends the game as won at the gate and does not model any state change the rest of that branch makes.
- Integers are unbounded, as in Python.
