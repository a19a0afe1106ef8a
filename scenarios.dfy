/** Walks through turns of the game in the world `setup_world` builds:
    picking up the note, the locked gate, and the escape that takes the
    rusty key from the kitchen, goes back through the hallway to the garden
    and opens the gate, which wins even on the last drop of sanity. */
module Scenarios {
  import opened Wrappers
  import opened Text
  import opened Rules
  import opened Commands
  import opened Turns
  import opened World

  /** The player standing alive in room `at`, carrying `inventory`. */
  function Standing(rooms: seq<RoomState>, at: RoomId, inventory: seq<Item>, sanity: int): GameState {
    GameState(rooms, PlayerState(at, inventory, sanity, true))
  }

  /** The world once the rusty key has left the kitchen. */
  function KeyTaken(p: Prose): seq<RoomState> {
    InitialRooms(p)[Kitchen := InitialRooms(p)[Kitchen].(items := [])]
  }

  /** The world at the end of the escape: the key taken, the gate open. */
  function GateOpen(p: Prose): seq<RoomState> {
    KeyTaken(p)[Gate := KeyTaken(p)[Gate].(locked := false)]
  }

  /** A line read as `take crumbled note` in the Grand Hallway moves the
      note into the empty pockets and leaves the hallway bare, at no cost. */
  lemma {:induction false} TakeTheNote(p: Prose, line: string, hallucinate: bool, cost: int)
    requires Parse(line) == Take("crumbled note")
    ensures Wf(Initial(p))
    ensures var r := Turn(Initial(p), line, hallucinate, cost);
      && r.ending == None
      && r.state.player.inventory == [Note]
      && r.state.rooms[Hallway].items == []
      && r.state.player.location == Hallway && r.state.player.sanity == 100
  {
    var g := Initial(p);
    WorldShape(p);
    InitialItems(p);
    TakeTurn(g, line, hallucinate, cost, "crumbled note");
    NoteFound(g.rooms[Hallway].items, "crumbled note");
    TakeMatchingFacts(g, "crumbled note");
  }

  /** The search for `crumbled note` stops at the note. */
  lemma {:induction false} NoteFound(items: seq<Item>, needle: string)
    requires items == [Note] && needle == "crumbled note"
    ensures FirstContaining(items, needle) == Some(0)
  {
    NoteLowered(items[0].name);
    ContainsItself(needle);
  }

  /** The search for `rusty key` stops at the key. */
  lemma {:induction false} KeyFound(items: seq<Item>, needle: string)
    requires items == [RustyKey] && needle == "rusty key"
    ensures FirstContaining(items, needle) == Some(0)
  {
    KeyLowered(items[0].name);
    ContainsItself(needle);
  }

  /** The note's name lower-cased is `crumbled note`. */
  lemma {:induction false} NoteLowered(s: string)
    requires s == "Crumbled Note"
    ensures Lower(s) == "crumbled note"
  {
    var t := Lower(s);
    assert t[0] == 'c' && t[1] == 'r' && t[2] == 'u' && t[3] == 'm' && t[4] == 'b' && t[5] == 'l' && t[6] == 'e';
    assert t[7] == 'd' && t[8] == ' ' && t[9] == 'n' && t[10] == 'o' && t[11] == 't' && t[12] == 'e';
  }

  /** The key's name lower-cased is `rusty key`. */
  lemma {:induction false} KeyLowered(s: string)
    requires s == "Rusty Key"
    ensures Lower(s) == "rusty key"
  {
    var t := Lower(s);
    assert t[0] == 'r' && t[1] == 'u' && t[2] == 's' && t[3] == 't' && t[4] == 'y';
    assert t[5] == ' ' && t[6] == 'k' && t[7] == 'e' && t[8] == 'y';
  }

  /** The first step north from the Grand Hallway enters the kitchen for
      `cost` sanity. */
  lemma {:induction false} StepNorth(p: Prose, line: string, hallucinate: bool, cost: int)
    requires Parse(line) == Go("north")
    requires 1 <= cost <= 3
    ensures Wf(Initial(p))
    ensures Turn(Initial(p), line, hallucinate, cost)
      == TurnResult(Standing(InitialRooms(p), Kitchen, [], StartSanity - cost), None)
  {
    var g := Initial(p);
    WorldShape(p);
    MoveTurn(g, line, hallucinate, cost, "north");
    MoveEnters(g, "north", cost);
  }

  /** In the kitchen, `take rusty key` puts the key in the empty pockets. */
  lemma {:induction false} StepTakeKey(p: Prose, sanity: int, line: string, hallucinate: bool, cost: int)
    requires sanity >= HallucinationThreshold
    requires Parse(line) == Take("rusty key")
    ensures Wf(Standing(InitialRooms(p), Kitchen, [], sanity))
    ensures Turn(Standing(InitialRooms(p), Kitchen, [], sanity), line, hallucinate, cost)
      == TurnResult(Standing(KeyTaken(p), Kitchen, [RustyKey], sanity), None)
  {
    var g := Standing(InitialRooms(p), Kitchen, [], sanity);
    WorldShape(p);
    InitialItems(p);
    TakeTurn(g, line, hallucinate, cost, "rusty key");
    KeyFound(g.rooms[Kitchen].items, "rusty key");
    TakeMatchingFacts(g, "rusty key");
  }

  /** With the key, south from the kitchen is the hallway. */
  lemma {:induction false} StepSouthToHallway(p: Prose, sanity: int, line: string, hallucinate: bool, cost: int)
    requires sanity >= HallucinationThreshold
    requires Parse(line) == Go("south")
    requires 1 <= cost <= 3
    ensures Wf(Standing(KeyTaken(p), Kitchen, [RustyKey], sanity))
    ensures Turn(Standing(KeyTaken(p), Kitchen, [RustyKey], sanity), line, hallucinate, cost)
      == TurnResult(Standing(KeyTaken(p), Hallway, [RustyKey], sanity - cost), None)
  {
    var g := Standing(KeyTaken(p), Kitchen, [RustyKey], sanity);
    WorldShape(p);
    MoveTurn(g, line, hallucinate, cost, "south");
    MoveEnters(g, "south", cost);
  }

  /** South again, from the hallway, is the withered garden. */
  lemma {:induction false} StepSouthToGarden(p: Prose, sanity: int, line: string, hallucinate: bool, cost: int)
    requires sanity >= HallucinationThreshold
    requires Parse(line) == Go("south")
    requires 1 <= cost <= 3
    ensures Wf(Standing(KeyTaken(p), Hallway, [RustyKey], sanity))
    ensures Turn(Standing(KeyTaken(p), Hallway, [RustyKey], sanity), line, hallucinate, cost)
      == TurnResult(Standing(KeyTaken(p), Garden, [RustyKey], sanity - cost), None)
  {
    var g := Standing(KeyTaken(p), Hallway, [RustyKey], sanity);
    WorldShape(p);
    MoveTurn(g, line, hallucinate, cost, "south");
    MoveEnters(g, "south", cost);
  }

  /** East from the garden with the key unlocks the gate and steps through
      it for exactly 2 sanity, whatever the roll, and the game is won, even
      when those 2 points were the last: the win check does not look at
      `alive`. */
  lemma {:induction false} StepThroughGate(p: Prose, sanity: int, line: string, hallucinate: bool, cost: int)
    requires sanity >= HallucinationThreshold || !hallucinate
    requires Parse(line) == Go("east")
    ensures Wf(Standing(KeyTaken(p), Garden, [RustyKey], sanity))
    ensures Turn(Standing(KeyTaken(p), Garden, [RustyKey], sanity), line, hallucinate, cost)
      == TurnResult(GameState(GateOpen(p), PlayerState(Gate, [RustyKey], sanity - 2, sanity > 2)), Some(Won))
  {
    var g := Standing(KeyTaken(p), Garden, [RustyKey], sanity);
    WorldShape(p);
    MoveTurn(g, line, hallucinate, cost, "east");
    assert HoldsKey(g.player.inventory, g.rooms[Gate].keyNeeded) by {
      assert g.player.inventory[0].name == "Rusty Key";
    }
    MoveUnlocks(g, "east", cost);
  }

  /** Without the key, east from the garden is refused: nothing changes and
      the game goes on. */
  lemma {:induction false} GateStaysLocked(p: Prose, inventory: seq<Item>, sanity: int, line: string, hallucinate: bool, cost: int)
    requires sanity >= HallucinationThreshold || !hallucinate
    requires forall k :: 0 <= k < |inventory| ==> inventory[k].name != RustyKey.name
    requires Parse(line) == Go("east")
    ensures Wf(Standing(InitialRooms(p), Garden, inventory, sanity))
    ensures Turn(Standing(InitialRooms(p), Garden, inventory, sanity), line, hallucinate, cost)
      == TurnResult(Standing(InitialRooms(p), Garden, inventory, sanity), None)
  {
    var g := Standing(InitialRooms(p), Garden, inventory, sanity);
    WorldShape(p);
    MoveTurn(g, line, hallucinate, cost, "east");
    MoveBlocked(g, "east", cost);
  }

  /** The escape, played from the start: north, take the rusty key, south,
      south, east. The game is won at the open gate, with the key in hand
      and sanity down by the three move costs and the 2 of the unlocking,
      whatever the hallucination rolls say. */
  lemma {:induction false} Escape(p: Prose, inputs: seq<TurnInput>)
    requires |inputs| == 5
    requires 1 <= inputs[0].cost <= 3 && 1 <= inputs[2].cost <= 3 && 1 <= inputs[3].cost <= 3
    requires Parse(inputs[0].line) == Go("north")
    requires Parse(inputs[1].line) == Take("rusty key")
    requires Parse(inputs[2].line) == Go("south")
    requires Parse(inputs[3].line) == Go("south")
    requires Parse(inputs[4].line) == Go("east")
    ensures Wf(Initial(p))
    ensures Play(Initial(p), inputs)
      == PlayResult(GameState(GateOpen(p), PlayerState(Gate, [RustyKey],
           StartSanity - inputs[0].cost - inputs[2].cost - inputs[3].cost - 2, true)), Won)
  {
    var mid := StartSanity - inputs[0].cost;
    StepNorth(p, inputs[0].line, inputs[0].hallucinate, inputs[0].cost);
    QuietTurn(Initial(p), inputs, Standing(InitialRooms(p), Kitchen, [], mid));
    EscapeFromKitchen(p, mid, inputs[1..], mid - inputs[2].cost - inputs[3].cost - 2);
  }

  /** The rest of the escape from the kitchen, ending on `final` sanity:
      take the key, then south, south, east. */
  lemma {:induction false} EscapeFromKitchen(p: Prose, sanity: int, rest: seq<TurnInput>, final: int)
    requires sanity >= HallucinationThreshold + 6
    requires |rest| == 4
    requires 1 <= rest[1].cost <= 3 && 1 <= rest[2].cost <= 3
    requires Parse(rest[0].line) == Take("rusty key")
    requires Parse(rest[1].line) == Go("south")
    requires Parse(rest[2].line) == Go("south")
    requires Parse(rest[3].line) == Go("east")
    requires final == sanity - rest[1].cost - rest[2].cost - 2
    ensures Wf(Standing(InitialRooms(p), Kitchen, [], sanity))
    ensures Play(Standing(InitialRooms(p), Kitchen, [], sanity), rest)
      == PlayResult(GameState(GateOpen(p), PlayerState(Gate, [RustyKey], final, true)), Won)
  {
    StepTakeKey(p, sanity, rest[0].line, rest[0].hallucinate, rest[0].cost);
    QuietTurn(Standing(InitialRooms(p), Kitchen, [], sanity), rest, Standing(KeyTaken(p), Kitchen, [RustyKey], sanity));
    EscapeWithKey(p, sanity, rest[1..], final);
  }

  /** With the key in hand in the kitchen: south, south, east. */
  lemma {:induction false} EscapeWithKey(p: Prose, sanity: int, rest: seq<TurnInput>, final: int)
    requires sanity >= HallucinationThreshold + 6
    requires |rest| == 3
    requires 1 <= rest[0].cost <= 3 && 1 <= rest[1].cost <= 3
    requires Parse(rest[0].line) == Go("south")
    requires Parse(rest[1].line) == Go("south")
    requires Parse(rest[2].line) == Go("east")
    requires final == sanity - rest[0].cost - rest[1].cost - 2
    ensures Wf(Standing(KeyTaken(p), Kitchen, [RustyKey], sanity))
    ensures Play(Standing(KeyTaken(p), Kitchen, [RustyKey], sanity), rest)
      == PlayResult(GameState(GateOpen(p), PlayerState(Gate, [RustyKey], final, true)), Won)
  {
    var mid := sanity - rest[0].cost;
    StepSouthToHallway(p, sanity, rest[0].line, rest[0].hallucinate, rest[0].cost);
    QuietTurn(Standing(KeyTaken(p), Kitchen, [RustyKey], sanity), rest, Standing(KeyTaken(p), Hallway, [RustyKey], mid));
    EscapeFromHallway(p, mid, rest[1..], final);
  }

  /** From the hallway with the key: south to the garden, then east. */
  lemma {:induction false} EscapeFromHallway(p: Prose, sanity: int, rest: seq<TurnInput>, final: int)
    requires sanity >= HallucinationThreshold + 3
    requires |rest| == 2
    requires 1 <= rest[0].cost <= 3
    requires Parse(rest[0].line) == Go("south")
    requires Parse(rest[1].line) == Go("east")
    requires final == sanity - rest[0].cost - 2
    ensures Wf(Standing(KeyTaken(p), Hallway, [RustyKey], sanity))
    ensures Play(Standing(KeyTaken(p), Hallway, [RustyKey], sanity), rest)
      == PlayResult(GameState(GateOpen(p), PlayerState(Gate, [RustyKey], final, true)), Won)
  {
    var mid := sanity - rest[0].cost;
    StepSouthToGarden(p, sanity, rest[0].line, rest[0].hallucinate, rest[0].cost);
    QuietTurn(Standing(KeyTaken(p), Hallway, [RustyKey], sanity), rest, Standing(KeyTaken(p), Garden, [RustyKey], mid));
    EscapeFromGarden(p, mid, rest[1..]);
  }

  /** From the garden with the key: east through the gate, and the game is won. */
  lemma {:induction false} EscapeFromGarden(p: Prose, sanity: int, rest: seq<TurnInput>)
    requires sanity >= HallucinationThreshold
    requires |rest| == 1
    requires Parse(rest[0].line) == Go("east")
    ensures Wf(Standing(KeyTaken(p), Garden, [RustyKey], sanity))
    ensures Play(Standing(KeyTaken(p), Garden, [RustyKey], sanity), rest)
      == PlayResult(GameState(GateOpen(p), PlayerState(Gate, [RustyKey], sanity - 2, true)), Won)
  {
    var i := rest[0];
    StepThroughGate(p, sanity, i.line, i.hallucinate, i.cost);
    LastTurn(Standing(KeyTaken(p), Garden, [RustyKey], sanity), rest,
      GameState(GateOpen(p), PlayerState(Gate, [RustyKey], sanity - 2, sanity > 2)), Won);
  }

  /** A turn that ends nothing hands the rest of the input to the next
      pass of the loop. */
  lemma {:induction false} QuietTurn(g: GameState, inputs: seq<TurnInput>, g': GameState)
    requires Wf(g) && g.player.alive && inputs != []
    requires Turn(g, inputs[0].line, inputs[0].hallucinate, inputs[0].cost) == TurnResult(g', None)
    ensures Wf(g') && Play(g, inputs) == Play(g', inputs[1..])
  {
  }

  /** A turn that ends the game ends the loop with it. */
  lemma {:induction false} LastTurn(g: GameState, inputs: seq<TurnInput>, g': GameState, ending: Ending)
    requires Wf(g) && g.player.alive && inputs != []
    requires Turn(g, inputs[0].line, inputs[0].hallucinate, inputs[0].cost) == TurnResult(g', Some(ending))
    ensures Play(g, inputs) == PlayResult(g', ending)
  {
  }
}
