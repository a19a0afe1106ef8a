/** One pass of the `while self.player.alive` loop of `Game.play`, and the
    loop itself run over a finite list of turns. What the random calls would
    return is part of each turn's input: `hallucinate` stands for
    `random.random() < 0.3` and `cost` for `random.randint(1, 3)`. */
module Turns {
  import opened Text
  import opened Wrappers
  import opened Rules
  import opened Commands

  /** Standing in the room of this name after a command wins the game. */
  const GateName := "The Gate"

  /** Below this sanity a turn may bring a hallucination, which costs
      `HallucinationDrain` sanity. */
  const HallucinationThreshold := 50
  const HallucinationDrain := 5

  /** The search of the take branch: the first item of the room whose
      lower-cased name contains the typed words. */
  function FirstContaining(items: seq<Item>, needle: string): (r: Option<nat>)
    ensures r.Some? ==> r.value < |items| && Contains(Lower(items[r.value].name), needle)
    ensures r.Some? ==> forall k :: 0 <= k < r.value ==> !Contains(Lower(items[k].name), needle)
    ensures r.None? <==> forall k :: 0 <= k < |items| ==> !Contains(Lower(items[k].name), needle)
  {
    if items == [] then None
    else if Contains(Lower(items[0].name), needle) then Some(0)
    else match FirstContaining(items[1..], needle)
      case None => None
      case Some(i) => Some(i + 1)
  }

  /** The take branch: find the item by substring, then `take_item` by its
      full name. */
  function TakeMatching(g: GameState, needle: string): (g': GameState)
    requires Wf(g)
    ensures Wf(g')
  {
    var items := g.rooms[g.player.location].items;
    match FirstContaining(items, needle)
    case None => g
    case Some(j) => TakeItem(g, items[j].name)
  }

  /** The item `take_item` then removes by name is the very item the search
      found: any earlier item with the same name ignoring case would have
      matched the search first. */
  lemma {:induction false} FoundItemIsRemoved(items: seq<Item>, needle: string, j: nat)
    requires FirstContaining(items, needle) == Some(j)
    ensures FirstNamed(items, items[j].name) == Some(j)
  {
    assert SameName(items[j].name, items[j].name);
  }

  /** `take <words>` moves the first room item whose lower-cased name
      contains the words to the end of the inventory, removing exactly that
      element from the room; with no such item nothing changes. */
  lemma {:induction false} TakeMatchingFacts(g: GameState, needle: string)
    requires Wf(g)
    ensures var loc := g.player.location;
      var items := g.rooms[loc].items;
      var g' := TakeMatching(g, needle);
      && (FirstContaining(items, needle).None? ==> g' == g)
      && (FirstContaining(items, needle).Some? ==>
            var j := FirstContaining(items, needle).value;
            && g'.rooms == g.rooms[loc := g.rooms[loc].(items := RemoveAt(items, j))]
            && g'.player == g.player.(inventory := g.player.inventory + [items[j]]))
      && SameLayout(g, g') && LocksOnlyOpen(g, g')
      && AllItems(g') == AllItems(g)
  {
    var items := g.rooms[g.player.location].items;
    match FirstContaining(items, needle)
    case None =>
    case Some(j) =>
      FoundItemIsRemoved(items, needle, j);
      TakeFacts(g, items[j].name);
      TakeConservesItems(g, items[j].name);
  }

  /** The action a parsed command takes on the state. */
  function Dispatch(g: GameState, command: Command, cost: int): (g': GameState)
    requires Wf(g)
    ensures Wf(g')
  {
    match command
    case Go(d) => Move(g, d, cost)
    case Take(needle) => TakeMatching(g, needle)
    case _ => g
  }

  /** The sanity drain of the hallucination event, checked before the
      command is read. */
  function Hallucinate(g: GameState, hallucinate: bool): GameState {
    if g.player.sanity < HallucinationThreshold && hallucinate
    then g.(player := Drain(g.player, HallucinationDrain))
    else g
  }

  /** The hallucination strikes only below the threshold and when the coin
      says so; it drains exactly `HallucinationDrain` and touches no room. */
  lemma {:induction false} HallucinationFacts(g: GameState, hallucinate: bool)
    ensures Hallucinate(g, hallucinate).rooms == g.rooms
    ensures Hallucinate(g, hallucinate) != g ==> g.player.sanity < HallucinationThreshold && hallucinate
    ensures g.player.sanity < HallucinationThreshold && hallucinate ==>
      Hallucinate(g, hallucinate).player == Drain(g.player, HallucinationDrain)
  {
  }

  predicate AtGate(g: GameState)
    requires Wf(g)
  {
    g.rooms[g.player.location].name == GateName
  }

  /** How a game ends: escaping through the gate, abandoning it with quit or
      exit, losing all sanity, or (in this model) running out of supplied
      input. */
  datatype Ending = Won | Abandoned | Died | OutOfInput

  datatype TurnResult = TurnResult(state: GameState, ending: Option<Ending>)

  /** One pass of the loop body: hallucination, then the command, then the
      win check. A blank line skips the rest of the pass. */
  function Turn(g: GameState, line: string, hallucinate: bool, cost: int): (r: TurnResult)
    requires Wf(g)
    ensures Wf(r.state)
  {
    var g1 := Hallucinate(g, hallucinate);
    var command := Parse(line);
    if command == Blank then TurnResult(g1, None)
    else if command == Quit then TurnResult(g1, Some(Abandoned))
    else
      var g2 := Dispatch(g1, command, cost);
      TurnResult(g2, if AtGate(g2) then Some(Won) else None)
  }

  /** What a command keeps: the layout of the world, the items of the world
      as a whole and locks that only open; look, inventory, help and anything
      not understood change nothing at all. It costs nothing unless it is a
      move, and a move costs 2 or `cost`; a death is never undone and
      `alive <==> sanity > 0` is kept. */
  lemma {:induction false} DispatchFacts(g: GameState, command: Command, cost: int)
    requires Wf(g)
    requires 1 <= cost <= 3
    ensures var g' := Dispatch(g, command, cost);
      && SameLayout(g, g') && LocksOnlyOpen(g, g')
      && AllItems(g') == AllItems(g)
      && (g'.player.sanity == g.player.sanity
          || (command.Go? && (g'.player.sanity == g.player.sanity - 2 || g'.player.sanity == g.player.sanity - cost)))
      && (g'.player.alive ==> g.player.alive)
      && (AliveMatchesSanity(g.player) ==> AliveMatchesSanity(g'.player))
    ensures !command.Go? && !command.Take? ==> Dispatch(g, command, cost) == g
  {
    var g' := Dispatch(g, command, cost);
    match command
    case Go(d) =>
      MoveFacts(g, d, cost);
      assert g' == Move(g, d, cost);
    case Take(needle) =>
      TakeMatchingFacts(g, needle);
      assert g' == TakeMatching(g, needle);
    case _ =>
      assert g' == g;
  }

  /** What a single turn does: the hallucination first, then the command on
      the state it leaves, dead or alive; a blank line, quit and every command
      other than a move or a take change nothing further. A turn keeps
      everything a command keeps, with sanity
      falling by at most the hallucination drain plus the largest move cost.
      A turn wins exactly when a command other than quit or a blank line
      leaves the player in the gate room, whether or not the player is still
      alive, and it is abandoned exactly on quit or exit. */
  lemma {:induction false} TurnFacts(g: GameState, line: string, hallucinate: bool, cost: int)
    requires Wf(g)
    requires 1 <= cost <= 3
    ensures var r := Turn(g, line, hallucinate, cost);
      var g' := r.state;
      && SameLayout(g, g') && LocksOnlyOpen(g, g')
      && AllItems(g') == AllItems(g)
      && g.player.sanity - HallucinationDrain - 3 <= g'.player.sanity <= g.player.sanity
      && (g'.player.alive ==> g.player.alive)
      && (AliveMatchesSanity(g.player) ==> AliveMatchesSanity(g'.player))
      && (r.ending == Some(Abandoned) <==> Parse(line) == Quit)
      && (r.ending == Some(Won) <==> Parse(line) != Blank && Parse(line) != Quit && AtGate(g'))
      && (r.ending.Some? ==> r.ending == Some(Abandoned) || r.ending == Some(Won))
    ensures Parse(line) == Blank || Parse(line) == Quit ==>
      Turn(g, line, hallucinate, cost).state == Hallucinate(g, hallucinate)
    ensures Parse(line).Go? ==>
      Turn(g, line, hallucinate, cost).state == Move(Hallucinate(g, hallucinate), Parse(line).direction, cost)
    ensures Parse(line).Take? ==>
      Turn(g, line, hallucinate, cost).state == TakeMatching(Hallucinate(g, hallucinate), Parse(line).itemName)
    ensures !Parse(line).Go? && !Parse(line).Take? ==>
      Turn(g, line, hallucinate, cost).state == Hallucinate(g, hallucinate)
  {
    var g1 := Hallucinate(g, hallucinate);
    DrainFacts(g.player, HallucinationDrain);
    assert g1.rooms == g.rooms;
    DispatchFacts(g1, Parse(line), cost);
  }

  /** A turn that a take command fills, in a room other than the gate and
      with no hallucination, is exactly the take branch and does not end
      the game. */
  lemma {:induction false} TakeTurn(g: GameState, line: string, hallucinate: bool, cost: int, needle: string)
    requires Wf(g)
    requires g.player.sanity >= HallucinationThreshold || !hallucinate
    requires Parse(line) == Take(needle)
    requires !AtGate(g)
    ensures Turn(g, line, hallucinate, cost) == TurnResult(TakeMatching(g, needle), None)
  {
    TakeMatchingFacts(g, needle);
  }

  /** A turn that a direction fills, with no hallucination, is exactly that
      move followed by the win check. */
  lemma {:induction false} MoveTurn(g: GameState, line: string, hallucinate: bool, cost: int, direction: string)
    requires Wf(g)
    requires g.player.sanity >= HallucinationThreshold || !hallucinate
    requires Parse(line) == Go(direction)
    ensures var g' := Move(g, direction, cost);
      Turn(g, line, hallucinate, cost) == TurnResult(g', if AtGate(g') then Some(Won) else None)
  {
  }

  /** What the random calls of one turn would return, and the typed line. */
  datatype TurnInput = TurnInput(line: string, hallucinate: bool, cost: int)

  datatype PlayResult = PlayResult(state: GameState, ending: Ending)

  /** The loop `while self.player.alive`, over the supplied turns. */
  function Play(g: GameState, inputs: seq<TurnInput>): (r: PlayResult)
    requires Wf(g)
    ensures Wf(r.state)
    decreases |inputs|, 0
  {
    if !g.player.alive then PlayResult(g, Died)
    else if inputs == [] then PlayResult(g, OutOfInput)
    else PlayOn(Turn(g, inputs[0].line, inputs[0].hallucinate, inputs[0].cost), inputs[1..])
  }

  /** The end of a pass of the loop: a turn that ended the game ends the
      loop with it; otherwise the loop goes on with the remaining turns. */
  function PlayOn(t: TurnResult, rest: seq<TurnInput>): (r: PlayResult)
    requires Wf(t.state)
    ensures Wf(r.state)
    decreases |rest|, 1
  {
    if t.ending.Some? then PlayResult(t.state, t.ending.value)
    else Play(t.state, rest)
  }

  predicate CostsInRange(inputs: seq<TurnInput>) {
    forall k :: 0 <= k < |inputs| ==> 1 <= inputs[k].cost <= 3
  }

  /** Over a whole game: the layout and the world's items are kept, locks
      only open, sanity only falls and `alive <==> sanity > 0` holds
      throughout. The game ends as won only in the gate room, as died only
      with the player dead, and runs out of input only with the player
      alive. */
  lemma {:induction false} PlayFacts(g: GameState, inputs: seq<TurnInput>)
    requires Wf(g) && CostsInRange(inputs)
    ensures var r := Play(g, inputs);
      var g' := r.state;
      && SameLayout(g, g') && LocksOnlyOpen(g, g')
      && AllItems(g') == AllItems(g)
      && g'.player.sanity <= g.player.sanity
      && (AliveMatchesSanity(g.player) ==> AliveMatchesSanity(g'.player))
      && (r.ending == Won ==> AtGate(g'))
      && (r.ending == Died ==> !g'.player.alive)
      && (r.ending == OutOfInput ==> g'.player.alive)
    decreases |inputs|
  {
    if g.player.alive && inputs != [] {
      var t := Turn(g, inputs[0].line, inputs[0].hallucinate, inputs[0].cost);
      TurnFacts(g, inputs[0].line, inputs[0].hallucinate, inputs[0].cost);
      if t.ending.None? {
        assert CostsInRange(inputs[1..]);
        PlayFacts(t.state, inputs[1..]);
      }
    }
  }
}
