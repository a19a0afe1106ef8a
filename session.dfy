/** A whole session on the objects of module Engine: `Game()` is built and
    its `play` loop is run on the five lines of the escape. What module
    Scenarios proves about the values then holds of the objects. */
module Session {
  import opened Rules
  import opened Commands
  import opened Turns
  import opened World
  import opened Scenarios
  import opened Engine

  /** A new game played on north, take rusty key, south, south, east ends
      won, with the key carried, the gate open and sanity down by the three
      move rolls plus the 2 of the unlocking. */
  method PlayEscape(p: Prose, inputs: seq<TurnInput>) returns (ending: Ending, inventory: seq<Item>, gateLocked: bool, sanity: int)
    requires |inputs| == 5 && CostsInRange(inputs)
    requires Parse(inputs[0].line) == Go("north")
    requires Parse(inputs[1].line) == Take("rusty key")
    requires Parse(inputs[2].line) == Go("south")
    requires Parse(inputs[3].line) == Go("south")
    requires Parse(inputs[4].line) == Go("east")
    ensures ending == Won && inventory == [RustyKey] && !gateLocked
    ensures sanity == StartSanity - inputs[0].cost - inputs[2].cost - inputs[3].cost - 2
  {
    var game := new Game(p);
    Escape(p, inputs);
    ending := game.Play(inputs);
    inventory := game.player.inventory;
    gateLocked := game.rooms[Gate].locked;
    sanity := game.player.sanity;
  }
}
