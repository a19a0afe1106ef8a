/** The objects of horror.py as they run: rooms whose exits, items and lock
    change in place, a player whose location, inventory, sanity and `alive`
    flag change in place, and the game that drives them turn by turn. Every
    method is proved to move the objects exactly as the functions of modules
    Rules and Turns move their values, so what is proved there holds here. */
module Engine {
  import opened Wrappers
  import opened Text
  import opened Rules
  import opened Commands
  import opened Turns
  import opened World

  class Room {
    const name: string
    const description: string
    const darkDescription: Option<string>
    var exits: map<string, RoomId>
    var items: seq<Item>
    var locked: bool
    var keyNeeded: Option<string>

    /** The room as a value. */
    function State(): RoomState
      reads this
    {
      RoomState(name, description, darkDescription, exits, items, locked, keyNeeded)
    }

    /** A new room has no exits, no items and no lock. */
    constructor (name: string, description: string, darkDescription: Option<string>)
      ensures this.name == name && this.description == description && this.darkDescription == darkDescription
      ensures exits == map[] && items == [] && !locked && keyNeeded == None
    {
      this.name := name;
      this.description := description;
      this.darkDescription := darkDescription;
      exits := map[];
      items := [];
      locked := false;
      keyNeeded := None;
    }

    /** `add_exit`: the exit in `direction` now leads to `room`, replacing any
        exit there was; nothing else changes. */
    method AddExit(direction: string, room: RoomId)
      modifies this
      ensures exits == old(exits)[direction := room]
      ensures items == old(items) && locked == old(locked) && keyNeeded == old(keyNeeded)
    {
      exits := exits[direction := room];
    }

    /** `add_item`: the item goes to the end of the list. */
    method AddItem(item: Item)
      modifies this
      ensures items == old(items) + [item]
      ensures exits == old(exits) && locked == old(locked) && keyNeeded == old(keyNeeded)
    {
      items := items + [item];
    }

    /** `remove_item`: scans the items in order and takes out the first whose
        name equals `itemName` ignoring case, returning it; with none, returns
        nothing and the list is as it was. Nothing but the list changes. */
    method RemoveItem(itemName: string) returns (found: Option<Item>)
      modifies this
      ensures FirstNamed(old(items), itemName).None? ==> found == None && items == old(items)
      ensures FirstNamed(old(items), itemName).Some? ==>
        var i := FirstNamed(old(items), itemName).value;
        found == Some(old(items)[i]) && items == RemoveAt(old(items), i)
      ensures State() == old(State()).(items := items)
    {
      var i := 0;
      while i < |items|
        invariant 0 <= i <= |items|
        invariant items == old(items)
        invariant forall k :: 0 <= k < i ==> !SameName(items[k].name, itemName)
      {
        if Lower(items[i].name) == Lower(itemName) {
          found := Some(items[i]);
          items := RemoveAt(items, i);
          return;
        }
        i := i + 1;
      }
      found := None;
    }
  }

  /** No room object appears twice in the arena. */
  ghost predicate Distinct(rooms: seq<Room>) {
    forall i, j :: 0 <= i < j < |rooms| ==> rooms[i] != rooms[j]
  }

  /** The arena as values, room by room. */
  ghost function Snapshot(rooms: seq<Room>): (s: seq<RoomState>)
    reads rooms
    ensures |s| == |rooms|
    ensures forall i :: 0 <= i < |rooms| ==> s[i] == rooms[i].State()
  {
    if rooms == [] then [] else Snapshot(rooms[..|rooms| - 1]) + [rooms[|rooms| - 1].State()]
  }

  /** Five rooms that differ pairwise form an arena without repeats. */
  lemma {:induction false} DistinctFive(a: Room, b: Room, c: Room, d: Room, e: Room)
    requires a != b && a != c && a != d && a != e && b != c && b != d && b != e
    requires c != d && c != e && d != e
    ensures Distinct([a, b, c, d, e])
  {
    var rs := [a, b, c, d, e];
    forall i, j | 0 <= i < j < 5
      ensures rs[i] != rs[j]
    {
      if i == 0 {
      } else if i == 1 {
      } else if i == 2 {
      } else {
      }
    }
  }

  /** The snapshot of five rooms is their five states. */
  lemma {:induction false} SnapshotOfFive(a: Room, b: Room, c: Room, d: Room, e: Room)
    ensures Snapshot([a, b, c, d, e]) == [a.State(), b.State(), c.State(), d.State(), e.State()]
  {
    var s := Snapshot([a, b, c, d, e]);
    var rs := [a.State(), b.State(), c.State(), d.State(), e.State()];
    forall i | 0 <= i < 5
      ensures s[i] == rs[i]
    {
      if i == 0 {} else if i == 1 {} else if i == 2 {} else if i == 3 {} else {}
    }
  }

  ghost function Abstract(rooms: seq<Room>, player: Player): GameState
    reads rooms, player
  {
    GameState(Snapshot(rooms), player.State())
  }

  class Player {
    var inventory: seq<Item>
    var sanity: int
    var alive: bool
    var location: RoomId

    /** The player as a value. */
    function State(): PlayerState
      reads this
    {
      PlayerState(location, inventory, sanity, alive)
    }

    /** A new player is alive with full sanity and empty pockets; the game
        then places it in the first room. */
    constructor ()
      ensures State() == PlayerState(0, [], StartSanity, true)
    {
      inventory := [];
      sanity := StartSanity;
      alive := true;
      location := 0;
    }

    /** `drain_sanity`. */
    method DrainSanity(amount: int)
      modifies this
      ensures State() == Drain(old(State()), amount)
    {
      sanity := sanity - amount;
      if sanity <= 0 {
        alive := false;
      }
    }

    /** `move`, with `cost` standing for `random.randint(1, 3)`. */
    method Move(rooms: seq<Room>, direction: string, cost: int)
      requires Distinct(rooms) && Wf(Abstract(rooms, this))
      requires 1 <= cost <= 3
      modifies this, rooms
      ensures Abstract(rooms, this) == Rules.Move(old(Abstract(rooms, this)), direction, cost)
    {
      var here := rooms[location];
      if direction in here.exits {
        var t := here.exits[direction];
        var next := rooms[t];
        if next.locked {
          if HoldsKey(inventory, next.keyNeeded) {
            next.locked := false;
            location := t;
            DrainSanity(2);
            assert Snapshot(rooms) == old(Snapshot(rooms))[t := old(next.State()).(locked := false)];
          }
        } else {
          location := t;
          DrainSanity(cost);
          assert Snapshot(rooms) == old(Snapshot(rooms));
        }
      }
    }

    /** `take_item`: what the current room gives up goes to the end of the
        inventory. */
    method TakeItem(rooms: seq<Room>, itemName: string)
      requires Distinct(rooms) && Wf(Abstract(rooms, this))
      modifies this, rooms
      ensures Abstract(rooms, this) == Rules.TakeItem(old(Abstract(rooms, this)), itemName)
    {
      var here := rooms[location];
      assert forall k :: 0 <= k < |rooms| && k != location ==> rooms[k] != here;
      var item := here.RemoveItem(itemName);
      if item.Some? {
        inventory := inventory + [item.value];
        assert Snapshot(rooms) == old(Snapshot(rooms))[location := here.State()];
      } else {
        assert Snapshot(rooms) == old(Snapshot(rooms));
      }
    }
  }

  class Game {
    const rooms: seq<Room>
    const player: Player

    ghost predicate Valid()
      reads this, rooms, player
    {
      Distinct(rooms) && Wf(Abstract(rooms, player))
    }

    /** The whole game as a value. */
    ghost function State(): GameState
      reads this, rooms, player
    {
      Abstract(rooms, player)
    }

    /** `Game.__init__` with `setup_world`: builds the five rooms, links
        them, places the items and the lock, and puts the player in the
        hallway. The player and the rooms are new objects, so the caller may
        go on to play the game it built. */
    constructor (p: Prose)
      ensures Valid() && State() == Initial(p)
      ensures fresh(player) && forall i :: 0 <= i < |rooms| ==> fresh(rooms[i])
    {
      var player := new Player();
      player.location := Hallway;
      var rooms := NewRooms(p);
      ghost var snapshot := Snapshot(rooms);
      this.player := player;
      this.rooms := rooms;
      new;
      assert Snapshot(rooms) == snapshot == InitialRooms(p);
      WorldShape(p);
    }

    /** Steps 1 to 4 of `setup_world`: five new rooms, linked, with their
        items placed and the gate locked, exactly as `World.InitialRooms`
        has them. */
    static method NewRooms(p: Prose) returns (rooms: seq<Room>)
      ensures |rooms| == 5 && Distinct(rooms) && Snapshot(rooms) == InitialRooms(p)
      ensures forall i :: 0 <= i < |rooms| ==> fresh(rooms[i])
    {
      var hallway, kitchen, basement, garden, gate := CreateRooms(p);
      LinkRooms(hallway, kitchen, basement, garden);
      PlaceItemsAndLock(hallway, kitchen, garden, gate);
      rooms := [hallway, kitchen, basement, garden, gate];
      assert hallway.State() == Build("Grand Hallway", p.hallway, map["north" := Kitchen, "south" := Garden], [Note]);
      assert kitchen.State() == Build("Kitchen", p.kitchen, map["south" := Hallway, "down" := Basement], [RustyKey]);
      assert basement.State() == Build("Basement", p.basement, map["up" := Kitchen], []);
      assert garden.State() == Build("Withered Garden", p.garden, map["north" := Hallway, "east" := Gate], [Flashlight]);
      assert gate.State() == RoomState("The Gate", p.gate, Some(""), map[], [], true, Some("Rusty Key"));
      SnapshotOfFive(hallway, kitchen, basement, garden, gate);
      DistinctFive(hallway, kitchen, basement, garden, gate);
      forall i | 0 <= i < |rooms|
        ensures fresh(rooms[i])
      {
        if i == 0 {} else if i == 1 {} else if i == 2 {} else if i == 3 {} else {}
      }
    }

    /** Step 2 of `setup_world`: five new rooms with their names and texts,
        as yet without exits, items or lock. */
    static method CreateRooms(p: Prose) returns (hallway: Room, kitchen: Room, basement: Room, garden: Room, gate: Room)
      ensures fresh(hallway) && fresh(kitchen) && fresh(basement) && fresh(garden) && fresh(gate)
      ensures hallway != kitchen && hallway != basement && hallway != garden && hallway != gate
      ensures kitchen != basement && kitchen != garden && kitchen != gate
      ensures basement != garden && basement != gate && garden != gate
      ensures hallway.State() == RoomState("Grand Hallway", p.hallway.description, Some(p.hallway.dark), map[], [], false, None)
      ensures kitchen.State() == RoomState("Kitchen", p.kitchen.description, Some(p.kitchen.dark), map[], [], false, None)
      ensures basement.State() == RoomState("Basement", p.basement.description, Some(p.basement.dark), map[], [], false, None)
      ensures garden.State() == RoomState("Withered Garden", p.garden.description, Some(p.garden.dark), map[], [], false, None)
      ensures gate.State() == RoomState("The Gate", p.gate, Some(""), map[], [], false, None)
    {
      hallway := new Room("Grand Hallway", p.hallway.description, Some(p.hallway.dark));
      kitchen := new Room("Kitchen", p.kitchen.description, Some(p.kitchen.dark));
      basement := new Room("Basement", p.basement.description, Some(p.basement.dark));
      garden := new Room("Withered Garden", p.garden.description, Some(p.garden.dark));
      gate := new Room("The Gate", p.gate, Some(""));
    }

    /** Step 3 of `setup_world`: the seven exits. */
    static method LinkRooms(hallway: Room, kitchen: Room, basement: Room, garden: Room)
      requires hallway != kitchen && hallway != basement && hallway != garden
      requires kitchen != basement && kitchen != garden && basement != garden
      modifies hallway, kitchen, basement, garden
      ensures hallway.State() == old(hallway.State()).(exits := old(hallway.exits)["north" := Kitchen]["south" := Garden])
      ensures kitchen.State() == old(kitchen.State()).(exits := old(kitchen.exits)["south" := Hallway]["down" := Basement])
      ensures basement.State() == old(basement.State()).(exits := old(basement.exits)["up" := Kitchen])
      ensures garden.State() == old(garden.State()).(exits := old(garden.exits)["north" := Hallway]["east" := Gate])
    {
      hallway.AddExit("north", Kitchen);
      hallway.AddExit("south", Garden);
      kitchen.AddExit("south", Hallway);
      kitchen.AddExit("down", Basement);
      basement.AddExit("up", Kitchen);
      garden.AddExit("north", Hallway);
      garden.AddExit("east", Gate);
    }

    /** Step 4 of `setup_world`: one item in each of three rooms, and the
        gate locked with the rusty key. */
    static method PlaceItemsAndLock(hallway: Room, kitchen: Room, garden: Room, gate: Room)
      requires hallway != kitchen && hallway != garden && kitchen != garden
      requires gate != hallway && gate != kitchen && gate != garden
      modifies hallway, kitchen, garden, gate
      ensures hallway.State() == old(hallway.State()).(items := old(hallway.items) + [Note])
      ensures kitchen.State() == old(kitchen.State()).(items := old(kitchen.items) + [RustyKey])
      ensures garden.State() == old(garden.State()).(items := old(garden.items) + [Flashlight])
      ensures gate.State() == old(gate.State()).(locked := true, keyNeeded := Some("Rusty Key"))
    {
      hallway.AddItem(Note);
      kitchen.AddItem(RustyKey);
      garden.AddItem(Flashlight);
      gate.locked := true;
      gate.keyNeeded := Some("Rusty Key");
    }

    /** The search of the take branch: the first item of the current room
        whose lower-cased name contains `needle` is taken by its full
        name. */
    method TakeMatching(needle: string)
      requires Valid()
      modifies player, rooms
      ensures Valid()
      ensures State() == Turns.TakeMatching(old(State()), needle)
    {
      var items := rooms[player.location].items;
      assert items == State().rooms[State().player.location].items;
      var j := 0;
      while j < |items|
        invariant 0 <= j <= |items|
        invariant forall k :: 0 <= k < j ==> !Contains(Lower(items[k].name), needle)
      {
        if Contains(Lower(items[j].name), needle) {
          assert FirstContaining(items, needle) == Some(j);
          player.TakeItem(rooms, items[j].name);
          return;
        }
        j := j + 1;
      }
      assert FirstContaining(items, needle) == None;
    }

    /** The `if`/`elif` chain of `play` after the quit test: a direction
        moves the player, `take` takes by substring, and look, inventory,
        help and anything not understood change nothing. */
    method Dispatch(command: Command, cost: int)
      requires Valid()
      requires 1 <= cost <= 3
      modifies player, rooms
      ensures Valid()
      ensures State() == Turns.Dispatch(old(State()), command, cost)
    {
      match command {
        case Go(direction) =>
          player.Move(rooms, direction, cost);
        case Take(needle) =>
          TakeMatching(needle);
        case _ =>
      }
    }

    /** One pass of the loop of `play`: the hallucination, the command, the
        win check. `hallucinate` stands for `random.random() < 0.3` and `cost`
        for the `random.randint(1, 3)` of a move. */
    method Turn(line: string, hallucinate: bool, cost: int) returns (ending: Option<Ending>)
      requires Valid()
      requires 1 <= cost <= 3
      modifies player, rooms
      ensures Valid()
      ensures TurnResult(State(), ending) == Turns.Turn(old(State()), line, hallucinate, cost)
    {
      if player.sanity < HallucinationThreshold && hallucinate {
        player.DrainSanity(HallucinationDrain);
        assert Snapshot(rooms) == old(Snapshot(rooms));
      }
      ghost var g1 := State();
      assert g1 == Hallucinate(old(State()), hallucinate);
      var command := Parse(line);
      if command == Blank {
        return None;
      } else if command == Quit {
        return Some(Abandoned);
      }
      Dispatch(command, cost);
      if rooms[player.location].name == GateName {
        ending := Some(Won);
      } else {
        ending := None;
      }
    }

    /** `play`: turns are taken while the player is alive, until the game is
        won or abandoned or the supplied turns run out. */
    method Play(inputs: seq<TurnInput>) returns (ending: Ending)
      requires Valid() && CostsInRange(inputs)
      modifies player, rooms
      ensures Valid()
      ensures PlayResult(State(), ending) == Turns.Play(old(State()), inputs)
    {
      var k := 0;
      while player.alive
        invariant 0 <= k <= |inputs|
        invariant Valid()
        invariant Turns.Play(State(), inputs[k..]) == Turns.Play(old(State()), inputs)
        decreases |inputs| - k
      {
        if k == |inputs| {
          return OutOfInput;
        }
        ghost var before := State();
        var t := Turn(inputs[k].line, inputs[k].hallucinate, inputs[k].cost);
        assert TurnResult(State(), t) == Turns.Turn(before, inputs[k].line, inputs[k].hallucinate, inputs[k].cost);
        if t.Some? {
          return t.value;
        }
        assert inputs[k..][1..] == inputs[k + 1..];
        assert Turns.Play(before, inputs[k..]) == Turns.Play(State(), inputs[k + 1..]);
        k := k + 1;
      }
      return Died;
    }
  }
}
