/** `Game.setup_world` and `Player.__init__`: the fixed arena of five rooms,
    three items, seven exits and one locked gate, and the player standing in
    the Grand Hallway with full sanity and empty pockets. The prose the rooms
    print is not part of the model: the world is built from any texts, with
    the gate's empty dark text fixed as the game has it. */
module World {
  import opened Wrappers
  import opened Rules

  /** Room ids, in the order `setup_world` creates the rooms. */
  const Hallway: RoomId := 0
  const Kitchen: RoomId := 1
  const Basement: RoomId := 2
  const Garden: RoomId := 3
  const Gate: RoomId := 4

  const RustyKey := Item("Rusty Key", true)
  const Note := Item("Crumbled Note", false)
  const Flashlight := Item("Flashlight", false)

  /** The base description and the dark text of one room. */
  datatype RoomText = RoomText(description: string, dark: string)

  /** The texts of the five rooms; the gate has a base description only. */
  datatype Prose = Prose(hallway: RoomText, kitchen: RoomText, basement: RoomText,
                         garden: RoomText, gate: string)

  /** Every room but the gate is given a dark text, as in the game. */
  predicate DarkTextsGiven(p: Prose) {
    p.hallway.dark != [] && p.kitchen.dark != [] && p.basement.dark != [] && p.garden.dark != []
  }

  function Build(name: string, text: RoomText, exits: map<string, RoomId>, items: seq<Item>): RoomState {
    RoomState(name, text.description, Some(text.dark), exits, items, false, None)
  }

  /** The rooms once every exit, item and lock is in place. */
  function InitialRooms(p: Prose): seq<RoomState> {
    [ Build("Grand Hallway", p.hallway, map["north" := Kitchen, "south" := Garden], [Note]),
      Build("Kitchen", p.kitchen, map["south" := Hallway, "down" := Basement], [RustyKey]),
      Build("Basement", p.basement, map["up" := Kitchen], []),
      Build("Withered Garden", p.garden, map["north" := Hallway, "east" := Gate], [Flashlight]),
      RoomState("The Gate", p.gate, Some(""), map[], [], true, Some("Rusty Key")) ]
  }

  /** The sanity a new player starts with. */
  const StartSanity := 100

  function Initial(p: Prose): GameState {
    GameState(InitialRooms(p), PlayerState(Hallway, [], StartSanity, true))
  }

  function ExitCount(rooms: seq<RoomState>): nat {
    if rooms == [] then 0 else |rooms[0].exits| + ExitCount(rooms[1..])
  }

  /** The world as built is well formed: five rooms, every exit leading to
      one of the five. */
  lemma {:induction false} WorldShape(p: Prose)
    ensures Wf(Initial(p)) && |Initial(p).rooms| == 5
  {
  }

  /** The world has seven exits: two from the hallway, the kitchen and the
      garden each, one from the basement and none from the gate. */
  lemma {:induction false} SevenExits(p: Prose)
    ensures ExitCount(InitialRooms(p)) == 7
  {
    var rs := InitialRooms(p);
    assert |rs[0].exits| == 2 && |rs[1].exits| == 2 && |rs[2].exits| == 1;
    assert |rs[3].exits| == 2 && |rs[4].exits| == 0;
    assert rs[4..][1..] == [];
    assert ExitCount(rs[4..]) == 0;
    assert rs[3..][1..] == rs[4..];
    assert ExitCount(rs[3..]) == 2;
    assert rs[2..][1..] == rs[3..];
    assert ExitCount(rs[2..]) == 3;
    assert rs[1..][1..] == rs[2..];
    assert ExitCount(rs[1..]) == 5;
  }

  /** The player starts alive at full sanity in the Grand Hallway with
      nothing carried. */
  lemma {:induction false} StartState(p: Prose)
    ensures Initial(p).rooms[Initial(p).player.location].name == "Grand Hallway"
    ensures var q := Initial(p).player; q.sanity == 100 && q.alive && q.inventory == [] && AliveMatchesSanity(q)
  {
  }

  /** The three items of the world lie in the hallway, the kitchen and the
      garden; the player carries none of them. */
  lemma {:induction false} InitialItems(p: Prose)
    ensures AllItems(Initial(p)) == multiset{Note, RustyKey, Flashlight}
    ensures Initial(p).rooms[Hallway].items == [Note]
    ensures Initial(p).rooms[Kitchen].items == [RustyKey]
    ensures Initial(p).rooms[Garden].items == [Flashlight]
  {
    var rs := InitialRooms(p);
    assert rs[..1] == [rs[0]] && rs[..1][..0] == [];
    assert RoomItems(rs[..1]) == multiset{Note};
    assert rs[..2][..1] == rs[..1];
    assert RoomItems(rs[..2]) == multiset{Note, RustyKey};
    assert rs[..3][..2] == rs[..2];
    assert RoomItems(rs[..3]) == multiset{Note, RustyKey};
    assert rs[..4][..3] == rs[..3];
    assert RoomItems(rs[..4]) == multiset{Note, RustyKey, Flashlight};
    assert rs[..4] == rs[..|rs| - 1];
  }

  /** Exactly one room is locked, the gate, and it opens with the rusty key,
      which lies in the kitchen. The only way in is east from the garden. */
  lemma {:induction false} TheGate(p: Prose)
    ensures forall i :: 0 <= i < 5 ==> (InitialRooms(p)[i].locked <==> i == Gate)
    ensures forall i :: 0 <= i < 5 ==> (InitialRooms(p)[i].keyNeeded.Some? <==> i == Gate)
    ensures InitialRooms(p)[Gate].keyNeeded == Some(RustyKey.name)
    ensures InitialRooms(p)[Gate].name == "The Gate"
    ensures forall i, d :: 0 <= i < 5 && d in InitialRooms(p)[i].exits && InitialRooms(p)[i].exits[d] == Gate
              ==> i == Garden && d == "east"
  {
  }

  /** The gate's dark text is empty, so it always shows its base
      description; every other room shows its dark text below 40 sanity. */
  lemma {:induction false} Descriptions(p: Prose, sanity: int)
    requires DarkTextsGiven(p)
    ensures Describe(InitialRooms(p)[Gate], sanity) == InitialRooms(p)[Gate].description
    ensures forall i :: 0 <= i < 4 ==>
      (Describe(InitialRooms(p)[i], sanity) == InitialRooms(p)[i].description <==> sanity >= DarkThreshold)
  {
    assert forall i :: 0 <= i < 4 ==> HasDarkText(InitialRooms(p)[i]);
  }
}
