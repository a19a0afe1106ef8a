/** The state of the game as values, and the rules of the Room and Player
    operations of horror.py as functions on those values: the
    sanity-dependent room description, the case-insensitive item lookup,
    `drain_sanity`, the status band, `move` and `take_item`. The classes of
    module Engine are proved to follow these functions. */
module Rules {
  import opened Text
  import opened Wrappers

  /** Rooms live in an arena; a room is named by its index in it. */
  type RoomId = nat

  /** An item is known by its name; `is_key` is carried along. The item's
      description is only ever printed, so it is not part of the model. */
  datatype Item = Item(name: string, isKey: bool)

  datatype RoomState = RoomState(
    name: string,
    description: string,
    darkDescription: Option<string>,
    exits: map<string, RoomId>,
    items: seq<Item>,
    locked: bool,
    keyNeeded: Option<string>)

  datatype PlayerState = PlayerState(location: RoomId, inventory: seq<Item>, sanity: int, alive: bool)

  datatype GameState = GameState(rooms: seq<RoomState>, player: PlayerState)

  /** Below this sanity a room with dark text shows it. */
  const DarkThreshold := 40

  /** Every exit leads to a room of the arena and the player stands in one. */
  predicate Wf(g: GameState) {
    && g.player.location < |g.rooms|
    && forall i, d :: 0 <= i < |g.rooms| && d in g.rooms[i].exits ==> g.rooms[i].exits[d] < |g.rooms|
  }

  /** The dark text is shown only when there is some: Python treats both
      `None` and `""` as absent. */
  predicate HasDarkText(room: RoomState) {
    room.darkDescription.Some? && room.darkDescription.value != []
  }

  /** `Room.get_description`: the base description, followed by the dark
      text when sanity is below the threshold and the room has dark text. */
  function Describe(room: RoomState, sanity: int): (d: string)
    ensures room.description <= d
    ensures d == room.description <==> sanity >= DarkThreshold || !HasDarkText(room)
    ensures d != room.description ==> d[|room.description|..] == "\n\n" + room.darkDescription.value
  {
    if sanity < DarkThreshold && HasDarkText(room) then
      room.description + "\n\n" + room.darkDescription.value
    else
      room.description
  }

  /** Item names compare equal ignoring case, as `a.lower() == b.lower()`. */
  predicate SameName(a: string, b: string) {
    Lower(a) == Lower(b)
  }

  /** The index `Room.remove_item` stops at: the first item whose name equals
      `name` ignoring case, if any. */
  function FirstNamed(items: seq<Item>, name: string): (r: Option<nat>)
    ensures r.Some? ==> r.value < |items| && SameName(items[r.value].name, name)
    ensures r.Some? ==> forall k :: 0 <= k < r.value ==> !SameName(items[k].name, name)
    ensures r.None? <==> forall k :: 0 <= k < |items| ==> !SameName(items[k].name, name)
  {
    if items == [] then None
    else if SameName(items[0].name, name) then Some(0)
    else match FirstNamed(items[1..], name)
      case None => None
      case Some(i) =>
        assert forall k :: 1 <= k < |items| ==> items[k] == items[1..][k - 1];
        Some(i + 1)
  }

  /** `items` with exactly the element at `i` taken out; the others keep their
      order, and nothing is lost or duplicated. */
  function RemoveAt(items: seq<Item>, i: nat): (r: seq<Item>)
    requires i < |items|
    ensures |r| == |items| - 1
    ensures forall k :: 0 <= k < i ==> r[k] == items[k]
    ensures forall k :: i <= k < |r| ==> r[k] == items[k + 1]
    ensures multiset(r) + multiset{items[i]} == multiset(items)
  {
    assert items == items[..i] + [items[i]] + items[i + 1..];
    items[..i] + items[i + 1..]
  }

  /** `name in [i.name for i in inventory]` for `key_needed`; a room whose
      `key_needed` is `None` cannot be opened. */
  predicate HoldsKey(inventory: seq<Item>, key: Option<string>) {
    key.Some? && exists k | 0 <= k < |inventory| :: inventory[k].name == key.value
  }

  /** `Player.drain_sanity`. */
  function Drain(p: PlayerState, amount: int): PlayerState {
    p.(sanity := p.sanity - amount, alive := p.alive && p.sanity - amount > 0)
  }

  /** The relation the game keeps between `alive` and `sanity`. */
  predicate AliveMatchesSanity(p: PlayerState) {
    p.alive <==> p.sanity > 0
  }

  /** `drain_sanity` lowers sanity by exactly `amount`, kills the player
      exactly when sanity reaches zero or below, never revives a dead player,
      touches nothing else, and a drain that is not negative keeps
      `alive <==> sanity > 0`. */
  lemma {:induction false} DrainFacts(p: PlayerState, amount: int)
    ensures Drain(p, amount).sanity == p.sanity - amount
    ensures Drain(p, amount).alive <==> p.alive && p.sanity - amount > 0
    ensures !p.alive ==> !Drain(p, amount).alive
    ensures Drain(p, amount).location == p.location && Drain(p, amount).inventory == p.inventory
    ensures amount >= 0 && AliveMatchesSanity(p) ==> AliveMatchesSanity(Drain(p, amount))
  {
  }

  /** The three colour bands of `Player.print_status`. */
  datatype Band = Steady | Warning | Fracturing

  function StatusBand(sanity: int): (b: Band)
    ensures b == Steady <==> sanity > 70
    ensures b == Warning <==> 30 < sanity <= 70
    ensures b == Fracturing <==> sanity <= 30
  {
    if sanity > 70 then Steady
    else if sanity > 30 then Warning
    else Fracturing
  }

  /** The text `print_status` appends after the percentage. */
  function StatusSuffix(sanity: int): (s: string)
    ensures s != [] <==> StatusBand(sanity) == Fracturing
    ensures StatusBand(sanity) == Fracturing ==> s == " (MIND FRACTURING)"
  {
    if StatusBand(sanity) == Fracturing then " (MIND FRACTURING)" else ""
  }

  function BandRank(b: Band): nat {
    match b
    case Fracturing => 0
    case Warning => 1
    case Steady => 2
  }

  /** Less sanity never shows a better band. */
  lemma {:induction false} BandMonotone(a: int, b: int)
    requires a <= b
    ensures BandRank(StatusBand(a)) <= BandRank(StatusBand(b))
  {
  }

  /** `Player.move`. `cost` is the value `random.randint(1, 3)` would give;
      it is spent only on a move into a room that was not locked. */
  function Move(g: GameState, direction: string, cost: int): (g': GameState)
    requires Wf(g)
    ensures Wf(g')
  {
    var here := g.rooms[g.player.location];
    if direction !in here.exits then g
    else
      var t := here.exits[direction];
      var next := g.rooms[t];
      if next.locked then
        if HoldsKey(g.player.inventory, next.keyNeeded) then
          GameState(g.rooms[t := next.(locked := false)], Drain(g.player.(location := t), 2))
        else g
      else
        GameState(g.rooms, Drain(g.player.(location := t), cost))
  }

  /** A move is blocked, and changes nothing at all, when there is no exit in
      that direction or the exit leads to a locked room whose key the player
      does not hold (compared case-sensitively). */
  lemma {:induction false} MoveBlocked(g: GameState, direction: string, cost: int)
    requires Wf(g)
    requires var here := g.rooms[g.player.location];
      || direction !in here.exits
      || (g.rooms[here.exits[direction]].locked
          && !HoldsKey(g.player.inventory, g.rooms[here.exits[direction]].keyNeeded))
    ensures Move(g, direction, cost) == g
  {
  }

  /** Holding the key of a locked room: the room is unlocked, the player
      enters it and loses exactly 2 sanity whatever `cost` is. */
  lemma {:induction false} MoveUnlocks(g: GameState, direction: string, cost: int)
    requires Wf(g)
    requires direction in g.rooms[g.player.location].exits
    requires var t := g.rooms[g.player.location].exits[direction];
      g.rooms[t].locked && HoldsKey(g.player.inventory, g.rooms[t].keyNeeded)
    ensures var t := g.rooms[g.player.location].exits[direction];
      var g' := Move(g, direction, cost);
      && g'.rooms == g.rooms[t := g.rooms[t].(locked := false)]
      && g'.player.location == t
      && g'.player.sanity == g.player.sanity - 2
      && g'.player.inventory == g.player.inventory
      && (g'.player.alive <==> g.player.alive && g'.player.sanity > 0)
  {
  }

  /** Into a room that is not locked: the player enters it, loses exactly
      `cost` sanity, and no room changes. */
  lemma {:induction false} MoveEnters(g: GameState, direction: string, cost: int)
    requires Wf(g)
    requires direction in g.rooms[g.player.location].exits
    requires !g.rooms[g.rooms[g.player.location].exits[direction]].locked
    ensures var g' := Move(g, direction, cost);
      && g'.rooms == g.rooms
      && g'.player.location == g.rooms[g.player.location].exits[direction]
      && g'.player.sanity == g.player.sanity - cost
      && g'.player.inventory == g.player.inventory
      && (g'.player.alive <==> g.player.alive && g'.player.sanity > 0)
  {
  }

  /** Whatever the outcome, a move keeps the arena well formed, changes no
      room's name, description, exits, items or key, only ever opens locks,
      and leaves the inventory alone, so no item appears or disappears. It
      costs nothing, 2, or `cost`; it
      never revives the player and, when `cost` is not negative, it keeps
      `alive <==> sanity > 0`. */
  lemma {:induction false} MoveFacts(g: GameState, direction: string, cost: int)
    requires Wf(g)
    ensures var g' := Move(g, direction, cost);
      && Wf(g') && SameLayout(g, g') && LocksOnlyOpen(g, g')
      && (forall i :: 0 <= i < |g.rooms| ==> g'.rooms[i].items == g.rooms[i].items)
      && g'.player.inventory == g.player.inventory
      && (g'.player.sanity == g.player.sanity
          || g'.player.sanity == g.player.sanity - 2
          || g'.player.sanity == g.player.sanity - cost)
      && (g'.player.alive ==> g.player.alive)
      && (cost >= 0 && AliveMatchesSanity(g.player) ==> AliveMatchesSanity(g'.player))
      && AllItems(g') == AllItems(g)
  {
    var here := g.rooms[g.player.location];
    if direction in here.exits {
      var t := here.exits[direction];
      DrainFacts(g.player.(location := t), 2);
      DrainFacts(g.player.(location := t), cost);
    }
    MoveConservesItems(g, direction, cost);
  }

  /** `Player.take_item`: the first item of the current room whose name
      equals `name` ignoring case moves to the end of the inventory. */
  function TakeItem(g: GameState, name: string): (g': GameState)
    requires Wf(g)
    ensures Wf(g')
  {
    var loc := g.player.location;
    var items := g.rooms[loc].items;
    match FirstNamed(items, name)
    case None => g
    case Some(i) =>
      GameState(g.rooms[loc := g.rooms[loc].(items := RemoveAt(items, i))],
                g.player.(inventory := g.player.inventory + [items[i]]))
  }

  /** Every item in the world: those lying in rooms and those carried. */
  function RoomItems(rooms: seq<RoomState>): multiset<Item> {
    if rooms == [] then multiset{} else RoomItems(rooms[..|rooms| - 1]) + multiset(rooms[|rooms| - 1].items)
  }

  function AllItems(g: GameState): multiset<Item> {
    RoomItems(g.rooms) + multiset(g.player.inventory)
  }

  /** Replacing one room changes the world's items by exactly that room's. */
  lemma {:induction false} RoomItemsUpdate(rooms: seq<RoomState>, i: nat, r: RoomState)
    requires i < |rooms|
    ensures RoomItems(rooms[i := r]) + multiset(rooms[i].items) == RoomItems(rooms) + multiset(r.items)
    decreases |rooms|
  {
    var n := |rooms| - 1;
    var rooms' := rooms[i := r];
    assert RoomItems(rooms) == RoomItems(rooms[..n]) + multiset(rooms[n].items);
    assert RoomItems(rooms') == RoomItems(rooms'[..n]) + multiset(rooms'[n].items);
    if i == n {
      assert rooms'[..n] == rooms[..n];
    } else {
      assert rooms'[..n] == rooms[..n][i := r];
      assert rooms'[n] == rooms[n] && rooms[..n][i] == rooms[i];
      RoomItemsUpdate(rooms[..n], i, r);
      var a, a' := RoomItems(rooms[..n]), RoomItems(rooms[..n][i := r]);
      var last, old_, new_ := multiset(rooms[n].items), multiset(rooms[i].items), multiset(r.items);
      assert a' + old_ == a + new_;
      calc {
        RoomItems(rooms') + old_;
        a' + last + old_;
        (a' + old_) + last;
        (a + new_) + last;
        a + last + new_;
      }
    }
  }

  lemma {:induction false} Cancel(a: multiset<Item>, b: multiset<Item>, c: multiset<Item>)
    requires a + c == b + c
    ensures a == b
  {
    assert forall x :: a[x] == (a + c)[x] - c[x];
  }

  /** Structure that no operation changes: the number of rooms, their names,
      descriptions, exits and keys. */
  predicate SameLayout(g: GameState, g': GameState) {
    && |g'.rooms| == |g.rooms|
    && forall i :: 0 <= i < |g.rooms| ==>
         g'.rooms[i].(items := [], locked := false) == g.rooms[i].(items := [], locked := false)
  }

  /** Locks only ever open. */
  predicate LocksOnlyOpen(g: GameState, g': GameState) {
    forall i :: 0 <= i < |g.rooms| && i < |g'.rooms| && g'.rooms[i].locked ==> g.rooms[i].locked
  }

  /** With no matching item nothing changes; otherwise exactly that item
      leaves the room, the rest keep their order, the inventory grows by it at
      the end, and no other room and nothing else about the player changes. */
  lemma {:induction false} TakeFacts(g: GameState, name: string)
    requires Wf(g)
    ensures var loc := g.player.location;
      var items := g.rooms[loc].items;
      var g' := TakeItem(g, name);
      && Wf(g') && SameLayout(g, g') && LocksOnlyOpen(g, g')
      && g'.player.(inventory := []) == g.player.(inventory := [])
      && (FirstNamed(items, name).None? ==> g' == g)
      && (FirstNamed(items, name).Some? ==>
            var i := FirstNamed(items, name).value;
            && g'.rooms == g.rooms[loc := g.rooms[loc].(items := RemoveAt(items, i))]
            && g'.player.inventory == g.player.inventory + [items[i]])
  {
  }

  /** Taking conserves the items of the world: what leaves the room is what
      enters the inventory, once. */
  lemma {:induction false} TakeConservesItems(g: GameState, name: string)
    requires Wf(g)
    ensures AllItems(TakeItem(g, name)) == AllItems(g)
  {
    var loc := g.player.location;
    var items := g.rooms[loc].items;
    match FirstNamed(items, name)
    case None =>
    case Some(i) =>
      var r := g.rooms[loc].(items := RemoveAt(items, i));
      var g' := TakeItem(g, name);
      assert g'.rooms == g.rooms[loc := r];
      assert g'.player.inventory == g.player.inventory + [items[i]];
      RoomItemsUpdate(g.rooms, loc, r);
      var world, world', x := RoomItems(g.rooms), RoomItems(g'.rooms), multiset{items[i]};
      assert world' + multiset(items) == world + multiset(r.items);
      assert world' + x + multiset(r.items) == world + multiset(r.items);
      Cancel(world' + x, world, multiset(r.items));
  }

  /** Moving neither picks up nor drops anything. */
  lemma {:induction false} MoveConservesItems(g: GameState, direction: string, cost: int)
    requires Wf(g)
    ensures AllItems(Move(g, direction, cost)) == AllItems(g)
  {
    var here := g.rooms[g.player.location];
    if direction in here.exits {
      var t := here.exits[direction];
      var next := g.rooms[t];
      if next.locked && HoldsKey(g.player.inventory, next.keyNeeded) {
        var r := next.(locked := false);
        RoomItemsUpdate(g.rooms, t, r);
        Cancel(RoomItems(g.rooms[t := r]), RoomItems(g.rooms), multiset(r.items));
      }
    }
  }
}
