/** The command table of `Game.play`: the typed line is lower-cased and split
    into tokens, and the first token selects the action. */
module Commands {
  import opened Text
  import opened Wrappers

  datatype Command =
    | Blank                     // nothing but whitespace was typed
    | Quit                      // quit, exit
    | Go(direction: string)     // one of the six directions or its initial
    | Look
    | Take(itemName: string)    // take followed by at least one word
    | Inventory                 // i, inv, inventory
    | Help
    | Unknown                   // everything else, including a bare take

  /** The six direction names `Player.move` is called with. */
  const Directions: seq<string> := ["north", "south", "east", "west", "up", "down"]

  /** The movement aliases: a direction is typed in full or as its initial. */
  function DirectionOf(word: string): (d: Option<string>)
    ensures d.Some? ==> d.value in Directions && (word == d.value || word == d.value[..1])
    ensures d.None? ==> forall k :: 0 <= k < |Directions| ==> word != Directions[k] && word != Directions[k][..1]
  {
    if word in ["n", "north"] then Some("north")
    else if word in ["s", "south"] then Some("south")
    else if word in ["e", "east"] then Some("east")
    else if word in ["w", "west"] then Some("west")
    else if word in ["u", "up"] then Some("up")
    else if word in ["d", "down"] then Some("down")
    else
      assert "north"[..1] == "n" && "south"[..1] == "s" && "east"[..1] == "e";
      assert "west"[..1] == "w" && "up"[..1] == "u" && "down"[..1] == "d";
      None
  }

  /** The dispatch chain of `Game.play` on the token list, in its order. */
  function ParseWords(words: seq<string>): Command {
    if words == [] then Blank
    else
      var action := words[0];
      if action in ["quit", "exit"] then Quit
      else if DirectionOf(action).Some? then Go(DirectionOf(action).value)
      else if action == "look" then Look
      else if action == "take" && |words| > 1 then Take(Join(words[1..]))
      else if action in ["i", "inv", "inventory"] then Inventory
      else if action == "help" then Help
      else Unknown
  }

  /** `input().lower().split()` followed by the dispatch chain. */
  function Parse(line: string): Command {
    ParseWords(Split(Lower(line)))
  }

  /** A line dispatches nothing exactly when it is all whitespace. */
  lemma {:induction false} ParseBlank(line: string)
    ensures Parse(line) == Blank <==> forall i :: 0 <= i < |line| ==> IsSpace(line[i])
  {
    var l := Lower(line);
    SplitEmpty(l);
    forall i | 0 <= i < |line| ensures IsSpace(l[i]) <==> IsSpace(line[i]) {
      LowerKeepsSpace(line[i]);
    }
  }

  /** Commands are case-insensitive: upper-case letters in the line make no
      difference. */
  lemma {:induction false} ParseIgnoresCase(line: string)
    ensures Parse(Lower(line)) == Parse(line)
  {
    LowerFacts(line);
  }

  /** A line leaves the game exactly when its first token is `quit` or
      `exit`. */
  lemma {:induction false} ParseQuit(line: string)
    ensures var words := Split(Lower(line));
      Parse(line) == Quit <==> words != [] && (words[0] == "quit" || words[0] == "exit")
  {
  }

  /** A line moves the player exactly when its first token is a direction or
      a direction's initial, and then in the direction that token names. */
  lemma {:induction false} ParseGo(line: string)
    ensures var words := Split(Lower(line));
      Parse(line).Go? <==> words != [] && DirectionOf(words[0]).Some?
    ensures Parse(line).Go? ==> Parse(line).direction == DirectionOf(Split(Lower(line))[0]).value
    ensures Parse(line).Go? ==> Parse(line).direction in Directions
  {
  }

  /** `take` selects the take action only with at least one more token, and
      the item name it searches for is those tokens joined by single spaces:
      it is lower-case, and splitting it gives them back. A bare `take` is not
      understood. */
  lemma {:induction false} ParseTake(line: string)
    ensures var words := Split(Lower(line));
      Parse(line).Take? <==> |words| > 1 && words[0] == "take"
    ensures var words := Split(Lower(line));
      Parse(line).Take? ==>
        var n := Parse(line).itemName;
        n == Join(words[1..]) && n != [] && IsLowerCase(n) && Split(n) == words[1..]
    ensures Split(Lower(line)) == ["take"] ==> Parse(line) == Unknown
  {
    var words := Split(Lower(line));
    if |words| > 1 && words[0] == "take" {
      var rest := words[1..];
      assert forall k :: 0 <= k < |rest| ==> IsWord(rest[k]);
      SplitJoin(rest);
      LowerFacts(line);
      SplitLowerCase(Lower(line));
      JoinLowerCase(rest);
    }
  }

  /** A line that is already lower-case tokens separated by single spaces
      is dispatched on exactly those tokens. */
  lemma {:induction false} ParseJoined(words: seq<string>)
    requires forall k :: 0 <= k < |words| ==> IsWord(words[k]) && IsLowerCase(words[k])
    ensures Parse(Join(words)) == ParseWords(words)
  {
    JoinLowerCase(words);
    LowerFacts(Join(words));
    SplitJoin(words);
  }

  /** `take a b`, for two lower-case words, searches for the two words
      joined by a single space. */
  lemma {:induction false} ParseTakeTwo(a: string, b: string)
    requires IsWord(a) && IsLowerCase(a) && IsWord(b) && IsLowerCase(b)
    ensures Parse("take " + a + " " + b) == Take(a + " " + b)
  {
    var words := ["take", a, b];
    assert words[1..] == [a, b] && words[1..][1..] == [b];
    assert Join([a, b]) == a + " " + b;
    assert Join(words) == "take" + " " + (a + " " + b);
    assert "take" + " " + (a + " " + b) == "take " + a + " " + b;
    ParseJoined(words);
  }
}
