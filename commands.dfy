/**
 * The command line grammar: the player's (already lower-cased and trimmed)
 * line is dispatched on its prefix.
 */
module Commands {
  import opened Builtins

  datatype Command =
    | Move(direction: string)
    | Take(item: string)
    | Use(item: string)
    | Attack
    | ShowInventory
    | Quit
    | Invalid

  /** The first test of the chain that the line passes decides the command. */
  function Parse(choice: string): (r: Command)
    ensures r.Move? <==> StartsWith(choice, "move ")
    ensures r.Take? <==> !StartsWith(choice, "move ") && StartsWith(choice, "take ")
    ensures r.Use? <==> !StartsWith(choice, "move ") && !StartsWith(choice, "take ") && StartsWith(choice, "use ")
    ensures r.Move? ==> "move " + r.direction == choice
    ensures r.Take? ==> "take " + r.item == choice
    ensures r.Use? ==> "use " + r.item == choice
    ensures r.Attack? ==> choice == "attack"
    ensures r.ShowInventory? ==> choice == "inventory"
    ensures r.Quit? ==> choice == "quit"
    ensures r.Invalid? <==>
              && !StartsWith(choice, "move ") && !StartsWith(choice, "take ") && !StartsWith(choice, "use ")
              && choice != "attack" && choice != "inventory" && choice != "quit"
  {
    if StartsWith(choice, "move ") then Move(choice[5..])
    else if StartsWith(choice, "take ") then Take(choice[5..])
    else if StartsWith(choice, "use ") then Use(choice[4..])
    else if choice == "attack" then Attack
    else if choice == "inventory" then ShowInventory
    else if choice == "quit" then Quit
    else Invalid
  }

  /** The line that the help text tells the player to type for a command. */
  function Render(c: Command): string
    requires !c.Invalid?
  {
    match c
    case Move(direction) => "move " + direction
    case Take(item) => "take " + item
    case Use(item) => "use " + item
    case Attack => "attack"
    case ShowInventory => "inventory"
    case Quit => "quit"
  }

  /** Every command can be typed, and typing it is understood as that command. */
  lemma ParseRender(c: Command)
    requires !c.Invalid?
    ensures Parse(Render(c)) == c
  {
    match c
    case Move(d) =>
      assert ("move " + d)[..5] == "move ";
      assert ("move " + d)[5..] == d;
    case Take(d) =>
      assert ("take " + d)[..5] == "take ";
      assert ("take " + d)[5..] == d;
    case Use(d) =>
      assert ("use " + d)[..4] == "use ";
      assert ("use " + d)[4..] == d;
      assert ("use " + d)[0] == 'u';
    case Attack =>
      assert "attack"[..4][0] == 'a' && "attack"[..5][0] == 'a';
    case ShowInventory =>
      assert "inventory"[..4][0] == 'i' && "inventory"[..5][0] == 'i';
    case Quit =>
      assert "quit"[..4][0] == 'q';
      assert !StartsWith("quit", "move ") && !StartsWith("quit", "take ") && !StartsWith("quit", "use ");
      assert "quit" != "attack" && "quit" != "inventory";
  }

  /** Every line that is understood is exactly the rendering of its command. */
  lemma RenderParse(choice: string)
    requires !Parse(choice).Invalid?
    ensures Render(Parse(choice)) == choice
  {
    if StartsWith(choice, "move ") {
      assert choice == choice[..5] + choice[5..];
    } else if StartsWith(choice, "take ") {
      assert choice == choice[..5] + choice[5..];
    } else if StartsWith(choice, "use ") {
      assert choice == choice[..4] + choice[4..];
    }
  }
}
