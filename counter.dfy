/** The click counter: one integer `count`, changed by clicks on buttons,
    and a display whose colour follows the sign of the count and whose text
    is the count. */
module ClickCounter {
  import opened Text

  /** The colour of the display: green above zero, dark grey at zero, red
      below. */
  function Colour(count: int): (c: string)
    ensures c == "green" <==> count > 0
    ensures c == "#222" <==> count == 0
    ensures c == "red" <==> count < 0
  {
    if count > 0 then "green" else if count == 0 then "#222" else "red"
  }

  /** The counter and what the page's `#value` element shows. Before the
      first click the script has written neither colour nor text, which is
      modelled as the empty string. */
  class Counter {
    var count: int
    var colour: string
    var text: string

    constructor ()
      ensures count == 0 && colour == "" && text == ""
    {
      count, colour, text := 0, "", "";
    }

    /** A click on a button whose class list is `classes`: "decrease" wins
        over "increase", and a button with neither resets the count; then
        the colour and the text are written. */
    method Click(classes: set<string>)
      modifies this
      ensures "decrease" in classes ==> count == old(count) - 1
      ensures "decrease" !in classes && "increase" in classes ==> count == old(count) + 1
      ensures "decrease" !in classes && "increase" !in classes ==> count == 0 && colour == "#222"
      ensures colour == Colour(count)
      ensures text == IntToString(count)
    {
      if "decrease" in classes {
        count := count - 1;
      } else if "increase" in classes {
        count := count + 1;
      } else {
        count := 0;
      }
      colour := Colour(count);
      text := IntToString(count);
    }
  }
}
