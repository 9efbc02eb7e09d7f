/** A worked example of how a key combination text is cut into parts. */
module KeyboardExamples {
  import opened Base
  import Keyboard

  /** Blanks around the '+' and capitals disappear: "Ctrl + S" has the
      two parts "ctrl" and "s". */
  lemma ComboPartsExample()
    ensures |Keyboard.ComboParts("Ctrl + S")| == 2
    ensures Keyboard.ComboParts("Ctrl + S")[0] == "ctrl" && Keyboard.ComboParts("Ctrl + S")[1] == "s"
  {
    ExampleParts();
    LowerExample();
  }

  lemma ExampleParts()
    ensures |Keyboard.ComboParts("Ctrl + S")| == 2
    ensures Keyboard.ComboParts("Ctrl + S")[0] == Lower("Ctrl") && Keyboard.ComboParts("Ctrl + S")[1] == Lower("S")
  {
    SplitExample();
    TrimExample();
  }
}
