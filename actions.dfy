/** The two action primitives shared by every screen robot. They stand in for a UI
    driver and only report what they would do; each report is recorded here as one
    event appended to a shared trace. */
module Actions {
  import opened Registry

  /** One reported action: text typed into an element, or an element pressed. */
  datatype Event = EnterText(text: string, element: Element) | Press(element: Element)

  /** The output all primitives report to, as the ordered list of events so far. */
  class Console {
    var events: seq<Event>

    constructor ()
      ensures events == []
    {
      events := [];
    }
  }

  /** The shared primitives. Each robot holds one of these instead of inheriting it. */
  class BaseTest {
    const console: Console

    constructor (console: Console)
      ensures this.console == console
    {
      this.console := console;
    }

    /** Reports typing `text` into `textField`; no kind check is made. */
    method EnterTextInToTextField(text: string, textField: Element)
      modifies console
      ensures console.events == old(console.events) + [EnterText(text, textField)]
    {
      console.events := console.events + [EnterText(text, textField)];
    }

    /** Reports pressing `button`, whatever its kind. */
    method PressElement(button: Element)
      modifies console
      ensures console.events == old(console.events) + [Press(button)]
    {
      console.events := console.events + [Press(button)];
    }
  }
}
