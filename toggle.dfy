/** CodeVisualToggle.jsx: the two-button switch between the visual and the code
    view. */
module Toggle {
  import opened Options

  class DisplayToggle {
    var current: string

    /** `useState(mode || "visual")`; an absent or empty `mode` is falsy. */
    constructor(mode: Option<string>)
      ensures mode.None? || mode.value == "" ==> current == "visual"
      ensures mode.Some? && mode.value != "" ==> current == mode.value
    {
      current := if mode.Some? && mode.value != "" then mode.value else "visual";
    }

    /** `handleToggle(newMode)`: the mode is replaced, and `onToggle` (when given)
        is called with the same mode.  Returns what the callback received. */
    method HandleToggle(newMode: string, hasCallback: bool) returns (notified: Option<string>)
      modifies this
      ensures current == newMode
      ensures notified == if hasCallback then Some(newMode) else None
    {
      current := newMode;
      notified := if hasCallback then Some(newMode) else None;
    }

    /** Whether the visual button carries the `active` class. */
    function VisualActive(): (b: bool)
      reads this
      ensures b <==> current == "visual"
    {
      current == "visual"
    }

    /** Whether the code button carries the `active` class; never together
        with the visual one. */
    function CodeActive(): (b: bool)
      reads this
      ensures b <==> current == "code"
      ensures b ==> !VisualActive()
    {
      current == "code"
    }
  }
}
