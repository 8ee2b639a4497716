/** The resizable chat column of Home.jsx. */
module Home {
  import opened Widths

  const MinChatWidth := 350
  const MaxChatWidth := 700

  /** The page's `chatWidth` state, its `isResizing` ref and the body styles the
      handlers set. */
  class HomeLayout {
    var chatWidth: int
    var resizing: bool
    var cursor: string
    var userSelect: string

    /** Every width the page can hold: the initial 400 or a clamped one. */
    ghost predicate Valid()
      reads this
    {
      MinChatWidth <= chatWidth <= MaxChatWidth
    }

    constructor()
      ensures chatWidth == 400 && !resizing && Valid()
      ensures cursor == "" && userSelect == ""
    {
      chatWidth := 400;
      resizing := false;
      cursor := "";
      userSelect := "";
    }

    /** `handleMouseDown` on the divider. */
    method MouseDown()
      modifies this
      ensures resizing && cursor == "ew-resize" && userSelect == "none"
      ensures chatWidth == old(chatWidth)
    {
      resizing := true;
      cursor := "ew-resize";
      userSelect := "none";
    }

    /** `handleMouseMove`: while resizing, the width follows the pointer within
        350..700; otherwise nothing changes. */
    method MouseMove(clientX: int)
      requires Valid()
      modifies this
      ensures Valid()
      ensures resizing == old(resizing) && cursor == old(cursor) && userSelect == old(userSelect)
      ensures !resizing ==> chatWidth == old(chatWidth)
      ensures resizing ==> chatWidth == Clamp(clientX, MinChatWidth, MaxChatWidth)
      ensures resizing && MinChatWidth <= clientX <= MaxChatWidth ==> chatWidth == clientX
    {
      if !resizing {
        return;
      }
      chatWidth := Clamp(clientX, MinChatWidth, MaxChatWidth);
    }

    /** `handleMouseUp`, also bound to `onMouseLeave`. */
    method MouseUp()
      modifies this
      ensures !resizing && cursor == "default" && userSelect == "auto"
      ensures chatWidth == old(chatWidth)
    {
      resizing := false;
      cursor := "default";
      userSelect := "auto";
    }
  }
}
