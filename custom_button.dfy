/** The custom-painted button of 06_custom_gui/main.py: a pressed flag, a
    hover flag, and the background colour they select. */
module CustomGui {
  import opened Gui

  const PressedColor := Color(70, 130, 180)
  const HoverColor := Color(100, 180, 220)
  const NormalColor := Color(80, 150, 200)

  /** Pressed wins over hover, hover over normal. The three colours differ,
      so the colour tells which state the button is drawn in. */
  function BackgroundColor(pressed: bool, hover: bool): (c: Color)
    ensures c == PressedColor <==> pressed
    ensures c == HoverColor <==> !pressed && hover
    ensures c == NormalColor <==> !pressed && !hover
  {
    if pressed then PressedColor else if hover then HoverColor else NormalColor
  }

  class CustomButton {
    const text: string
    var isPressed: bool
    var isHover: bool

    constructor (text: string := "Click Me")
      ensures this.text == text && !isPressed && !isHover
    {
      this.text := text;
      isPressed := false;
      isHover := false;
    }

    /** The colour `paintEvent` fills the button with. */
    function Background(): Color
      reads this
    {
      BackgroundColor(isPressed, isHover)
    }

    /** Only the left button presses the button. */
    method MousePressEvent(button: MouseButton)
      modifies this
      ensures isPressed == (old(isPressed) || button == LeftButton)
      ensures isHover == old(isHover)
    {
      if button == LeftButton {
        isPressed := true;
      }
    }

    /** A left release clears the pressed state and reports a click. */
    method MouseReleaseEvent(button: MouseButton) returns (clicked: bool)
      modifies this
      ensures clicked <==> button == LeftButton
      ensures isPressed == (old(isPressed) && button != LeftButton)
      ensures isHover == old(isHover)
    {
      clicked := false;
      if button == LeftButton {
        isPressed := false;
        clicked := true;
      }
    }

    method EnterEvent()
      modifies this
      ensures isHover && isPressed == old(isPressed)
    {
      isHover := true;
    }

    /** Leaving the widget also cancels a press in progress. */
    method LeaveEvent()
      modifies this
      ensures !isHover && !isPressed
    {
      isHover := false;
      isPressed := false;
    }
  }

  /** A left click while hovering ends with the hover colour again. */
  method ClickWhileHovering(b: CustomButton) returns (clicked: bool)
    modifies b
    ensures clicked && b.Background() == HoverColor
  {
    b.EnterEvent();
    b.MousePressEvent(LeftButton);
    assert b.Background() == PressedColor;
    clicked := b.MouseReleaseEvent(LeftButton);
  }
}
