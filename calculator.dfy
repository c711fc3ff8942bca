/** The calculator of 03_calculator/main.py: a display line and a flag that
    makes the next key press start a fresh number. Python's `eval` is not
    modelled; the caller supplies its outcome. */
module Calculator {
  import opened Gui

  /** What evaluating the display text gave: the `str` of a value, or an
      exception. */
  datatype Evaluation = Evaluated(text: string) | Raised

  /** The text shown after an evaluation. */
  function ResultText(e: Evaluation): string {
    match e
    case Evaluated(t) => t
    case Raised => "Error"
  }

  /** One entry of the button table: its label, its grid cell and the
      optional row and column spans that follow them. */
  datatype ButtonSpec = ButtonSpec(text: string, row: nat, column: nat, span: seq<nat>)

  const Buttons: seq<ButtonSpec> := [
    ButtonSpec("7", 0, 0, []), ButtonSpec("8", 0, 1, []), ButtonSpec("9", 0, 2, []), ButtonSpec("/", 0, 3, []),
    ButtonSpec("4", 1, 0, []), ButtonSpec("5", 1, 1, []), ButtonSpec("6", 1, 2, []), ButtonSpec("*", 1, 3, []),
    ButtonSpec("1", 2, 0, []), ButtonSpec("2", 2, 1, []), ButtonSpec("3", 2, 2, []), ButtonSpec("-", 2, 3, []),
    ButtonSpec("0", 3, 0, []), ButtonSpec(".", 3, 1, []), ButtonSpec("=", 3, 2, []), ButtonSpec("+", 3, 3, []),
    ButtonSpec("C", 4, 0, [1, 4])
  ]

  function RowSpan(b: ButtonSpec): nat {
    if |b.span| > 0 then b.span[0] else 1
  }

  function ColumnSpan(b: ButtonSpec): nat {
    if |b.span| > 1 then b.span[1] else 1
  }

  /** The slot a button's `clicked` signal is connected to. */
  datatype Action = Calculate | Clear | Append(text: string)

  function ActionOf(text: string): Action {
    if text == "=" then Calculate else if text == "C" then Clear else Append(text)
  }

  /** "C" spans the whole bottom row; every other button is one cell. */
  lemma ButtonSpans(i: int)
    requires 0 <= i < |Buttons|
    ensures Buttons[i].text == "C" ==> RowSpan(Buttons[i]) == 1 && ColumnSpan(Buttons[i]) == 4
    ensures Buttons[i].text != "C" ==> RowSpan(Buttons[i]) == 1 && ColumnSpan(Buttons[i]) == 1
  {
    ButtonLayout(i);
  }

  /** Every button other than "=" and "C" types exactly its own label. */
  lemma ButtonActions(i: int)
    requires 0 <= i < |Buttons|
    ensures ActionOf(Buttons[i].text) == Calculate <==> i == 14
    ensures ActionOf(Buttons[i].text) == Clear <==> i == 16
    ensures i != 14 && i != 16 ==> ActionOf(Buttons[i].text) == Append(Buttons[i].text)
  {
    ButtonLayout(i);
  }

  /** Where each button sits: the first sixteen fill rows 0 to 3 left to
      right, and "C" comes last. */
  lemma ButtonLayout(i: int)
    requires 0 <= i < |Buttons|
    ensures i < 16 ==> Buttons[i].row == i / 4 && Buttons[i].column == i % 4 && Buttons[i].span == []
    ensures i < 16 ==> Buttons[i].text != "C" && (Buttons[i].text == "=" <==> i == 14)
    ensures i == 16 ==> Buttons[i] == ButtonSpec("C", 4, 0, [1, 4])
  {
    if i == 0 {} else if i == 1 {} else if i == 2 {} else if i == 3 {}
    else if i == 4 {} else if i == 5 {} else if i == 6 {} else if i == 7 {}
    else if i == 8 {} else if i == 9 {} else if i == 10 {} else if i == 11 {}
    else if i == 12 {} else if i == 13 {} else if i == 14 {} else if i == 15 {}
    else {}
  }

  predicate Covers(b: ButtonSpec, r: int, c: int) {
    b.row <= r < b.row + RowSpan(b) && b.column <= c < b.column + ColumnSpan(b)
  }

  /** The buttons tile the five-by-four grid: every cell has exactly one
      button, and no button reaches outside the grid. */
  lemma ButtonGridTiled(r: int, c: int)
    ensures 0 <= r < 5 && 0 <= c < 4 ==> exists i :: 0 <= i < |Buttons| && Covers(Buttons[i], r, c)
    ensures forall i, j :: 0 <= i < j < |Buttons| && Covers(Buttons[i], r, c) ==> !Covers(Buttons[j], r, c)
    ensures forall i :: 0 <= i < |Buttons| && Covers(Buttons[i], r, c) ==> 0 <= r < 5 && 0 <= c < 4
  {
    forall i | 0 <= i < |Buttons|
      ensures Covers(Buttons[i], r, c) <==> if i < 16 then r == i / 4 && c == i % 4 else r == 4 && 0 <= c < 4
    {
      ButtonLayout(i);
    }
    if 0 <= r < 4 && 0 <= c < 4 {
      assert Covers(Buttons[r * 4 + c], r, c);
    } else if r == 4 && 0 <= c < 4 {
      assert Covers(Buttons[16], r, c);
    }
    forall i, j | 0 <= i < j < |Buttons| && Covers(Buttons[i], r, c)
      ensures !Covers(Buttons[j], r, c)
    {
      if j < 16 {
        assert i == 4 * (i / 4) + i % 4 && j == 4 * (j / 4) + j % 4;
      }
    }
  }

  class Calculator {
    var display: string
    var resetNext: bool

    /** A new calculator shows nothing and will append to it. */
    constructor ()
      ensures display == "" && !resetNext
    {
      display := "";
      new;
      ResetCalc();
    }

    /** Types `text`; after a result, the result is replaced instead. The
        display is a line edit, so it keeps at most `MaxLength` UTF-16 code units. */
    method AddToDisplay(text: string)
      modifies this
      ensures display == LineEditText(if old(resetNext) then text else old(display) + text)
      ensures !old(resetNext) && Utf16Length(old(display)) + Utf16Length(text) <= MaxLength ==>
        display == old(display) + text
      ensures !resetNext
    {
      if resetNext {
        display := "";
        resetNext := false;
      }
      var current := display;
      assert old(resetNext) ==> current + text == text;
      if Utf16Length(current) + Utf16Length(text) <= MaxLength {
        LineEditKeepsFitting(current, text);
      }
      display := LineEditText(current + text);
    }

    method ClearDisplay()
      modifies this
      ensures display == "" && !resetNext
    {
      display := "";
      ResetCalc();
    }

    /** Shows the value of the expression on the display, or "Error" when
        evaluating it raised; either way the next key press starts afresh. */
    method CalculateResult(evaluate: string -> Evaluation)
      modifies this
      ensures display == LineEditText(ResultText(evaluate(old(display))))
      ensures evaluate(old(display)).Raised? ==> display == "Error"
      ensures resetNext
    {
      var expression := display;
      match evaluate(expression)
      case Evaluated(t) =>
        display := LineEditText(t);
        resetNext := true;
      case Raised =>
        display := "Error";
        resetNext := true;
    }

    method ResetCalc()
      modifies this`resetNext
      ensures !resetNext
    {
      resetNext := false;
    }

    /** A click on a button of the table runs the slot it is connected to. */
    method Click(b: ButtonSpec, evaluate: string -> Evaluation)
      modifies this
      ensures ActionOf(b.text) == Calculate ==> display == LineEditText(ResultText(evaluate(old(display)))) && resetNext
      ensures ActionOf(b.text) == Clear ==> display == "" && !resetNext
      ensures ActionOf(b.text).Append? ==>
        display == LineEditText(if old(resetNext) then b.text else old(display) + b.text) && !resetNext
    {
      match ActionOf(b.text)
      case Calculate => CalculateResult(evaluate);
      case Clear => ClearDisplay();
      case Append(t) => AddToDisplay(t);
    }
  }

  /** Typing digits after a result starts a new number instead of extending
      the result, whatever the result was. */
  method TypeAfterResult(calculator: Calculator, evaluate: string -> Evaluation)
    modifies calculator
    ensures calculator.display == "12" && !calculator.resetNext
  {
    calculator.CalculateResult(evaluate);
    calculator.AddToDisplay("1");
    calculator.AddToDisplay("2");
  }
}
