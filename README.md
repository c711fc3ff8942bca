# PyQt demos, modelled in Dafny

A model of the logic inside a set of small PyQt6 demo applications, with
proofs of what each one promises. The main demo is the student records
manager (`08_mvc/main.py`), an example of the model/view pattern. It has:

- a table model that owns an ordered list of five-field student records;
- a dialog whose widgets bound the values a record can take;
- add, edit and delete handlers that reach the model through a
  sort/filter proxy.

Beside it sit:

- the calculator's display state machine (`03_calculator/main.py`);
- the signal/slot counter (`07_signal_slot/01_simple.py`);
- the custom-painted button's press/hover states and colours
  (`06_custom_gui/main.py`);
- the shape canvas's drag gesture and shape list
  (`05_paint_canvas/02_shape_drawing.py`);
- the image canvas's integer per-pixel filters
  (`05_paint_canvas/03_image_canvas_with_filter.py`);
- the browser's URL normalisation (`01_web_browser/main.py`);
- the event notifier's dispatch and log formatting
  (`07_signal_slot/03_event_notifier.py`).

One module per demo:

| file | module | models |
|---|---|---|
| `strings.dfy` | `Strings` | Python's `str.startswith`, and `str(n)` on integers with its inverse |
| `gui.dfy` | `Gui` | `QColor` (8-bit channels, alpha defaults to opaque), mouse buttons, `QPoint`, and `QLineEdit`'s length limit (`MaxLength`, `Utf16Length`, `LineEditText`) |
| `student_records.dfy` | `StudentRecords` | `Student`, `StudentTableModel`, `StudentDialog`, the proxy's row map, `StudentRecordsApp`'s handlers |
| `calculator.dfy` | `Calculator` | the button table and the `Calculator` window's slots |
| `counter.dfy` | `Counter` | `CounterWidget` |
| `custom_button.dfy` | `CustomGui` | `CustomButton` |
| `shape_drawing.dfy` | `ShapeDrawing` | `ShapeCanvas` and `draw_shape` |
| `image_filter.dfy` | `ImageFilter` | `ImageCanvas` over 2-D pixel arrays |
| `web_browser.dfy` | `WebBrowser` | `navigate_to_url`'s normalisation |
| `event_notifier.dfy` | `EventNotifier` | `EventGenerator`'s events and `EventMonitor`'s log |

## How the model is shaped

**Objects stay objects.** Every object whose methods update its fields is a
Dafny `class` with those fields. This covers the table model, the calculator,
the counter, the button, the canvases and the event monitor.

- A Python list the object appends to or deletes from becomes a `seq` field
  that the methods reassign.
- An image becomes an `array2` of colours, indexed `[y, x]`. The filters
  write it in nested loops, as the source does.
- Pure lookups and choices are functions: cell data, header data, background
  colour, triangle vertices, URL normalisation and log formatting.

**Signals are logs.** A signal with observable effects becomes a ghost log
on its object:

- the table model's row and data announcements;
- the values the counter's `value_changed` has carried.

The event notifier's signals connect straight to the monitor's slots, so
`GenerateEvent` calls the slot directly.

**Outside inputs are parameters.** These arrive as method parameters:

- Python's `eval`: the outcome of evaluating the display text.
- The clock (`time.strftime`): the timestamp.
- The user's dialog inputs, and whether the dialog was accepted.
- The user's answer to the delete confirmation.
- The decoded image file.
- The proxy's current row mapping.

**Records and signals.**

- A student's id is whatever the dialog's id spin box holds.
- Nothing mints ids or checks two records for the same id.
- There are no field validators.
- Signals are delivered synchronously.

**Dialog decisions.**

- `QSpinBox.setValue` moves an out-of-range value to the nearer end of the
  range.
- A fresh spin box holds its minimum: id 1, age 16.
- A fresh combo box selects its first item, "A".
- An edited record whose grade is not in the list leaves the first item
  selected.
- A `QLineEdit` holds at most 32767 UTF-16 code units, its default
  `maxLength`. A character beyond U+FFFF, such as an emoji, takes two units;
  every other character takes one. `setText` with a longer text keeps the
  longest prefix that fits. This
  applies to the name and major fields and to the calculator's display.

For this reason opening a record for editing and accepting it unchanged
returns the same record exactly when the record lies in the dialog's domain.
`EditDialogRoundTrip` proves this.

**Image decisions.**

- `QColor(image.pixel(x, y))` keeps only the colour channels, so Invert and
  Red Channel produce opaque pixels.
- "Original" copies the image, alpha and all.
- A file that fails to decode leaves a null pixmap, which PyQt treats as
  false. The model treats it as "no image".

## Model

| member | source | states |
|---|---|---|
| Strings.StartsWithPointwise | 08_mvc/main.py:61 | `startswith` holds exactly when the prefix is no longer than the text and agrees with it character by character |
| Strings.IntToString | 07_signal_slot/01_simple.py:60 | `str(n)` of an int is non-empty and starts with '-' exactly for negative numbers |
| Strings.IntToStringRoundTrip | 07_signal_slot/01_simple.py:60 | the decimal rendering of any integer parses back to that integer |
| Strings.IntToStringInjective | 07_signal_slot/01_simple.py:60 | distinct integers give distinct label texts |
| Gui.LineEditText | 08_mvc/main.py:143 | a line edit keeps a text of at most 32767 UTF-16 code units unchanged, and otherwise keeps the longest prefix of the text that fits in 32767 units |
| Gui.Utf16Length | 08_mvc/main.py:143 | a text has at least one and at most two UTF-16 code units per character |
| Gui.Utf16LengthConcat | 08_mvc/main.py:143 | the code units of two texts put together add up |
| Gui.Utf16LengthBasic | 03_calculator/main.py:68 | a text with no character beyond U+FFFF, such as the calculator's ASCII labels, has one code unit per character |
| Gui.Utf16LengthWide | 08_mvc/main.py:143 | a text of characters beyond U+FFFF has two code units per character |
| Gui.LineEditKeepsFitting | 03_calculator/main.py:67-68 | two texts whose code units total at most 32767 are kept whole when set together |
| Gui.LineEditCutsWideText | 08_mvc/main.py:143 | a text of characters beyond U+FFFF is cut exactly when it has more than 16383 of them, and at most 16383 remain |
| StudentRecords.Fields | 08_mvc/main.py:47-56 | a record has one display value per header column |
| StudentRecords.FieldsRoundTrip | 08_mvc/main.py:10-16 | the five display values of a row determine the record: it can be read back from them |
| StudentRecords.RemoveAt | 08_mvc/main.py:83 | `del students[row]` shrinks the list by one, keeps the rows before `row` and shifts every later row down by exactly one |
| StudentRecords.RemoveAtMultiset | 08_mvc/main.py:83 | the deletion removes exactly the record at `row`: the remaining records plus it are the old list as a multiset |
| StudentRecords.StudentTableModel.constructor | 08_mvc/main.py:22-31 | a new model holds the four seed records in order, has 4 rows and 5 columns, and announced four insertions at rows 0..3 |
| StudentRecords.StudentTableModel.Data | 08_mvc/main.py:39-64 | invalid index gives None; display role gives id, name, age, grade, major for columns 0..4 and None for any other column; background role gives the light-green colour exactly when the column is 3 and the grade starts with "A", and None otherwise; every other role gives None |
| StudentRecords.StudentTableModel.HeaderData | 08_mvc/main.py:66-69 | a header is returned exactly for horizontal display-role requests, and it is `headers[section]` |
| StudentRecords.StudentTableModel.AddStudent | 08_mvc/main.py:71-76 | always succeeds; the new record goes last, earlier rows are unchanged, and an insertion at the old row count is announced |
| StudentRecords.StudentTableModel.RemoveStudent | 08_mvc/main.py:78-85 | succeeds exactly for an existing row; then the list is the old one with that row deleted and a removal of that row is announced; otherwise the list and log are unchanged |
| StudentRecords.StudentTableModel.UpdateStudent | 08_mvc/main.py:87-94 | succeeds exactly for an existing row; then only that row is replaced and a data change from column 0 to the last column of that row is announced; otherwise nothing changes |
| StudentRecords.HighlightedGrades | 08_mvc/main.py:61 | of the eleven grades the dialog offers, exactly "A" and "A-" are highlighted |
| StudentRecords.Clamp | 08_mvc/main.py:141-144 | a spin box value always lies in its range; a value already in range is kept, one below it becomes the minimum and one above it the maximum |
| StudentRecords.FindText | 08_mvc/main.py:145-147 | `findText` returns -1 exactly when the text is absent, and otherwise the first index holding it |
| StudentRecords.StudentDialog.Edit | 08_mvc/main.py:106-131 | whatever the user types, the spin boxes stay in their ranges and the line edits hold at most 32767 UTF-16 code units |
| StudentRecords.StudentDialog.Run | 08_mvc/main.py:106-131 | after any sequence of inputs the spin boxes stay in their ranges and the line edits hold at most 32767 UTF-16 code units |
| StudentRecords.StudentDialog.GetStudent | 08_mvc/main.py:150-157 | the record built from the widgets has id in 1..9999, age in 16..99, a grade from the eleven-item list, and a name and major of at most 32767 UTF-16 code units |
| StudentRecords.OpenDialog | 08_mvc/main.py:100-148 | a new dialog's widgets are in range, and an untouched "Add Student" dialog yields id 1, age 16, grade "A" and empty texts |
| StudentRecords.EditDialogRoundTrip | 08_mvc/main.py:141-157 | accepting an edit dialog unchanged gives back the same record if and only if the record lies in the dialog's domain: id and age in range, grade in the list, name and major of at most 32767 UTF-16 code units |
| StudentRecords.InputsProduce | 08_mvc/main.py:150-157 | typing a domain record's id, name, age, grade choice and major into a blank dialog yields exactly that record |
| StudentRecords.DialogDomainReachable | 08_mvc/main.py:110-131 | every record of the dialog's domain can be produced by some inputs: together with `GetStudent` the domain is exactly what the dialog yields |
| StudentRecords.InitialStudentsEditable | 08_mvc/main.py:28-31 | every seed record lies in the dialog's domain, so editing it without changes keeps it |
| StudentRecords.ProxyRowsBounded | 08_mvc/main.py:177-178 | a proxy mapping its rows injectively into the source rows never shows more rows than the source has |
| StudentRecords.StudentRecordsApp.constructor | 08_mvc/main.py:174 | the window's model starts with the four seed records |
| StudentRecords.StudentRecordsApp.AddStudent | 08_mvc/main.py:220-224 | an accepted dialog appends the dialog's record to the model; a rejected one changes nothing |
| StudentRecords.StudentRecordsApp.EditStudent | 08_mvc/main.py:227-244 | no selection warns and changes nothing; otherwise the source row the proxy maps the first selected row to, not the proxy row, is replaced by the accepted dialog's record, which was opened on that row's record |
| StudentRecords.StudentRecordsApp.DeleteStudent | 08_mvc/main.py:247-266 | no selection warns and asks nothing; otherwise the question names the student in the mapped source row, and a confirmed deletion removes exactly that source row |
| Calculator.ButtonLayout | 03_calculator/main.py:35-41 | the first sixteen buttons fill rows 0..3 left to right without spans, "=" is the fifteenth, and "C" comes last at row 4 with spans 1 and 4 |
| Calculator.ButtonSpans | 03_calculator/main.py:58-59 | "C" spans one row and four columns; every other button is one cell |
| Calculator.ButtonActions | 03_calculator/main.py:50-55 | only "=" calculates and only "C" clears; every other button appends exactly its own label |
| Calculator.ButtonGridTiled | 03_calculator/main.py:35-60 | the buttons tile the five-by-four grid: each cell is covered by exactly one button and no button reaches outside |
| Calculator.Calculator.constructor | 03_calculator/main.py:7-10 | a new calculator shows nothing and will append |
| Calculator.Calculator.AddToDisplay | 03_calculator/main.py:62-68 | after a result the display becomes the text, otherwise the old text plus the text, cut to 32767 UTF-16 code units; when the two fit together the old text is extended exactly; the flag is cleared |
| Calculator.Calculator.ClearDisplay | 03_calculator/main.py:70-72 | the display is empty and the flag cleared |
| Calculator.Calculator.CalculateResult | 03_calculator/main.py:74-82 | the display shows the evaluation's text cut to 32767 UTF-16 code units, exactly "Error" if evaluating raised, and the next key press starts afresh |
| Calculator.Calculator.ResetCalc | 03_calculator/main.py:84-85 | the flag is cleared and nothing else changes |
| Calculator.Calculator.Click | 03_calculator/main.py:44-55 | a click runs the slot its label is connected to, with that slot's effect, the display cut to 32767 UTF-16 code units |
| Calculator.TypeAfterResult | 03_calculator/main.py:62-82 | typing "1" then "2" after any result shows "12", not the result extended |
| Counter.CounterWidget.constructor | 07_signal_slot/01_simple.py:10-19 | the counter starts at 0 and the label shows "0" |
| Counter.CounterWidget.Increment | 07_signal_slot/01_simple.py:44-46 | adds exactly one, emits the new value, and the label shows it |
| Counter.CounterWidget.Decrement | 07_signal_slot/01_simple.py:49-51 | subtracts exactly one with no lower bound, emits the new value, and the label shows it |
| Counter.CounterWidget.Reset | 07_signal_slot/01_simple.py:54-56 | sets the counter to 0 whatever it was and emits 0 |
| Counter.CounterWidget.EmitValueChanged | 07_signal_slot/01_simple.py:39 | emitting `value_changed` logs the value and runs the connected `update_label` slot |
| Counter.CounterWidget.UpdateLabel | 07_signal_slot/01_simple.py:59-60 | the label shows the decimal string of the value |
| Counter.LabelShowsCounter | 07_signal_slot/01_simple.py:59-60 | reading the label back as a number gives the counter |
| Counter.IncrementThenDecrement | 07_signal_slot/01_simple.py:44-51 | an increment followed by a decrement restores counter and label, having emitted the value plus one and then the value |
| CustomGui.BackgroundColor | 06_custom_gui/main.py:28-36 | pressed gives steel blue whatever the hover state; otherwise hover gives light blue; otherwise medium blue, each if and only if |
| CustomGui.CustomButton.constructor | 06_custom_gui/main.py:8-12 | a new button keeps its text and is neither pressed nor hovered |
| CustomGui.CustomButton.MousePressEvent | 06_custom_gui/main.py:51-54 | a left press sets pressed; any other button changes nothing; hover is untouched |
| CustomGui.CustomButton.MouseReleaseEvent | 06_custom_gui/main.py:56-61 | a left release clears pressed and reports a click; hover is untouched; any other button changes nothing |
| CustomGui.CustomButton.EnterEvent | 06_custom_gui/main.py:63-65 | sets hover without touching pressed |
| CustomGui.CustomButton.LeaveEvent | 06_custom_gui/main.py:67-70 | clears both hover and pressed |
| CustomGui.ClickWhileHovering | 06_custom_gui/main.py:51-65 | a left click while hovering is reported and leaves the hover colour showing |
| ShapeDrawing.TriangleVertices | 05_paint_canvas/02_shape_drawing.py:81-82 | the triangle runs from the start point via (start.x, end.y) to the end point |
| ShapeDrawing.TriangleRightAngle | 05_paint_canvas/02_shape_drawing.py:82 | the two legs of the triangle meet at a right angle |
| ShapeDrawing.DrawShape | 05_paint_canvas/02_shape_drawing.py:72-108 | a triangle is drawn as the closed path through its vertices, every path drawn is closed, and nothing is drawn exactly for an unknown type |
| ShapeDrawing.ShapeCanvas.constructor | 05_paint_canvas/02_shape_drawing.py:9-25 | rectangles, not drawing, black pen, transparent white brush, no shapes |
| ShapeDrawing.ShapeCanvas.MousePressEvent | 05_paint_canvas/02_shape_drawing.py:27-32 | a left press starts drawing with start and end at the press point, and nothing else changes; another button changes nothing |
| ShapeDrawing.ShapeCanvas.MouseMoveEvent | 05_paint_canvas/02_shape_drawing.py:34-37 | only the end point follows the mouse, and only while the left button is held during a drag |
| ShapeDrawing.ShapeCanvas.MouseReleaseEvent | 05_paint_canvas/02_shape_drawing.py:39-51 | ending a left drag stops drawing and appends exactly one shape carrying the type, points, pen (width 2, solid) and brush of that moment; otherwise nothing changes |
| ShapeDrawing.ShapeCanvas.SetShape | 05_paint_canvas/02_shape_drawing.py:110-111 | changes only the shape type |
| ShapeDrawing.ShapeCanvas.SetPenColor | 05_paint_canvas/02_shape_drawing.py:113-114 | changes only the pen colour; stored shapes keep theirs |
| ShapeDrawing.ShapeCanvas.SetBrushColor | 05_paint_canvas/02_shape_drawing.py:116-117 | changes only the brush colour; stored shapes keep theirs |
| ShapeDrawing.ShapeCanvas.ClearCanvas | 05_paint_canvas/02_shape_drawing.py:119-121 | empties the shape list and changes nothing else |
| ShapeDrawing.DragThenRecolor | 05_paint_canvas/02_shape_drawing.py:27-51 | a complete drag adds one shape from the press point to the last point moved to, and recolouring the pen afterwards leaves that shape's pen as drawn |
| ImageFilter.InvertPixel | 05_paint_canvas/03_image_canvas_with_filter.py:58-65 | each channel becomes 255 minus itself, and the pixel is opaque |
| ImageFilter.RedChannelPixel | 05_paint_canvas/03_image_canvas_with_filter.py:86-91 | red is kept, green and blue become 0, and the pixel is opaque |
| ImageFilter.Pixels | 05_paint_canvas/03_image_canvas_with_filter.py:43-45 | an image's rows hold, at each position, the pixel the image holds there |
| ImageFilter.Filtered | 05_paint_canvas/03_image_canvas_with_filter.py:50-94 | a filtered image has the original's size; "Original" is the image itself; Invert and Red Channel apply their pixel function at every position |
| ImageFilter.InvertTwice | 05_paint_canvas/03_image_canvas_with_filter.py:58-65 | inverting an opaque image twice gives it back |
| ImageFilter.RedChannelTwice | 05_paint_canvas/03_image_canvas_with_filter.py:86-91 | the red channel filter applied to its own result changes nothing |
| ImageFilter.FillPixels | 05_paint_canvas/03_image_canvas_with_filter.py:58-91 | the nested loops leave every result pixel equal to the filter applied to the source pixel at the same position |
| ImageFilter.CopyImage | 05_paint_canvas/03_image_canvas_with_filter.py:94 | a copy is a new image of the same size with the same pixels |
| ImageFilter.ImageCanvas.constructor | 05_paint_canvas/03_image_canvas_with_filter.py:9-15 | a new canvas has no original and no current image |
| ImageFilter.ImageCanvas.LoadImage | 05_paint_canvas/03_image_canvas_with_filter.py:17-24 | succeeds exactly when the image decoded; then the image on show is a new copy of it; otherwise the image on show is unchanged |
| ImageFilter.ImageCanvas.ApplyFilter | 05_paint_canvas/03_image_canvas_with_filter.py:38-98 | with no original nothing changes; otherwise the image on show is a new image of the original's size, and for Invert, Red Channel and Original it is the filter applied to the original |
| ImageFilter.ImageCanvas.ResetImage | 05_paint_canvas/03_image_canvas_with_filter.py:100-103 | with an original the image on show becomes a new copy of it; otherwise nothing changes |
| ImageFilter.FilterThenFilter | 05_paint_canvas/03_image_canvas_with_filter.py:38-97 | filters read the original, never the image on show: applying any filter and then a modelled one equals applying the second alone, and applying one twice equals applying it once |
| WebBrowser.NormaliseUrl | 01_web_browser/main.py:65-72 | a URL with an exact "http://" or "https://" prefix passes unchanged; any other, the empty one included, gets "http://" in front; the result always has a scheme |
| WebBrowser.NormaliseIdempotent | 01_web_browser/main.py:69-70 | normalising twice equals normalising once |
| WebBrowser.NormaliseEmpty | 01_web_browser/main.py:69-70 | the empty URL becomes "http://" |
| WebBrowser.NormaliseIsCaseSensitive | 01_web_browser/main.py:69 | the prefix test is case-sensitive: "HTTP://a" becomes "http://HTTP://a" |
| EventNotifier.GenerateInfo | 07_signal_slot/03_event_notifier.py:18-20 | an info event carries exactly the given message and timestamp |
| EventNotifier.GenerateWarning | 07_signal_slot/03_event_notifier.py:22-24 | a warning event carries the given message, timestamp and priority |
| EventNotifier.GenerateError | 07_signal_slot/03_event_notifier.py:26-28 | an error event carries the given message, timestamp, code and source |
| EventNotifier.DefaultArguments | 07_signal_slot/03_event_notifier.py:22-28 | a warning defaults to priority 1, an error to code 404 and source "system" |
| EventNotifier.SelectedEvent | 07_signal_slot/03_event_notifier.py:73-82 | the event carries the given timestamp; "Info" gives an info event, "Warning" a warning event, and any other text an error event, each if and only if |
| EventNotifier.SelectedEvents | 07_signal_slot/03_event_notifier.py:73-82 | the three events in full: the info, warning (priority 2) and error (code 503, source "network") messages |
| EventNotifier.ParseHeader | 07_signal_slot/03_event_notifier.py:85-100 | a header read from a line has its level's tag in front and an eight-character timestamp |
| EventNotifier.FormatEvent | 07_signal_slot/03_event_notifier.py:85-100 | every log line starts with its level's tag, and is as long as the tag, timestamp, " - ", message and level-specific detail together |
| EventNotifier.EntryFor | 07_signal_slot/03_event_notifier.py:85-100 | a log entry holds the event's line, in blue exactly for info, dark yellow exactly for warnings and red exactly for errors |
| EventNotifier.HeaderOf | 07_signal_slot/03_event_notifier.py:85-100 | any tag, eight-character timestamp and " - " read back as that level and timestamp |
| EventNotifier.HeaderRoundTrip | 07_signal_slot/03_event_notifier.py:85-100 | the level and the "%H:%M:%S" timestamp of any event can be read back from its log line |
| EventNotifier.InfoLine | 07_signal_slot/03_event_notifier.py:87 | an info line is exactly "[INFO] {timestamp} - {message}" |
| EventNotifier.WarningLine | 07_signal_slot/03_event_notifier.py:93 | a warning line is exactly "[WARNING] {timestamp} - {message} (Priority: {priority})" |
| EventNotifier.ErrorLine | 07_signal_slot/03_event_notifier.py:99 | an error line is exactly "[ERROR] {timestamp} - {message} (Code: {code}, Source: {source})" |
| EventNotifier.ParseInfo | 07_signal_slot/03_event_notifier.py:85-88 | only a line with the info tag reads back as an info event |
| EventNotifier.InfoRoundTrip | 07_signal_slot/03_event_notifier.py:85-88 | an info event is read back whole, message and timestamp, from its log line |
| EventNotifier.OthersAreNotInfo | 07_signal_slot/03_event_notifier.py:91-100 | warning and error lines never read back as info events |
| EventNotifier.LevelsDistinguishable | 07_signal_slot/03_event_notifier.py:85-100 | events of different levels give different lines and different colours |
| EventNotifier.EventMonitor.constructor | 07_signal_slot/03_event_notifier.py:62 | the log starts empty |
| EventNotifier.EventMonitor.GenerateEvent | 07_signal_slot/03_event_notifier.py:73-82 | one entry is appended, for the selected event, and earlier entries stay in order |
| EventNotifier.EventMonitor.OnInfoEvent | 07_signal_slot/03_event_notifier.py:85-88 | appends the info line in blue after the earlier entries |
| EventNotifier.EventMonitor.OnWarningEvent | 07_signal_slot/03_event_notifier.py:91-94 | appends the warning line in dark yellow after the earlier entries |
| EventNotifier.EventMonitor.OnErrorEvent | 07_signal_slot/03_event_notifier.py:97-100 | appends the error line in red after the earlier entries |
| EventNotifier.EventMonitor.ClearLog | 07_signal_slot/03_event_notifier.py:68 | the log is empty |

## Left out

- The sort/filter proxy's own behaviour: its case-insensitive
  all-column filter (`filter_records`), its sort order and how it computes
  `mapToSource`. These are library code. The proxy is only a mapping of its
  rows to distinct source rows, passed to the handlers. The model does not
  follow how Qt re-maps it after the model changes.
- An insertion or removal is bracketed by a begin/end call pair in Qt. The
  model logs the pair as one entry.
- StudentRecords.StudentTableModel.Data: requires a valid index to name an
  existing row. Qt hands `data` only such indexes. A Python caller passing
  another would get an `IndexError`.
- `rowCount` and `columnCount` are the list and header lengths. They are
  stated through the constructor and the mutators.
- The dialog's window title, layout and button box are not modelled. Whether
  it was accepted is a parameter.
- The calculator's `eval` is Python's evaluator. The model takes its outcome
  as a parameter: the `str` of a value, or an exception.
- The button table's styling and fixed heights are not modelled.
- Floating point is not modelled:
  - the Grayscale and Sepia filters;
  - the star's vertices (a star is drawn as `DrawStar` of its two
    corners);
  - the temperature converter of `07_signal_slot/02_temperature.py`.
- ImageFilter.ImageCanvas.ApplyFilter: for Grayscale and Sepia, which are
  floating point, and for an unknown name, the image on show is only
  stated to be a new image of the original's size. In the source an unknown
  name shows an uninitialised image of that size.
- Decoding an image file is file I/O. `LoadImage` takes the decoded image,
  or null for a failed decode. `ImageFilterApp`'s status label is not
  modelled.
- Timestamps come from the clock (`time.strftime`) and are parameters.
- The button release's `print("Button clicked!")` is console output. It is
  modelled as the `clicked` result.
- All painting and repaint requests are not modelled: `paintEvent`,
  `update()`, `QPainter` and rendering of the colours and shapes chosen.
- Mouse events carry only the button and the position.
- Message boxes and colour dialogs are user interaction:
  - the "No Selection" warning is the `warned` result;
  - the deletion question is the `question` result and its answer the
    `confirmed` parameter;
  - a chosen colour is passed to the setter (`ShapeDrawingApp`'s
    `isValid` check is not modelled).
- The browser's navigation itself (`QWebEngineView`, back, forward, reload,
  `update_url`) is not modelled. Only the URL normalisation is.
- `04_IDE/main.py` is not modelled: file open/save, running the script
  through `subprocess` and regular-expression syntax highlighting are I/O
  and foreign calls.
- `02_opencv_view/main.py` is not modelled: it is made of OpenCV calls.
- `05_paint_canvas/01_paint.py` is not modelled: its drawing lives in a
  pixmap painted by `QPainter`.
- Integer width: Python's own integers are unbounded, and so is Dafny's
  `int`. But a `pyqtSignal(int)` argument and a `QSpinBox` value are 32-bit
  C++ ints, and that width is not modelled. Colour channels are 0..255 by type.
- Counter.CounterWidget.Increment: the `value_changed` signal carries a
  32-bit C++ int, and the model emits the exact counter. Outside
  -2^31..2^31-1 PyQt cannot pass the counter through the signal, so the label
  would no longer show it.
- Counter.CounterWidget.Decrement: the same 32-bit gap as `Increment`.
- Counter.CounterWidget.EmitValueChanged: the same 32-bit gap, for any value
  emitted.
- StudentRecords.OpenDialog: an id or age outside the 32-bit range is
  clamped like any other. PyQt would raise on `setValue` instead.
- Gui.LineEditText: when the cut falls inside the two code units of a
  character beyond U+FFFF, Qt keeps the first unit alone. A Dafny string
  cannot hold half a character, so the model drops the whole character.
- StudentRecords.StudentTableModel.HeaderData: requires the section to lie
  in 0..4 for a horizontal display request. Qt asks only for existing
  sections. A Python caller passing section 5 or more would get an
  `IndexError`, and a negative section would index from the end of the
  list.
