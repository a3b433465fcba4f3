# terminalpp cursor encoder and canvas, in Dafny

This project models two parts of the terminalpp library.

**The cursor-state encoder of `terminalpp::terminal`.** The terminal object
tracks three beliefs about the remote terminal: the cursor position
(unknown, or a known column and row), the cursor visibility (unknown, shown
or hidden), and one saved position. Each cursor operation returns the
escape string to transmit and updates those beliefs. The operations are
`move_cursor`, `move_cursor_horizontally`, `move_cursor_vertically`,
`show_cursor`, `hide_cursor`, `save_cursor` and `restore_cursor`. The
capability flags `supports_cha` and `supports_cha_default`
(`terminalpp::behaviour`) choose between sequences.

- `Ecma48` renders the control sequences byte for byte: CSI, an optional
  `?`, up to two decimal parameters, and a final byte. Its `Parse` is a
  reference decoder for that grammar, and `ParseRender` proves that decoding
  the rendered text gives back the control.
- `ReferenceTerminal` is an independent model of how a terminal reacts to
  these sequences. It covers CUP (section 8.3.21 of ECMA-48), CHA (8.3.9),
  CUU (8.3.22), CUD (8.3.19), CUF (8.3.20), CUB (8.3.18) and VPA (8.3.158),
  DEC private mode 25, and `CSI s` / `CSI u`. The reference terminal has
  the capabilities a `behaviour` declares. Without `supports_cha` it
  rejects every CHA. Without `supports_cha_default` it rejects CHA with no
  argument.
- `CursorControl` holds the encoder's rules as functions (`MoveControl`,
  `Emit`, `Next`, `Step`, `Run`). Its main theorem (`StepCorrect`,
  `RunCorrect`) says this: whenever the tracked beliefs are true of a real
  terminal with the declared capabilities, the string sent makes the
  terminal do exactly what the operation asks, and the new beliefs are true
  again. One exception remains. `move_cursor_horizontally` sends CHA even
  when `supports_cha` is false, and `UnsupportedHorizontalMove` proves that
  such a terminal cannot carry it out. The theorem therefore excludes that
  single case (`Supported`). With the default behaviour,
  `DefaultSessionCorrect` covers every session. The byte-level lemmas state
  each rule that the tests fix.
- `Encoder.Terminal` is the mutable terminal object. Its methods are tied
  to `Emit` and `Next`.
- `CursorTests` has one method per test in `test/terminal_cursor_test.cpp`.
  Each method makes the same calls as its test. Its postcondition states the
  exact strings the test expects.

The encoder rules, as the tests fix them:
- Moving to the tracked position sends nothing.
- Moving to the origin sends `CSI H`.
- From an unknown position, or when both axes change, the move sends
  `CSI row+1;col+1 H`.
- A column-only move sends CHA when `supports_cha` holds and the target
  column is below 9 (the "tenth column" of the test names). CHA has no
  argument for column 0 when `supports_cha_default` holds. Otherwise the
  move sends CUB or CUF by the distance.
- A row-only move sends CUU or CUD by the distance.
- Relative moves leave out the argument when it is 1.

The tests choose between CHA and a relative move by the target column.
A byte-count rule with one tie-break used in both directions cannot
reproduce both `test/terminal_cursor_test.cpp:88-97` (CUB, where CHA would
be just as long) and `138-147` (CHA, where CUF would be just as long). A
rule that breaks ties one way for leftward moves and the other way for
rightward moves would fit these tests too. The model uses the
target-column rule. After a horizontal move from an unknown position, the
tests show the position staying unknown (`346-356`).

Choices where the tests say nothing:
- A default `behaviour` has both flags true. The tests need
  `supports_cha` (`138-147`). No test sets `supports_cha_default` directly.
  It follows here from the horizontal rule below: a default terminal sends
  `ESC[G` for `move_cursor_horizontally(0)` (`328-335`), and under that rule this
  needs `supports_cha_default`. The two choices therefore go together.
- `move_cursor_horizontally` / `move_cursor_vertically` always send
  absolute CHA / VPA. VPA leaves out the argument for row 0. CHA, like
  `move_cursor`'s CHA, leaves it out for column 0 when
  `supports_cha_default` holds. From a known position they update only
  that axis.
- Restoring with nothing saved makes the position unknown.

**The element grid `terminalpp::canvas`.** `Grid.Canvas` is a class over one
array of `width × height` elements stored row-major. A ghost
`Contents[column][row]` gives the abstract view. It has get and set, the
`begin()`..`end()` range as a sequence, and the column, row and read-only
column proxies. The `Offset` lemmas prove that `(column, row) ↦ row·width +
column` is a bijection onto the storage indices.

## Model

| member | source | states |
|---|---|---|
| Ecma48.ParseRender | test/terminal_cursor_test.cpp:7-14 | decoding the bytes of any control sequence the encoder renders gives back that control, so the bytes encode the operation's parameters exactly |
| Ecma48.ParseDecimalOfDecimal | test/terminal_cursor_test.cpp:228-237 | the decimal digits of a numeric argument read back as the same number |
| Ecma48.DecimalDigits | test/terminal_cursor_test.cpp:228-237 | an argument's text is a non-empty digit string, one digit long exactly below 10 |
| CursorControl.MoveControl | test/terminal_cursor_test.cpp:35-41 | move_cursor sends nothing if and only if the target is the tracked position |
| CursorControl.MoveControlCorrect | test/terminal_cursor_test.cpp:7-237 | from a true belief about the position (or none), the string move_cursor sends moves the real cursor exactly to the target |
| CursorControl.Emit | test/terminal_cursor_test.cpp:35-301 | an operation sends nothing exactly when the tracker already knows its effect to be in place: a move to the tracked position, show when shown, hide when hidden |
| CursorControl.ExecCup | test/terminal_cursor_test.cpp:7-33 | the CUP that move_cursor builds (CSI H for the origin, else 1-based row;column) puts the cursor on the target on any terminal |
| CursorControl.ExecCha | test/terminal_cursor_test.cpp:43-71 | the CHA built with the argument omitted as supports_cha_default allows sets the column, on a terminal with CHA |
| CursorControl.ExecVpa | test/terminal_cursor_test.cpp:371-387 | the VPA built (no argument for row 0) sets the row |
| CursorControl.ExecRelative | test/terminal_cursor_test.cpp:73-226 | CUU / CUD / CUF / CUB built with the argument omitted for 1 move the cursor by exactly the distance |
| CursorControl.EmitExec | test/terminal_cursor_test.cpp:239-412 | every operation other than move_cursor sends a control the terminal carries out to the intended effect, or nothing when the effect is already in place |
| CursorControl.StepCorrect | test/terminal_cursor_test.cpp:7-412 | for each operation the declared terminal supports, if the tracked state is true of the terminal, the sent string brings about exactly the intended effect and the new tracked state is true of the result |
| CursorControl.RunCorrect | test/terminal_cursor_test.cpp:312-326 | over any sequence of supported operations, the sent strings drive the terminal exactly as asked and the tracked state stays true |
| CursorControl.FreshSessionCorrect | test/terminal_cursor_test.cpp:346-356 | from a newly made terminal object, whatever the real terminal's state, the sent strings for supported operations drive it exactly as the operations ask |
| ReferenceTerminal.DefaultBehaviour | test/terminal_cursor_test.cpp:138-147 | a default-constructed behaviour has supports_cha (the default terminal sends CHA) and supports_cha_default (with the horizontal rule, the default terminal sends argument-less CHA at 328-335) |
| CursorControl.DefaultSessionCorrect | test/terminal_cursor_test.cpp:7-412 | with a default-constructed behaviour every session of every operation drives the terminal exactly as asked |
| CursorControl.UnsupportedHorizontalMove | test/terminal_cursor_test.cpp:328-344 | move_cursor_horizontally sends CHA to a terminal declared without CHA, which cannot carry it out |
| CursorControl.NextAgrees | test/terminal_cursor_test.cpp:303-326 | each operation's update of position, visibility and saved position keeps the beliefs true of the intended terminal state |
| CursorControl.SameCoordinatesSendNothing | test/terminal_cursor_test.cpp:35-41 | moving to the tracked position sends the empty string and leaves the state unchanged |
| CursorControl.MoveToOriginSendsHome | test/terminal_cursor_test.cpp:16-33 | moving to (0,0) from anywhere else sends exactly ESC [ H |
| CursorControl.AbsoluteMoveIsOneBased | test/terminal_cursor_test.cpp:7-14 | from an unknown position or with both axes changing, ESC [ row+1 ; col+1 H is sent |
| CursorControl.ColumnOnlyMoveCha | test/terminal_cursor_test.cpp:43-71 | a column-only move to a column below 9 with CHA support sends ESC [ G for column 0 with the default flag, else ESC [ col+1 G |
| CursorControl.ColumnOnlyMoveLeft | test/terminal_cursor_test.cpp:73-125 | otherwise a leftward column-only move sends CUB by the distance, argument omitted for 1 |
| CursorControl.ColumnOnlyMoveRight | test/terminal_cursor_test.cpp:127-161 | otherwise a rightward column-only move sends CUF by the distance, argument omitted for 1 |
| CursorControl.RowOnlyMoveUp | test/terminal_cursor_test.cpp:163-204 | a row-only move up sends CUU by the distance, argument omitted for 1 |
| CursorControl.RowOnlyMoveDown | test/terminal_cursor_test.cpp:206-226 | a row-only move down sends CUD by the distance, argument omitted for 1 |
| CursorControl.HorizontalMove | test/terminal_cursor_test.cpp:328-369 | move_cursor_horizontally sends ESC [ G for 0 when supports_cha_default holds, else ESC [ n+1 G, keeps an unknown position unknown and updates only the column of a known one |
| CursorControl.VerticalMove | test/terminal_cursor_test.cpp:371-412 | move_cursor_vertically sends ESC [ d for 0 or ESC [ n+1 d, keeps an unknown position unknown and updates only the row of a known one |
| CursorControl.VisibilitySequences | test/terminal_cursor_test.cpp:239-301 | show/hide send ESC [ ?25h / ESC [ ?25l unless the tracked visibility already matches, and then record it |
| CursorControl.SaveRestoreSequences | test/terminal_cursor_test.cpp:303-326 | save sends ESC [ s and records the position; restore sends ESC [ u and reinstates the saved position |
| Encoder.Terminal.constructor | test/terminal_cursor_test.cpp:46-50 | a terminal built with a behaviour keeps it and starts with nothing known |
| Encoder.Terminal.Default | test/terminal_cursor_test.cpp:9 | a default terminal uses the default behaviour and starts with nothing known |
| Encoder.Terminal.MoveCursor | test/terminal_cursor_test.cpp:7-237 | returns the move_cursor string for the tracked position and records the target |
| Encoder.Terminal.MoveCursorHorizontally | test/terminal_cursor_test.cpp:328-369 | returns the CHA string and updates only the column, if known |
| Encoder.Terminal.MoveCursorVertically | test/terminal_cursor_test.cpp:371-412 | returns the VPA string and updates only the row, if known |
| Encoder.Terminal.ShowCursor | test/terminal_cursor_test.cpp:239-290 | returns show-cursor unless already shown and records shown |
| Encoder.Terminal.HideCursor | test/terminal_cursor_test.cpp:249-301 | returns hide-cursor unless already hidden and records hidden |
| Encoder.Terminal.SaveCursor | test/terminal_cursor_test.cpp:303-310 | returns save-position and records the current position as saved |
| Encoder.Terminal.RestoreCursor | test/terminal_cursor_test.cpp:312-326 | returns restore-position and sets the position to the saved one |
| CursorTests.UnknownLocationSendsAbsoluteCoordinates | test/terminal_cursor_test.cpp:7-14 | sends ESC [ 3;3H |
| CursorTests.UnknownLocationOmitsCoordinatesForTopLeft | test/terminal_cursor_test.cpp:16-23 | sends ESC [ H |
| CursorTests.KnownLocationOmitsCoordinatesForTopLeft | test/terminal_cursor_test.cpp:25-33 | sends ESC [ H |
| CursorTests.KnownLocationSendsNothingForSameCoordinates | test/terminal_cursor_test.cpp:35-41 | sends nothing |
| CursorTests.ChaDefaultHomeColumnSendsChaWithoutArgument | test/terminal_cursor_test.cpp:43-56 | sends ESC [ G |
| CursorTests.ChaWithoutDefaultHomeColumnSendsChaWithArgument | test/terminal_cursor_test.cpp:58-71 | sends ESC [ 1G |
| CursorTests.NoChaHomeColumnSendsCub | test/terminal_cursor_test.cpp:73-86 | sends ESC [ 10D |
| CursorTests.LeftToTenthColumnSendsCub | test/terminal_cursor_test.cpp:88-97 | sends ESC [ 11D |
| CursorTests.LeftBelowTenthColumnSendsCha | test/terminal_cursor_test.cpp:99-111 | sends ESC [ 9G |
| CursorTests.NoChaLeftBelowTenthColumnSendsCub | test/terminal_cursor_test.cpp:113-125 | sends ESC [ 12D |
| CursorTests.RightToTenthColumnSendsCuf | test/terminal_cursor_test.cpp:127-136 | sends ESC [ 4C |
| CursorTests.RightBelowTenthColumnSendsCha | test/terminal_cursor_test.cpp:138-147 | sends ESC [ 9G with the default behaviour |
| CursorTests.NoChaRightBelowTenthColumnSendsCuf | test/terminal_cursor_test.cpp:149-161 | sends ESC [ 3C |
| CursorTests.HomeRowSendsCuu | test/terminal_cursor_test.cpp:163-182 | sends ESC [ 8A |
| CursorTests.UpOneRowSendsCuuWithoutArgument | test/terminal_cursor_test.cpp:184-193 | sends ESC [ A |
| CursorTests.UpManyRowsSendsCuu | test/terminal_cursor_test.cpp:195-204 | sends ESC [ 2A |
| CursorTests.DownOneRowSendsCudWithoutArgument | test/terminal_cursor_test.cpp:206-215 | sends ESC [ B |
| CursorTests.DownManyRowsSendsCud | test/terminal_cursor_test.cpp:217-226 | sends ESC [ 2B |
| CursorTests.BothAxesSendsCup | test/terminal_cursor_test.cpp:228-237 | sends ESC [ 4;11H |
| CursorTests.UnknownVisibilityShowSendsShow | test/terminal_cursor_test.cpp:239-247 | sends ESC [ ?25h |
| CursorTests.UnknownVisibilityHideSendsHide | test/terminal_cursor_test.cpp:249-257 | sends ESC [ ?25l |
| CursorTests.ShownCursorShowSendsNothing | test/terminal_cursor_test.cpp:259-268 | sends nothing |
| CursorTests.ShownCursorHideSendsHide | test/terminal_cursor_test.cpp:270-279 | show then hide sends ESC [ ?25l |
| CursorTests.HiddenCursorShowSendsShow | test/terminal_cursor_test.cpp:281-290 | hide then show sends ESC [ ?25h |
| CursorTests.HiddenCursorHideSendsNothing | test/terminal_cursor_test.cpp:292-301 | sends nothing |
| CursorTests.SaveSendsSavePosition | test/terminal_cursor_test.cpp:303-310 | sends ESC [ s |
| CursorTests.RestoreSendsRestorePosition | test/terminal_cursor_test.cpp:312-326 | restore sends ESC [ u and the move back to the saved position then sends nothing |
| CursorTests.HorizontallyToHomeColumnSendsCha | test/terminal_cursor_test.cpp:328-335 | sends ESC [ G |
| CursorTests.HorizontallyToOtherColumnSendsChaWithArgument | test/terminal_cursor_test.cpp:337-344 | sends ESC [ 8G |
| CursorTests.HorizontallyFromUnknownLeavesPositionUnknown | test/terminal_cursor_test.cpp:346-356 | the next move is a full ESC [ 4;7H |
| CursorTests.HorizontallyFromKnownAllowsShortcuts | test/terminal_cursor_test.cpp:358-369 | the next move is ESC [ B |
| CursorTests.VerticallyToHomeRowSendsVpa | test/terminal_cursor_test.cpp:371-378 | sends ESC [ d |
| CursorTests.VerticallyToOtherRowSendsVpaWithArgument | test/terminal_cursor_test.cpp:380-387 | sends ESC [ 8d |
| CursorTests.VerticallyFromUnknownLeavesPositionUnknown | test/terminal_cursor_test.cpp:389-399 | the next move is a full ESC [ 4;7H |
| CursorTests.VerticallyFromKnownAllowsShortcuts | test/terminal_cursor_test.cpp:401-412 | the next move is ESC [ D |
| Grid.Offset | include/terminalpp/canvas.hpp:13-16 | the row-major index of every cell lies inside the width×height block |
| Grid.OffsetInverse | include/terminalpp/canvas.hpp:14-16 | index / width is the row and index % width the column: left to right first, then top to bottom |
| Grid.OffsetInjective | include/terminalpp/canvas.hpp:14-16 | two cells share an index exactly when they are the same cell |
| Grid.OffsetCovers | include/terminalpp/canvas.hpp:13-16 | every index of the block is the index of some cell |
| Grid.Canvas.constructor | include/terminalpp/canvas.hpp:93-96 | a new canvas has the given size, a fresh block of width×height elements, all default |
| Grid.Canvas.Size | include/terminalpp/canvas.hpp:98-101 | the size is the constructor's extent and matches the grid's dimensions and storage length |
| Grid.Canvas.Elements | include/terminalpp/canvas.hpp:103-121 | begin()..end() holds exactly width×height elements, the cell (c,r) at position r·width + c |
| Grid.Canvas.GetElement | include/terminalpp/canvas.hpp:139-147 | returns the element at (column, row) |
| Grid.Canvas.SetElement | include/terminalpp/canvas.hpp:134-137 | (column, row) holds the new value and every other cell is unchanged |
| Grid.Canvas.Column | include/terminalpp/canvas.hpp:123-126 | cvs[c] is a proxy on this canvas for column c |
| Grid.Canvas.ConstColumn | include/terminalpp/canvas.hpp:128-131 | cvs[c] on a const canvas is a read-only proxy for column c |
| Grid.ColumnProxy.Row | include/terminalpp/canvas.hpp:62-65 | cvs[c][r] is a proxy for cell (c, r) of the same canvas |
| Grid.RowProxy.Assign | include/terminalpp/canvas.hpp:35-38 | assigning through the proxy changes exactly cell (c, r), as set_element does |
| Grid.RowProxy.Value | include/terminalpp/canvas.hpp:40-43 | reading through the proxy is get_element(c, r) |
| Grid.ConstColumnProxy.At | include/terminalpp/canvas.hpp:83-86 | const access yields get_element(c, r) and, being a function, changes nothing |
| Grid.AssignThroughProxies | include/terminalpp/canvas.hpp:27-70 | cvs[c][r] = v then get_element(c, r) gives v, and all other cells keep their values |

## Left out

- The input decoder (`include/terminalpp/detail/parse_helper.hpp`). Only its state names, scratch record and signature are in the source, and its transition logic is not part of this model.
- The terminal's implementation file is not part of this model. Wherever the tests leave a case open, the rule is a choice, and the choices are listed above. These cases are: a horizontal or vertical move from a known position, the same column, the default of `supports_cha_default`, and a restore with nothing saved.
- A flag that gates VPA. The tests do not show one, so the model's VPA reads no flag.
- A cost-based choice between CUP and relative moves for long row moves, which the comment at `test/terminal_cursor_test.cpp:166-175` rules out explicitly.
- `expect_sequence` and the test framework. A test's comparison is plain string equality.
- Coordinates and extents are `nat`, unbounded. The source's `s32` does two things the model does not. It admits negative values. Its upper bound also means the 1-based `row + 1` / `column + 1` of a CUP, CHA or VPA argument could wrap, while in the model it cannot. The header does not say what out-of-range canvas access does, so the model requires in-range coordinates.
- Grid.Canvas.GetElement: writing through the mutable `element &` reference that non-const `get_element` and `row_proxy`'s conversion return is not modelled. Writes go through `SetElement` / `Assign` only.
- `begin()` / `end()` as raw pointers. The model gives the range they delimit as a sequence (`Elements`).
- The `element` and `extent` types are not part of this model. Elements are a type parameter, and a default element is passed to the constructor.
- CursorControl.StepCorrect, CursorControl.RunCorrect and CursorControl.FreshSessionCorrect: these exclude `move_cursor_horizontally` on a terminal declared without `supports_cha`. The encoder still sends CHA there, and `UnsupportedHorizontalMove` shows the terminal cannot act on it.
- The reference terminal has no right or bottom margin. It rejects explicit zero parameters and sequences outside the modelled set, none of which the encoder sends. Only CHA is tied to the flags. VPA and every other modelled sequence are accepted by every terminal.
- Build and packaging (`conanfile.py`).
