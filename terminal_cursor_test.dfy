/**
 * The cursor tests of the terminal object, one method per test: each
 * builds a terminal, performs the same calls, and returns the strings the
 * test compares, whose exact values its postcondition states.
 */
module CursorTests {
  import opened Wrappers
  import opened Geometry
  import opened Ecma48
  import opened ReferenceTerminal
  import opened CursorControl
  import opened Encoder

  function WithCha(cha: bool, chaDefault: bool): Behaviour {
    Behaviour(supportsCha := cha, supportsChaDefault := chaDefault)
  }

  method UnknownLocationSendsAbsoluteCoordinates() returns (out: string)
    ensures out == Csi("3;3H")
  {
    var terminal := new Terminal.Default();
    out := terminal.MoveCursor(Point(2, 2));
  }

  method UnknownLocationOmitsCoordinatesForTopLeft() returns (out: string)
    ensures out == Csi("H")
  {
    var terminal := new Terminal.Default();
    out := terminal.MoveCursor(Point(0, 0));
  }

  method KnownLocationOmitsCoordinatesForTopLeft() returns (out: string)
    ensures out == Csi("H")
  {
    var terminal := new Terminal.Default();
    var _ := terminal.MoveCursor(Point(10, 10));
    out := terminal.MoveCursor(Point(0, 0));
  }

  method KnownLocationSendsNothingForSameCoordinates() returns (out: string)
    ensures out == ""
  {
    var terminal := new Terminal.Default();
    var _ := terminal.MoveCursor(Point(10, 10));
    out := terminal.MoveCursor(Point(10, 10));
  }

  method ChaDefaultHomeColumnSendsChaWithoutArgument() returns (out: string)
    ensures out == Csi("G")
  {
    var terminal := new Terminal(WithCha(true, true));
    var _ := terminal.MoveCursor(Point(10, 10));
    out := terminal.MoveCursor(Point(0, 10));
  }

  method ChaWithoutDefaultHomeColumnSendsChaWithArgument() returns (out: string)
    ensures out == Csi("1G")
  {
    var terminal := new Terminal(WithCha(true, false));
    var _ := terminal.MoveCursor(Point(10, 10));
    out := terminal.MoveCursor(Point(0, 10));
  }

  method NoChaHomeColumnSendsCub() returns (out: string)
    ensures out == Csi("10D")
  {
    var terminal := new Terminal(WithCha(false, false));
    var _ := terminal.MoveCursor(Point(10, 10));
    out := terminal.MoveCursor(Point(0, 10));
  }

  method LeftToTenthColumnSendsCub() returns (out: string)
    ensures out == Csi("11D")
  {
    var terminal := new Terminal.Default();
    var _ := terminal.MoveCursor(Point(20, 10));
    out := terminal.MoveCursor(Point(9, 10));
  }

  /** The test sets only supports_cha; the other flag keeps its default. */
  method LeftBelowTenthColumnSendsCha() returns (out: string)
    ensures out == Csi("9G")
  {
    var terminal := new Terminal(DefaultBehaviour.(supportsCha := true));
    var _ := terminal.MoveCursor(Point(20, 10));
    out := terminal.MoveCursor(Point(8, 10));
  }

  method NoChaLeftBelowTenthColumnSendsCub() returns (out: string)
    ensures out == Csi("12D")
  {
    var terminal := new Terminal(DefaultBehaviour.(supportsCha := false));
    var _ := terminal.MoveCursor(Point(20, 10));
    out := terminal.MoveCursor(Point(8, 10));
  }

  method RightToTenthColumnSendsCuf() returns (out: string)
    ensures out == Csi("4C")
  {
    var terminal := new Terminal.Default();
    var _ := terminal.MoveCursor(Point(5, 10));
    out := terminal.MoveCursor(Point(9, 10));
  }

  method RightBelowTenthColumnSendsCha() returns (out: string)
    ensures out == Csi("9G")
  {
    var terminal := new Terminal.Default();
    var _ := terminal.MoveCursor(Point(5, 10));
    out := terminal.MoveCursor(Point(8, 10));
  }

  /**
   * Named after what the test does: it expects CUF. Its name in the test
   * file says CHA, which a terminal without CHA support does not get.
   */
  method NoChaRightBelowTenthColumnSendsCuf() returns (out: string)
    ensures out == Csi("3C")
  {
    var terminal := new Terminal(DefaultBehaviour.(supportsCha := false));
    var _ := terminal.MoveCursor(Point(5, 10));
    out := terminal.MoveCursor(Point(8, 10));
  }

  method HomeRowSendsCuu() returns (out: string)
    ensures out == Csi("8A")
  {
    var terminal := new Terminal.Default();
    var _ := terminal.MoveCursor(Point(9, 9));
    out := terminal.MoveCursor(Point(9, 1));
  }

  method UpOneRowSendsCuuWithoutArgument() returns (out: string)
    ensures out == Csi("A")
  {
    var terminal := new Terminal.Default();
    var _ := terminal.MoveCursor(Point(9, 9));
    out := terminal.MoveCursor(Point(9, 8));
  }

  method UpManyRowsSendsCuu() returns (out: string)
    ensures out == Csi("2A")
  {
    var terminal := new Terminal.Default();
    var _ := terminal.MoveCursor(Point(9, 9));
    out := terminal.MoveCursor(Point(9, 7));
  }

  method DownOneRowSendsCudWithoutArgument() returns (out: string)
    ensures out == Csi("B")
  {
    var terminal := new Terminal.Default();
    var _ := terminal.MoveCursor(Point(6, 6));
    out := terminal.MoveCursor(Point(6, 7));
  }

  method DownManyRowsSendsCud() returns (out: string)
    ensures out == Csi("2B")
  {
    var terminal := new Terminal.Default();
    var _ := terminal.MoveCursor(Point(6, 6));
    out := terminal.MoveCursor(Point(6, 8));
  }

  method BothAxesSendsCup() returns (out: string)
    ensures out == Csi("4;11H")
  {
    var terminal := new Terminal.Default();
    var _ := terminal.MoveCursor(Point(5, 5));
    out := terminal.MoveCursor(Point(10, 3));
  }

  method UnknownVisibilityShowSendsShow() returns (out: string)
    ensures out == Csi("?25h")
  {
    FixedTexts();
    var terminal := new Terminal.Default();
    out := terminal.ShowCursor();
  }

  method UnknownVisibilityHideSendsHide() returns (out: string)
    ensures out == Csi("?25l")
  {
    FixedTexts();
    var terminal := new Terminal.Default();
    out := terminal.HideCursor();
  }

  method ShownCursorShowSendsNothing() returns (out: string)
    ensures out == ""
  {
    var terminal := new Terminal.Default();
    var _ := terminal.ShowCursor();
    out := terminal.ShowCursor();
  }

  /**
   * Named after what the test does: it shows the cursor and then hides it.
   * Its name in the test file speaks of showing a hidden cursor, which the
   * body does not do.
   */
  method ShownCursorHideSendsHide() returns (out: string)
    ensures out == Csi("?25l")
  {
    FixedTexts();
    var terminal := new Terminal.Default();
    var _ := terminal.ShowCursor();
    out := terminal.HideCursor();
  }

  /**
   * Named after what the test does: it hides the cursor and then shows it.
   * Its name in the test file speaks of hiding a shown cursor, which the
   * body does not do.
   */
  method HiddenCursorShowSendsShow() returns (out: string)
    ensures out == Csi("?25h")
  {
    FixedTexts();
    var terminal := new Terminal.Default();
    var _ := terminal.HideCursor();
    out := terminal.ShowCursor();
  }

  method HiddenCursorHideSendsNothing() returns (out: string)
    ensures out == ""
  {
    var terminal := new Terminal.Default();
    var _ := terminal.HideCursor();
    out := terminal.HideCursor();
  }

  method SaveSendsSavePosition() returns (out: string)
    ensures out == Csi("s")
  {
    FixedTexts();
    var terminal := new Terminal.Default();
    out := terminal.SaveCursor();
  }

  /** Save at (5,5), move away, restore: then moving to (5,5) sends nothing. */
  method RestoreSendsRestorePosition() returns (restore: string, move: string)
    ensures restore == Csi("u")
    ensures move == ""
  {
    var terminal := new Terminal.Default();
    var _ := terminal.MoveCursor(Point(5, 5));
    var _ := terminal.SaveCursor();
    assert terminal.saved == Some(Point(5, 5));
    var _ := terminal.MoveCursor(Point(10, 10));
    restore := terminal.RestoreCursor();
    assert terminal.cursor == Some(Point(5, 5));
    move := terminal.MoveCursor(Point(5, 5));
    assert Render(RestoreControl) == Csi("u");
  }

  method HorizontallyToHomeColumnSendsCha() returns (out: string)
    ensures out == Csi("G")
  {
    var terminal := new Terminal.Default();
    out := terminal.MoveCursorHorizontally(0);
  }

  method HorizontallyToOtherColumnSendsChaWithArgument() returns (out: string)
    ensures out == Csi("8G")
  {
    var terminal := new Terminal.Default();
    out := terminal.MoveCursorHorizontally(7);
  }

  method HorizontallyFromUnknownLeavesPositionUnknown() returns (out: string)
    ensures out == Csi("4;7H")
  {
    var terminal := new Terminal.Default();
    var _ := terminal.MoveCursorHorizontally(6);
    out := terminal.MoveCursor(Point(6, 3));
  }

  method HorizontallyFromKnownAllowsShortcuts() returns (out: string)
    ensures out == Csi("B")
  {
    var terminal := new Terminal.Default();
    var _ := terminal.MoveCursor(Point(12, 2));
    var _ := terminal.MoveCursorHorizontally(6);
    out := terminal.MoveCursor(Point(6, 3));
  }

  /** Named after what the test does: it moves to the home row. Its name in the test file says home column. */
  method VerticallyToHomeRowSendsVpa() returns (out: string)
    ensures out == Csi("d")
  {
    var terminal := new Terminal.Default();
    out := terminal.MoveCursorVertically(0);
  }

  /**
   * Named after what the test does: it moves to another row and expects
   * VPA. Its name in the test file says a non-home column and CHA.
   */
  method VerticallyToOtherRowSendsVpaWithArgument() returns (out: string)
    ensures out == Csi("8d")
  {
    var terminal := new Terminal.Default();
    out := terminal.MoveCursorVertically(7);
  }

  method VerticallyFromUnknownLeavesPositionUnknown() returns (out: string)
    ensures out == Csi("4;7H")
  {
    var terminal := new Terminal.Default();
    var _ := terminal.MoveCursorVertically(6);
    out := terminal.MoveCursor(Point(6, 3));
  }

  method VerticallyFromKnownAllowsShortcuts() returns (out: string)
    ensures out == Csi("D")
  {
    var terminal := new Terminal.Default();
    var _ := terminal.MoveCursor(Point(12, 2));
    var _ := terminal.MoveCursorVertically(6);
    out := terminal.MoveCursor(Point(11, 6));
  }
}
