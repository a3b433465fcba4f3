/**
 * The cursor-state encoder of the terminal object: which control sequence
 * each operation sends, given the capability flags and what is believed
 * about the remote cursor, and how that belief changes. MoveTo covers
 * terminal::move_cursor, MoveHorizontally / MoveVertically the single-axis
 * moves, and the rest show/hide/save/restore.
 */
module CursorControl {
  import opened Wrappers
  import opened Geometry
  import opened Ecma48
  import opened ReferenceTerminal

  /** What is believed about the cursor's visibility. */
  datatype Visibility = UnknownVisibility | Shown | Hidden

  /** The tracked state: believed position, believed visibility, saved position. */
  datatype Tracker = Tracker(cursor: Option<Point>, visibility: Visibility, saved: Option<Point>)

  /** A fresh terminal object knows nothing. */
  const Initial: Tracker := Tracker(None, UnknownVisibility, None)

  /** The operations of the terminal object that concern the cursor. */
  datatype Op =
    | MoveTo(target: Point)
    | MoveHorizontally(column: nat)
    | MoveVertically(row: nat)
    | ShowCursor
    | HideCursor
    | SaveCursor
    | RestoreCursor

  // ---------------------------------------------------------------------
  // The control sequences
  // ---------------------------------------------------------------------

  /** CUP to p, 1-based; CSI H for the origin. */
  function Cup(p: Point): Control {
    if p == Origin then Control(false, NoArgs, 'H')
    else Control(false, Two(p.row + 1, p.column + 1), 'H')
  }

  /** CHA to a column, 1-based; the argument is left out for column 0 when allowed. */
  function Cha(column: nat, omitDefault: bool): Control {
    if column == 0 && omitDefault then Control(false, NoArgs, 'G')
    else Control(false, One(column + 1), 'G')
  }

  /** VPA to a row, 1-based; the argument is left out for row 0. */
  function Vpa(row: nat): Control {
    if row == 0 then Control(false, NoArgs, 'd') else Control(false, One(row + 1), 'd')
  }

  /** CUU / CUD / CUF / CUB by a distance, the argument left out when it is 1. */
  function Relative(distance: nat, final: char): Control {
    if distance == 1 then Control(false, NoArgs, final) else Control(false, One(distance), final)
  }

  const ShowControl: Control := Control(true, One(25), 'h')
  const HideControl: Control := Control(true, One(25), 'l')
  const SaveControl: Control := Control(false, NoArgs, 's')
  const RestoreControl: Control := Control(false, NoArgs, 'u')

  /** The text actually transmitted: nothing, or one rendered control. */
  function Text(c: Option<Control>): string {
    match c
    case None => ""
    case Some(ctl) => Render(ctl)
  }

  /**
   * The control move_cursor sends to go from a believed position to a target.
   * A column-only move uses CHA when it is supported and the target lies
   * left of the tenth column; otherwise it moves relatively.
   */
  function MoveControl(b: Behaviour, from: Option<Point>, to: Point): (r: Option<Control>)
    ensures r.None? <==> from == Some(to)
  {
    if from == Some(to) then None
    else if to == Origin || from.None? then Some(Cup(to))
    else
      var f := from.value;
      if f.row == to.row then
        if b.supportsCha && to.column < 9 then Some(Cha(to.column, b.supportsChaDefault))
        else if to.column < f.column then Some(Relative(f.column - to.column, 'D'))
        else Some(Relative(to.column - f.column, 'C'))
      else if f.column == to.column then
        if to.row < f.row then Some(Relative(f.row - to.row, 'A'))
        else Some(Relative(to.row - f.row, 'B'))
      else Some(Cup(to))
  }

  /** Whether the tracker already knows the operation's effect to be in place. */
  predicate AlreadyInEffect(t: Tracker, op: Op) {
    match op
    case MoveTo(p) => t.cursor == Some(p)
    case ShowCursor => t.visibility == Shown
    case HideCursor => t.visibility == Hidden
    case _ => false
  }

  /**
   * The control an operation sends from a tracked state; nothing is sent
   * exactly when the tracker already knows the effect to be in place.
   */
  function Emit(b: Behaviour, t: Tracker, op: Op): (r: Option<Control>)
    ensures r.None? <==> AlreadyInEffect(t, op)
  {
    match op
    case MoveTo(p) => MoveControl(b, t.cursor, p)
    case MoveHorizontally(c) => Some(Cha(c, b.supportsChaDefault))
    case MoveVertically(r) => Some(Vpa(r))
    case ShowCursor => if t.visibility == Shown then None else Some(ShowControl)
    case HideCursor => if t.visibility == Hidden then None else Some(HideControl)
    case SaveCursor => Some(SaveControl)
    case RestoreCursor => Some(RestoreControl)
  }

  /** The tracked state after an operation. */
  function Next(t: Tracker, op: Op): Tracker {
    match op
    case MoveTo(p) => t.(cursor := Some(p))
    case MoveHorizontally(c) =>
      t.(cursor := if t.cursor.Some? then Some(t.cursor.value.(column := c)) else None)
    case MoveVertically(r) =>
      t.(cursor := if t.cursor.Some? then Some(t.cursor.value.(row := r)) else None)
    case ShowCursor => t.(visibility := Shown)
    case HideCursor => t.(visibility := Hidden)
    case SaveCursor => t.(saved := t.cursor)
    case RestoreCursor => t.(cursor := t.saved)
  }

  /** One operation: the transmitted string and the new tracked state. */
  function Step(b: Behaviour, t: Tracker, op: Op): (string, Tracker) {
    (Text(Emit(b, t, op)), Next(t, op))
  }

  /** A sequence of operations: each operation's string, and the final tracked state. */
  function Run(b: Behaviour, t: Tracker, ops: seq<Op>): (seq<string>, Tracker)
    decreases |ops|
  {
    if ops == [] then ([], t)
    else
      var (out, t') := Step(b, t, ops[0]);
      var (outs, t'') := Run(b, t', ops[1..]);
      ([out] + outs, t'')
  }

  // ---------------------------------------------------------------------
  // What each operation asks of the terminal, and the tracker's soundness
  // ---------------------------------------------------------------------

  /** The device state an operation is meant to bring about. */
  function Intended(d: Device, op: Op): Device {
    match op
    case MoveTo(p) => d.(cursor := p)
    case MoveHorizontally(c) => d.(cursor := d.cursor.(column := c))
    case MoveVertically(r) => d.(cursor := d.cursor.(row := r))
    case ShowCursor => d.(visible := true)
    case HideCursor => d.(visible := false)
    case SaveCursor => d.(saved := d.cursor)
    case RestoreCursor => d.(cursor := d.saved)
  }

  function IntendedAll(d: Device, ops: seq<Op>): Device
    decreases |ops|
  {
    if ops == [] then d else IntendedAll(Intended(d, ops[0]), ops[1..])
  }

  /** Everything the tracker claims to know is true of the device. */
  predicate Agrees(t: Tracker, d: Device) {
    && (t.cursor.Some? ==> d.cursor == t.cursor.value)
    && (t.visibility == Shown ==> d.visible)
    && (t.visibility == Hidden ==> !d.visible)
    && (t.saved.Some? ==> d.saved == t.saved.value)
  }

  /**
   * The operations whose controls the terminal described by b can carry out:
   * move_cursor_horizontally sends CHA whatever the flags say.
   */
  predicate Supported(b: Behaviour, op: Op) {
    op.MoveHorizontally? ==> b.supportsCha
  }

  /** CUP takes the cursor to its point on any terminal. */
  lemma ExecCup(b: Behaviour, d: Device, p: Point)
    ensures Exec(b, d, Cup(p)) == Some(d.(cursor := p))
  {
  }

  /** CHA, its argument omitted as the flags allow, sets the column on a terminal with CHA. */
  lemma ExecCha(b: Behaviour, d: Device, column: nat)
    requires b.supportsCha
    ensures Exec(b, d, Cha(column, b.supportsChaDefault)) == Some(d.(cursor := d.cursor.(column := column)))
  {
  }

  /** VPA sets the row. */
  lemma ExecVpa(b: Behaviour, d: Device, row: nat)
    ensures Exec(b, d, Vpa(row)) == Some(d.(cursor := d.cursor.(row := row)))
  {
  }

  /** CUU / CUD / CUF / CUB move by the distance, within the screen. */
  lemma ExecRelative(b: Behaviour, d: Device, n: nat, final: char)
    requires n >= 1
    requires final == 'A' ==> n <= d.cursor.row
    requires final == 'D' ==> n <= d.cursor.column
    ensures final == 'A' ==> Exec(b, d, Relative(n, final)) == Some(d.(cursor := d.cursor.(row := d.cursor.row - n)))
    ensures final == 'B' ==> Exec(b, d, Relative(n, final)) == Some(d.(cursor := d.cursor.(row := d.cursor.row + n)))
    ensures final == 'C' ==> Exec(b, d, Relative(n, final)) == Some(d.(cursor := d.cursor.(column := d.cursor.column + n)))
    ensures final == 'D' ==> Exec(b, d, Relative(n, final)) == Some(d.(cursor := d.cursor.(column := d.cursor.column - n)))
  {
  }

  /** Transmitting nothing or one well-formed control has that control's effect. */
  lemma PerformText(b: Behaviour, d: Device, c: Option<Control>)
    requires c.Some? ==> IsFinal(c.value.final)
    ensures Perform(b, d, Text(c)) == if c.None? then Some(d) else Exec(b, d, c.value)
  {
    if c.Some? {
      PerformRender(b, d, c.value);
    }
  }

  /** A column-only move takes the real cursor to the target column. */
  lemma ColumnMoveExec(b: Behaviour, d: Device, to: Point)
    requires d.cursor.row == to.row && d.cursor.column != to.column
    requires to != Origin
    ensures Exec(b, d, MoveControl(b, Some(d.cursor), to).value) == Some(d.(cursor := to))
  {
    var f := d.cursor;
    if b.supportsCha && to.column < 9 {
      ExecCha(b, d, to.column);
    } else if to.column < f.column {
      ExecRelative(b, d, f.column - to.column, 'D');
    } else {
      ExecRelative(b, d, to.column - f.column, 'C');
    }
  }

  /** A row-only move takes the real cursor to the target row. */
  lemma RowMoveExec(b: Behaviour, d: Device, to: Point)
    requires d.cursor.column == to.column && d.cursor.row != to.row
    requires to != Origin
    ensures Exec(b, d, MoveControl(b, Some(d.cursor), to).value) == Some(d.(cursor := to))
  {
    var f := d.cursor;
    if to.row < f.row {
      ExecRelative(b, d, f.row - to.row, 'A');
    } else {
      ExecRelative(b, d, to.row - f.row, 'B');
    }
  }

  /** The control move_cursor sends takes the real cursor to its target. */
  lemma MoveControlCorrect(b: Behaviour, from: Option<Point>, d: Device, to: Point)
    requires from.Some? ==> d.cursor == from.value
    ensures Perform(b, d, Text(MoveControl(b, from, to))) == Some(d.(cursor := to))
  {
    var e := MoveControl(b, from, to);
    PerformText(b, d, e);
    if e.Some? {
      if to == Origin || from.None? {
        ExecCup(b, d, to);
      } else if d.cursor.row == to.row {
        ColumnMoveExec(b, d, to);
      } else if d.cursor.column == to.column {
        RowMoveExec(b, d, to);
      } else {
        ExecCup(b, d, to);
      }
    }
  }

  /** What each operation's control does to a device the tracker agrees with. */
  lemma EmitExec(b: Behaviour, t: Tracker, d: Device, op: Op)
    requires Agrees(t, d)
    requires !op.MoveTo? && Supported(b, op)
    ensures Emit(b, t, op).Some? ==> IsFinal(Emit(b, t, op).value.final)
    ensures Emit(b, t, op).Some? ==> Exec(b, d, Emit(b, t, op).value) == Some(Intended(d, op))
    ensures Emit(b, t, op).None? ==> d == Intended(d, op)
  {
    match op
    case MoveHorizontally(c) => ExecCha(b, d, c);
    case MoveVertically(r) => ExecVpa(b, d, r);
    case ShowCursor =>
    case HideCursor =>
    case SaveCursor =>
    case RestoreCursor =>
  }

  /** The tracker's new beliefs hold of the device the operation intends. */
  lemma NextAgrees(t: Tracker, d: Device, op: Op)
    requires Agrees(t, d)
    ensures Agrees(Next(t, op), Intended(d, op))
  {
  }

  /**
   * Soundness of one operation: when the tracker's beliefs are true of a
   * terminal with the declared capabilities, the transmitted string makes
   * the terminal do exactly what the operation asks, and the tracker's new
   * beliefs are again true.
   */
  lemma StepCorrect(b: Behaviour, t: Tracker, d: Device, op: Op)
    requires Agrees(t, d) && Supported(b, op)
    ensures Perform(b, d, Step(b, t, op).0) == Some(Intended(d, op))
    ensures Agrees(Step(b, t, op).1, Intended(d, op))
  {
    if op.MoveTo? {
      MoveControlCorrect(b, t.cursor, d, op.target);
    } else {
      EmitExec(b, t, d, op);
      PerformText(b, d, Emit(b, t, op));
    }
    NextAgrees(t, d, op);
  }

  /** Soundness of a whole session of operations. */
  lemma {:induction false} RunCorrect(b: Behaviour, t: Tracker, d: Device, ops: seq<Op>)
    requires Agrees(t, d)
    requires forall i :: 0 <= i < |ops| ==> Supported(b, ops[i])
    ensures PerformAll(b, d, Run(b, t, ops).0) == Some(IntendedAll(d, ops))
    ensures Agrees(Run(b, t, ops).1, IntendedAll(d, ops))
    decreases |ops|
  {
    if ops != [] {
      StepCorrect(b, t, d, ops[0]);
      var (out, t') := Step(b, t, ops[0]);
      var d' := Intended(d, ops[0]);
      assert forall i :: 0 <= i < |ops[1..]| ==> ops[1..][i] == ops[i + 1];
      RunCorrect(b, t', d', ops[1..]);
      var outs := Run(b, t, ops).0;
      assert outs[0] == out && outs[1..] == Run(b, t', ops[1..]).0;
    }
  }

  /**
   * From a fresh terminal object, whatever state the real terminal is in,
   * the transmitted strings drive it exactly as the operations ask.
   */
  lemma FreshSessionCorrect(b: Behaviour, d: Device, ops: seq<Op>)
    requires forall i :: 0 <= i < |ops| ==> Supported(b, ops[i])
    ensures PerformAll(b, d, Run(b, Initial, ops).0) == Some(IntendedAll(d, ops))
  {
    RunCorrect(b, Initial, d, ops);
  }

  /** A terminal with the default behaviour is driven correctly by every session. */
  lemma DefaultSessionCorrect(d: Device, ops: seq<Op>)
    ensures PerformAll(DefaultBehaviour, d, Run(DefaultBehaviour, Initial, ops).0) == Some(IntendedAll(d, ops))
  {
    FreshSessionCorrect(DefaultBehaviour, d, ops);
  }

  /**
   * The one gap: move_cursor_horizontally sends CHA even to a terminal
   * declared without it, which then cannot carry the move out.
   */
  lemma UnsupportedHorizontalMove(b: Behaviour, t: Tracker, d: Device, n: nat)
    requires !b.supportsCha
    ensures Perform(b, d, Step(b, t, MoveHorizontally(n)).0) == None
  {
    PerformRender(b, d, Cha(n, b.supportsChaDefault));
  }

  // ---------------------------------------------------------------------
  // The transmitted bytes, rule by rule
  // ---------------------------------------------------------------------

  /** The text of a relative-move argument: omitted for a distance of 1. */
  function DistanceText(n: nat): string {
    if n == 1 then "" else Decimal(n)
  }

  /** The text of a CHA / VPA argument: omitted for position 0 when allowed. */
  function PositionText(n: nat, omitDefault: bool): string {
    if n == 0 && omitDefault then "" else Decimal(n + 1)
  }

  lemma CupText(p: Point)
    ensures Render(Cup(p)) ==
      if p == Origin then Csi("H") else Csi(Decimal(p.row + 1) + ";" + Decimal(p.column + 1) + "H")
  {
  }

  lemma ChaText(column: nat, omitDefault: bool)
    ensures Render(Cha(column, omitDefault)) == Csi(PositionText(column, omitDefault) + "G")
  {
  }

  lemma VpaText(row: nat)
    ensures Render(Vpa(row)) == Csi(PositionText(row, true) + "d")
  {
  }

  lemma RelativeText(n: nat, final: char)
    ensures Render(Relative(n, final)) == Csi(DistanceText(n) + [final])
  {
  }

  lemma FixedTexts()
    ensures Render(ShowControl) == Csi("?25h") && Render(HideControl) == Csi("?25l")
    ensures Render(SaveControl) == Csi("s") && Render(RestoreControl) == Csi("u")
  {
    assert Decimal(25) == "25";
  }

  /** Moving to the tracked position sends nothing and changes nothing. */
  lemma SameCoordinatesSendNothing(b: Behaviour, t: Tracker, p: Point)
    requires t.cursor == Some(p)
    ensures Step(b, t, MoveTo(p)) == ("", t)
  {
  }

  /** Moving to the origin from anywhere else sends CSI H, with no arguments. */
  lemma MoveToOriginSendsHome(b: Behaviour, t: Tracker)
    requires t.cursor != Some(Origin)
    ensures Step(b, t, MoveTo(Origin)).0 == Csi("H")
  {
    CupText(Origin);
  }

  /** From an unknown position, or when both axes change, CUP is sent, 1-based. */
  lemma AbsoluteMoveIsOneBased(b: Behaviour, t: Tracker, to: Point)
    requires to != Origin
    requires t.cursor.None? || (t.cursor.value.row != to.row && t.cursor.value.column != to.column)
    ensures Step(b, t, MoveTo(to)).0 == Csi(Decimal(to.row + 1) + ";" + Decimal(to.column + 1) + "H")
  {
    CupText(to);
  }

  /**
   * A column-only move from a known position sends CHA when the terminal
   * supports it and the target is left of the tenth column (no argument for
   * column 0 when the default is supported) ...
   */
  lemma ColumnOnlyMoveCha(b: Behaviour, t: Tracker, to: Point)
    requires t.cursor.Some? && t.cursor.value.row == to.row && t.cursor.value.column != to.column
    requires to != Origin
    requires b.supportsCha && to.column < 9
    ensures Step(b, t, MoveTo(to)).0 == Csi(PositionText(to.column, b.supportsChaDefault) + "G")
  {
    ChaText(to.column, b.supportsChaDefault);
  }

  /** ... and otherwise CUB by the distance when moving left ... */
  lemma ColumnOnlyMoveLeft(b: Behaviour, t: Tracker, to: Point)
    requires t.cursor.Some? && t.cursor.value.row == to.row && to.column < t.cursor.value.column
    requires to != Origin
    requires !(b.supportsCha && to.column < 9)
    ensures Step(b, t, MoveTo(to)).0 == Csi(DistanceText(t.cursor.value.column - to.column) + "D")
  {
    var n := t.cursor.value.column - to.column;
    assert MoveControl(b, t.cursor, to) == Some(Relative(n, 'D'));
    RelativeText(n, 'D');
  }

  /** ... and CUF by the distance when moving right. */
  lemma ColumnOnlyMoveRight(b: Behaviour, t: Tracker, to: Point)
    requires t.cursor.Some? && t.cursor.value.row == to.row && to.column > t.cursor.value.column
    requires !(b.supportsCha && to.column < 9)
    ensures Step(b, t, MoveTo(to)).0 == Csi(DistanceText(to.column - t.cursor.value.column) + "C")
  {
    var n := to.column - t.cursor.value.column;
    assert MoveControl(b, t.cursor, to) == Some(Relative(n, 'C'));
    RelativeText(n, 'C');
  }

  /** A row-only move up from a known position sends CUU by the distance ... */
  lemma RowOnlyMoveUp(b: Behaviour, t: Tracker, to: Point)
    requires t.cursor.Some? && t.cursor.value.column == to.column && to.row < t.cursor.value.row
    requires to != Origin
    ensures Step(b, t, MoveTo(to)).0 == Csi(DistanceText(t.cursor.value.row - to.row) + "A")
  {
    var n := t.cursor.value.row - to.row;
    assert MoveControl(b, t.cursor, to) == Some(Relative(n, 'A'));
    RelativeText(n, 'A');
  }

  /** ... and a move down sends CUD by the distance. */
  lemma RowOnlyMoveDown(b: Behaviour, t: Tracker, to: Point)
    requires t.cursor.Some? && t.cursor.value.column == to.column && to.row > t.cursor.value.row
    ensures Step(b, t, MoveTo(to)).0 == Csi(DistanceText(to.row - t.cursor.value.row) + "B")
  {
    var n := to.row - t.cursor.value.row;
    assert MoveControl(b, t.cursor, to) == Some(Relative(n, 'B'));
    RelativeText(n, 'B');
  }

  /**
   * move_cursor_horizontally sends CHA (no argument for column 0 when the
   * default is supported) and updates only the column of a known position;
   * an unknown position stays unknown.
   */
  lemma HorizontalMove(b: Behaviour, t: Tracker, n: nat)
    ensures Step(b, t, MoveHorizontally(n)).0 == Csi(PositionText(n, b.supportsChaDefault) + "G")
    ensures Step(b, t, MoveHorizontally(n)).1 ==
      t.(cursor := if t.cursor.None? then None else Some(Point(n, t.cursor.value.row)))
  {
    ChaText(n, b.supportsChaDefault);
  }

  /** move_cursor_vertically: the same with VPA and the row. */
  lemma VerticalMove(b: Behaviour, t: Tracker, n: nat)
    ensures Step(b, t, MoveVertically(n)).0 == Csi(PositionText(n, true) + "d")
    ensures Step(b, t, MoveVertically(n)).1 ==
      t.(cursor := if t.cursor.None? then None else Some(Point(t.cursor.value.column, n)))
  {
    VpaText(n);
  }

  /** Show and hide send DEC private mode 25 unless the tracked visibility already matches. */
  lemma VisibilitySequences(b: Behaviour, t: Tracker)
    ensures Step(b, t, ShowCursor) ==
      (if t.visibility == Shown then "" else Csi("?25h"), t.(visibility := Shown))
    ensures Step(b, t, HideCursor) ==
      (if t.visibility == Hidden then "" else Csi("?25l"), t.(visibility := Hidden))
  {
    FixedTexts();
  }

  /** Save sends CSI s and remembers the position; restore sends CSI u and reinstates it. */
  lemma SaveRestoreSequences(b: Behaviour, t: Tracker)
    ensures Step(b, t, SaveCursor) == (Csi("s"), t.(saved := t.cursor))
    ensures Step(b, t, RestoreCursor) == (Csi("u"), t.(cursor := t.saved))
  {
    FixedTexts();
  }
}
