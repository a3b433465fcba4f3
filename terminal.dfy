/**
 * The terminal object: it holds the capability flags and the tracked
 * cursor state, and each cursor operation returns the string to transmit
 * while updating that state in place.
 */
module Encoder {
  import opened Wrappers
  import opened Geometry
  import opened ReferenceTerminal
  import opened CursorControl

  class Terminal {
    const behaviour: Behaviour
    var cursor: Option<Point>
    var visibility: Visibility
    var saved: Option<Point>

    /** The tracked state as a value. */
    function State(): Tracker
      reads this
    {
      Tracker(cursor, visibility, saved)
    }

    /** terminal(behaviour): nothing is known about the remote terminal yet. */
    constructor (b: Behaviour)
      ensures behaviour == b && State() == Initial
    {
      behaviour := b;
      cursor, visibility, saved := None, UnknownVisibility, None;
    }

    /** terminal(): the default behaviour. */
    constructor Default()
      ensures behaviour == DefaultBehaviour && State() == Initial
    {
      behaviour := DefaultBehaviour;
      cursor, visibility, saved := None, UnknownVisibility, None;
    }

    method MoveCursor(to: Point) returns (out: string)
      modifies this
      ensures out == Text(Emit(behaviour, old(State()), MoveTo(to)))
      ensures State() == Next(old(State()), MoveTo(to))
    {
      out := Text(MoveControl(behaviour, cursor, to));
      cursor := Some(to);
    }

    method MoveCursorHorizontally(column: nat) returns (out: string)
      modifies this
      ensures out == Text(Emit(behaviour, old(State()), MoveHorizontally(column)))
      ensures State() == Next(old(State()), MoveHorizontally(column))
    {
      out := Text(Some(Cha(column, behaviour.supportsChaDefault)));
      if cursor.Some? {
        cursor := Some(cursor.value.(column := column));
      }
    }

    method MoveCursorVertically(row: nat) returns (out: string)
      modifies this
      ensures out == Text(Emit(behaviour, old(State()), MoveVertically(row)))
      ensures State() == Next(old(State()), MoveVertically(row))
    {
      out := Text(Some(Vpa(row)));
      if cursor.Some? {
        cursor := Some(cursor.value.(row := row));
      }
    }

    method ShowCursor() returns (out: string)
      modifies this
      ensures out == Text(Emit(behaviour, old(State()), Op.ShowCursor))
      ensures State() == Next(old(State()), Op.ShowCursor)
    {
      out := if visibility == Shown then "" else Text(Some(ShowControl));
      visibility := Shown;
    }

    method HideCursor() returns (out: string)
      modifies this
      ensures out == Text(Emit(behaviour, old(State()), Op.HideCursor))
      ensures State() == Next(old(State()), Op.HideCursor)
    {
      out := if visibility == Hidden then "" else Text(Some(HideControl));
      visibility := Hidden;
    }

    method SaveCursor() returns (out: string)
      modifies this
      ensures out == Text(Emit(behaviour, old(State()), Op.SaveCursor))
      ensures State() == Next(old(State()), Op.SaveCursor)
    {
      out := Text(Some(SaveControl));
      saved := cursor;
    }

    method RestoreCursor() returns (out: string)
      modifies this
      ensures out == Text(Emit(behaviour, old(State()), Op.RestoreCursor))
      ensures State() == Next(old(State()), Op.RestoreCursor)
    {
      out := Text(Some(RestoreControl));
      cursor := saved;
    }
  }
}
