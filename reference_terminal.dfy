/**
 * A reference model of the remote terminal: how it reacts to the control
 * sequences the encoder sends. This is the independent specification
 * against which the encoder is proved: ECMA-48 CUP (section 8.3.21), CHA
 * (8.3.9), CUU (8.3.22), CUD (8.3.19), CUF (8.3.20), CUB (8.3.18) and
 * VPA (8.3.158), DEC private mode 25 (cursor visible) and the save/restore
 * pair CSI s / CSI u. Parameters are 1-based and an omitted parameter
 * means 1. The screen has no right or bottom margin here; up and left
 * moves stop at the first row and column. The terminal's capability flags
 * are those a behaviour declares: a terminal without CHA rejects every
 * CHA, and one without an omittable CHA argument rejects CSI G.
 */
module ReferenceTerminal {
  import opened Wrappers
  import opened Geometry
  import opened Ecma48

  /** The capability flags of the connected terminal (terminalpp::behaviour). */
  datatype Behaviour = Behaviour(supportsCha: bool, supportsChaDefault: bool)

  /** A default-constructed behaviour: CHA is usable, with an omittable argument. */
  const DefaultBehaviour: Behaviour := Behaviour(supportsCha := true, supportsChaDefault := true)

  /** What the terminal actually holds: cursor, visibility, saved position. */
  datatype Device = Device(cursor: Point, visible: bool, saved: Point)

  /** The numeric value of a single parameter, or None when absent-but-invalid. */
  function Count(a: Args): Option<nat> {
    match a
    case NoArgs => Some(1)
    case One(n) => if n == 0 then None else Some(n)
    case Two(_, _) => None
  }

  /** The effect of one control sequence; None for anything outside the modelled set. */
  function Exec(b: Behaviour, d: Device, c: Control): Option<Device> {
    if c.marker then
      if c.args == One(25) && c.final == 'h' then Some(d.(visible := true))
      else if c.args == One(25) && c.final == 'l' then Some(d.(visible := false))
      else None
    else if c.final == 'H' then
      match c.args
      case NoArgs => Some(d.(cursor := Origin))
      case One(r) => if r == 0 then None else Some(d.(cursor := Point(0, r - 1)))
      case Two(r, col) =>
        if r == 0 || col == 0 then None else Some(d.(cursor := Point(col - 1, r - 1)))
    else if c.final == 's' then
      if c.args == NoArgs then Some(d.(saved := d.cursor)) else None
    else if c.final == 'u' then
      if c.args == NoArgs then Some(d.(cursor := d.saved)) else None
    else if c.final == 'G' && (!b.supportsCha || (c.args == NoArgs && !b.supportsChaDefault)) then None
    else
      match Count(c.args)
      case None => None
      case Some(n) =>
        var p := d.cursor;
        if c.final == 'G' then Some(d.(cursor := p.(column := n - 1)))
        else if c.final == 'd' then Some(d.(cursor := p.(row := n - 1)))
        else if c.final == 'A' then Some(d.(cursor := p.(row := if p.row >= n then p.row - n else 0)))
        else if c.final == 'B' then Some(d.(cursor := p.(row := p.row + n)))
        else if c.final == 'C' then Some(d.(cursor := p.(column := p.column + n)))
        else if c.final == 'D' then Some(d.(cursor := p.(column := if p.column >= n then p.column - n else 0)))
        else None
  }

  /** The effect of one transmitted string: nothing, or exactly one control sequence. */
  function Perform(b: Behaviour, d: Device, s: string): Option<Device> {
    if s == [] then Some(d)
    else
      match Parse(s)
      case None => None
      case Some(c) => Exec(b, d, c)
  }

  /** The effect of the strings of several operations, in order. */
  function PerformAll(b: Behaviour, d: Device, outs: seq<string>): Option<Device>
    decreases |outs|
  {
    if outs == [] then Some(d)
    else
      match Perform(b, d, outs[0])
      case None => None
      case Some(d') => PerformAll(b, d', outs[1..])
  }

  /** Transmitting a rendered control has the effect that control has. */
  lemma PerformRender(b: Behaviour, d: Device, c: Control)
    requires IsFinal(c.final)
    ensures Perform(b, d, Render(c)) == Exec(b, d, c)
  {
    ParseRender(c);
  }
}
