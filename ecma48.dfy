/**
 * Control sequences of ECMA-48 that the cursor encoder transmits:
 * CSI (ESC '[') followed by an optional private marker '?', at most two
 * decimal parameters separated by ';', and one final byte.
 * Render produces the byte-exact text; Parse is the reference decoder of
 * that grammar, and ParseRender proves that it reconstructs every control.
 */
module Ecma48 {
  import opened Wrappers

  const ESC: char := '\U{1B}'

  /** CSI followed by the given text. */
  function Csi(s: string): string {
    [ESC, '['] + s
  }

  /** The parameter list of a control sequence. */
  datatype Args = NoArgs | One(n: nat) | Two(first: nat, second: nat)

  /** A control sequence: CSI [?] args final. */
  datatype Control = Control(marker: bool, args: Args, final: char)

  /** Final bytes of a control sequence lie in 04/00 .. 07/14 (section 5.4 of ECMA-48). */
  predicate IsFinal(c: char) {
    '@' <= c <= '~'
  }

  predicate IsDigit(c: char) {
    '0' <= c <= '9'
  }

  predicate AllDigits(s: string) {
    forall i :: 0 <= i < |s| ==> IsDigit(s[i])
  }

  function DigitChar(d: nat): (c: char)
    requires d < 10
    ensures IsDigit(c)
  {
    (48 + d) as char
  }

  function DigitValue(c: char): (d: nat)
    requires IsDigit(c)
    ensures d < 10
  {
    (c as int - 48) as nat
  }

  /** The decimal digits of n, most significant first, without leading zeros. */
  function Decimal(n: nat): string {
    if n < 10 then [DigitChar(n)] else Decimal(n / 10) + [DigitChar(n % 10)]
  }

  /** Decimal text is a non-empty string of digits, one digit exactly below 10. */
  lemma {:induction false} DecimalDigits(n: nat)
    ensures |Decimal(n)| > 0 && AllDigits(Decimal(n))
    ensures n < 10 <==> |Decimal(n)| == 1
  {
    if n >= 10 {
      DecimalDigits(n / 10);
    }
  }

  /** The value of a string of decimal digits (the empty string is 0). */
  function ParseDecimal(s: string): nat
    requires AllDigits(s)
  {
    if s == [] then 0 else 10 * ParseDecimal(s[..|s| - 1]) + DigitValue(s[|s| - 1])
  }

  lemma {:induction false} ParseDecimalOfDecimal(n: nat)
    ensures AllDigits(Decimal(n)) && ParseDecimal(Decimal(n)) == n
  {
    DecimalDigits(n);
    if n >= 10 {
      DecimalDigits(n / 10);
      var s := Decimal(n);
      assert s[..|s| - 1] == Decimal(n / 10);
      ParseDecimalOfDecimal(n / 10);
    }
  }

  /** The index of the first c in s, or |s| when there is none. */
  function IndexOf(s: string, c: char): (i: nat)
    ensures i <= |s|
    ensures forall j :: 0 <= j < i ==> s[j] != c
    ensures i < |s| ==> s[i] == c
  {
    if s == [] then 0 else if s[0] == c then 0 else 1 + IndexOf(s[1..], c)
  }

  function ArgsText(a: Args): string {
    match a
    case NoArgs => ""
    case One(n) => Decimal(n)
    case Two(p, q) => Decimal(p) + ";" + Decimal(q)
  }

  /** The byte-exact text of a control sequence. */
  function Render(c: Control): (s: string)
    ensures |s| >= 3 && s[0] == ESC && s[1] == '[' && s[|s| - 1] == c.final
  {
    [ESC, '['] + (if c.marker then "?" else "") + ArgsText(c.args) + [c.final]
  }

  /** Reads a parameter list: empty, one number, or two numbers separated by ';'. */
  function ParseArgs(p: string): Option<Args> {
    if p == [] then Some(NoArgs)
    else
      var i := IndexOf(p, ';');
      if i == |p| then
        if AllDigits(p) then Some(One(ParseDecimal(p))) else None
      else
        var first, second := p[..i], p[i + 1..];
        if first != [] && second != [] && AllDigits(first) && AllDigits(second)
        then Some(Two(ParseDecimal(first), ParseDecimal(second)))
        else None
  }

  /** The reference decoder: reads one whole control sequence, or fails. */
  function Parse(s: string): (r: Option<Control>)
    ensures r.Some? ==> IsFinal(r.value.final)
  {
    if |s| < 3 || s[0] != ESC || s[1] != '[' || !IsFinal(s[|s| - 1]) then None
    else
      var body := s[2..|s| - 1];
      var marker := body != [] && body[0] == '?';
      var params := if marker then body[1..] else body;
      match ParseArgs(params)
      case None => None
      case Some(a) => Some(Control(marker, a, s[|s| - 1]))
  }

  lemma ParseArgsText(a: Args)
    ensures ParseArgs(ArgsText(a)) == Some(a)
  {
    match a
    case NoArgs =>
    case One(n) =>
      DecimalDigits(n);
      var p := Decimal(n);
      assert IndexOf(p, ';') == |p|;
      ParseDecimalOfDecimal(n);
    case Two(x, y) =>
      DecimalDigits(x);
      DecimalDigits(y);
      var dx, dy := Decimal(x), Decimal(y);
      var p := dx + ";" + dy;
      assert p[|dx|] == ';';
      assert forall j :: 0 <= j < |dx| ==> p[j] == dx[j];
      assert IndexOf(p, ';') == |dx|;
      assert p[..|dx|] == dx;
      assert p[|dx| + 1..] == dy;
      ParseDecimalOfDecimal(x);
      ParseDecimalOfDecimal(y);
  }

  lemma RenderParts(c: Control)
    ensures Render(c)[2..|Render(c)| - 1] == (if c.marker then "?" else "") + ArgsText(c.args)
  {
  }

  /** Round trip: decoding the rendered text gives back the control. */
  lemma ParseRender(c: Control)
    requires IsFinal(c.final)
    ensures Parse(Render(c)) == Some(c)
  {
    var text := ArgsText(c.args);
    RenderParts(c);
    match c.args {
      case NoArgs =>
      case One(n) => DecimalDigits(n);
      case Two(x, _) => DecimalDigits(x);
    }
    assert text != [] ==> IsDigit(text[0]);
    ParseArgsText(c.args);
    var body := (if c.marker then "?" else "") + text;
    if c.marker {
      assert body[0] == '?' && body[1..] == text;
    } else {
      assert body == text;
    }
  }
}
