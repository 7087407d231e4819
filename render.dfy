/** The text the generator accumulates in `netlist.str`: every record is
    rendered as one space-led field group and appended. Node numbers are
    rendered in decimal as `to_string(int)` does; the rendering of a value
    (`to_string(double)`, or whatever an unassigned double prints) is left
    to the parameter `fmt`. */
module Render {
  import opened Circuit

  predicate IsDigit(c: char) {
    '0' <= c <= '9'
  }

  function Digit(d: nat): (c: char)
    requires d < 10
    ensures IsDigit(c) && DigitValue(c) == d
  {
    "0123456789"[d]
  }

  /** Decimal digits of n, most significant first, without leading zeros. */
  function NatToString(n: nat): (s: string)
    ensures |s| > 0 && forall j :: 0 <= j < |s| ==> IsDigit(s[j])
    decreases n
  {
    if n < 10 then [Digit(n)] else NatToString(n / 10) + [Digit(n % 10)]
  }

  /** to_string of an int: a minus sign for negative numbers. */
  function IntToString(x: int): string {
    if x < 0 then "-" + NatToString(-x) else NatToString(x)
  }

  function DigitValue(c: char): (d: nat)
    requires IsDigit(c)
    ensures d < 10
  {
    (c as int) - ('0' as int)
  }

  /** Reads a sequence of decimal digits. */
  function ParseNat(s: string): nat
    requires forall j :: 0 <= j < |s| ==> IsDigit(s[j])
    decreases |s|
  {
    if s == [] then 0
    else ParseNat(s[..|s| - 1]) * 10 + DigitValue(s[|s| - 1])
  }

  /** Reads an optionally negative decimal number; None for anything else. */
  function ParseInt(s: string): (r: Option<int>)
  {
    if |s| > 0 && s[0] == '-' && |s| > 1 && forall j :: 1 <= j < |s| ==> IsDigit(s[j]) then
      Some(0 - ParseNat(s[1..]) as int)
    else if |s| > 0 && forall j :: 0 <= j < |s| ==> IsDigit(s[j]) then
      Some(ParseNat(s))
    else
      None
  }

  datatype Option<T> = None | Some(value: T)

  lemma {:induction false} NatRoundTrip(n: nat)
    ensures ParseNat(NatToString(n)) == n
    decreases n
  {
    if n >= 10 {
      var s := NatToString(n);
      NatRoundTrip(n / 10);
      assert s[..|s| - 1] == NatToString(n / 10);
    }
  }

  /** Node numbers can be read back from their rendering, so distinct nodes
      render distinctly. */
  lemma IntRoundTrip(x: int)
    ensures ParseInt(IntToString(x)) == Some(x)
  {
    var s := IntToString(x);
    if x < 0 {
      NatRoundTrip(-x);
      assert s[1..] == NatToString(-x);
    } else {
      NatRoundTrip(x);
      assert NatToString(x)[0] != '-';
    }
  }

  lemma IntToStringInjective(x: int, y: int)
    ensures IntToString(x) == IntToString(y) ==> x == y
  {
    IntRoundTrip(x);
    IntRoundTrip(y);
  }

  /** The text of one record, as the source appends it: a space, the letter
      of its kind, the number that names it, and the remaining fields. */
  function RecordText(r: Record, fmt: Value -> string): string {
    " " + [Letter(KindOf(r))] + IntToString(Lead(r)) + Fields(r, fmt)
  }

  /** The letter that opens a record of each kind. */
  function Letter(k: Kind): char {
    match k
    case AmpKind => 'e'
    case ResKind => 'r'
    case CapKind => 'c'
    case DioKind => 'd'
  }

  /** The number a record's text opens with: the amplifier's name, or the
      `back` node of a two-terminal element. */
  function Lead(r: Record): int {
    match r
    case Amp(name, _) => name
    case Res(x) => x.back
    case Cap(x) => x.back
    case Dio(x) => x.back
  }

  /** What follows the name: an amplifier's output, ground, its inputs and
      its fixed 999k rating; a two-terminal element's `forw` node and, for
      resistors and capacitors, the value with its `k` suffix. */
  function Fields(r: Record, fmt: Value -> string): string {
    match r
    case Amp(_, a) => " " + IntToString(a.out) + " 0 " + IntToString(a.inp) + " " + IntToString(a.inn) + " 999k"
    case Res(x) => " " + IntToString(x.forw) + " " + fmt(x.value) + "k"
    case Cap(x) => " " + IntToString(x.forw) + " " + fmt(x.value) + "k"
    case Dio(x) => " " + IntToString(x.forw)
  }

  /** Every record opens with a space, the letter of its kind and the number
      that names it. */
  lemma RecordTextHead(r: Record, fmt: Value -> string)
    ensures |RecordText(r, fmt)| >= 2 + |IntToString(Lead(r))|
    ensures RecordText(r, fmt)[0] == ' ' && RecordText(r, fmt)[1] == Letter(KindOf(r))
    ensures RecordText(r, fmt)[2..2 + |IntToString(Lead(r))|] == IntToString(Lead(r))
  {
  }

  /** The whole text of a record sequence. */
  function Text(s: seq<Record>, fmt: Value -> string): string
    decreases |s|
  {
    if s == [] then "" else RecordText(s[0], fmt) + Text(s[1..], fmt)
  }

  /** Appending records appends their text and alters nothing already
      emitted: the old text is a prefix of the new. */
  lemma {:induction false} TextAppend(a: seq<Record>, b: seq<Record>, fmt: Value -> string)
    ensures Text(a + b, fmt) == Text(a, fmt) + Text(b, fmt)
    ensures Text(a, fmt) <= Text(a + b, fmt)
    decreases |a|
  {
    if a == [] {
      assert a + b == b;
    } else {
      assert (a + b)[0] == a[0] && (a + b)[1..] == a[1..] + b;
      TextAppend(a[1..], b, fmt);
    }
  }
}
