/** Concrete netlists: the text a few builder calls produce from a given
    cursor, with values left to `fmt`. */
module Scenarios {
  import opened Circuit
  import opened Builders
  import opened Render

  lemma ThreeTexts(a: Record, b: Record, c: Record, fmt: Value -> string)
    ensures Text([a, b, c], fmt) == RecordText(a, fmt) + RecordText(b, fmt) + RecordText(c, fmt)
  {
    TextOne(a, fmt);
    TextOne(b, fmt);
    TextOne(c, fmt);
    assert [a, b, c] == [a] + ([b] + [c]);
    TextAppend([b], [c], fmt);
    TextAppend([a], [b] + [c], fmt);
  }

  lemma TextOne(a: Record, fmt: Value -> string)
    ensures Text([a], fmt) == RecordText(a, fmt)
  {
  }

  lemma SmallNumbers()
    ensures IntToString(0) == "0" && IntToString(5) == "5"
    ensures IntToString(10) == "10" && IntToString(11) == "11"
  {
    assert NatToString(1) == "1";
    assert NatToString(10) == NatToString(1) + [Digit(0)];
    assert NatToString(11) == NatToString(1) + [Digit(1)];
  }

  lemma InputText(fmt: Value -> string)
    ensures RecordText(Res(Resistor(5, 10, Uninitialized)), fmt) == " r5 10 " + fmt(Uninitialized) + "k"
  {
    SmallNumbers();
  }

  lemma AmpText(fmt: Value -> string)
    ensures RecordText(Amp(10, Opamp(0, 10, 11)), fmt) == " e10 11 0 0 10 999k"
  {
    SmallNumbers();
  }

  lemma FeedbackText(fmt: Value -> string)
    ensures RecordText(Res(Resistor(10, 11, Known(1000.0))), fmt) == " r10 11 " + fmt(Known(1000.0)) + "k"
  {
    SmallNumbers();
  }

  /** sum_amp at cursor 10 with one input resistor from node 5: the input
      resistor (value never assigned), the amplifier named e10, and the
      feedback resistor carrying the first input's value. */
  lemma SumAmpAtTen(fmt: Value -> string)
    ensures Text(SumAmpRecords(10, [Resistor(5, 0, Known(1000.0))]), fmt) ==
      " r5 10 " + fmt(Uninitialized) + "k" + " e10 11 0 0 10 999k" + (" r10 11 " + fmt(Known(1000.0)) + "k")
  {
    var c := [Resistor(5, 0, Known(1000.0))];
    var a := Res(Resistor(5, 10, Uninitialized));
    var b := Amp(10, Opamp(0, 10, 11));
    var d := Res(Resistor(10, 11, Known(1000.0)));
    SumAmpShape(10, c);
    assert |SumAmpRecords(10, c)| == 3;
    assert SumAmpRecords(10, c) == [a, b, d];
    ThreeTexts(a, b, d, fmt);
    InputText(fmt);
    AmpText(fmt);
    FeedbackText(fmt);
  }
}
