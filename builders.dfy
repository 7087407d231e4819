/** The primitive builders of netlist_gen.cpp as functions of the incoming
    cursor: each gives the records the builder appends, in the order it
    appends them. The methods of NetlistGen.Netlist append exactly these
    records and move the cursor; the lemmas here state what the records are
    in circuit terms. */
module Builders {
  import opened Circuit

  /** inv_amp: amplifier first, then the input and feedback resistors.
      The second resistor prints the first one's value (both are `rval`). */
  function InvAmpRecords(i: int, rval: real): seq<Record> {
    [ Amp(i, Opamp(0, i + 1, i + 2)),
      Res(Resistor(i, i + 1, Known(rval))),
      Res(Resistor(i + 1, i + 2, Known(rval))) ]
  }

  /** One record per input of sum_amp, from the input's `back` node to the
      summing node `i`. The loop prints `res.value` before the source assigns
      it, so these values are uninitialised. */
  function SumInputs(i: int, conns: seq<Resistor>): seq<Record>
    decreases |conns|
  {
    if conns == [] then []
    else SumInputs(i, conns[..|conns| - 1]) + [Res(Resistor(conns[|conns| - 1].back, i, Uninitialized))]
  }

  /** sum_amp: the input resistors, the amplifier, then the feedback resistor
      whose value is taken from the first input. */
  function SumAmpRecords(i: int, conns: seq<Resistor>): seq<Record>
    requires |conns| > 0
  {
    SumInputs(i, conns) +
    [ Amp(i, Opamp(0, i, i + 1)),
      Res(Resistor(i, i + 1, conns[0].value)) ]
  }

  /** diff_amp: the plus input ends on node i+1 and the minus input on node i;
      i+1 is tied to ground and i to the output i+2; then the amplifier. The
      inputs' own `forw` fields are overwritten and play no part. */
  function DiffAmpRecords(i: int, inrp: Resistor, inrn: Resistor): seq<Record> {
    [ Res(Resistor(inrp.back, i + 1, inrp.value)),
      Res(Resistor(inrn.back, i, inrn.value)),
      Res(Resistor(i + 1, 0, inrp.value)),
      Res(Resistor(i, i + 2, inrn.value)),
      Amp(i, Opamp(i + 1, i, i + 2)) ]
  }

  /** samhold: two buffer stages and the holding capacitor from i+1 to ground. */
  function SamholdRecords(i: int, cval: real): seq<Record> {
    [ Amp(i, Opamp(0, i, i + 1)),
      Amp(i + 1, Opamp(0, i + 1, i + 2)),
      Cap(Capacitor(i + 1, 0, Known(cval))) ]
  }

  /** multiplier: the five amplifiers (each named after its inverting input),
      the ten resistors r1..r10 (r4..r10 never get a value), the three diodes.
      Every node is computed from `v1` and `v2`; the cursor plays no part. */
  function MultiplierRecords(v1: int, v2: int, rval: real): seq<Record> {
    MultiplierAmps(v1, v2) + MultiplierResistors(v1, v2, rval) + MultiplierDiodes(v2)
  }

  function MultiplierAmps(v1: int, v2: int): seq<Record> {
    [ Amp(v1 + 1, Opamp(0, v1 + 1, v2 + 2)),
      Amp(v2 + 1, Opamp(0, v2 + 1, v2 + 2)),
      Amp(v2 + 3, Opamp(0, v2 + 3, v2 + 4)),
      Amp(v2 + 5, Opamp(0, v2 + 5, v2 + 6)),
      Amp(v2 + 7, Opamp(0, v2 + 7, v2 + 8)) ]
  }

  function MultiplierResistors(v1: int, v2: int, rval: real): seq<Record> {
    [ Res(Resistor(v1, v1 + 1, Known(rval))),
      Res(Resistor(v2, v2 + 1, Known(rval))),
      Res(Resistor(v2 + 2, v2 + 3, Known(rval))),
      Res(Resistor(v2 + 2, v2 + 3, Uninitialized)),
      Res(Resistor(v2 + 3, v2 + 4, Uninitialized)),
      Res(Resistor(v2 + 5, v2 + 6, Uninitialized)),
      Res(Resistor(v2 + 6, v2 + 7, Uninitialized)),
      Res(Resistor(v2 + 7, v2 + 8, Uninitialized)),
      Res(Resistor(v1, v2 + 7, Uninitialized)),
      Res(Resistor(v2, v2 + 7, Uninitialized)) ]
  }

  function MultiplierDiodes(v2: int): seq<Record> {
    [ Dio(Diode(v2 + 1, v2 + 2)),
      Dio(Diode(v2 + 1, v2 + 2)),
      Dio(Diode(v2 + 4, v2 + 5)) ]
  }

  /** wire: a zero-valued resistor from p1 to p2. */
  function WireRecords(p1: int, p2: int): seq<Record> {
    [Res(Resistor(p1, p2, Known(0.0)))]
  }

  // ---------------------------------------------------------------------
  // What each builder emits

  /** inv_amp emits one amplifier and two resistors: input resistor from the
      cursor node into the summing node i+1, feedback resistor from i+1 to the
      output i+2, plus input grounded. Its only driven node is i+2, one past
      the cursor i+1 it leaves behind; every node it mentions is ground or
      among i..i+2, and for i >= 0 it never drives ground. */
  lemma InvAmpShape(i: int, rval: real)
    ensures Census(InvAmpRecords(i, rval)) == Tally(1, 2, 0, 0)
    ensures Driven(InvAmpRecords(i, rval)) == [i + 2]
    ensures InvAmpRecords(i, rval)[0].amp == Opamp(0, i + 1, i + 2)
    ensures InvAmpRecords(i, rval)[1].res.back == i && InvAmpRecords(i, rval)[1].res.forw == InvAmpRecords(i, rval)[0].amp.inn
    ensures InvAmpRecords(i, rval)[2].res.back == InvAmpRecords(i, rval)[0].amp.inn
    ensures InvAmpRecords(i, rval)[2].res.forw == InvAmpRecords(i, rval)[0].amp.out
    ensures forall r :: r in InvAmpRecords(i, rval) ==> Nodes(r) <= {0, i, i + 1, i + 2}
    ensures i >= 0 ==> GroundSafe(InvAmpRecords(i, rval))
  {
    var s := InvAmpRecords(i, rval);
    assert s == s[..1] + s[1..];
    UniformCount(s[..1], AmpKind);
    UniformCount(s[1..], ResKind);
    CensusAppend(s[..1], s[1..]);
    AllAmpsDriven(s[..1]);
    NoAmpsDriven(s[1..]);
    DrivenAppend(s[..1], s[1..]);
  }

  /** The records for the inputs of sum_amp, one per input and in input order. */
  lemma {:induction false} SumInputsAt(i: int, conns: seq<Resistor>)
    ensures |SumInputs(i, conns)| == |conns|
    ensures forall j :: 0 <= j < |conns| ==> SumInputs(i, conns)[j] == Res(Resistor(conns[j].back, i, Uninitialized))
    decreases |conns|
  {
    if conns != [] {
      var init := conns[..|conns| - 1];
      SumInputsAt(i, init);
      assert forall j :: 0 <= j < |init| ==> init[j] == conns[j];
    }
  }

  /** sum_amp emits |conns| + 2 records: one resistor per input, in input
      order, from that input's source node into the summing node i (the
      cursor); then the amplifier with plus input grounded, minus input i and
      output i+1; then the feedback resistor from i to i+1 carrying the first
      input's value. It drives only the new cursor i+1. */
  lemma SumAmpShape(i: int, conns: seq<Resistor>)
    requires |conns| > 0
    ensures |SumAmpRecords(i, conns)| == |conns| + 2
    ensures Census(SumAmpRecords(i, conns)) == Tally(1, |conns| + 1, 0, 0)
    ensures forall j :: 0 <= j < |conns| ==> SumAmpRecords(i, conns)[j] == Res(Resistor(conns[j].back, i, Uninitialized))
    ensures SumAmpRecords(i, conns)[|conns|] == Amp(i, Opamp(0, i, i + 1))
    ensures SumAmpRecords(i, conns)[|conns| + 1] == Res(Resistor(i, i + 1, conns[0].value))
    ensures Driven(SumAmpRecords(i, conns)) == [i + 1]
    ensures i >= 0 ==> GroundSafe(SumAmpRecords(i, conns))
  {
    var ins := SumInputs(i, conns);
    var tail := [Amp(i, Opamp(0, i, i + 1)), Res(Resistor(i, i + 1, conns[0].value))];
    SumInputsAt(i, conns);
    assert forall r :: r in ins ==> r.Res?;
    UniformCount(ins, ResKind);
    NoAmpsDriven(ins);
    assert tail == tail[..1] + tail[1..];
    UniformCount(tail[..1], AmpKind);
    UniformCount(tail[1..], ResKind);
    CensusAppend(tail[..1], tail[1..]);
    AllAmpsDriven(tail[..1]);
    NoAmpsDriven(tail[1..]);
    DrivenAppend(tail[..1], tail[1..]);
    CensusAppend(ins, tail);
    DrivenAppend(ins, tail);
  }

  /** Of its inputs, sum_amp reads only the source nodes and the first value:
      the `forw` fields it is handed (which it overwrites) and the other values
      make no difference. */
  lemma SumAmpIgnoresForw(i: int, conns: seq<Resistor>, conns': seq<Resistor>)
    requires |conns| == |conns'| > 0
    requires forall j :: 0 <= j < |conns| ==> conns[j].back == conns'[j].back
    requires conns[0].value == conns'[0].value
    ensures SumAmpRecords(i, conns) == SumAmpRecords(i, conns')
  {
    SumInputsAt(i, conns);
    SumInputsAt(i, conns');
    assert SumInputs(i, conns) == SumInputs(i, conns');
  }

  /** diff_amp emits four resistors and one amplifier. The plus input is
      brought to node i+1, the amplifier's plus input, which is tied to
      ground; the minus input to node i, the amplifier's minus input, which is
      tied to the output i+2 (the feedback path). The cursor moves to that
      output. */
  lemma DiffAmpShape(i: int, inrp: Resistor, inrn: Resistor)
    ensures Census(DiffAmpRecords(i, inrp, inrn)) == Tally(1, 4, 0, 0)
    ensures Driven(DiffAmpRecords(i, inrp, inrn)) == [i + 2]
    ensures DiffAmpRecords(i, inrp, inrn)[4] == Amp(i, Opamp(i + 1, i, i + 2))
    ensures DiffAmpRecords(i, inrp, inrn)[0].res == Resistor(inrp.back, i + 1, inrp.value)
    ensures DiffAmpRecords(i, inrp, inrn)[1].res == Resistor(inrn.back, i, inrn.value)
    ensures DiffAmpRecords(i, inrp, inrn)[2].res == Resistor(i + 1, 0, inrp.value)
    ensures DiffAmpRecords(i, inrp, inrn)[3].res == Resistor(i, i + 2, inrn.value)
    ensures forall r :: r in DiffAmpRecords(i, inrp, inrn) ==> Nodes(r) <= {0, i, i + 1, i + 2, inrp.back, inrn.back}
    ensures i >= 0 ==> GroundSafe(DiffAmpRecords(i, inrp, inrn))
  {
    var s := DiffAmpRecords(i, inrp, inrn);
    assert s == s[..4] + s[4..];
    UniformCount(s[..4], ResKind);
    UniformCount(s[4..], AmpKind);
    CensusAppend(s[..4], s[4..]);
    NoAmpsDriven(s[..4]);
    AllAmpsDriven(s[4..]);
    DrivenAppend(s[..4], s[4..]);
  }

  /** diff_amp overwrites the `forw` fields of both inputs, so whatever they
      held does not reach the output. */
  lemma DiffAmpIgnoresForw(i: int, inrp: Resistor, inrn: Resistor, f1: int, f2: int)
    ensures DiffAmpRecords(i, inrp.(forw := f1), inrn.(forw := f2)) == DiffAmpRecords(i, inrp, inrn)
  {
  }

  /** samhold emits two cascaded buffer stages and one capacitor: the first
      stage reads the cursor node i and drives i+1, which the second stage
      reads and which the capacitor holds against ground; the second stage
      drives i+2, where the cursor moves. */
  lemma SamholdShape(i: int, cval: real)
    ensures Census(SamholdRecords(i, cval)) == Tally(2, 0, 1, 0)
    ensures Driven(SamholdRecords(i, cval)) == [i + 1, i + 2]
    ensures SamholdRecords(i, cval)[0].amp.inn == i
    ensures SamholdRecords(i, cval)[1].amp.inn == SamholdRecords(i, cval)[0].amp.out
    ensures SamholdRecords(i, cval)[2] == Cap(Capacitor(SamholdRecords(i, cval)[0].amp.out, 0, Known(cval)))
    ensures forall r :: r in SamholdRecords(i, cval) ==> Nodes(r) <= {0, i, i + 1, i + 2}
    ensures i >= 0 ==> GroundSafe(SamholdRecords(i, cval))
  {
    var s := SamholdRecords(i, cval);
    assert s == s[..2] + s[2..];
    UniformCount(s[..2], AmpKind);
    UniformCount(s[2..], CapKind);
    CensusAppend(s[..2], s[2..]);
    AllAmpsDriven(s[..2]);
    NoAmpsDriven(s[2..]);
    DrivenAppend(s[..2], s[2..]);
  }

  /** multiplier emits exactly five amplifiers, then ten resistors, then three
      diodes, each amplifier named after its inverting input. */
  lemma MultiplierOrder(v1: int, v2: int, rval: real)
    ensures |MultiplierRecords(v1, v2, rval)| == 18
    ensures Census(MultiplierRecords(v1, v2, rval)) == Tally(5, 10, 0, 3)
    ensures forall j :: 0 <= j < 5 ==> MultiplierRecords(v1, v2, rval)[j].Amp?
    ensures forall j :: 5 <= j < 15 ==> MultiplierRecords(v1, v2, rval)[j].Res?
    ensures forall j :: 15 <= j < 18 ==> MultiplierRecords(v1, v2, rval)[j].Dio?
    ensures forall j :: 0 <= j < 5 ==> MultiplierRecords(v1, v2, rval)[j].name == MultiplierRecords(v1, v2, rval)[j].amp.inn
  {
    var a, r, d := MultiplierAmps(v1, v2), MultiplierResistors(v1, v2, rval), MultiplierDiodes(v2);
    UniformCount(a, AmpKind);
    UniformCount(r, ResKind);
    UniformCount(d, DioKind);
    CountAppend(a, r, AmpKind);
    CountAppend(a, r, ResKind);
    CountAppend(a, r, CapKind);
    CountAppend(a, r, DioKind);
    CensusAppend(a + r, d);
    var s := MultiplierRecords(v1, v2, rval);
    assert forall j :: 0 <= j < 5 ==> s[j] == a[j];
    assert forall j :: 5 <= j < 15 ==> s[j] == r[j - 5];
    assert forall j :: 15 <= j < 18 ==> s[j] == d[j - 15];
  }

  /** The multiplier's amplifiers drive v2+2 (two of them), v2+4, v2+6 and
      v2+8, so for v2 >= 0 none drives ground. */
  lemma MultiplierDriven(v1: int, v2: int, rval: real)
    ensures Driven(MultiplierRecords(v1, v2, rval)) == [v2 + 2, v2 + 2, v2 + 4, v2 + 6, v2 + 8]
    ensures v2 >= 0 ==> GroundSafe(MultiplierRecords(v1, v2, rval))
  {
    var a, r, d := MultiplierAmps(v1, v2), MultiplierResistors(v1, v2, rval), MultiplierDiodes(v2);
    AllAmpsDriven(a);
    NoAmpsDriven(r);
    NoAmpsDriven(d);
    DrivenAppend(a, r);
    DrivenAppend(a + r, d);
  }

  /** Every node the multiplier mentions is ground, v1, v1+1 or in v2..v2+8;
      the cursor does not enter into it. */
  lemma MultiplierNodes(v1: int, v2: int, rval: real)
    ensures forall r, t :: r in MultiplierRecords(v1, v2, rval) && t in Nodes(r) ==>
              t == 0 || t == v1 || t == v1 + 1 || v2 <= t <= v2 + 8
  {
    var a, r, d := MultiplierAmps(v1, v2), MultiplierResistors(v1, v2, rval), MultiplierDiodes(v2);
    assert forall x, t :: x in a && t in Nodes(x) ==> t == 0 || t == v1 + 1 || v2 <= t <= v2 + 8;
    assert forall x, t :: x in r && t in Nodes(x) ==> t == v1 || t == v1 + 1 || v2 <= t <= v2 + 8;
    assert forall x, t :: x in d && t in Nodes(x) ==> v2 <= t <= v2 + 8;
  }

  /** wire emits one zero-valued resistor joining p1 and p2 and drives
      nothing. A self-loop (p1 == p2) is emitted like any other. */
  lemma WireShape(p1: int, p2: int)
    ensures Census(WireRecords(p1, p2)) == Tally(0, 1, 0, 0)
    ensures Driven(WireRecords(p1, p2)) == []
    ensures WireRecords(p1, p2)[0].res.value == Known(0.0)
    ensures Nodes(WireRecords(p1, p2)[0]) == {p1, p2}
  {
    UniformCount(WireRecords(p1, p2), ResKind);
    NoAmpsDriven(WireRecords(p1, p2));
  }
}
