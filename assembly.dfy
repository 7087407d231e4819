/** The composers of netlist_gen.cpp, `junction` and `neuron`, as the
    records they append: each is the concatenation of the primitive
    builders' records at the cursor positions the composer reaches. The
    lemmas give the resulting counts, driven nodes, node ranges and the
    positions where the stages connect. */
module Assembly {
  import opened Circuit
  import opened Builders

  // ---------------------------------------------------------------------
  // junction

  /** The two inputs of the junction's summing amplifier: the axon node axn
      and the node axn+5, four past the summing node axn+1. */
  function JunctionInputs(axn: int, rval: real): seq<Resistor> {
    [Resistor(axn, axn + 1, Known(rval)), Resistor(axn + 5, axn + 1, Known(rval))]
  }

  /** junction resets the cursor to axn+1, then: sum_amp at axn+1, samhold at
      axn+2, an explicit bump from axn+4 to axn+5, diff_amp at axn+5 with its
      plus input from node `hill` and its minus input from the
      sample-and-hold output axn+4, and multiplier(axn, axn+7). The incoming
      cursor plays no part. */
  function JunctionRecords(axn: int, hill: int, rval: real, cval: real): seq<Record> {
    SumAmpRecords(axn + 1, JunctionInputs(axn, rval)) +
    SamholdRecords(axn + 2, cval) +
    DiffAmpRecords(axn + 5, Resistor(hill, hill + 1, Known(rval)), Resistor(axn + 4, axn + 5, Known(rval))) +
    MultiplierRecords(axn, axn + 7, rval)
  }

  /** The junction's first twelve records written out, followed by the
      multiplier's: the summing stage reads the axon node and the diff
      stage's minus node, the sample-and-hold reads the summing output, the
      diff stage reads node `hill` and the sample-and-hold output, and its
      output axn+7 is the multiplier's second operand. */
  lemma JunctionLayout(axn: int, hill: int, rval: real, cval: real)
    ensures |JunctionRecords(axn, hill, rval, cval)| == 30
    ensures JunctionRecords(axn, hill, rval, cval)[..12] ==
      [ Res(Resistor(axn, axn + 1, Uninitialized)),
        Res(Resistor(axn + 5, axn + 1, Uninitialized)),
        Amp(axn + 1, Opamp(0, axn + 1, axn + 2)),
        Res(Resistor(axn + 1, axn + 2, Known(rval))),
        Amp(axn + 2, Opamp(0, axn + 2, axn + 3)),
        Amp(axn + 3, Opamp(0, axn + 3, axn + 4)),
        Cap(Capacitor(axn + 3, 0, Known(cval))),
        Res(Resistor(hill, axn + 6, Known(rval))),
        Res(Resistor(axn + 4, axn + 5, Known(rval))),
        Res(Resistor(axn + 6, 0, Known(rval))),
        Res(Resistor(axn + 5, axn + 7, Known(rval))),
        Amp(axn + 5, Opamp(axn + 6, axn + 5, axn + 7)) ]
    ensures JunctionRecords(axn, hill, rval, cval)[12..] == MultiplierRecords(axn, axn + 7, rval)
  {
    var conns := JunctionInputs(axn, rval);
    SumAmpShape(axn + 1, conns);
    var s := JunctionRecords(axn, hill, rval, cval);
    var su := SumAmpRecords(axn + 1, conns);
    var sh := SamholdRecords(axn + 2, cval);
    var da := DiffAmpRecords(axn + 5, Resistor(hill, hill + 1, Known(rval)), Resistor(axn + 4, axn + 5, Known(rval)));
    MultiplierOrder(axn, axn + 7, rval);
    assert s == su + sh + da + MultiplierRecords(axn, axn + 7, rval);
    assert s[..12] == su + sh + da;
  }

  /** A junction emits 9 amplifiers, 17 resistors, 1 capacitor and 3 diodes,
      30 records in all, whatever its arguments. */
  lemma JunctionCensus(axn: int, hill: int, rval: real, cval: real)
    ensures Census(JunctionRecords(axn, hill, rval, cval)) == Tally(9, 17, 1, 3)
  {
    var conns := JunctionInputs(axn, rval);
    var su := SumAmpRecords(axn + 1, conns);
    var sh := SamholdRecords(axn + 2, cval);
    var da := DiffAmpRecords(axn + 5, Resistor(hill, hill + 1, Known(rval)), Resistor(axn + 4, axn + 5, Known(rval)));
    var mu := MultiplierRecords(axn, axn + 7, rval);
    SumAmpShape(axn + 1, conns);
    SamholdShape(axn + 2, cval);
    DiffAmpShape(axn + 5, Resistor(hill, hill + 1, Known(rval)), Resistor(axn + 4, axn + 5, Known(rval)));
    MultiplierOrder(axn, axn + 7, rval);
    CensusAppend(su, sh);
    CensusAppend(su + sh, da);
    CensusAppend(su + sh + da, mu);
  }

  /** The nodes a junction drives, in order. The last one, axn+15, lies one
      past the cursor axn+14 the junction leaves behind; axn+9 is driven
      twice; for axn >= 0 ground is never driven. */
  lemma JunctionDriven(axn: int, hill: int, rval: real, cval: real)
    ensures Driven(JunctionRecords(axn, hill, rval, cval)) ==
      [axn + 2, axn + 3, axn + 4, axn + 7, axn + 9, axn + 9, axn + 11, axn + 13, axn + 15]
    ensures axn >= 0 ==> GroundSafe(JunctionRecords(axn, hill, rval, cval))
  {
    var conns := JunctionInputs(axn, rval);
    var su := SumAmpRecords(axn + 1, conns);
    var sh := SamholdRecords(axn + 2, cval);
    var da := DiffAmpRecords(axn + 5, Resistor(hill, hill + 1, Known(rval)), Resistor(axn + 4, axn + 5, Known(rval)));
    var mu := MultiplierRecords(axn, axn + 7, rval);
    SumAmpShape(axn + 1, conns);
    SamholdShape(axn + 2, cval);
    DiffAmpShape(axn + 5, Resistor(hill, hill + 1, Known(rval)), Resistor(axn + 4, axn + 5, Known(rval)));
    MultiplierDriven(axn, axn + 7, rval);
    DrivenAppend(su, sh);
    DrivenAppend(su + sh, da);
    DrivenAppend(su + sh + da, mu);
  }

  /** Two different amplifiers of a junction carry the same name e<axn+1>:
      the summing stage, named by the cursor axn+1, and the multiplier's
      first stage, named by its inverting input axn+1. */
  lemma JunctionNameClash(axn: int, hill: int, rval: real, cval: real)
    ensures var s := JunctionRecords(axn, hill, rval, cval);
      |s| > 12 && s[2].Amp? && s[12].Amp? &&
      s[2].name == s[12].name == axn + 1 && s[2] != s[12]
  {
    JunctionLayout(axn, hill, rval, cval);
    var s := JunctionRecords(axn, hill, rval, cval);
    assert s[12] == s[12..][0];
  }

  /** Every node a junction mentions is ground, the row index `hill` used as
      a node, or in axn..axn+15. */
  lemma JunctionNodes(axn: int, hill: int, rval: real, cval: real)
    ensures forall r, t :: r in JunctionRecords(axn, hill, rval, cval) && t in Nodes(r) ==>
              t == 0 || t == hill || axn <= t <= axn + 15
  {
    var conns := JunctionInputs(axn, rval);
    var su := SumAmpRecords(axn + 1, conns);
    var sh := SamholdRecords(axn + 2, cval);
    var da := DiffAmpRecords(axn + 5, Resistor(hill, hill + 1, Known(rval)), Resistor(axn + 4, axn + 5, Known(rval)));
    var mu := MultiplierRecords(axn, axn + 7, rval);
    SumAmpShape(axn + 1, conns);
    SamholdShape(axn + 2, cval);
    DiffAmpShape(axn + 5, Resistor(hill, hill + 1, Known(rval)), Resistor(axn + 4, axn + 5, Known(rval)));
    MultiplierNodes(axn, axn + 7, rval);
    forall r, t | r in JunctionRecords(axn, hill, rval, cval) && t in Nodes(r)
      ensures t == 0 || t == hill || axn <= t <= axn + 15
    {
      assert r in su || r in sh || r in da || r in mu;
      if r in su {
        var j :| 0 <= j < |su| && su[j] == r;
        assert j == 0 || j == 1 || j == 2 || j == 3;
      }
    }
  }

  // ---------------------------------------------------------------------
  // neuron

  /** The summing amplifier's inputs in neuron: one per synapse node of the
      row, in row order, all of value rval. */
  function Charge(i: int, row: seq<int>, rval: real): (c: seq<Resistor>)
    ensures |c| == |row|
    ensures forall j :: 0 <= j < |row| ==> c[j].back == row[j]
  {
    seq(|row|, j requires 0 <= j < |row| => Resistor(row[j], i, Known(rval)))
  }

  /** The `forw` the source leaves unassigned in neuron's second
      differential input and second summing input. Both builders overwrite
      `forw`, so any value gives the same records (DiffAmpIgnoresForw,
      SumAmpIgnoresForw). */
  const UnsetForw: int := 0

  /** neuron from cursor i: sum_amp over the synapse row at i, diff_amp at
      i+1 against the threshold source, a wire from i+3 to the axon node,
      sum_amp at i+3 over {i+3, i+7}, samhold at i+4, and a wire from i+6 to
      the hillock node. The second differential input has its `back` set
      twice (to i+1, then i+2). */
  function NeuronRecords(i: int, row: seq<int>, ax: int, hk: int, thresh: Voltage, rval: real, cval: real): seq<Record>
    requires |row| > 0
  {
    SumAmpRecords(i, Charge(i, row, rval)) +
    DiffAmpRecords(i + 1, Resistor(thresh.forw, thresh.forw + 1, Known(rval)), Resistor(i + 2, UnsetForw, Known(rval))) +
    WireRecords(i + 3, ax) +
    SumAmpRecords(i + 3, [Resistor(i + 3, i + 4, Known(rval)), Resistor(i + 7, UnsetForw, Known(rval))]) +
    SamholdRecords(i + 4, cval) +
    WireRecords(i + 6, hk)
  }

  /** A neuron over an n-entry row emits n + 16 records: 5 amplifiers,
      n + 10 resistors (two of them wires) and 1 capacitor. */
  lemma NeuronCensus(i: int, row: seq<int>, ax: int, hk: int, thresh: Voltage, rval: real, cval: real)
    requires |row| > 0
    ensures |NeuronRecords(i, row, ax, hk, thresh, rval, cval)| == |row| + 16
    ensures Census(NeuronRecords(i, row, ax, hk, thresh, rval, cval)) == Tally(5, |row| + 10, 1, 0)
  {
    var p := Resistor(thresh.forw, thresh.forw + 1, Known(rval));
    var q := Resistor(i + 2, UnsetForw, Known(rval));
    var fb := [Resistor(i + 3, i + 4, Known(rval)), Resistor(i + 7, UnsetForw, Known(rval))];
    var s1 := SumAmpRecords(i, Charge(i, row, rval));
    var s2 := DiffAmpRecords(i + 1, p, q);
    var s3 := WireRecords(i + 3, ax);
    var s4 := SumAmpRecords(i + 3, fb);
    var s5 := SamholdRecords(i + 4, cval);
    var s6 := WireRecords(i + 6, hk);
    SumAmpShape(i, Charge(i, row, rval));
    DiffAmpShape(i + 1, p, q);
    WireShape(i + 3, ax);
    SumAmpShape(i + 3, fb);
    SamholdShape(i + 4, cval);
    WireShape(i + 6, hk);
    CensusAppend(s1, s2);
    CensusAppend(s1 + s2, s3);
    CensusAppend(s1 + s2 + s3, s4);
    CensusAppend(s1 + s2 + s3 + s4, s5);
    CensusAppend(s1 + s2 + s3 + s4 + s5, s6);
    CountTotal(s1 + s2 + s3 + s4 + s5 + s6);
  }

  /** The nodes a neuron drives: i+1 (sum), i+3 (difference), i+4 (second
      sum), i+5 and i+6 (sample-and-hold), the last being the cursor it
      leaves behind; for i >= 0 ground is never driven. */
  lemma NeuronDriven(i: int, row: seq<int>, ax: int, hk: int, thresh: Voltage, rval: real, cval: real)
    requires |row| > 0
    ensures Driven(NeuronRecords(i, row, ax, hk, thresh, rval, cval)) == [i + 1, i + 3, i + 4, i + 5, i + 6]
    ensures i >= 0 ==> GroundSafe(NeuronRecords(i, row, ax, hk, thresh, rval, cval))
  {
    var p := Resistor(thresh.forw, thresh.forw + 1, Known(rval));
    var q := Resistor(i + 2, UnsetForw, Known(rval));
    var fb := [Resistor(i + 3, i + 4, Known(rval)), Resistor(i + 7, UnsetForw, Known(rval))];
    var s1 := SumAmpRecords(i, Charge(i, row, rval));
    var s2 := DiffAmpRecords(i + 1, p, q);
    var s3 := WireRecords(i + 3, ax);
    var s4 := SumAmpRecords(i + 3, fb);
    var s5 := SamholdRecords(i + 4, cval);
    var s6 := WireRecords(i + 6, hk);
    SumAmpShape(i, Charge(i, row, rval));
    DiffAmpShape(i + 1, p, q);
    WireShape(i + 3, ax);
    SumAmpShape(i + 3, fb);
    SamholdShape(i + 4, cval);
    WireShape(i + 6, hk);
    DrivenAppend(s1, s2);
    DrivenAppend(s1 + s2, s3);
    DrivenAppend(s1 + s2 + s3, s4);
    DrivenAppend(s1 + s2 + s3 + s4, s5);
    DrivenAppend(s1 + s2 + s3 + s4 + s5, s6);
  }

  /** Where the neuron's stages sit (n = |row|): the row is summed in order
      into node i; the threshold node feeds the difference stage's plus node
      i+2, while the second difference input, its `back` overwritten, joins
      the amplifier's own two inputs; the first wire joins the difference
      output i+3 to the axon node; the second summing stage at i+3 takes a
      self-loop input from i+3 to i+3 and a feedback input from i+7; the
      second wire joins the sample-and-hold output i+6 to the hillock node. */
  lemma NeuronWiring(i: int, row: seq<int>, ax: int, hk: int, thresh: Voltage, rval: real, cval: real)
    requires |row| > 0
    ensures var s, n := NeuronRecords(i, row, ax, hk, thresh, rval, cval), |row|;
      |s| == n + 16 &&
      (forall j :: 0 <= j < n ==> s[j] == Res(Resistor(row[j], i, Uninitialized))) &&
      s[n] == Amp(i, Opamp(0, i, i + 1)) &&
      s[n + 2] == Res(Resistor(thresh.forw, i + 2, Known(rval))) &&
      s[n + 6] == Amp(i + 1, Opamp(i + 2, i + 1, i + 3)) &&
      s[n + 3] == Res(Resistor(s[n + 6].amp.inp, s[n + 6].amp.inn, Known(rval))) &&
      s[n + 7] == Res(Resistor(s[n + 6].amp.out, ax, Known(0.0))) &&
      s[n + 8] == Res(Resistor(i + 3, i + 3, Uninitialized)) &&
      s[n + 9] == Res(Resistor(i + 7, i + 3, Uninitialized)) &&
      s[n + 10] == Amp(i + 3, Opamp(0, i + 3, i + 4)) &&
      s[n + 11] == Res(Resistor(i + 3, i + 4, Known(rval))) &&
      s[n + 13] == Amp(i + 5, Opamp(0, i + 5, i + 6)) &&
      s[n + 15] == Res(Resistor(s[n + 13].amp.out, hk, Known(0.0)))
  {
    var p := Resistor(thresh.forw, thresh.forw + 1, Known(rval));
    var q := Resistor(i + 2, UnsetForw, Known(rval));
    var fb := [Resistor(i + 3, i + 4, Known(rval)), Resistor(i + 7, UnsetForw, Known(rval))];
    var c := Charge(i, row, rval);
    SumAmpShape(i, c);
    SumAmpShape(i + 3, fb);
    var n := |row|;
    var s1 := SumAmpRecords(i, c);
    var s2 := DiffAmpRecords(i + 1, p, q);
    var s3 := WireRecords(i + 3, ax);
    var s4 := SumAmpRecords(i + 3, fb);
    var s5 := SamholdRecords(i + 4, cval);
    var s6 := WireRecords(i + 6, hk);
    var s := NeuronRecords(i, row, ax, hk, thresh, rval, cval);
    assert s == s1 + s2 + s3 + s4 + s5 + s6;
    assert |s1| == n + 2 && |s2| == 5 && |s3| == 1 && |s4| == 4 && |s5| == 3;
    assert forall j :: 0 <= j < n + 2 ==> s[j] == s1[j];
    assert forall j :: 0 <= j < 5 ==> s[n + 2 + j] == s2[j];
    assert s[n + 7] == s3[0];
    assert forall j :: 0 <= j < 4 ==> s[n + 8 + j] == s4[j];
    assert forall j :: 0 <= j < 3 ==> s[n + 12 + j] == s5[j];
    assert s[n + 15] == s6[0];
  }

  /** Every node a neuron mentions is ground, the threshold node, the axon or
      hillock node, a synapse node of the row, or in i..i+7. */
  lemma NeuronNodes(i: int, row: seq<int>, ax: int, hk: int, thresh: Voltage, rval: real, cval: real)
    requires |row| > 0
    ensures forall r, t :: r in NeuronRecords(i, row, ax, hk, thresh, rval, cval) && t in Nodes(r) ==>
              t == 0 || t == thresh.forw || t == ax || t == hk || t in row || i <= t <= i + 7
  {
    var p := Resistor(thresh.forw, thresh.forw + 1, Known(rval));
    var q := Resistor(i + 2, UnsetForw, Known(rval));
    var fb := [Resistor(i + 3, i + 4, Known(rval)), Resistor(i + 7, UnsetForw, Known(rval))];
    var c := Charge(i, row, rval);
    var s1 := SumAmpRecords(i, c);
    var s2 := DiffAmpRecords(i + 1, p, q);
    var s3 := WireRecords(i + 3, ax);
    var s4 := SumAmpRecords(i + 3, fb);
    var s5 := SamholdRecords(i + 4, cval);
    var s6 := WireRecords(i + 6, hk);
    SumAmpShape(i, c);
    SumAmpShape(i + 3, fb);
    DiffAmpShape(i + 1, p, q);
    SamholdShape(i + 4, cval);
    WireShape(i + 3, ax);
    WireShape(i + 6, hk);
    forall r, t | r in NeuronRecords(i, row, ax, hk, thresh, rval, cval) && t in Nodes(r)
      ensures t == 0 || t == thresh.forw || t == ax || t == hk || t in row || i <= t <= i + 7
    {
      assert r in s1 || r in s2 || r in s3 || r in s4 || r in s5 || r in s6;
      if r in s1 {
        var j :| 0 <= j < |s1| && s1[j] == r;
        if j < |row| {
          assert r == Res(Resistor(row[j], i, Uninitialized));
        }
      } else if r in s4 {
        var j :| 0 <= j < |s4| && s4[j] == r;
        assert j == 0 || j == 1 || j == 2 || j == 3;
      } else if r in s3 {
        assert r == s3[0];
      } else if r in s6 {
        assert r == s6[0];
      }
    }
  }
}
