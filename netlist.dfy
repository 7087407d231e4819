/** The netlist generator's state and builders, as in netlist_gen.cpp: a
    `netlist` holds the output accumulated so far and the node cursor
    `index`; every builder appends records and moves the cursor. The source
    passes the netlist by value and returns the changed copy; here one
    object is threaded through the calls and changed in place, which is the
    same as long as each call's result replaces its argument, as it does at
    every call site. */
module NetlistGen {
  import opened Circuit
  import opened Builders
  import opened Assembly

  /** The grid size, a compile-time constant of the source. */
  const N: nat := 5

  /** struct connectome: the axon node and hillock node of every neuron and
      the synapse table. The source keeps them as fixed-size arrays. */
  class Connectome {
    const axon: array<int>
    const synapse: array2<int>
    const hillock: array<int>

    ghost predicate Valid()
      reads this
    {
      axon.Length == N && hillock.Length == N &&
      synapse.Length0 == N && synapse.Length1 == N
    }

    /** The synapse nodes feeding neuron `hill`, in order. */
    function Row(hill: int): (r: seq<int>)
      reads this, synapse
      requires Valid() && 0 <= hill < N
      ensures |r| == N
      ensures forall j :: 0 <= j < N ==> r[j] == synapse[hill, j]
    {
      seq(N, j requires 0 <= j < N reads synapse => synapse[hill, j])
    }
  }

  /** struct netlist: the records appended so far (the text `str` is
      Render.Text of them) and the node cursor. */
  class Netlist {
    var comps: seq<Record>
    var index: int

    constructor (start: int)
      ensures comps == [] && index == start
    {
      comps := [];
      index := start;
    }

    /** inv_amp: appends its three records; the cursor moves by one, not to
        the amplifier's output (see Builders.InvAmpShape). */
    method InvAmp(rval: real)
      modifies this
      ensures comps == old(comps) + InvAmpRecords(old(index), rval)
      ensures index == old(index) + 1
    {
      var res := Resistor(index, index + 1, Known(rval));
      var res2 := Resistor(index + 1, index + 2, Known(rval));
      var oa := Opamp(0, index + 1, index + 2);
      comps := comps + [Amp(index, oa)];
      comps := comps + [Res(res)];
      comps := comps + [Res(res2.(value := res.value))];
      index := index + 1;
    }

    /** sum_amp: the loop over the inputs, then the amplifier and feedback
        resistor; the cursor moves to the amplifier's output. */
    method SumAmp(connections: seq<Resistor>)
      requires |connections| > 0
      modifies this
      ensures comps == old(comps) + SumAmpRecords(old(index), connections)
      ensures index == old(index) + 1
    {
      for k := 0 to |connections|
        invariant index == old(index)
        invariant comps == old(comps) + SumInputs(index, connections[..k])
      {
        var r := connections[k].(forw := index);
        comps := comps + [Res(Resistor(r.back, r.forw, Uninitialized))];
        assert connections[..k + 1][..k] == connections[..k];
      }
      assert connections[..|connections|] == connections;
      var oa := Opamp(0, index, index + 1);
      var res := Resistor(index, index + 1, connections[0].value);
      comps := comps + [Amp(index, oa)];
      comps := comps + [Res(res)];
      index := index + 1;
    }

    /** diff_amp: four resistors and the amplifier; the cursor moves by two,
        to the amplifier's output. */
    method DiffAmp(inrp: Resistor, inrn: Resistor)
      modifies this
      ensures comps == old(comps) + DiffAmpRecords(old(index), inrp, inrn)
      ensures index == old(index) + 2
    {
      var p := inrp.(forw := index + 1);
      var n := inrn.(forw := index);
      comps := comps + [Res(p)];
      comps := comps + [Res(n)];
      comps := comps + [Res(Resistor(p.forw, 0, p.value))];
      comps := comps + [Res(Resistor(n.forw, index + 2, n.value))];
      var oa := Opamp(p.forw, n.forw, index + 2);
      comps := comps + [Amp(index, oa)];
      index := index + 2;
    }

    /** samhold: two buffer stages and the holding capacitor; the cursor
        moves by two, to the second stage's output. */
    method Samhold(cval: real)
      modifies this
      ensures comps == old(comps) + SamholdRecords(old(index), cval)
      ensures index == old(index) + 2
    {
      var oa1 := Opamp(0, index, index + 1);
      var oa2 := Opamp(0, index + 1, index + 2);
      var cap := Capacitor(index + 1, 0, Known(cval));
      comps := comps + [Amp(index, oa1)];
      comps := comps + [Amp(index + 1, oa2)];
      comps := comps + [Cap(cap)];
      index := index + 2;
    }

    /** multiplier: eighteen records placed from v1 and v2 alone; the cursor
        moves by the fixed seven. */
    method Multiplier(v1: int, v2: int, rval: real)
      modifies this
      ensures comps == old(comps) + MultiplierRecords(v1, v2, rval)
      ensures index == old(index) + 7
    {
      comps := comps + MultiplierAmps(v1, v2);
      comps := comps + MultiplierResistors(v1, v2, rval);
      comps := comps + MultiplierDiodes(v2);
      index := index + 7;
    }

    /** wire: one zero-valued resistor; the cursor stays. */
    method Wire(p1: int, p2: int)
      modifies this
      ensures comps == old(comps) + WireRecords(p1, p2)
      ensures index == old(index)
    {
      var test := Resistor(p1, p2, Known(0.0));
      comps := comps + [Res(test)];
    }

    /** neuron: sums the synapse row of `hill`, subtracts the threshold,
        wires the difference to the axon node, then a summing stage and a
        sample-and-hold wired to the hillock node. Ends six nodes on. The
        connectome is only read. */
    method Neuron(grid: Connectome, thresh: Voltage, rval: real, cval: real, hill: int)
      requires grid.Valid() && 0 <= hill < N
      modifies this
      ensures comps == old(comps) + NeuronRecords(old(index), grid.Row(hill), grid.axon[hill], grid.hillock[hill], thresh, rval, cval)
      ensures index == old(index) + 6
    {
      ghost var i := index;
      var charge := new Resistor[N](_ => Resistor(0, 0, Known(0.0)));
      for j := 0 to N
        invariant index == i && comps == old(comps)
        invariant forall k :: 0 <= k < j ==> charge[k] == Resistor(grid.synapse[hill, k], index, Known(rval))
      {
        charge[j] := Resistor(grid.synapse[hill, j], index, Known(rval));
      }
      assert charge[..] == Charge(i, grid.Row(hill), rval);
      SumAmp(charge[..]);

      var dr1 := Resistor(thresh.forw, thresh.forw + 1, Known(rval));
      var unsetForw: int := *;  // dr2.forw is never assigned
      var dr2 := Resistor(index, unsetForw, Known(rval));
      dr2 := dr2.(back := index + 1);
      DiffAmpIgnoresForw(index, dr1, dr2, dr1.forw, UnsetForw);
      DiffAmp(dr1, dr2);

      Wire(index, grid.axon[hill]);

      var sr1 := Resistor(index, index + 1, Known(rval));
      var unsetForw2: int := *;  // sr2.forw is never assigned
      var sr2 := Resistor(index, unsetForw2, Known(rval));
      sr2 := sr2.(back := index + 4);
      SumAmpIgnoresForw(index, [sr1, sr2], [sr1, sr2.(forw := UnsetForw)]);
      SumAmp([sr1, sr2]);

      Samhold(cval);
      Wire(index, grid.hillock[hill]);
    }

    /** junction: resets the cursor to axn+1 and runs sum_amp, samhold, a
        one-node bump, diff_amp and multiplier; ends at axn+14 whatever the
        incoming cursor. The connectome, passed by reference, is neither read
        nor written. */
    method Junction(grid: Connectome, axn: int, hill: int, rval: real, cval: real)
      modifies this
      ensures comps == old(comps) + JunctionRecords(axn, hill, rval, cval)
      ensures index == axn + 14
      ensures unchanged(grid, grid.axon, grid.synapse, grid.hillock)
    {
      var r1 := Resistor(axn, axn + 1, Known(rval));
      var r2 := Resistor(r1.forw + 4, r1.forw, Known(rval));
      var set1 := [r1, r2];
      index := r1.forw;
      SumAmp(set1);
      Samhold(cval);
      var dr1 := Resistor(hill, hill + 1, Known(rval));
      var dr2 := Resistor(index, index + 1, Known(rval));
      index := index + 1;
      DiffAmp(dr1, dr2);
      Multiplier(axn, index, rval);
    }
  }
}
