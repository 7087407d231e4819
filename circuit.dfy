/** The component structs of the netlist generator and the records it appends
    to its output, with the bookkeeping used to state what a builder emits:
    how many records of each kind, which nodes amplifiers drive, and which
    nodes are mentioned at all. */
module Circuit {

  /** A resistor or capacitor value. The source keeps these as `double`s and
      formats them with `to_string`; here they stay abstract reals. Some
      records print a value the source never assigns: those carry
      `Uninitialized`. */
  datatype Value = Known(amount: real) | Uninitialized

  /** struct resistor: a two-terminal element from node `back` to node `forw`. */
  datatype Resistor = Resistor(back: int, forw: int, value: Value)

  /** struct capacitor. */
  datatype Capacitor = Capacitor(back: int, forw: int, value: Value)

  /** struct diode. */
  datatype Diode = Diode(back: int, forw: int)

  /** struct opamp: non-inverting input, inverting input and output nodes. */
  datatype Opamp = Opamp(inp: int, inn: int, out: int)

  /** struct voltage: a DC source of `value` volts at node `forw`. */
  datatype Voltage = Voltage(value: real, forw: int)

  /** One record appended to the netlist text:
      Amp    ` e<name> <out> 0 <inp> <inn> 999k`
      Res    ` r<back> <forw> <value>k`
      Cap    ` c<back> <forw> <value>k`
      Dio    ` d<back> <forw>`
      An amplifier's name is a node number chosen by its builder, not a
      per-kind counter. */
  datatype Record =
    | Amp(name: int, amp: Opamp)
    | Res(res: Resistor)
    | Cap(cap: Capacitor)
    | Dio(dio: Diode)

  /** The four kinds of record. */
  datatype Kind = AmpKind | ResKind | CapKind | DioKind

  function KindOf(r: Record): Kind {
    match r
    case Amp(_, _) => AmpKind
    case Res(_) => ResKind
    case Cap(_) => CapKind
    case Dio(_) => DioKind
  }

  /** The number of records of kind `k` in `s`. */
  function Count(s: seq<Record>, k: Kind): (c: nat)
    ensures c <= |s|
    decreases |s|
  {
    if s == [] then 0 else (if KindOf(s[0]) == k then 1 else 0) + Count(s[1..], k)
  }

  /** Counting distributes over appending. */
  lemma {:induction false} CountAppend(a: seq<Record>, b: seq<Record>, k: Kind)
    ensures Count(a + b, k) == Count(a, k) + Count(b, k)
    decreases |a|
  {
    if a == [] {
      assert a + b == b;
    } else {
      assert (a + b)[0] == a[0] && (a + b)[1..] == a[1..] + b;
      CountAppend(a[1..], b, k);
    }
  }

  /** Every record is of exactly one kind, so the four counts add up to the
      length. */
  lemma {:induction false} CountTotal(s: seq<Record>)
    ensures Count(s, AmpKind) + Count(s, ResKind) + Count(s, CapKind) + Count(s, DioKind) == |s|
    decreases |s|
  {
    if s != [] {
      CountTotal(s[1..]);
    }
  }

  /** How many amplifiers, resistors, capacitors and diodes a sequence holds. */
  datatype Tally = Tally(amps: nat, resistors: nat, capacitors: nat, diodes: nat)

  function Census(s: seq<Record>): Tally {
    Tally(Count(s, AmpKind), Count(s, ResKind), Count(s, CapKind), Count(s, DioKind))
  }

  lemma CensusAppend(a: seq<Record>, b: seq<Record>)
    ensures Census(a + b).amps == Census(a).amps + Census(b).amps
    ensures Census(a + b).resistors == Census(a).resistors + Census(b).resistors
    ensures Census(a + b).capacitors == Census(a).capacitors + Census(b).capacitors
    ensures Census(a + b).diodes == Census(a).diodes + Census(b).diodes
  {
    CountAppend(a, b, AmpKind);
    CountAppend(a, b, ResKind);
    CountAppend(a, b, CapKind);
    CountAppend(a, b, DioKind);
  }

  /** The output nodes of the amplifiers in `s`, in emission order. */
  function Driven(s: seq<Record>): (d: seq<int>)
    ensures |d| == Count(s, AmpKind)
    decreases |s|
  {
    if s == [] then []
    else (if s[0].Amp? then [s[0].amp.out] else []) + Driven(s[1..])
  }

  lemma {:induction false} DrivenAppend(a: seq<Record>, b: seq<Record>)
    ensures Driven(a + b) == Driven(a) + Driven(b)
    decreases |a|
  {
    if a == [] {
      assert a + b == b;
    } else {
      assert (a + b)[0] == a[0] && (a + b)[1..] == a[1..] + b;
      DrivenAppend(a[1..], b);
    }
  }

  /** A run of records that are all of kind `k` counts only under `k`. */
  lemma {:induction false} UniformCount(s: seq<Record>, k: Kind)
    requires forall r :: r in s ==> KindOf(r) == k
    ensures forall k' :: Count(s, k') == if k' == k then |s| else 0
    decreases |s|
  {
    if s != [] {
      assert forall r :: r in s[1..] ==> r in s;
      UniformCount(s[1..], k);
    }
  }

  /** In a run of amplifiers, the driven nodes are their outputs, one each. */
  lemma {:induction false} AllAmpsDriven(s: seq<Record>)
    requires forall r :: r in s ==> r.Amp?
    ensures |Driven(s)| == |s|
    ensures forall j :: 0 <= j < |s| ==> Driven(s)[j] == s[j].amp.out
    decreases |s|
  {
    if s != [] {
      assert forall r :: r in s[1..] ==> r in s;
      AllAmpsDriven(s[1..]);
    }
  }

  /** A run without amplifiers drives nothing. */
  lemma {:induction false} NoAmpsDriven(s: seq<Record>)
    requires forall r :: r in s ==> !r.Amp?
    ensures Driven(s) == []
    decreases |s|
  {
    if s != [] {
      assert forall r :: r in s[1..] ==> r in s;
      NoAmpsDriven(s[1..]);
    }
  }

  /** Ground (node 0) is never an amplifier's driven output. */
  predicate GroundSafe(s: seq<Record>) {
    0 !in Driven(s)
  }

  /** The nodes one record mentions; an amplifier line always names ground
      as its reference terminal. */
  function Nodes(r: Record): set<int> {
    match r
    case Amp(_, a) => {a.out, 0, a.inp, a.inn}
    case Res(x) => {x.back, x.forw}
    case Cap(x) => {x.back, x.forw}
    case Dio(x) => {x.back, x.forw}
  }
}
