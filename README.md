# Netlist generator, modelled in Dafny

The BIAS netlist generator (`netlist_gen.cpp`) builds a SPICE-style netlist for
analog re-implementations of neuron circuits. A `netlist` value holds the text
emitted so far (`str`) and a node cursor (`index`). The component builders
each append records and move the cursor:

- `inv_amp` emits an inverting amplifier;
- `sum_amp` emits a summing amplifier with its input resistors;
- `diff_amp` emits a differential amplifier;
- `samhold` emits a sample-and-hold;
- `multiplier` emits a diode-log multiplier;
- `wire` emits a zero-valued resistor.

Two composers chain the builders. `junction` resets the cursor and chains
sum → sample-and-hold → difference → multiplier. `neuron` sums one synapse
row, subtracts a threshold, and wires the result to the neuron's axon and
hillock nodes.

The model has five modules:

- **`Circuit`** (`circuit.dfy`) holds the component structs and one record
  type per emitted line: amplifier, resistor, capacitor or diode. It also
  holds the bookkeeping the lemmas speak in:
  - `Census`: how many records of each kind;
  - `Driven`: the amplifier outputs, in order;
  - `GroundSafe`: node 0 is never driven;
  - `Nodes`: the nodes one record mentions.
- **`Builders`** (`builders.dfy`) gives, for each builder, the exact record
  sequence that builder emits as a function of the cursor and its arguments.
  Lemmas state each builder's counts, topology, driven nodes and node range.
- **`Assembly`** (`assembly.dfy`) does the same for `junction` and `neuron`.
  Their record sequences are the builders' sequences concatenated at the
  cursor positions the code reaches.
- **`NetlistGen`** (`netlist.dfy`) holds the state:
  - class `Netlist` has the record buffer `comps` and the cursor `index`;
  - class `Connectome` has the `axon`, `synapse` and `hillock` arrays.

  Every builder and composer is a method that changes the `Netlist` in
  place. It is proved to append exactly the `Builders`/`Assembly` sequence
  and to move the cursor by the source's amount. `sum_amp` and `neuron` keep
  their loops.
- **`Render`** (`render.dfy`) turns records into the appended text:
  - node numbers are rendered in decimal, with a parse-back round trip;
  - a value is rendered by a parameter `fmt` that stands for
    `to_string(double)`;
  - appending records appends their text, so the old text is always a
    prefix of the new one.

  `Scenarios` (`scenarios.dfy`) works one `sum_amp` call out to its exact
  text.

The quirks of the source's node arithmetic are modelled as written:

- `inv_amp` advances the cursor by one, although its output is two on.
- The multiplier's first two amplifiers both drive `v2+2`.
- After `junction` the cursor is `axn+14`, but the multiplier has already
  used `axn+15`.
- A junction emits two different amplifiers that are both named `e<axn+1>`:
  the summing stage and the multiplier's first stage.
- In `neuron`, the second summing stage's first input is a self-loop from
  `i+3` to `i+3`. Its `back` is the cursor (netlist_gen.cpp:499), and
  `sum_amp` sets its `forw` to the same cursor (netlist_gen.cpp:168).

These are stated as lemmas; the model does not repair them.

Facts about the code that its comments or naming might suggest otherwise:

- Component names are node numbers, not per-kind counters.
  - An amplifier is named by the cursor in `inv_amp`, `sum_amp` and
    `diff_amp`.
  - In `samhold`, the two amplifiers are named by the cursor and the
    cursor plus one.
  - In `multiplier`, each amplifier is named by its inverting input.
  - Resistors, capacitors and diodes are named by their `back` node.
- The comment before `junction` says "update connectome"
  (netlist_gen.cpp:523), but `junction` never reads or writes the
  connectome.
- `neuron` comments its two wires as its "first output to the axon" and
  its "second output" (netlist_gen.cpp:491, 516). The first goes to
  `axon[hill]` and the second to `hillock[hill]`.
- `sum_amp` writes its amplifier before its feedback resistor.
- `sum_amp`'s input resistors print a value that is never assigned.
- Capacitor lines end in `k`, like resistor lines.

## Model

| member | source | states |
|---|---|---|
| NetlistGen.Netlist.constructor | netlist_gen.cpp:74-77 | a netlist starts with no records and the given cursor |
| NetlistGen.Netlist.InvAmp | netlist_gen.cpp:120-155 | appends exactly inv_amp's three records after the old ones and advances the cursor by one |
| NetlistGen.Netlist.SumAmp | netlist_gen.cpp:159-197 | for a non-empty input list: appends one input resistor per connection (loop invariant: the inputs seen so far), then the amplifier and the feedback resistor; the cursor advances by one |
| NetlistGen.Netlist.DiffAmp | netlist_gen.cpp:203-239 | appends diff_amp's five records and advances the cursor by two |
| NetlistGen.Netlist.Samhold | netlist_gen.cpp:244-281 | appends samhold's two amplifiers and capacitor and advances the cursor by two |
| NetlistGen.Netlist.Multiplier | netlist_gen.cpp:286-435 | appends the multiplier's eighteen records, which depend on v1 and v2 only, and advances the cursor by seven |
| NetlistGen.Netlist.Wire | netlist_gen.cpp:441-453 | appends one zero-valued resistor from p1 to p2 and leaves the cursor alone |
| NetlistGen.Netlist.Neuron | netlist_gen.cpp:459-520 | appends the neuron's records for synapse row `hill` (built in a loop) whatever the unassigned `forw` fields hold, and ends six nodes past the old cursor |
| NetlistGen.Netlist.Junction | netlist_gen.cpp:525-573 | appends the junction's records, ends at axn+14 whatever the incoming cursor, and leaves the connectome unchanged |
| Builders.InvAmpShape | netlist_gen.cpp:120-155 | one amplifier (non-inverting input grounded, inverting input i+1, output i+2) and two resistors i→i+1→i+2; only nodes 0, i, i+1, i+2 are mentioned; it drives i+2 and, for i ≥ 0, never ground |
| Builders.SumInputsAt | netlist_gen.cpp:167-171 | the input loop emits one resistor per connection, in order, from its `back` node to the cursor, with an unassigned value |
| Builders.SumAmpShape | netlist_gen.cpp:159-197 | \|connections\|+2 records: the inputs, then the amplifier (0, i, i+1), then the feedback resistor i→i+1 carrying connections[0]'s value; 1 amplifier and \|connections\|+1 resistors; drives only i+1 |
| Builders.SumAmpIgnoresForw | netlist_gen.cpp:167-181 | the output depends only on the inputs' `back` nodes and on the first input's value |
| Builders.DiffAmpShape | netlist_gen.cpp:203-239 | plus input ends at i+1 and minus input at i; i+1 is tied to ground, i is tied to i+2; the amplifier (i+1, i, i+2) is last; 1 amplifier and 4 resistors; drives only i+2 |
| Builders.DiffAmpIgnoresForw | netlist_gen.cpp:209-210 | the incoming `forw` of both inputs has no effect on the output |
| Builders.SamholdShape | netlist_gen.cpp:244-281 | two cascaded buffers driving i+1 and i+2, and a capacitor from the first buffer's output to ground; 2 amplifiers and 1 capacitor |
| Builders.MultiplierOrder | netlist_gen.cpp:375-429 | exactly 18 records: 5 amplifiers, then 10 resistors, then 3 diodes; each amplifier is named by its inverting input |
| Builders.MultiplierDriven | netlist_gen.cpp:306-370 | the amplifiers drive v2+2, v2+2, v2+4, v2+6, v2+8; for v2 ≥ 0 none drives ground |
| Builders.MultiplierNodes | netlist_gen.cpp:292-370 | every node mentioned is ground, v1, v1+1 or in v2..v2+8 |
| Builders.WireShape | netlist_gen.cpp:441-453 | one resistor of value 0 joining exactly p1 and p2, driving nothing |
| Assembly.JunctionLayout | netlist_gen.cpp:525-573 | 30 records: sum_amp at axn+1 over axn and axn+5, samhold at axn+2, diff_amp at axn+5 against hill, then the multiplier at (axn, axn+7) |
| Assembly.JunctionCensus | netlist_gen.cpp:525-573 | a junction emits 9 amplifiers, 17 resistors, 1 capacitor and 3 diodes |
| Assembly.JunctionDriven | netlist_gen.cpp:545-570 | the driven nodes are axn+2, axn+3, axn+4, axn+7, axn+9 (twice), axn+11, axn+13, axn+15; for axn ≥ 0 none is ground |
| Assembly.JunctionNameClash | netlist_gen.cpp:525-573 | the junction's summing amplifier (named by the cursor axn+1) and the multiplier's first amplifier (named by its inverting input v1+1 = axn+1) are two different records with the same name e<axn+1> |
| Assembly.JunctionNodes | netlist_gen.cpp:531-570 | every node a junction mentions is ground, hill, or in axn..axn+15 |
| Assembly.NeuronCensus | netlist_gen.cpp:459-520 | an n-entry synapse row gives n+16 records: 5 amplifiers, n+10 resistors, 1 capacitor |
| Assembly.NeuronDriven | netlist_gen.cpp:474-517 | the driven nodes are i+1, i+3, i+4, i+5, i+6; for i ≥ 0 none is ground |
| Assembly.NeuronWiring | netlist_gen.cpp:474-517 | the row is summed in order at i; the threshold feeds the difference stage, whose output i+3 is wired to the axon node; the second sum at i+3 takes a self-loop input i+3→i+3 and a feedback input from i+7, then its amplifier and feedback resistor; the sample-and-hold output i+6 is wired to the hillock node |
| Assembly.NeuronNodes | netlist_gen.cpp:459-520 | every node a neuron mentions is ground, the threshold node, the axon or hillock node, a synapse node, or in i..i+7 |
| Render.IntRoundTrip | netlist_gen.cpp:141-142 | the decimal rendering of a node number reads back as that number |
| Render.IntToStringInjective | netlist_gen.cpp:145-146 | distinct node numbers render distinctly |
| Render.RecordTextHead | netlist_gen.cpp:141-150 | every record's line opens with a space, its kind letter (e, r, c, d) and its name number |
| Render.TextAppend | netlist_gen.cpp:141-150 | appending records appends their text; the old text is a prefix of the new, so nothing emitted is altered |
| Scenarios.SumAmpAtTen | netlist_gen.cpp:167-191 | sum_amp at cursor 10 over one input from node 5 writes ` r5 10 ?k e10 11 0 0 10 999k r10 11 <value>k` |

## Left out

- `neuralnet.cpp` is not part of this model: its `main` is empty.
- `main` and `write_netlist` are left out. Both have empty bodies, and the `ofstream` they would write to is file I/O.
- The declarations at the top of the file are left out. They give `multiplier` two resistor parameters; the model follows the definition, which takes node numbers.
- `to_string(double)` formatting is left out because it is floating-point formatting. Values are kept abstract as reals, and their text is the parameter `fmt`.
- Values the source prints without assigning them are the single value `Uninitialized`, rendered by `fmt`. These are the `sum_amp` input resistors and the multiplier's r4–r10. What such a line really prints is indeterminate.
- The uninitialised `forw` of `neuron`'s second difference input and second summing input is left out. These are modelled as arbitrary values, and the builders overwrite both.
- 32-bit `int` overflow in node arithmetic is left out. Integers are unbounded, so a cursor near `INT_MAX` is not modelled.
- The electrical meaning of the circuits (gains, voltages, the 999k amplifier rating as a quantity) is left out. Only the netlist structure is modelled. `voltage.value` is never read by the code.
- Passing `netlist` by value is modelled as one `Netlist` object changed in place. This is the same because every call site assigns the result back.
- The `connectome` copy that `neuron` receives by value is modelled as a reference that is only read.
- The "update connectome" step that the comment before `junction` mentions is not in the code, and therefore not in the model.
- A grid driver that would place junctions and neurons, and any run-wide component counters, do not exist in this code and are not modelled.
