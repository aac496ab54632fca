/** `FaultTolerantGates`: a registry from a gate's QASM text to a fault-tolerant block and
    its ancilla count. Adding a gate looks its block up, allocates what is missing (one
    classical register per operand position, named `classical...`, and one ancilla
    register per position), and splices the block once per position onto the ancillas
    followed by that position's register of every operand. */
module Gates {
  import opened Wrappers
  import opened Names
  import opened Circuits
  import opened Allocators
  import opened Layout
  import opened Splicing

  /** The four prefixes the allocators name registers under begin with different letters,
      so a name made under one prefix is never a name made under another: the allocator
      families never compete for a name. */
  lemma PrefixesApart(m: nat, n: nat)
    ensures RegName(DefaultQregPrefix, m) != RegName(DefaultAncillaPrefix, n)
    ensures RegName(DefaultQregPrefix, m) != RegName(DefaultCregPrefix, n)
    ensures RegName(DefaultQregPrefix, m) != RegName(GatePrefix, n)
    ensures RegName(DefaultAncillaPrefix, m) != RegName(DefaultCregPrefix, n)
    ensures RegName(DefaultAncillaPrefix, m) != RegName(GatePrefix, n)
    ensures RegName(DefaultCregPrefix, m) != RegName(GatePrefix, n)
  {
    assert RegName(DefaultQregPrefix, m)[0] == 'q';
    assert RegName(DefaultAncillaPrefix, m)[0] == 'a' && RegName(DefaultAncillaPrefix, n)[0] == 'a';
    assert RegName(DefaultCregPrefix, m)[0] == 'm' && RegName(DefaultCregPrefix, n)[0] == 'm';
    assert RegName(GatePrefix, n)[0] == 'c';
  }

  /** One registry entry: `(circuit, numAncillas)`. */
  datatype GateEntry = GateEntry(block: SubProgram, numAncillas: int)

  /** `FaultTolerantGates(gatesToCircuit)`. The constructor builds its tables from the map,
      so neither is `None` afterwards and the methods' `None` checks cannot fire. */
  datatype FtGates = FtGates(table: map<string, GateEntry>)

  /** The prefix the gate's classical registers are allocated under. */
  const GatePrefix := "classical"

  /** The classical bits of position j's splice: `cregs[j]` when the block has classical
      bits, none otherwise (`compose(block, qbits[j])`). */
  function GateClbits(e: GateEntry, cregs: seq<seq<Wire>>, n: nat): (cl: seq<seq<Wire>>)
    requires e.block.numClbits > 0 ==> n <= |cregs|
    ensures |cl| == n
    ensures forall j :: 0 <= j < n ==> cl[j] == if e.block.numClbits > 0 then cregs[j] else []
  {
    if e.block.numClbits > 0 then cregs[..n] else seq(n, _ => [])
  }

  /** What adding the gate appends: one splice per position of the first operand. */
  function GateInstructions(e: GateEntry, qregs: seq<seq<seq<Wire>>>, cregs: seq<seq<Wire>>,
                            ancillas: seq<seq<Wire>>): seq<Instruction>
    requires OperandsCover(qregs) && |qregs[0]| <= |ancillas|
    requires e.block.numClbits > 0 ==> |qregs[0]| <= |cregs|
  {
    Splices(e.block, CombineInterleaved(qregs, ancillas), GateClbits(e, cregs, |qregs[0]|), |qregs[0]|)
  }

  /** Position j's splice acts on its ancillas followed by the j-th register of every
      operand, and reads `cregs[j]` exactly when the block has classical bits. */
  lemma GateLayout(e: GateEntry, qregs: seq<seq<seq<Wire>>>, cregs: seq<seq<Wire>>, ancillas: seq<seq<Wire>>, j: nat)
    requires OperandsCover(qregs) && |qregs[0]| <= |ancillas|
    requires e.block.numClbits > 0 ==> |qregs[0]| <= |cregs|
    requires j < |qregs[0]|
    ensures |GateInstructions(e, qregs, cregs, ancillas)| == |qregs[0]|
    ensures GateInstructions(e, qregs, cregs, ancillas)[j].op == Compose(e.block)
    ensures GateInstructions(e, qregs, cregs, ancillas)[j].qubits == ancillas[j] + Column(qregs, j)
    ensures e.block.numClbits > 0 ==> GateInstructions(e, qregs, cregs, ancillas)[j].clbits == cregs[j]
    ensures e.block.numClbits == 0 ==> GateInstructions(e, qregs, cregs, ancillas)[j].clbits == []
  {
  }

  /** Whether Python can index everything it reads once the entry is found: some operand,
      every operand as long as the first, and given lists as long as the first. */
  ghost predicate GateArgsFit(e: GateEntry, qregs: seq<seq<seq<Wire>>>,
                              cregs: Option<seq<seq<Wire>>>, ancillas: Option<seq<seq<Wire>>>)
  {
    && OperandsCover(qregs)
    && (ancillas.Some? ==> |qregs[0]| <= |ancillas.value|)
    && (cregs.Some? && e.block.numClbits > 0 ==> |qregs[0]| <= |cregs.value|)
  }

  /** The lists a gate runs on: the given ones, or `numQubits` newly allocated classical
      registers, then ancilla registers. */
  method GateWiring(e: GateEntry, p: Program, numQubits: nat,
                    cregs: Option<seq<seq<Wire>>>, ancillas: Option<seq<seq<Wire>>>)
    returns (cr: seq<seq<Wire>>, anc: seq<seq<Wire>>, ghost crr: seq<Register>, ghost ar: seq<Register>)
    requires p.Valid()
    modifies p
    ensures p.Valid()
    ensures p.registers == old(p.registers) + crr + ar && p.instructions == old(p.instructions)
    ensures cregs.Some? ==> cr == cregs.value && crr == []
    ensures cregs.None? ==> Made(crr, cr, numQubits, e.block.numClbits, Classical, GatePrefix)
    ensures ancillas.Some? ==> anc == ancillas.value && ar == []
    ensures ancillas.None? ==> Made(ar, anc, numQubits, e.numAncillas, Ancilla, DefaultAncillaPrefix)
  {
    cr, crr := OrAllocate(p, cregs, numQubits, e.block.numClbits, GatePrefix, Classical);
    anc, ar := OrAllocate(p, ancillas, numQubits, e.numAncillas, DefaultAncillaPrefix, Ancilla);
  }

  /** A classical register the registry allocates is named `classical` + str(m), so it
      never takes a name the data, ancilla or measurement allocators hand out. */
  lemma GateCregsApart(crr: seq<Register>, cr: seq<seq<Wire>>, n: nat, numBits: int, i: nat, k: nat)
    requires Made(crr, cr, n, numBits, Classical, GatePrefix) && 1 <= numBits && i < n
    ensures crr[i].name != RegName(DefaultQregPrefix, k)
    ensures crr[i].name != RegName(DefaultAncillaPrefix, k)
    ensures crr[i].name != RegName(DefaultCregPrefix, k)
  {
    var m := SuffixOf(GatePrefix, crr[i].name);
    IsRegNameOf(GatePrefix, crr[i].name, m);
    PrefixesApart(k, m);
  }

  /** `addGateDag`: a key that is not registered fails before anything changes (Python's
      `KeyError`); otherwise the DAG gains the missing registers and one splice per
      position, in place. */
  method AddGate(g: FtGates, p: Program, key: string, qregs: seq<seq<seq<Wire>>>,
                 cregs: Option<seq<seq<Wire>>>, ancillas: Option<seq<seq<Wire>>>)
    returns (r: Result<GateEntry, string>, ghost cr: seq<seq<Wire>>, ghost anc: seq<seq<Wire>>,
             ghost crr: seq<Register>, ghost ar: seq<Register>)
    requires p.Valid()
    requires key in g.table ==> GateArgsFit(g.table[key], qregs, cregs, ancillas)
    modifies p
    ensures p.Valid()
    ensures r.Failure? <==> key !in g.table
    ensures r.Failure? ==> r.error == key && p.registers == old(p.registers) && p.instructions == old(p.instructions)
    ensures r.Success? ==> r.value == g.table[key] && p.registers == old(p.registers) + crr + ar
    ensures r.Success? && cregs.Some? ==> cr == cregs.value && crr == []
    ensures r.Success? && cregs.None? ==> Made(crr, cr, |qregs[0]|, r.value.block.numClbits, Classical, GatePrefix)
    ensures r.Success? && ancillas.Some? ==> anc == ancillas.value && ar == []
    ensures r.Success? && ancillas.None? ==> Made(ar, anc, |qregs[0]|, r.value.numAncillas, Ancilla, DefaultAncillaPrefix)
    ensures r.Success? ==> |qregs[0]| <= |anc| && (r.value.block.numClbits > 0 ==> |qregs[0]| <= |cr|)
    ensures r.Success? ==> (p.instructions == old(p.instructions) + GateInstructions(r.value, qregs, cr, anc))
  {
    if key !in g.table {
      return Failure(key), [], [], [], [];
    }
    var e := g.table[key];
    r := Success(e);
    var c, a;
    c, a, crr, ar := GateWiring(e, p, |qregs[0]|, cregs, ancillas);
    cr, anc := c, a;
    ApplyGate(e, p, qregs, c, a);
  }

  /** The splicing loop of a found gate, `compose` with or without classical bits. */
  method ApplyGate(e: GateEntry, p: Program, qregs: seq<seq<seq<Wire>>>, cregs: seq<seq<Wire>>, ancillas: seq<seq<Wire>>)
    requires OperandsCover(qregs) && |qregs[0]| <= |ancillas|
    requires e.block.numClbits > 0 ==> |qregs[0]| <= |cregs|
    modifies p
    ensures p.registers == old(p.registers)
    ensures p.instructions == old(p.instructions) + GateInstructions(e, qregs, cregs, ancillas)
  {
    var qbits := CombineInterleaved(qregs, ancillas);
    var clbits := GateClbits(e, cregs, |qbits|);
    for i := 0 to |qbits|
      invariant p.registers == old(p.registers)
      invariant p.instructions == old(p.instructions) + Splices(e.block, qbits, clbits, i)
    {
      if e.block.numClbits > 0 {
        p.Append(Splice(e.block, qbits[i], cregs[i]));
      } else {
        p.Append(Splice(e.block, qbits[i], []));
      }
    }
  }

  /** `addGateCircuit`: the same on a copy of the caller's circuit, which is left as it
      was; an unregistered key fails. */
  method AddGateCopy(g: FtGates, p: Program, key: string, qregs: seq<seq<seq<Wire>>>,
                     cregs: Option<seq<seq<Wire>>>, ancillas: Option<seq<seq<Wire>>>)
    returns (r: Result<Program, string>, ghost cr: seq<seq<Wire>>, ghost anc: seq<seq<Wire>>,
             ghost crr: seq<Register>, ghost ar: seq<Register>)
    requires p.Valid()
    requires key in g.table ==> GateArgsFit(g.table[key], qregs, cregs, ancillas)
    ensures r.Failure? <==> key !in g.table
    ensures r.Failure? ==> r.error == key
    ensures r.Success? ==> fresh(r.value) && r.value.Valid() && r.value.registers == p.registers + crr + ar
    ensures r.Success? && cregs.Some? ==> cr == cregs.value && crr == []
    ensures r.Success? && cregs.None? ==> Made(crr, cr, |qregs[0]|, g.table[key].block.numClbits, Classical, GatePrefix)
    ensures r.Success? && ancillas.Some? ==> anc == ancillas.value && ar == []
    ensures r.Success? && ancillas.None? ==> Made(ar, anc, |qregs[0]|, g.table[key].numAncillas, Ancilla, DefaultAncillaPrefix)
    ensures r.Success? ==> |qregs[0]| <= |anc| && (g.table[key].block.numClbits > 0 ==> |qregs[0]| <= |cr|)
    ensures r.Success? ==> (r.value.instructions == p.instructions + GateInstructions(g.table[key], qregs, cr, anc))
  {
    if key !in g.table {
      return Failure(key), [], [], [], [];
    }
    var q := p.Copy();
    var found;
    found, cr, anc, crr, ar := AddGate(g, q, key, qregs, cregs, ancillas);
    r := Success(q);
  }
}
