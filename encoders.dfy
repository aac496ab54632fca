/** `Encoder`: prepares logical |0> states by splicing one encoding block per logical
    qubit, either into a new program (`createEncoder*`) or into a given one
    (`getEncoder*`). */
module Encoders {
  import opened Wrappers
  import opened Circuits
  import opened Allocators
  import opened Layout
  import opened Splicing

  /** `Encoder(encoderCircuit, numAncillas)`: the block encoding one logical qubit; its
      last `numAncillas` qubits are ancillas. The constructor converts the block to a DAG
      at once, so a missing block fails there: the later `None` checks cannot fire and
      are not modelled. */
  datatype Encoder = Encoder(block: SubProgram, numAncillas: int)

  /** Qubits of the block that carry data. */
  function DataWidth(e: Encoder): int
  {
    e.block.numQubits - e.numAncillas
  }

  /** `createEncoderCircuit` / `createEncoderDag`: a new program with `numQubits` data
      registers, then `numQubits` ancilla registers, then `numQubits` classical registers,
      and one splice of the block per logical qubit on its data and ancilla bits with its
      classical bits. A negative data width makes the register constructor fail, unless
      there is no logical qubit and so no register to construct. */
  method CreateEncoder(e: Encoder, numQubits: nat)
    returns (p: Program, ghost qregs: seq<seq<Wire>>, ghost ancillas: seq<seq<Wire>>, ghost cregs: seq<seq<Wire>>,
             ghost qr: seq<Register>, ghost ar: seq<Register>, ghost cr: seq<Register>)
    requires numQubits > 0 ==> 0 <= DataWidth(e)
    ensures fresh(p) && p.Valid()
    ensures p.registers == qr + ar + cr
    ensures Made(qr, qregs, numQubits, DataWidth(e), Quantum, DefaultQregPrefix)
    ensures Made(ar, ancillas, numQubits, e.numAncillas, Ancilla, DefaultAncillaPrefix)
    ensures Made(cr, cregs, numQubits, e.block.numClbits, Classical, DefaultCregPrefix)
    ensures p.instructions == Splices(e.block, CombineBlocks(qregs, ancillas), cregs, numQubits)
  {
    var qregs', ancillas', cregs';
    p, qregs', ancillas', cregs', qr, ar, cr := EncoderRegisters(e, numQubits);
    qregs, ancillas, cregs := qregs', ancillas', cregs';
    SpliceEach(p, e.block, CombineBlocks(qregs', ancillas'), cregs', numQubits);
  }

  /** The registers of `createEncoder*`: data, then ancillas, then classical bits. */
  method EncoderRegisters(e: Encoder, numQubits: nat)
    returns (p: Program, qregs: seq<seq<Wire>>, ancillas: seq<seq<Wire>>, cregs: seq<seq<Wire>>,
             ghost qr: seq<Register>, ghost ar: seq<Register>, ghost cr: seq<Register>)
    requires numQubits > 0 ==> 0 <= DataWidth(e)
    ensures fresh(p) && p.Valid()
    ensures p.registers == qr + ar + cr && p.instructions == []
    ensures Made(qr, qregs, numQubits, DataWidth(e), Quantum, DefaultQregPrefix)
    ensures Made(ar, ancillas, numQubits, e.numAncillas, Ancilla, DefaultAncillaPrefix)
    ensures Made(cr, cregs, numQubits, e.block.numClbits, Classical, DefaultCregPrefix)
  {
    p := new Program();
    ghost var suffixes;
    qregs, qr, suffixes := MakeQregs(p, numQubits, if numQubits == 0 then 0 else DataWidth(e), DefaultQregPrefix);
    assert p.registers == qr;
    ancillas, ar, suffixes := MakeAncillas(p, numQubits, e.numAncillas, DefaultAncillaPrefix);
    assert p.registers == qr + ar;
    cregs, cr, suffixes := MakeCregs(p, numQubits, e.block.numClbits, DefaultCregPrefix);
  }

  /** The wiring of `getEncoder*`: the given ancilla and classical lists, or ones
      allocated for `len(qregs)` logical qubits, ancillas first. */
  method EncoderWiring(e: Encoder, p: Program, numQubits: nat,
                       cregs: Option<seq<seq<Wire>>>, ancillas: Option<seq<seq<Wire>>>)
    returns (anc: seq<seq<Wire>>, cr: seq<seq<Wire>>, ghost ar: seq<Register>, ghost crr: seq<Register>)
    requires p.Valid()
    modifies p
    ensures p.Valid()
    ensures p.registers == old(p.registers) + ar + crr
    ensures ancillas.Some? ==> anc == ancillas.value && ar == []
    ensures ancillas.None? ==> Made(ar, anc, numQubits, e.numAncillas, Ancilla, DefaultAncillaPrefix)
    ensures cregs.Some? ==> cr == cregs.value && crr == []
    ensures cregs.None? ==> Made(crr, cr, numQubits, e.block.numClbits, Classical, DefaultCregPrefix)
    ensures ancillas.None? ==> |anc| == numQubits
    ensures cregs.None? ==> |cr| == numQubits
    ensures p.instructions == old(p.instructions)
  {
    anc, ar := OrAllocate(p, ancillas, numQubits, e.numAncillas, DefaultAncillaPrefix, Ancilla);
    cr, crr := OrAllocate(p, cregs, numQubits, e.block.numClbits, DefaultCregPrefix, Classical);
  }

  /** `getEncoderDag`: the DAG is extended in place with one splice per given register.
      The source sizes missing ancilla and classical lists by an undefined `numQubits`;
      the model uses `len(qregs)`, the only count the lists are indexed by. Lists that are
      given must cover every register, or Python's indexing fails. */
  method GetEncoder(e: Encoder, p: Program, qregs: seq<seq<Wire>>,
                    cregs: Option<seq<seq<Wire>>>, ancillas: Option<seq<seq<Wire>>>)
    returns (ghost anc: seq<seq<Wire>>, ghost cr: seq<seq<Wire>>, ghost ar: seq<Register>, ghost crr: seq<Register>)
    requires p.Valid()
    requires ancillas.Some? ==> |qregs| <= |ancillas.value|
    requires cregs.Some? ==> |qregs| <= |cregs.value|
    modifies p
    ensures p.Valid()
    ensures p.registers == old(p.registers) + ar + crr
    ensures ancillas.Some? ==> anc == ancillas.value && ar == []
    ensures ancillas.None? ==> Made(ar, anc, |qregs|, e.numAncillas, Ancilla, DefaultAncillaPrefix)
    ensures cregs.Some? ==> cr == cregs.value && crr == []
    ensures cregs.None? ==> Made(crr, cr, |qregs|, e.block.numClbits, Classical, DefaultCregPrefix)
    ensures p.instructions == old(p.instructions) + Splices(e.block, CombineBlocks(qregs, anc), cr, |qregs|)
  {
    var anc', cr';
    anc', cr', ar, crr := EncoderWiring(e, p, |qregs|, cregs, ancillas);
    anc, cr := anc', cr';
    SpliceEach(p, e.block, CombineBlocks(qregs, anc'), cr', |qregs|);
  }

  /** `getEncoderCircuit`: allocation adds the missing registers to the caller's circuit
      itself, while each `compose` returns a new circuit; so the caller's circuit gains
      registers but no instructions, and the result is a new program unless there was
      nothing to splice. */
  method GetEncoderCopy(e: Encoder, p: Program, qregs: seq<seq<Wire>>,
                        cregs: Option<seq<seq<Wire>>>, ancillas: Option<seq<seq<Wire>>>)
    returns (q: Program, ghost anc: seq<seq<Wire>>, ghost cr: seq<seq<Wire>>, ghost ar: seq<Register>, ghost crr: seq<Register>)
    requires p.Valid()
    requires ancillas.Some? ==> |qregs| <= |ancillas.value|
    requires cregs.Some? ==> |qregs| <= |cregs.value|
    modifies p
    ensures p.Valid()
    ensures p.registers == old(p.registers) + ar + crr
    ensures p.instructions == old(p.instructions)
    ensures ancillas.Some? ==> anc == ancillas.value && ar == []
    ensures ancillas.None? ==> Made(ar, anc, |qregs|, e.numAncillas, Ancilla, DefaultAncillaPrefix)
    ensures cregs.Some? ==> cr == cregs.value && crr == []
    ensures cregs.None? ==> Made(crr, cr, |qregs|, e.block.numClbits, Classical, DefaultCregPrefix)
    ensures |qregs| == 0 ==> q == p
    ensures |qregs| > 0 ==> fresh(q)
    ensures q.registers == p.registers
    ensures q.instructions == old(p.instructions) + Splices(e.block, CombineBlocks(qregs, anc), cr, |qregs|)
  {
    var anc', cr';
    anc', cr', ar, crr := EncoderWiring(e, p, |qregs|, cregs, ancillas);
    anc, cr := anc', cr';
    if |qregs| == 0 {
      q := p;
      return;
    }
    q := p.Copy();
    SpliceEach(q, e.block, CombineBlocks(qregs, anc'), cr', |qregs|);
  }

  /** Logical qubits never share a wire: the data and ancilla registers of a new encoding
      program all have different names, so the wire lists the splices get are pairwise
      disjoint. */
  lemma CreatedBlocksDisjoint(qregs: seq<seq<Wire>>, ancillas: seq<seq<Wire>>,
                              qr: seq<Register>, ar: seq<Register>, n: nat, dataWidth: nat, numAncillas: int)
    requires NamesDistinct(qr + ar)
    requires Made(qr, qregs, n, dataWidth, Quantum, DefaultQregPrefix)
    requires Made(ar, ancillas, n, numAncillas, Ancilla, DefaultAncillaPrefix)
    ensures forall i, j, w :: 0 <= i < n && 0 <= j < n && i != j && w in CombineBlocks(qregs, ancillas)[i]
              ==> w !in CombineBlocks(qregs, ancillas)[j]
  {
    var qbits := CombineBlocks(qregs, ancillas);
    forall i, j, w | 0 <= i < n && 0 <= j < n && i != j && w in qbits[i]
      ensures w !in qbits[j]
    {
      var ti := BlockOwner(qregs, ancillas, qr, ar, n, dataWidth, numAncillas, i, w);
      forall w': Wire | w' in qbits[j]
        ensures w'.reg != w.reg
      {
        var tj := BlockOwner(qregs, ancillas, qr, ar, n, dataWidth, numAncillas, j, w');
      }
    }
  }

  /** The register of `qr + ar` a wire of logical qubit i's block belongs to: its data
      register i or its ancilla register i. */
  lemma BlockOwner(qregs: seq<seq<Wire>>, ancillas: seq<seq<Wire>>, qr: seq<Register>, ar: seq<Register>,
                   n: nat, dataWidth: nat, numAncillas: int, i: nat, w: Wire)
    returns (t: nat)
    requires Made(qr, qregs, n, dataWidth, Quantum, DefaultQregPrefix)
    requires Made(ar, ancillas, n, numAncillas, Ancilla, DefaultAncillaPrefix)
    requires i < n && w in CombineBlocks(qregs, ancillas)[i]
    ensures t < |qr + ar| && w.reg == (qr + ar)[t].name
    ensures t == i || t == n + i
  {
    if w in qregs[i] {
      t := i;
    } else if numAncillas >= 1 {
      t := n + i;
    } else {
      assert false;
    }
  }
}
