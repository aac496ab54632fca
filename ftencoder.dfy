/** `FaultTolerantEncoder`: encodes each logical qubit once, then runs `numRepeats - 1`
    check rounds. In a round every logical qubit is checked by splicing the checker block
    onto its data bits and its checker ancillas, and for every classical value `k` the
    checker register can hold other than the accepted one, the data block is reset and
    re-encoded under the condition `checker register == k`. A last check follows. */
module FaultTolerantEncoders {
  import opened Wrappers
  import opened Circuits
  import opened Allocators
  import opened Layout
  import opened Splicing
  import opened Encoders

  /** The `correctVal` argument. The source compares `k != correctVal`; an `int` is
      compared by value, while a Python list is never equal to an `int`, so a list
      rejects every value. */
  datatype Accepted = IntValue(v: int) | ListValue(vs: seq<int>)

  /** `k != correctVal`. */
  predicate Rejects(a: Accepted, k: nat)
  {
    match a
    case IntValue(v) => k != v
    case ListValue(_) => true
  }

  /** `FaultTolerantEncoder(encoder, checkerCircuit, numAncillas, correctVal, numRepeats)`. */
  datatype FtEncoder = FtEncoder(encoder: Encoder, checker: SubProgram, numAncillas: int,
                                 correctVal: Accepted, numRepeats: int)

  /** `2**n`. */
  function Pow2(n: nat): (r: nat)
    ensures r >= 1
  {
    if n == 0 then 1 else 2 * Pow2(n - 1)
  }

  /** The number of values the checker's classical register can hold. */
  function Syndromes(f: FtEncoder): nat
  {
    Pow2(f.checker.numClbits)
  }

  /** `range(numRepeats - 1)` is empty when `numRepeats` is below two. */
  function Repeats(f: FtEncoder): nat
  {
    if f.numRepeats - 1 > 0 then f.numRepeats - 1 else 0
  }

  /** The reset of data block `qb`, guarded by `cr2 == k`. */
  function ResetIf(qb: seq<Wire>, cr2: seq<Wire>, k: nat): Instruction
  {
    Instruction(Reset, qb, [], Some(Condition(cr2, k)))
  }

  /** The re-encoding of data block `qb` with classical bits `cr1`, guarded by `cr2 == k`. */
  function EncodeIf(f: FtEncoder, qb: seq<Wire>, cr1: seq<Wire>, cr2: seq<Wire>, k: nat): Instruction
  {
    Instruction(Compose(f.encoder.block), qb, cr1, Some(Condition(cr2, k)))
  }

  /** The number of values below `n` the accepted value rejects. */
  function RejectedBelow(a: Accepted, n: nat): (r: nat)
    ensures r <= n
  {
    if n == 0 then 0 else RejectedBelow(a, n - 1) + (if Rejects(a, n - 1) then 1 else 0)
  }

  /** The innermost loop, for values `0 .. n-1`: a guarded reset and a guarded
      re-encoding for each rejected value. */
  function Retries(f: FtEncoder, qb: seq<Wire>, cr1: seq<Wire>, cr2: seq<Wire>, n: nat): (s: seq<Instruction>)
    ensures |s| == 2 * RejectedBelow(f.correctVal, n)
  {
    if n == 0 then []
    else Retries(f, qb, cr1, cr2, n - 1)
         + (if Rejects(f.correctVal, n - 1) then [ResetIf(qb, cr2, n - 1), EncodeIf(f, qb, cr1, cr2, n - 1)] else [])
  }

  /** The instructions of one check round for logical qubits `0 .. m-1`. */
  function CheckRound(f: FtEncoder, qbits1: seq<seq<Wire>>, qbits2: seq<seq<Wire>>,
                      cregs1: seq<seq<Wire>>, cregs2: seq<seq<Wire>>, m: nat): (s: seq<Instruction>)
    requires m <= |qbits1| && m <= |qbits2| && m <= |cregs1| && m <= |cregs2|
  {
    if m == 0 then []
    else CheckRound(f, qbits1, qbits2, cregs1, cregs2, m - 1)
         + [Splice(f.checker, qbits2[m - 1], cregs2[m - 1])]
         + Retries(f, qbits1[m - 1], cregs1[m - 1], cregs2[m - 1], Syndromes(f))
  }

  /** `r` check rounds over `n` logical qubits. */
  function Rounds(f: FtEncoder, qbits1: seq<seq<Wire>>, qbits2: seq<seq<Wire>>,
                  cregs1: seq<seq<Wire>>, cregs2: seq<seq<Wire>>, n: nat, r: nat): (s: seq<Instruction>)
    requires n <= |qbits1| && n <= |qbits2| && n <= |cregs1| && n <= |cregs2|
  {
    if r == 0 then []
    else Rounds(f, qbits1, qbits2, cregs1, cregs2, n, r - 1) + CheckRound(f, qbits1, qbits2, cregs1, cregs2, n)
  }

  /** Everything the encoder appends for `n` logical qubits: the plain encoding, the
      check rounds, and the last check. */
  function FtInstructions(f: FtEncoder, qbits1: seq<seq<Wire>>, qbits2: seq<seq<Wire>>,
                          cregs1: seq<seq<Wire>>, cregs2: seq<seq<Wire>>, n: nat): seq<Instruction>
    requires n <= |qbits1| && n <= |qbits2| && n <= |cregs1| && n <= |cregs2|
  {
    Splices(f.encoder.block, qbits1, cregs1, n)
    + Rounds(f, qbits1, qbits2, cregs1, cregs2, n, Repeats(f))
    + Splices(f.checker, qbits2, cregs2, n)
  }

  /** The `k` loop. */
  method RetryEach(f: FtEncoder, p: Program, qb: seq<Wire>, cr1: seq<Wire>, cr2: seq<Wire>)
    modifies p
    ensures p.registers == old(p.registers)
    ensures p.instructions == old(p.instructions) + Retries(f, qb, cr1, cr2, Syndromes(f))
  {
    for k := 0 to Syndromes(f)
      invariant p.registers == old(p.registers)
      invariant p.instructions == old(p.instructions) + Retries(f, qb, cr1, cr2, k)
    {
      if Rejects(f.correctVal, k) {
        p.Append(ResetIf(qb, cr2, k));
        p.Append(EncodeIf(f, qb, cr1, cr2, k));
      }
    }
  }

  /** The `j` loop of one round. */
  method CheckEach(f: FtEncoder, p: Program, qbits1: seq<seq<Wire>>, qbits2: seq<seq<Wire>>,
                   cregs1: seq<seq<Wire>>, cregs2: seq<seq<Wire>>, n: nat)
    requires n <= |qbits1| && n <= |qbits2| && n <= |cregs1| && n <= |cregs2|
    modifies p
    ensures p.registers == old(p.registers)
    ensures p.instructions == old(p.instructions) + CheckRound(f, qbits1, qbits2, cregs1, cregs2, n)
  {
    for j := 0 to n
      invariant p.registers == old(p.registers)
      invariant p.instructions == old(p.instructions) + CheckRound(f, qbits1, qbits2, cregs1, cregs2, j)
    {
      p.Append(Splice(f.checker, qbits2[j], cregs2[j]));
      RetryEach(f, p, qbits1[j], cregs1[j], cregs2[j]);
    }
  }

  /** The `i` loop. */
  method RoundEach(f: FtEncoder, p: Program, qbits1: seq<seq<Wire>>, qbits2: seq<seq<Wire>>,
                   cregs1: seq<seq<Wire>>, cregs2: seq<seq<Wire>>, n: nat)
    requires n <= |qbits1| && n <= |qbits2| && n <= |cregs1| && n <= |cregs2|
    modifies p
    ensures p.registers == old(p.registers)
    ensures p.instructions == old(p.instructions) + Rounds(f, qbits1, qbits2, cregs1, cregs2, n, Repeats(f))
  {
    for i := 0 to Repeats(f)
      invariant p.registers == old(p.registers)
      invariant p.instructions == old(p.instructions) + Rounds(f, qbits1, qbits2, cregs1, cregs2, n, i)
    {
      CheckEach(f, p, qbits1, qbits2, cregs1, cregs2, n);
    }
  }

  /** The body shared by every variant once the wiring is known: the encoder's own
      `getEncoder*` on the given lists, the rounds, then the last check. */
  method Encode(f: FtEncoder, p: Program, qregs: seq<seq<Wire>>, ancillas1: seq<seq<Wire>>,
                cregs1: seq<seq<Wire>>, ancillas2: seq<seq<Wire>>, cregs2: seq<seq<Wire>>)
    requires p.Valid()
    requires |qregs| <= |ancillas1| && |qregs| <= |cregs1| && |qregs| <= |ancillas2| && |qregs| <= |cregs2|
    modifies p
    ensures p.Valid() && p.registers == old(p.registers)
    ensures p.instructions == old(p.instructions)
              + FtInstructions(f, CombineBlocks(qregs, ancillas1), CombineBlocks(qregs, ancillas2), cregs1, cregs2, |qregs|)
  {
    var qbits1 := CombineBlocks(qregs, ancillas1);
    var qbits2 := CombineBlocks(qregs, ancillas2);
    ghost var anc, cr, ar, crr := GetEncoder(f.encoder, p, qregs, Some(cregs1), Some(ancillas1));
    RoundEach(f, p, qbits1, qbits2, cregs1, cregs2, |qregs|);
    SpliceEach(p, f.checker, qbits2, cregs2, |qregs|);
  }

  /** The checker's registers of `createEncoder*`: its ancillas, then its classical bits. */
  method CheckerRegisters(f: FtEncoder, p: Program, numQubits: nat)
    returns (ancillas2: seq<seq<Wire>>, cregs2: seq<seq<Wire>>, ghost ar2: seq<Register>, ghost cr2: seq<Register>)
    requires p.Valid()
    modifies p
    ensures p.Valid()
    ensures p.registers == old(p.registers) + ar2 + cr2 && p.instructions == old(p.instructions)
    ensures Made(ar2, ancillas2, numQubits, f.numAncillas, Ancilla, DefaultAncillaPrefix)
    ensures Made(cr2, cregs2, numQubits, f.checker.numClbits, Classical, DefaultCregPrefix)
  {
    ghost var suffixes;
    ancillas2, ar2, suffixes := MakeAncillas(p, numQubits, f.numAncillas, DefaultAncillaPrefix);
    cregs2, cr2, suffixes := MakeCregs(p, numQubits, f.checker.numClbits, DefaultCregPrefix);
  }

  /** `createEncoderCircuit` / `createEncoderDag`: a new program holding, in order, the
      data registers, the encoder's ancillas and classical registers, and the checker's
      ancillas and classical registers, `numQubits` of each, and the full fault-tolerant
      encoding of every logical qubit. */
  method CreateFtEncoder(f: FtEncoder, numQubits: nat)
    returns (p: Program, ghost qregs: seq<seq<Wire>>, ghost ancillas1: seq<seq<Wire>>, ghost cregs1: seq<seq<Wire>>,
             ghost ancillas2: seq<seq<Wire>>, ghost cregs2: seq<seq<Wire>>)
    requires numQubits > 0 ==> 0 <= DataWidth(f.encoder)
    ensures fresh(p) && p.Valid()
    ensures exists qr, ar1, cr1, ar2, cr2 ::
              && p.registers == qr + ar1 + cr1 + ar2 + cr2
              && Made(qr, qregs, numQubits, DataWidth(f.encoder), Quantum, DefaultQregPrefix)
              && Made(ar1, ancillas1, numQubits, f.encoder.numAncillas, Ancilla, DefaultAncillaPrefix)
              && Made(cr1, cregs1, numQubits, f.encoder.block.numClbits, Classical, DefaultCregPrefix)
              && Made(ar2, ancillas2, numQubits, f.numAncillas, Ancilla, DefaultAncillaPrefix)
              && Made(cr2, cregs2, numQubits, f.checker.numClbits, Classical, DefaultCregPrefix)
    ensures p.instructions
              == FtInstructions(f, CombineBlocks(qregs, ancillas1), CombineBlocks(qregs, ancillas2), cregs1, cregs2, numQubits)
  {
    var q, a1, c1, a2, c2;
    ghost var qr, ar1, cr1, ar2, cr2;
    p, q, a1, c1, qr, ar1, cr1 := EncoderRegisters(f.encoder, numQubits);
    a2, c2, ar2, cr2 := CheckerRegisters(f, p, numQubits);
    qregs, ancillas1, cregs1, ancillas2, cregs2 := q, a1, c1, a2, c2;
    Encode(f, p, q, a1, c1, a2, c2);
  }

  lemma AppendAssoc<T>(a: seq<T>, b: seq<T>, c: seq<T>)
    ensures (a + b) + c == a + (b + c)
  {
  }

  /** The wiring of `getEncoder*`: each list that is not given is allocated for
      `len(qregs)` logical qubits, in the order encoder ancillas, encoder classical bits,
      checker ancillas, checker classical bits; a given list adds no register. */
  method FtWiring(f: FtEncoder, p: Program, numQubits: nat,
                  cregs1: Option<seq<seq<Wire>>>, ancillas1: Option<seq<seq<Wire>>>,
                  cregs2: Option<seq<seq<Wire>>>, ancillas2: Option<seq<seq<Wire>>>)
    returns (a1: seq<seq<Wire>>, c1: seq<seq<Wire>>, a2: seq<seq<Wire>>, c2: seq<seq<Wire>>,
             ghost ar1: seq<Register>, ghost cr1: seq<Register>, ghost ar2: seq<Register>, ghost cr2: seq<Register>,
             ghost added: seq<Register>)
    requires p.Valid()
    modifies p
    ensures p.Valid()
    ensures p.registers == old(p.registers) + added && p.instructions == old(p.instructions)
    ensures added == ar1 + cr1 + ar2 + cr2
    ensures p.registers == old(p.registers) + ar1 + cr1 + ar2 + cr2
    ensures ancillas1.Some? ==> a1 == ancillas1.value && ar1 == []
    ensures ancillas1.None? ==> Made(ar1, a1, numQubits, f.encoder.numAncillas, Ancilla, DefaultAncillaPrefix)
    ensures cregs1.Some? ==> c1 == cregs1.value && cr1 == []
    ensures cregs1.None? ==> Made(cr1, c1, numQubits, f.encoder.block.numClbits, Classical, DefaultCregPrefix)
    ensures ancillas2.Some? ==> a2 == ancillas2.value && ar2 == []
    ensures ancillas2.None? ==> Made(ar2, a2, numQubits, f.numAncillas, Ancilla, DefaultAncillaPrefix)
    ensures cregs2.Some? ==> c2 == cregs2.value && cr2 == []
    ensures cregs2.None? ==> Made(cr2, c2, numQubits, f.checker.numClbits, Classical, DefaultCregPrefix)
    ensures ancillas1.None? ==> |a1| == numQubits
    ensures cregs1.None? ==> |c1| == numQubits
    ensures ancillas2.None? ==> |a2| == numQubits
    ensures cregs2.None? ==> |c2| == numQubits
  {
    ghost var before := p.registers;
    a1, c1, ar1, cr1 := EncoderWiring(f.encoder, p, numQubits, cregs1, ancillas1);
    ghost var middle := p.registers;
    a2, c2, ar2, cr2 := CheckerWiring(f, p, numQubits, cregs2, ancillas2);
    added := (ar1 + cr1) + (ar2 + cr2);
    AppendAssoc(before, ar1, cr1);
    AppendAssoc(middle, ar2, cr2);
    AppendAssoc(before, ar1 + cr1, ar2 + cr2);
    AppendAssoc(ar1 + cr1, ar2, cr2);
    AppendAssoc(before + ar1 + cr1, ar2, cr2);
  }

  /** The checker's half of the wiring: its ancillas, then its classical bits. */
  method CheckerWiring(f: FtEncoder, p: Program, numQubits: nat,
                       cregs2: Option<seq<seq<Wire>>>, ancillas2: Option<seq<seq<Wire>>>)
    returns (a2: seq<seq<Wire>>, c2: seq<seq<Wire>>, ghost ar: seq<Register>, ghost crr: seq<Register>)
    requires p.Valid()
    modifies p
    ensures p.Valid()
    ensures p.registers == old(p.registers) + ar + crr && p.instructions == old(p.instructions)
    ensures ancillas2.Some? ==> a2 == ancillas2.value && ar == []
    ensures ancillas2.None? ==> Made(ar, a2, numQubits, f.numAncillas, Ancilla, DefaultAncillaPrefix)
    ensures cregs2.Some? ==> c2 == cregs2.value && crr == []
    ensures cregs2.None? ==> Made(crr, c2, numQubits, f.checker.numClbits, Classical, DefaultCregPrefix)
    ensures ancillas2.None? ==> |a2| == numQubits
    ensures cregs2.None? ==> |c2| == numQubits
  {
    a2, ar := OrAllocate(p, ancillas2, numQubits, f.numAncillas, DefaultAncillaPrefix, Ancilla);
    c2, crr := OrAllocate(p, cregs2, numQubits, f.checker.numClbits, DefaultCregPrefix, Classical);
  }

  /** `getEncoderDag`: the DAG gains the missing registers and the full encoding of the
      given registers, in place. The source sizes missing lists by an undefined
      `numQubits`; the model uses `len(qregs)`. */
  method GetFtEncoder(f: FtEncoder, p: Program, qregs: seq<seq<Wire>>,
                      cregs1: Option<seq<seq<Wire>>>, ancillas1: Option<seq<seq<Wire>>>,
                      cregs2: Option<seq<seq<Wire>>>, ancillas2: Option<seq<seq<Wire>>>)
    returns (ghost a1: seq<seq<Wire>>, ghost c1: seq<seq<Wire>>, ghost a2: seq<seq<Wire>>, ghost c2: seq<seq<Wire>>,
             ghost ar1: seq<Register>, ghost cr1: seq<Register>, ghost ar2: seq<Register>, ghost cr2: seq<Register>)
    requires p.Valid()
    requires ancillas1.Some? ==> |qregs| <= |ancillas1.value|
    requires cregs1.Some? ==> |qregs| <= |cregs1.value|
    requires ancillas2.Some? ==> |qregs| <= |ancillas2.value|
    requires cregs2.Some? ==> |qregs| <= |cregs2.value|
    modifies p
    ensures p.Valid() && p.registers == old(p.registers) + ar1 + cr1 + ar2 + cr2
    ensures ancillas1.Some? ==> a1 == ancillas1.value && ar1 == []
    ensures ancillas1.None? ==> Made(ar1, a1, |qregs|, f.encoder.numAncillas, Ancilla, DefaultAncillaPrefix)
    ensures cregs1.Some? ==> c1 == cregs1.value && cr1 == []
    ensures cregs1.None? ==> Made(cr1, c1, |qregs|, f.encoder.block.numClbits, Classical, DefaultCregPrefix)
    ensures ancillas2.Some? ==> a2 == ancillas2.value && ar2 == []
    ensures ancillas2.None? ==> Made(ar2, a2, |qregs|, f.numAncillas, Ancilla, DefaultAncillaPrefix)
    ensures cregs2.Some? ==> c2 == cregs2.value && cr2 == []
    ensures cregs2.None? ==> Made(cr2, c2, |qregs|, f.checker.numClbits, Classical, DefaultCregPrefix)
    ensures |qregs| <= |a1| && |qregs| <= |c1| && |qregs| <= |a2| && |qregs| <= |c2|
    ensures p.instructions == old(p.instructions)
              + FtInstructions(f, CombineBlocks(qregs, a1), CombineBlocks(qregs, a2), c1, c2, |qregs|)
  {
    var x1, y1, x2, y2;
    ghost var added;
    x1, y1, x2, y2, ar1, cr1, ar2, cr2, added := FtWiring(f, p, |qregs|, cregs1, ancillas1, cregs2, ancillas2);
    a1, c1, a2, c2 := x1, y1, x2, y2;
    Encode(f, p, qregs, x1, y1, x2, y2);
  }

  /** `getEncoderCircuit`, with the encoding applied to the caller's circuit: the missing
      registers are added to the caller's circuit and the result is a new program that
      extends it, unless there is nothing to splice. */
  method GetFtEncoderCopy(f: FtEncoder, p: Program, qregs: seq<seq<Wire>>,
                          cregs1: Option<seq<seq<Wire>>>, ancillas1: Option<seq<seq<Wire>>>,
                          cregs2: Option<seq<seq<Wire>>>, ancillas2: Option<seq<seq<Wire>>>)
    returns (q: Program, ghost a1: seq<seq<Wire>>, ghost c1: seq<seq<Wire>>, ghost a2: seq<seq<Wire>>,
             ghost c2: seq<seq<Wire>>,
             ghost ar1: seq<Register>, ghost cr1: seq<Register>, ghost ar2: seq<Register>, ghost cr2: seq<Register>)
    requires p.Valid()
    requires ancillas1.Some? ==> |qregs| <= |ancillas1.value|
    requires cregs1.Some? ==> |qregs| <= |cregs1.value|
    requires ancillas2.Some? ==> |qregs| <= |ancillas2.value|
    requires cregs2.Some? ==> |qregs| <= |cregs2.value|
    modifies p
    ensures p.Valid() && p.registers == old(p.registers) + ar1 + cr1 + ar2 + cr2
    ensures p.instructions == old(p.instructions)
    ensures ancillas1.Some? ==> a1 == ancillas1.value && ar1 == []
    ensures ancillas1.None? ==> Made(ar1, a1, |qregs|, f.encoder.numAncillas, Ancilla, DefaultAncillaPrefix)
    ensures cregs1.Some? ==> c1 == cregs1.value && cr1 == []
    ensures cregs1.None? ==> Made(cr1, c1, |qregs|, f.encoder.block.numClbits, Classical, DefaultCregPrefix)
    ensures ancillas2.Some? ==> a2 == ancillas2.value && ar2 == []
    ensures ancillas2.None? ==> Made(ar2, a2, |qregs|, f.numAncillas, Ancilla, DefaultAncillaPrefix)
    ensures cregs2.Some? ==> c2 == cregs2.value && cr2 == []
    ensures cregs2.None? ==> Made(cr2, c2, |qregs|, f.checker.numClbits, Classical, DefaultCregPrefix)
    ensures |qregs| == 0 ==> q == p
    ensures |qregs| > 0 ==> fresh(q)
    ensures q.registers == p.registers
    ensures |qregs| <= |a1| && |qregs| <= |c1| && |qregs| <= |a2| && |qregs| <= |c2|
    ensures q.instructions == old(p.instructions)
              + FtInstructions(f, CombineBlocks(qregs, a1), CombineBlocks(qregs, a2), c1, c2, |qregs|)
  {
    var x1, y1, x2, y2;
    ghost var added;
    x1, y1, x2, y2, ar1, cr1, ar2, cr2, added := FtWiring(f, p, |qregs|, cregs1, ancillas1, cregs2, ancillas2);
    a1, c1, a2, c2 := x1, y1, x2, y2;
    if |qregs| == 0 {
      NoQubitsNoInstructions(f, CombineBlocks(qregs, x1), CombineBlocks(qregs, x2), y1, y2, Repeats(f));
      q := p;
      return;
    }
    q := p.Copy();
    Encode(f, q, qregs, x1, y1, x2, y2);
  }

  /** With no logical qubit the encoder appends nothing, however many rounds it runs. */
  lemma {:induction false} NoQubitsNoInstructions(f: FtEncoder, qbits1: seq<seq<Wire>>, qbits2: seq<seq<Wire>>,
                                                  cregs1: seq<seq<Wire>>, cregs2: seq<seq<Wire>>, r: nat)
    ensures Rounds(f, qbits1, qbits2, cregs1, cregs2, 0, r) == []
    ensures r == Repeats(f) ==> FtInstructions(f, qbits1, qbits2, cregs1, cregs2, 0) == []
  {
    if r > 0 {
      NoQubitsNoInstructions(f, qbits1, qbits2, cregs1, cregs2, r - 1);
    }
  }
}
