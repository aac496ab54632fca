/** `SyndromeDetector`, `SyndromeCorrector` and `ErrorCorrector`. Detection splices the
    detector block onto each logical qubit's data and ancilla bits with its classical
    bits, then resets every ancilla register; correction splices the corrector block onto
    each data register with the same classical bits; error correction allocates what is
    missing once and runs detection then correction on it. Each `...Circuit` variant works
    on a copy of the caller's circuit and each `...Dag` variant on the caller's DAG. */
module Correction {
  import opened Wrappers
  import opened Circuits
  import opened Allocators
  import opened Layout
  import opened Splicing

  /** `SyndromeDetector(detectorCircuit, numAncillas)`; the constructor converts the block
      to a DAG, so a missing block fails there and the methods' `None` checks cannot fire. */
  datatype Detector = Detector(block: SubProgram, numAncillas: int)

  /** `_numMeasurements`: the detector block's classical width. */
  function NumMeasurements(d: Detector): nat
  {
    d.block.numClbits
  }

  /** `SyndromeCorrector(correctorCircuit)`. */
  datatype Corrector = Corrector(block: SubProgram)

  /** `ErrorCorrector(syndromeDetector, syndromeCorrector)`. The constructor reads the
      detector's fields, so only the corrector can be `None` by the time a method runs. */
  datatype ErrorCorrector = ErrorCorrector(detector: Detector, corrector: Option<Corrector>)

  /** What detection appends: one splice per data register, then one reset per ancilla
      register (all of them, also those beyond the data registers). */
  function DetectInstructions(d: Detector, qregs: seq<seq<Wire>>, cregs: seq<seq<Wire>>, ancillas: seq<seq<Wire>>): seq<Instruction>
    requires |qregs| <= |cregs| && |qregs| <= |ancillas|
  {
    Splices(d.block, CombineBlocks(qregs, ancillas), cregs, |qregs|) + Resets(ancillas, |ancillas|)
  }

  /** What correction appends: one splice of the corrector per data register. */
  function CorrectInstructions(c: Corrector, qregs: seq<seq<Wire>>, cregs: seq<seq<Wire>>): seq<Instruction>
    requires |qregs| <= |cregs|
  {
    Splices(c.block, qregs, cregs, |qregs|)
  }

  /** Detection lays out, in order, logical qubit i's detector splice on its data bits
      followed by its ancilla bits, with classical bits `cregs[i]`, and then the reset of
      ancilla register t. */
  lemma DetectLayout(d: Detector, qregs: seq<seq<Wire>>, cregs: seq<seq<Wire>>, ancillas: seq<seq<Wire>>)
    requires |qregs| <= |cregs| && |qregs| <= |ancillas|
    ensures |DetectInstructions(d, qregs, cregs, ancillas)| == |qregs| + |ancillas|
    ensures forall i :: 0 <= i < |qregs| ==>
              DetectInstructions(d, qregs, cregs, ancillas)[i]
              == Instruction(Compose(d.block), qregs[i] + ancillas[i], cregs[i], None)
    ensures forall t :: 0 <= t < |ancillas| ==>
              DetectInstructions(d, qregs, cregs, ancillas)[|qregs| + t] == Instruction(Reset, ancillas[t], [], None)
  {
    var s := DetectInstructions(d, qregs, cregs, ancillas);
    var a := Splices(d.block, CombineBlocks(qregs, ancillas), cregs, |qregs|);
    assert forall t :: 0 <= t < |ancillas| ==> s[|a| + t] == Resets(ancillas, |ancillas|)[t];
  }

  /** The lists detection runs on: the given ones, or `numQubits` newly allocated
      classical registers, then ancilla registers. */
  method DetectorWiring(d: Detector, p: Program, numQubits: nat,
                        cregs: Option<seq<seq<Wire>>>, ancillas: Option<seq<seq<Wire>>>)
    returns (cr: seq<seq<Wire>>, anc: seq<seq<Wire>>, ghost crr: seq<Register>, ghost ar: seq<Register>)
    requires p.Valid()
    modifies p
    ensures p.Valid()
    ensures p.registers == old(p.registers) + crr + ar && p.instructions == old(p.instructions)
    ensures cregs.Some? ==> cr == cregs.value && crr == []
    ensures cregs.None? ==> Made(crr, cr, numQubits, NumMeasurements(d), Classical, DefaultCregPrefix)
    ensures ancillas.Some? ==> anc == ancillas.value && ar == []
    ensures ancillas.None? ==> Made(ar, anc, numQubits, d.numAncillas, Ancilla, DefaultAncillaPrefix)
  {
    cr, crr := OrAllocate(p, cregs, numQubits, NumMeasurements(d), DefaultCregPrefix, Classical);
    anc, ar := OrAllocate(p, ancillas, numQubits, d.numAncillas, DefaultAncillaPrefix, Ancilla);
  }

  /** `syndromeDetectDag`: the missing classical registers are allocated first (one per
      data register, `_numMeasurements` bits wide), then the missing ancillas; the DAG is
      extended in place. Python indexes the lists for every data register. */
  method SyndromeDetect(d: Detector, p: Program, qregs: seq<seq<Wire>>,
                        cregs: Option<seq<seq<Wire>>>, ancillas: Option<seq<seq<Wire>>>)
    returns (ghost cr: seq<seq<Wire>>, ghost anc: seq<seq<Wire>>, ghost crr: seq<Register>, ghost ar: seq<Register>)
    requires p.Valid()
    requires cregs.Some? ==> |qregs| <= |cregs.value|
    requires ancillas.Some? ==> |qregs| <= |ancillas.value|
    modifies p
    ensures p.Valid()
    ensures p.registers == old(p.registers) + crr + ar
    ensures cregs.Some? ==> cr == cregs.value && crr == []
    ensures cregs.None? ==> Made(crr, cr, |qregs|, NumMeasurements(d), Classical, DefaultCregPrefix)
    ensures ancillas.Some? ==> anc == ancillas.value && ar == []
    ensures ancillas.None? ==> Made(ar, anc, |qregs|, d.numAncillas, Ancilla, DefaultAncillaPrefix)
    ensures |qregs| <= |cr| && |qregs| <= |anc|
    ensures p.instructions == old(p.instructions) + DetectInstructions(d, qregs, cr, anc)
  {
    var c, a;
    c, a, crr, ar := DetectorWiring(d, p, |qregs|, cregs, ancillas);
    cr, anc := c, a;
    Detect(d, p, qregs, c, a);
  }

  /** The two loops of detection on known lists. */
  method Detect(d: Detector, p: Program, qregs: seq<seq<Wire>>, cregs: seq<seq<Wire>>, ancillas: seq<seq<Wire>>)
    requires |qregs| <= |cregs| && |qregs| <= |ancillas|
    modifies p
    ensures p.registers == old(p.registers)
    ensures p.instructions == old(p.instructions) + DetectInstructions(d, qregs, cregs, ancillas)
  {
    SpliceEach(p, d.block, CombineBlocks(qregs, ancillas), cregs, |qregs|);
    ResetEach(p, ancillas);
  }

  /** `syndromeDetectCircuit`: the same on a copy; the caller's circuit is left as it was. */
  method SyndromeDetectCopy(d: Detector, p: Program, qregs: seq<seq<Wire>>,
                            cregs: Option<seq<seq<Wire>>>, ancillas: Option<seq<seq<Wire>>>)
    returns (q: Program, ghost cr: seq<seq<Wire>>, ghost anc: seq<seq<Wire>>, ghost crr: seq<Register>, ghost ar: seq<Register>)
    requires p.Valid()
    requires cregs.Some? ==> |qregs| <= |cregs.value|
    requires ancillas.Some? ==> |qregs| <= |ancillas.value|
    ensures fresh(q) && q.Valid()
    ensures q.registers == p.registers + crr + ar
    ensures cregs.Some? ==> cr == cregs.value && crr == []
    ensures cregs.None? ==> Made(crr, cr, |qregs|, NumMeasurements(d), Classical, DefaultCregPrefix)
    ensures ancillas.Some? ==> anc == ancillas.value && ar == []
    ensures ancillas.None? ==> Made(ar, anc, |qregs|, d.numAncillas, Ancilla, DefaultAncillaPrefix)
    ensures |qregs| <= |cr| && |qregs| <= |anc|
    ensures q.instructions == p.instructions + DetectInstructions(d, qregs, cr, anc)
  {
    q := p.Copy();
    cr, anc, crr, ar := SyndromeDetect(d, q, qregs, cregs, ancillas);
  }

  /** `syndromeCorrectDag`: one corrector splice per data register, in place. */
  method SyndromeCorrect(c: Corrector, p: Program, qregs: seq<seq<Wire>>, cregs: seq<seq<Wire>>)
    requires |qregs| <= |cregs|
    modifies p
    ensures p.registers == old(p.registers)
    ensures p.instructions == old(p.instructions) + CorrectInstructions(c, qregs, cregs)
  {
    SpliceEach(p, c.block, qregs, cregs, |qregs|);
  }

  /** `syndromeCorrectCircuit`: the same on a copy. */
  method SyndromeCorrectCopy(c: Corrector, p: Program, qregs: seq<seq<Wire>>, cregs: seq<seq<Wire>>)
    returns (q: Program)
    requires |qregs| <= |cregs|
    ensures fresh(q)
    ensures q.registers == p.registers
    ensures q.instructions == p.instructions + CorrectInstructions(c, qregs, cregs)
  {
    q := p.Copy();
    SyndromeCorrect(c, q, qregs, cregs);
  }

  /** What error correction appends: detection, then correction with the same classical
      registers. */
  function ErrorCorrectInstructions(d: Detector, c: Corrector, qregs: seq<seq<Wire>>,
                                    cregs: seq<seq<Wire>>, ancillas: seq<seq<Wire>>): seq<Instruction>
    requires |qregs| <= |cregs| && |qregs| <= |ancillas|
  {
    DetectInstructions(d, qregs, cregs, ancillas) + CorrectInstructions(c, qregs, cregs)
  }

  /** The corrector of logical qubit i reads the classical register the detector of
      logical qubit i wrote, and acts on the same data register. */
  lemma SharedCregs(d: Detector, c: Corrector, qregs: seq<seq<Wire>>, cregs: seq<seq<Wire>>, ancillas: seq<seq<Wire>>, i: nat)
    requires |qregs| <= |cregs| && |qregs| <= |ancillas| && i < |qregs|
    ensures |ErrorCorrectInstructions(d, c, qregs, cregs, ancillas)| == 2 * |qregs| + |ancillas|
    ensures ErrorCorrectInstructions(d, c, qregs, cregs, ancillas)[i].clbits == cregs[i]
    ensures ErrorCorrectInstructions(d, c, qregs, cregs, ancillas)[|qregs| + |ancillas| + i].clbits == cregs[i]
    ensures ErrorCorrectInstructions(d, c, qregs, cregs, ancillas)[i].qubits[..|qregs[i]|] == qregs[i]
    ensures ErrorCorrectInstructions(d, c, qregs, cregs, ancillas)[|qregs| + |ancillas| + i].qubits == qregs[i]
  {
    DetectLayout(d, qregs, cregs, ancillas);
    var det := DetectInstructions(d, qregs, cregs, ancillas);
    var s := ErrorCorrectInstructions(d, c, qregs, cregs, ancillas);
    assert s[|det| + i] == CorrectInstructions(c, qregs, cregs)[i];
    assert s[i] == det[i];
  }

  /** `errorCorrectDag`: `None` when there is no corrector, before anything is added;
      otherwise the missing classical registers and then the missing ancillas are
      allocated once, and detection and correction both use them. */
  method ErrorCorrect(ec: ErrorCorrector, p: Program, qregs: seq<seq<Wire>>,
                      cregs: Option<seq<seq<Wire>>>, ancillas: Option<seq<seq<Wire>>>)
    returns (done: bool, ghost cr: seq<seq<Wire>>, ghost anc: seq<seq<Wire>>, ghost crr: seq<Register>, ghost ar: seq<Register>)
    requires p.Valid()
    requires cregs.Some? ==> |qregs| <= |cregs.value|
    requires ancillas.Some? ==> |qregs| <= |ancillas.value|
    modifies p
    ensures p.Valid()
    ensures done <==> ec.corrector.Some?
    ensures !done ==> p.registers == old(p.registers) && p.instructions == old(p.instructions)
    ensures done ==> p.registers == old(p.registers) + crr + ar
    ensures done && cregs.Some? ==> cr == cregs.value && crr == []
    ensures done && cregs.None? ==> Made(crr, cr, |qregs|, NumMeasurements(ec.detector), Classical, DefaultCregPrefix)
    ensures done && ancillas.Some? ==> anc == ancillas.value && ar == []
    ensures done && ancillas.None? ==> Made(ar, anc, |qregs|, ec.detector.numAncillas, Ancilla, DefaultAncillaPrefix)
    ensures done ==> |qregs| <= |cr| && |qregs| <= |anc|
    ensures done ==> (p.instructions == old(p.instructions)
                        + ErrorCorrectInstructions(ec.detector, ec.corrector.value, qregs, cr, anc))
  {
    if ec.corrector.None? {
      return false, [], [], [], [];
    }
    done := true;
    var c, a;
    c, a, crr, ar := DetectorWiring(ec.detector, p, |qregs|, cregs, ancillas);
    cr, anc := c, a;
    ghost var c', a', crr', ar' := SyndromeDetect(ec.detector, p, qregs, Some(c), Some(a));
    SyndromeCorrect(ec.corrector.value, p, qregs, c);
  }

  /** `errorCorrectCircuit`: `None` without a corrector; otherwise the same on a copy,
      leaving the caller's circuit as it was. */
  method ErrorCorrectCopy(ec: ErrorCorrector, p: Program, qregs: seq<seq<Wire>>,
                          cregs: Option<seq<seq<Wire>>>, ancillas: Option<seq<seq<Wire>>>)
    returns (r: Option<Program>, ghost cr: seq<seq<Wire>>, ghost anc: seq<seq<Wire>>, ghost crr: seq<Register>, ghost ar: seq<Register>)
    requires p.Valid()
    requires cregs.Some? ==> |qregs| <= |cregs.value|
    requires ancillas.Some? ==> |qregs| <= |ancillas.value|
    ensures r.Some? <==> ec.corrector.Some?
    ensures r.Some? ==> fresh(r.value) && r.value.Valid()
    ensures r.Some? ==> r.value.registers == p.registers + crr + ar
    ensures r.Some? && cregs.Some? ==> cr == cregs.value && crr == []
    ensures r.Some? && cregs.None? ==> Made(crr, cr, |qregs|, NumMeasurements(ec.detector), Classical, DefaultCregPrefix)
    ensures r.Some? && ancillas.Some? ==> anc == ancillas.value && ar == []
    ensures r.Some? && ancillas.None? ==> Made(ar, anc, |qregs|, ec.detector.numAncillas, Ancilla, DefaultAncillaPrefix)
    ensures r.Some? ==> |qregs| <= |cr| && |qregs| <= |anc|
    ensures r.Some? ==> (r.value.instructions == p.instructions
                           + ErrorCorrectInstructions(ec.detector, ec.corrector.value, qregs, cr, anc))
  {
    if ec.corrector.None? {
      return None, [], [], [], [];
    }
    var q := p.Copy();
    var done;
    done, cr, anc, crr, ar := ErrorCorrect(ec, q, qregs, cregs, ancillas);
    r := Some(q);
  }
}
