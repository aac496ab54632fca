/** The Steane 7-qubit code's blocks: the encoder of the logical |0>, the checker of the
    fault-tolerant encoder, the syndrome detector, the syndrome corrector and the
    transversal gates. Each block the source wraps with `to_gate()` is given here by the
    gates inside it. Data qubits are 0 .. 6; the detector's ancilla a is qubit 7 + a and
    the checker's ancilla is qubit 7. */
module Steane {
  import opened Wrappers
  import opened Circuits
  import opened Encoders
  import opened FaultTolerantEncoders
  import opened Correction
  import opened Gates

  /** The supports of the three stabilizer generators of the module's documentation:
      generator g is X on every qubit of `Supports[g]` (M_a, M_b, M_c) and, for the
      Z-type checks, Z on the same qubits (N_a, N_b, N_c). */
  const Supports: seq<seq<nat>> := [[0, 4, 5, 6], [1, 3, 5, 6], [2, 3, 4, 6]]

  /** `SteaneEncoder`: Hadamards on qubits 0, 1, 2, then qubit 2, 1 and 0 in turn apply a
      CNOT to each of their targets. */
  const EncoderBody: seq<Gate> :=
    [H(0), H(1), H(2)]
    + [CX(2, 3), CX(2, 4), CX(2, 6)]
    + [CX(1, 3), CX(1, 5), CX(1, 6)]
    + [CX(0, 4), CX(0, 5), CX(0, 6)]

  const EncoderBlock := SubProgram("Steane Encoder", 7, 0, EncoderBody)

  const SteaneEncoder := Encoder(EncoderBlock, 0)

  /** The checker: the parity of qubits 3, 4, 5 collected on the ancilla and measured. */
  const CheckerBody: seq<Gate> := [CX(3, 7), CX(4, 7), CX(5, 7), Measure(7, 0)]

  const CheckerBlock := SubProgram("Checker", 8, 1, CheckerBody)

  /** `SteaneFaultTolerantEncoder(numRepeats)` as written: `correctVal` is the list `[0]`,
      which rejects every checker outcome. */
  function SteaneFtEncoderAsWritten(numRepeats: int): (f: FtEncoder)
    ensures f.encoder == SteaneEncoder && f.checker == CheckerBlock && f.numRepeats == numRepeats
    ensures forall k: nat :: Rejects(f.correctVal, k)
  {
    FtEncoder(SteaneEncoder, CheckerBlock, 1, ListValue([0]), numRepeats)
  }

  /** `SteaneFaultTolerantEncoder(numRepeats)` with `correctVal` the integer 0, which
      rejects every checker outcome but 0. */
  function SteaneFtEncoder(numRepeats: int): (f: FtEncoder)
    ensures f.encoder == SteaneEncoder && f.checker == CheckerBlock && f.numRepeats == numRepeats
    ensures forall k: nat :: Rejects(f.correctVal, k) <==> k != 0
  {
    FtEncoder(SteaneEncoder, CheckerBlock, 1, IntValue(0), numRepeats)
  }

  /** `SteaneSyndromeDetector`: Hadamards on the six ancillas; ancillas 5, 4, 3 apply
      controlled-Z to the supports {0,4,5,6}, {1,3,5,6}, {2,3,4,6}; ancillas 2, 1, 0 apply
      CNOT to the same supports; Hadamards again; ancilla a is measured into bit a. */
  const DetectorBody: seq<Gate> :=
    [H(7), H(8), H(9), H(10), H(11), H(12)]
    + [CZ(12, 0), CZ(12, 4), CZ(12, 5), CZ(12, 6)]
    + [CZ(11, 1), CZ(11, 3), CZ(11, 5), CZ(11, 6)]
    + [CZ(10, 2), CZ(10, 3), CZ(10, 4), CZ(10, 6)]
    + [CX(9, 0), CX(9, 4), CX(9, 5), CX(9, 6)]
    + [CX(8, 1), CX(8, 3), CX(8, 5), CX(8, 6)]
    + [CX(7, 2), CX(7, 3), CX(7, 4), CX(7, 6)]
    + [H(7), H(8), H(9), H(10), H(11), H(12)]
    + [Measure(7, 0), Measure(8, 1), Measure(9, 2), Measure(10, 3), Measure(11, 4), Measure(12, 5)]

  const DetectorBlock := SubProgram("Steane Syndrome Detection", 13, 6, DetectorBody)

  const SteaneDetector := Detector(DetectorBlock, 6)

  /** The classical value that flags an X error on qubit q, a Z error on qubit q, and
      both at once. */
  const XValues: seq<nat> := [32, 16, 8, 24, 40, 48, 56]
  const ZValues: seq<nat> := [4, 2, 1, 3, 5, 6, 7]
  const BothValues: seq<nat> := [36, 18, 9, 27, 45, 54, 63]

  /** `gate(q).c_if(creg, vals[q])` for q = 0 .. |vals|-1. */
  function Guarded(vals: seq<nat>, isX: bool): (gs: seq<Gate>)
    ensures |gs| == |vals|
    ensures forall q :: 0 <= q < |vals| ==> gs[q] == IfValue(vals[q], if isX then X(q) else Z(q))
  {
    seq(|vals|, q requires 0 <= q < |vals| => IfValue(vals[q], if isX then X(q) else Z(q)))
  }

  /** `SteaneSyndromeCorrector`: the X corrections, the Z corrections, then for the
      combined values a Z and an X correction. */
  const CorrectorBody: seq<Gate> :=
    Guarded(XValues, true) + Guarded(ZValues, false) + Guarded(BothValues, false) + Guarded(BothValues, true)

  const CorrectorBlock := SubProgram("Steane Syndrome Correction", 7, 6, CorrectorBody)

  const SteaneCorrector := Corrector(CorrectorBlock)

  /** `SteaneErrorCorrector`. */
  const SteaneErrorCorrector := ErrorCorrector(SteaneDetector, Some(SteaneCorrector))

  /** `SteaneFaultTolerantGates`: CNOT pairs qubit i of the first block with qubit i of the
      second; H and X act on each qubit; S is S then Z on each qubit. */
  const CnotBlock := SubProgram("CNOT", 14, 0, seq(7, i requires 0 <= i => CX(i, 7 + i)))
  const HBlock := SubProgram("H", 7, 0, seq(7, i requires 0 <= i => H(i)))
  const XBlock := SubProgram("X", 7, 0, seq(7, i requires 0 <= i => X(i)))
  const SBlock := SubProgram("S", 7, 0, seq(7, i requires 0 <= i => S(i)) + seq(7, i requires 0 <= i => Z(i)))

  const SteaneGates := FtGates(map["cx" := GateEntry(CnotBlock, 0), "h" := GateEntry(HBlock, 0),
                                   "x" := GateEntry(XBlock, 0), "s" := GateEntry(SBlock, 0)])
}
