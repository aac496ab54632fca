/** What the Steane blocks promise of each other: the correction table against the
    detector's checks, the encoder against the stabilizer generators, the checker against
    the logical operator, the fault-tolerant encoder's accepted value, and the gate
    registry's transversal layouts. */
module SteaneProperties {
  import opened Wrappers
  import opened Circuits
  import opened Layout
  import opened Encoders
  import opened FaultTolerantEncoders
  import opened FtProperties
  import opened Correction
  import opened Gates
  import opened Steane

  /** Controlled gates from qubit `c` onto each qubit of `ts` in order: controlled-Z when
      `z`, CNOT otherwise. */
  function Fan(z: bool, c: nat, ts: seq<nat>): (r: seq<Gate>)
    ensures |r| == |ts|
    ensures forall i :: 0 <= i < |ts| ==> r[i] == if z then CZ(c, ts[i]) else CX(c, ts[i])
  {
    seq(|ts|, i requires 0 <= i < |ts| => if z then CZ(c, ts[i]) else CX(c, ts[i]))
  }

  lemma FanMember(z: bool, c: nat, ts: seq<nat>, g: Gate)
    ensures g in Fan(z, c, ts) <==> (if z then g.CZ? else g.CX?) && g.control == c && g.target in ts
  {
    if (if z then g.CZ? else g.CX?) && g.control == c && g.target in ts {
      var i :| 0 <= i < |ts| && ts[i] == g.target;
      assert Fan(z, c, ts)[i] == g;
    }
  }

  // ----- The correction table -----

  /** Each X value is eight times the Z value of the same qubit, the combined value is
      their sum, and the Z values are the three-bit numbers 1 .. 7. */
  lemma TableRelations()
    ensures |XValues| == 7 && |ZValues| == 7 && |BothValues| == 7
    ensures forall q :: 0 <= q < 7 ==>
              && XValues[q] == 8 * ZValues[q]
              && BothValues[q] == XValues[q] + ZValues[q]
              && 1 <= ZValues[q] <= 7
  {
  }

  lemma ZValuesDistinct()
    ensures forall i, j :: 0 <= i < j < 7 ==> ZValues[i] != ZValues[j]
  {
  }

  /** The 21 condition values are pairwise distinct and lie in 1 .. 63, the values a
      six-bit register holds other than 0. */
  lemma TableDistinct()
    ensures forall i, j :: 0 <= i < 7 && 0 <= j < 7 && i != j ==>
              XValues[i] != XValues[j] && ZValues[i] != ZValues[j] && BothValues[i] != BothValues[j]
    ensures forall i, j :: 0 <= i < 7 && 0 <= j < 7 ==>
              XValues[i] != ZValues[j] && XValues[i] != BothValues[j] && ZValues[i] != BothValues[j]
    ensures forall i :: 0 <= i < 7 ==>
              1 <= ZValues[i] && 1 <= XValues[i] <= 63 && 1 <= BothValues[i] <= 63 && ZValues[i] <= 63
  {
    TableRelations();
    ZValuesDistinct();
  }

  predicate Distinct(vals: seq<nat>)
  {
    forall i, j :: 0 <= i < j < |vals| ==> vals[i] != vals[j]
  }

  lemma TablesDistinct()
    ensures Distinct(XValues) && Distinct(ZValues) && Distinct(BothValues)
  {
    TableDistinct();
  }

  /** Each qubit's values belong to one table only. */
  lemma OwnTable(q: nat)
    requires q < 7
    ensures XValues[q] !in ZValues && XValues[q] !in BothValues
    ensures ZValues[q] !in XValues && ZValues[q] !in BothValues
    ensures BothValues[q] !in XValues && BothValues[q] !in ZValues
  {
    TableDistinct();
  }

  /** The gates of `body` conditioned on the classical value `v`, in order. */
  function GuardedBy(body: seq<Gate>, v: nat): (gs: seq<Gate>)
    ensures forall g :: g in gs ==> IfValue(v, g) in body
  {
    if body == [] then []
    else (if body[0].IfValue? && body[0].value == v then [body[0].g] else []) + GuardedBy(body[1..], v)
  }

  lemma {:induction false} GuardedByConcat(a: seq<Gate>, b: seq<Gate>, v: nat)
    ensures GuardedBy(a + b, v) == GuardedBy(a, v) + GuardedBy(b, v)
  {
    if a == [] {
      assert a + b == b;
    } else {
      assert (a + b)[1..] == a[1..] + b;
      GuardedByConcat(a[1..], b, v);
    }
  }

  /** In a table of distinct values, value `vals[q]` guards exactly the gate on qubit q,
      and a value outside the table guards nothing. */
  lemma {:induction false} GuardedByPrefix(vals: seq<nat>, isX: bool, v: nat, k: nat)
    requires k <= |vals|
    requires Distinct(vals)
    ensures forall q :: 0 <= q < k && vals[q] == v ==>
              GuardedBy(Guarded(vals, isX)[..k], v) == [if isX then X(q) else Z(q)]
    ensures v !in vals[..k] ==> GuardedBy(Guarded(vals, isX)[..k], v) == []
  {
    var gs := Guarded(vals, isX);
    if k == 0 {
      assert gs[..k] == [];
    } else {
      GuardedByPrefix(vals, isX, v, k - 1);
      assert gs[..k] == gs[..k - 1] + [gs[k - 1]];
      assert vals[..k] == vals[..k - 1] + [vals[k - 1]];
      GuardedByConcat(gs[..k - 1], [gs[k - 1]], v);
      assert GuardedBy([gs[k - 1]], v) == (if vals[k - 1] == v then [if isX then X(k - 1) else Z(k - 1)] else []);
    }
  }

  lemma GuardedByTable(vals: seq<nat>, isX: bool, v: nat)
    requires Distinct(vals)
    ensures forall q :: 0 <= q < |vals| && vals[q] == v ==> GuardedBy(Guarded(vals, isX), v) == [if isX then X(q) else Z(q)]
    ensures v !in vals ==> GuardedBy(Guarded(vals, isX), v) == []
  {
    GuardedByPrefix(vals, isX, v, |vals|);
    assert Guarded(vals, isX)[..|vals|] == Guarded(vals, isX);
    assert vals[..|vals|] == vals;
  }

  /** What the corrector does under value `v`: the four tables' contributions in order. */
  lemma CorrectorSplit(v: nat)
    ensures GuardedBy(CorrectorBody, v) ==
            GuardedBy(Guarded(XValues, true), v) + GuardedBy(Guarded(ZValues, false), v)
            + GuardedBy(Guarded(BothValues, false), v) + GuardedBy(Guarded(BothValues, true), v)
  {
    var a, b, c, d := Guarded(XValues, true), Guarded(ZValues, false), Guarded(BothValues, false), Guarded(BothValues, true);
    GuardedByConcat(a + b + c, d, v);
    GuardedByConcat(a + b, c, v);
    GuardedByConcat(a, b, v);
  }

  /** The X value of qubit q corrects an X on q and nothing on any other qubit. */
  lemma XCorrection(q: nat)
    requires q < 7
    ensures GuardedBy(CorrectorBody, XValues[q]) == [X(q)]
  {
    var v := XValues[q];
    TablesDistinct();
    OwnTable(q);
    CorrectorSplit(v);
    GuardedByTable(XValues, true, v);
    GuardedByTable(ZValues, false, v);
    GuardedByTable(BothValues, false, v);
    GuardedByTable(BothValues, true, v);
  }

  /** The Z value of qubit q corrects a Z on q and nothing on any other qubit. */
  lemma ZCorrection(q: nat)
    requires q < 7
    ensures GuardedBy(CorrectorBody, ZValues[q]) == [Z(q)]
  {
    var v := ZValues[q];
    TablesDistinct();
    OwnTable(q);
    CorrectorSplit(v);
    GuardedByTable(XValues, true, v);
    GuardedByTable(ZValues, false, v);
    GuardedByTable(BothValues, false, v);
    GuardedByTable(BothValues, true, v);
  }

  /** The combined value of qubit q corrects a Z and then an X on q, and nothing on any
      other qubit. */
  lemma BothCorrection(q: nat)
    requires q < 7
    ensures GuardedBy(CorrectorBody, BothValues[q]) == [Z(q), X(q)]
  {
    var v := BothValues[q];
    TablesDistinct();
    OwnTable(q);
    CorrectorSplit(v);
    GuardedByTable(XValues, true, v);
    GuardedByTable(ZValues, false, v);
    GuardedByTable(BothValues, false, v);
    GuardedByTable(BothValues, true, v);
    assert GuardedBy(Guarded(XValues, true), v) == [] && GuardedBy(Guarded(ZValues, false), v) == [];
    assert GuardedBy(Guarded(BothValues, false), v) == [Z(q)] && GuardedBy(Guarded(BothValues, true), v) == [X(q)];
  }

  /** A value outside the three tables, the all-clear value 0 among them, corrects
      nothing. */
  lemma NoCorrection(v: nat)
    requires v !in XValues && v !in ZValues && v !in BothValues
    ensures GuardedBy(CorrectorBody, v) == []
  {
    TablesDistinct();
    CorrectorSplit(v);
    GuardedByTable(XValues, true, v);
    GuardedByTable(ZValues, false, v);
    GuardedByTable(BothValues, false, v);
    GuardedByTable(BothValues, true, v);
  }

  lemma ZeroSyndromeNoCorrection()
    ensures GuardedBy(CorrectorBody, 0) == []
  {
    NoCorrection(0);
  }

  /** The corrector has 28 clauses, each a single gate conditioned on a value in 1 .. 63. */
  lemma CorrectorClauses()
    ensures |CorrectorBody| == 28
    ensures forall i :: 0 <= i < 28 ==> CorrectorBody[i].IfValue? && 1 <= CorrectorBody[i].value <= 63
  {
    TableDistinct();
  }

  // ----- The syndrome detector -----

  /** Whether an X error (`isX`) or a Z error on data qubit q flips the outcome of ancilla
      a: a controlled-Z check from the ancilla sees X errors, a CNOT check sees Z errors. */
  predicate Flips(q: nat, isX: bool, a: nat)
  {
    if isX then CZ(7 + a, q) in DetectorBody else CX(7 + a, q) in DetectorBody
  }

  /** The value the detector's classical register holds for that single error, counting
      the ancillas below n: bit a is ancilla a's outcome. */
  function SyndromeValue(q: nat, isX: bool, n: nat): (v: nat)
    ensures v < Pow2(n)
  {
    if n == 0 then 0 else SyndromeValue(q, isX, n - 1) + (if Flips(q, isX, n - 1) then Pow2(n - 1) else 0)
  }

  function Bit(b: bool, w: nat): nat
  {
    if b then w else 0
  }

  const Hadamards: seq<Gate> := seq(6, a requires 0 <= a => H(7 + a))

  const Measures: seq<Gate> := seq(6, a requires 0 <= a => Measure(7 + a, a))

  /** The detector: Hadamards on the ancillas, controlled-Z from ancillas 5, 4, 3 onto the
      supports of generators 0, 1, 2, CNOT from ancillas 2, 1, 0 onto the same supports,
      Hadamards again, and ancilla a measured into bit a. */
  lemma DetectorLayout()
    ensures DetectorBody ==
            Hadamards + Fan(true, 12, Supports[0]) + Fan(true, 11, Supports[1]) + Fan(true, 10, Supports[2])
            + Fan(false, 9, Supports[0]) + Fan(false, 8, Supports[1]) + Fan(false, 7, Supports[2])
            + Hadamards + Measures
  {
    assert [H(7), H(8), H(9), H(10), H(11), H(12)] == Hadamards;
    assert [CZ(12, 0), CZ(12, 4), CZ(12, 5), CZ(12, 6)] == Fan(true, 12, Supports[0]);
    assert [CZ(11, 1), CZ(11, 3), CZ(11, 5), CZ(11, 6)] == Fan(true, 11, Supports[1]);
    assert [CZ(10, 2), CZ(10, 3), CZ(10, 4), CZ(10, 6)] == Fan(true, 10, Supports[2]);
    assert [CX(9, 0), CX(9, 4), CX(9, 5), CX(9, 6)] == Fan(false, 9, Supports[0]);
    assert [CX(8, 1), CX(8, 3), CX(8, 5), CX(8, 6)] == Fan(false, 8, Supports[1]);
    assert [CX(7, 2), CX(7, 3), CX(7, 4), CX(7, 6)] == Fan(false, 7, Supports[2]);
    assert [Measure(7, 0), Measure(8, 1), Measure(9, 2), Measure(10, 3), Measure(11, 4), Measure(12, 5)] == Measures;
  }

  /** Ancillas 3, 4, 5 check generators 2, 1, 0 for X errors; ancillas 0, 1, 2 check
      generators 2, 1, 0 for Z errors. */
  lemma DetectorChecks(q: nat, isX: bool, a: nat)
    requires a < 6
    ensures Flips(q, isX, a) <==> if isX then 3 <= a && q in Supports[5 - a] else a < 3 && q in Supports[2 - a]
  {
    DetectorLayout();
    var g := if isX then CZ(7 + a, q) else CX(7 + a, q);
    forall z, c, ts | true
      ensures g in Fan(z, c, ts) <==> (if z then g.CZ? else g.CX?) && g.control == c && g.target in ts
    {
      FanMember(z, c, ts, g);
    }
    assert g !in Hadamards;
    assert g !in Measures;
  }

  lemma SyndromeBits(q: nat, isX: bool)
    ensures SyndromeValue(q, isX, 6) ==
            Bit(Flips(q, isX, 0), 1) + Bit(Flips(q, isX, 1), 2) + Bit(Flips(q, isX, 2), 4)
            + Bit(Flips(q, isX, 3), 8) + Bit(Flips(q, isX, 4), 16) + Bit(Flips(q, isX, 5), 32)
  {
    assert Pow2(1) == 2 && Pow2(2) == 4 && Pow2(3) == 8 && Pow2(4) == 16 && Pow2(5) == 32;
    assert SyndromeValue(q, isX, 1) == Bit(Flips(q, isX, 0), 1);
    assert SyndromeValue(q, isX, 2) == SyndromeValue(q, isX, 1) + Bit(Flips(q, isX, 1), 2);
    assert SyndromeValue(q, isX, 3) == SyndromeValue(q, isX, 2) + Bit(Flips(q, isX, 2), 4);
    assert SyndromeValue(q, isX, 4) == SyndromeValue(q, isX, 3) + Bit(Flips(q, isX, 3), 8);
    assert SyndromeValue(q, isX, 5) == SyndromeValue(q, isX, 4) + Bit(Flips(q, isX, 4), 16);
  }

  /** The corrector's X value for qubit q is the syndrome an X error on q produces. */
  lemma DetectorXSyndrome(q: nat)
    requires q < 7
    ensures XValues[q] == SyndromeValue(q, true, 6)
  {
    SyndromeBits(q, true);
    DetectorChecks(q, true, 0); DetectorChecks(q, true, 1); DetectorChecks(q, true, 2);
    DetectorChecks(q, true, 3); DetectorChecks(q, true, 4); DetectorChecks(q, true, 5);
  }

  /** The corrector's Z value for qubit q is the syndrome a Z error on q produces. */
  lemma DetectorZSyndrome(q: nat)
    requires q < 7
    ensures ZValues[q] == SyndromeValue(q, false, 6)
  {
    SyndromeBits(q, false);
    DetectorChecks(q, false, 0); DetectorChecks(q, false, 1); DetectorChecks(q, false, 2);
    DetectorChecks(q, false, 3); DetectorChecks(q, false, 4); DetectorChecks(q, false, 5);
  }

  /** An X and a Z error on the same qubit produce the combined value. */
  lemma DetectorBothSyndrome(q: nat)
    requires q < 7
    ensures BothValues[q] == SyndromeValue(q, true, 6) + SyndromeValue(q, false, 6)
  {
    TableRelations();
    DetectorXSyndrome(q);
    DetectorZSyndrome(q);
  }

  /** The detector block spans 7 data qubits and its 6 ancillas, measures ancilla a into
      bit a last, and the corrector reads exactly its 6 bits on the same 7 data qubits. */
  lemma DetectorShape()
    ensures DetectorBlock.numQubits == 7 + SteaneDetector.numAncillas
    ensures NumMeasurements(SteaneDetector) == 6
    ensures |DetectorBody| == 42
    ensures DetectorBody[36..] == Measures
    ensures SteaneErrorCorrector.corrector.Some?
    ensures SteaneErrorCorrector.corrector.value.block.numClbits == NumMeasurements(SteaneErrorCorrector.detector)
    ensures SteaneErrorCorrector.corrector.value.block.numQubits == DetectorBlock.numQubits - SteaneDetector.numAncillas
  {
    DetectorLayout();
  }

  // ----- The encoder -----

  /** The encoder: Hadamards on qubits 0, 1, 2, then qubit c (for c = 2, 1, 0) applies a
      CNOT to the rest of generator c's support, c being that support's first qubit. */
  lemma EncoderLayout()
    ensures EncoderBody ==
            [H(0), H(1), H(2)] + Fan(false, 2, Supports[2][1..]) + Fan(false, 1, Supports[1][1..])
            + Fan(false, 0, Supports[0][1..])
    ensures forall c :: 0 <= c < 3 ==> Supports[c][0] == c
  {
    assert [CX(2, 3), CX(2, 4), CX(2, 6)] == Fan(false, 2, Supports[2][1..]);
    assert [CX(1, 3), CX(1, 5), CX(1, 6)] == Fan(false, 1, Supports[1][1..]);
    assert [CX(0, 4), CX(0, 5), CX(0, 6)] == Fan(false, 0, Supports[0][1..]);
  }

  /** Qubit c and the targets of its CNOTs in the encoder form generator c's support,
      which the detector checks with ancilla 2 - c (X type) and ancilla 5 - c (Z type). */
  lemma EncoderMatchesDetector(c: nat, t: nat)
    requires c < 3
    ensures (CX(c, t) in EncoderBody || t == c) <==> t in Supports[c]
    ensures t in Supports[c] <==> CX(9 - c, t) in DetectorBody
    ensures t in Supports[c] <==> CZ(12 - c, t) in DetectorBody
  {
    EncoderLayout();
    var g := CX(c, t);
    FanMember(false, 2, Supports[2][1..], g);
    FanMember(false, 1, Supports[1][1..], g);
    FanMember(false, 0, Supports[0][1..], g);
    assert g !in [H(0), H(1), H(2)];
    assert Supports[c] == [c] + Supports[c][1..];
    DetectorChecks(t, false, 2 - c);
    DetectorChecks(t, true, 5 - c);
  }

  /** The encoder only puts Hadamards on qubits 0, 1, 2. */
  lemma EncoderHadamards(q: nat)
    ensures H(q) in EncoderBody <==> q < 3
  {
    EncoderLayout();
    FanMember(false, 2, Supports[2][1..], H(q));
    FanMember(false, 1, Supports[1][1..], H(q));
    FanMember(false, 0, Supports[0][1..], H(q));
  }

  // ----- The checker of the fault-tolerant encoder -----

  /** How many of the three generators' supports contain qubit t. */
  function SupportCount(t: nat): (k: nat)
    ensures k <= 3
  {
    Bit(t in Supports[0], 1) + Bit(t in Supports[1], 1) + Bit(t in Supports[2], 1)
  }

  /** The checker collects the parity of exactly the data qubits that lie in an even
      number of supports: the complement of the product of the three Z checks, a logical Z
      of the code, whose value on the encoded |0> is 0. */
  lemma CheckerTargets(t: nat)
    ensures CX(t, 7) in CheckerBody <==> t < 7 && SupportCount(t) % 2 == 0
  {
  }

  /** The checker spans the encoder's 7 data qubits and its one ancilla, measures the
      ancilla into its single bit last, and so can read two values. */
  lemma CheckerShape(numRepeats: int)
    ensures CheckerBlock.numQubits == DataWidth(SteaneEncoder) + SteaneFtEncoder(numRepeats).numAncillas
    ensures CheckerBody[|CheckerBody| - 1] == Measure(7, 0)
    ensures forall i :: 0 <= i < |CheckerBody| - 1 ==> CheckerBody[i].CX? && CheckerBody[i].target == 7
    ensures Syndromes(SteaneFtEncoder(numRepeats)) == 2
  {
    assert Pow2(1) == 2;
  }

  // ----- The accepted checker value -----

  /** As written, the accepted value is a list, which no integer equals: outcome 0 is
      rejected along with outcome 1, so a correctly encoded block is reset and encoded
      again in every round. */
  lemma AsWrittenRejectsSuccess(numRepeats: int)
    ensures Rejects(SteaneFtEncoderAsWritten(numRepeats).correctVal, 0)
    ensures RejectedBelow(SteaneFtEncoderAsWritten(numRepeats).correctVal, Syndromes(SteaneFtEncoderAsWritten(numRepeats))) == 2
  {
    var f := SteaneFtEncoderAsWritten(numRepeats);
    assert Syndromes(f) == 2 by { assert Pow2(1) == 2; }
    assert RejectedBelow(f.correctVal, 1) == 1;
  }

  lemma AsWrittenResetsOnSuccess(numRepeats: int, qbits1: seq<seq<Wire>>, qbits2: seq<seq<Wire>>,
                                 cregs1: seq<seq<Wire>>, cregs2: seq<seq<Wire>>, n: nat, j: nat)
    requires n <= |qbits1| && n <= |qbits2| && n <= |cregs1| && n <= |cregs2|
    requires forall a, b :: 0 <= a < b < n ==> qbits1[a] != qbits1[b]
    requires j < n
    ensures Count(FtInstructions(SteaneFtEncoderAsWritten(numRepeats), qbits1, qbits2, cregs1, cregs2, n),
                  ResetIf(qbits1[j], cregs2[j], 0))
         == if numRepeats >= 2 then numRepeats - 1 else 0
  {
    var f := SteaneFtEncoderAsWritten(numRepeats);
    assert Syndromes(f) == 2 by { assert Pow2(1) == 2; }
    ResetCount(f, qbits1, qbits2, cregs1, cregs2, n, j, 0);
  }

  /** With the accepted value the integer 0, only outcome 1 is rejected. */
  lemma CorrectedRejectsFailureOnly(numRepeats: int)
    ensures !Rejects(SteaneFtEncoder(numRepeats).correctVal, 0)
    ensures Rejects(SteaneFtEncoder(numRepeats).correctVal, 1)
    ensures RejectedBelow(SteaneFtEncoder(numRepeats).correctVal, Syndromes(SteaneFtEncoder(numRepeats))) == 1
  {
    var f := SteaneFtEncoder(numRepeats);
    assert Syndromes(f) == 2 by { assert Pow2(1) == 2; }
    assert RejectedBelow(f.correctVal, 1) == 0;
  }

  /** ... so a block is reset and encoded again once per round under outcome 1, and
      never under outcome 0 or any value the checker cannot produce. */
  lemma CorrectedResetsOnFailureOnly(numRepeats: int, qbits1: seq<seq<Wire>>, qbits2: seq<seq<Wire>>,
                                     cregs1: seq<seq<Wire>>, cregs2: seq<seq<Wire>>, n: nat, j: nat, k: nat)
    requires n <= |qbits1| && n <= |qbits2| && n <= |cregs1| && n <= |cregs2|
    requires forall a, b :: 0 <= a < b < n ==> qbits1[a] != qbits1[b]
    requires j < n
    ensures Count(FtInstructions(SteaneFtEncoder(numRepeats), qbits1, qbits2, cregs1, cregs2, n),
                  ResetIf(qbits1[j], cregs2[j], k))
         == if k == 1 && numRepeats >= 2 then numRepeats - 1 else 0
  {
    var f := SteaneFtEncoder(numRepeats);
    assert Syndromes(f) == 2 by { assert Pow2(1) == 2; }
    ResetCount(f, qbits1, qbits2, cregs1, cregs2, n, j, k);
  }

  // ----- The gate registry -----

  /** Four gates are registered, none with ancillas or classical bits. */
  lemma GateTable()
    ensures SteaneGates.table.Keys == {"cx", "h", "x", "s"}
    ensures forall k :: k in SteaneGates.table ==>
              SteaneGates.table[k].numAncillas == 0 && SteaneGates.table[k].block.numClbits == 0
  {
  }

  /** The fault-tolerant CNOT on two operands: splice j acts on the j-th block of the
      first operand followed by the j-th block of the second, and its CNOT i pairs qubit i
      of the one with qubit i of the other. */
  lemma TransversalCnot(qregs: seq<seq<seq<Wire>>>, ancillas: seq<seq<Wire>>, j: nat, i: nat)
    requires |qregs| == 2 && |qregs[0]| <= |qregs[1]| && |qregs[0]| <= |ancillas| && j < |qregs[0]|
    requires ancillas[j] == [] && |qregs[0][j]| == 7 && |qregs[1][j]| == 7 && i < 7
    ensures OperandsCover(qregs)
    ensures GateInstructions(SteaneGates.table["cx"], qregs, [], ancillas)[j].op == Compose(CnotBlock)
    ensures GateInstructions(SteaneGates.table["cx"], qregs, [], ancillas)[j].qubits == qregs[0][j] + qregs[1][j]
    ensures GateInstructions(SteaneGates.table["cx"], qregs, [], ancillas)[j].qubits[i] == qregs[0][j][i]
    ensures GateInstructions(SteaneGates.table["cx"], qregs, [], ancillas)[j].qubits[7 + i] == qregs[1][j][i]
    ensures CnotBlock.body[i] == CX(i, 7 + i) && |CnotBlock.body| == 7
  {
    InterleavedTwoOperands(qregs, ancillas, j);
    GateLayout(SteaneGates.table["cx"], qregs, [], ancillas, j);
    assert Column(qregs, j) == CombineInterleaved(qregs, ancillas)[j];
  }

  /** The single-qubit gates on one operand: splice j acts on the j-th block alone; H and
      X put the gate on each of its 7 qubits, S puts S on each and then Z on each. */
  lemma TransversalSingle(key: string, qregs: seq<seq<seq<Wire>>>, ancillas: seq<seq<Wire>>, j: nat)
    requires key == "h" || key == "x" || key == "s"
    requires |qregs| == 1 && |qregs[0]| <= |ancillas| && j < |qregs[0]| && ancillas[j] == []
    ensures OperandsCover(qregs)
    ensures GateInstructions(SteaneGates.table[key], qregs, [], ancillas)[j].op == Compose(SteaneGates.table[key].block)
    ensures GateInstructions(SteaneGates.table[key], qregs, [], ancillas)[j].qubits == qregs[0][j]
    ensures key == "h" ==> SteaneGates.table[key].block == HBlock
    ensures key == "x" ==> SteaneGates.table[key].block == XBlock
    ensures key == "s" ==> SteaneGates.table[key].block == SBlock
    ensures |HBlock.body| == 7 && |XBlock.body| == 7 && |SBlock.body| == 14
    ensures forall i :: 0 <= i < 7 ==> HBlock.body[i] == H(i) && XBlock.body[i] == X(i)
    ensures forall i :: 0 <= i < 7 ==> SBlock.body[i] == S(i) && SBlock.body[7 + i] == Z(i)
  {
    InterleavedOneOperand(qregs, ancillas, j);
    GateLayout(SteaneGates.table[key], qregs, [], ancillas, j);
    assert Column(qregs, j) == CombineInterleaved(qregs, ancillas)[j];
  }
}
