/** `_combineQregsAncillas`: the wire list each spliced block is given. In block mode
    logical qubit i gets its data bits followed by its ancilla bits; in interleaved mode
    (multi-operand gates) operand position j gets its ancilla bits followed by the j-th
    register of every operand, in operand order. */
module Layout {
  import opened Circuits

  /** Block mode: entry i is `qregs[i]` followed by `ancillas[i]`. Python raises an
      IndexError when there are fewer ancilla lists than registers. */
  function CombineBlocks(qregs: seq<seq<Wire>>, ancillas: seq<seq<Wire>>): (qbits: seq<seq<Wire>>)
    requires |qregs| <= |ancillas|
    ensures |qbits| == |qregs|
    ensures forall i :: 0 <= i < |qregs| ==> qbits[i] == qregs[i] + ancillas[i]
  {
    if |qregs| == 0 then []
    else CombineBlocks(qregs[..|qregs| - 1], ancillas) + [qregs[|qregs| - 1] + ancillas[|qregs| - 1]]
  }

  /** Splitting an entry at the data width gives back the data bits and the ancilla bits. */
  lemma CombineBlocksSplit(qregs: seq<seq<Wire>>, ancillas: seq<seq<Wire>>, i: nat)
    requires |qregs| <= |ancillas| && i < |qregs|
    ensures CombineBlocks(qregs, ancillas)[i][..|qregs[i]|] == qregs[i]
    ensures CombineBlocks(qregs, ancillas)[i][|qregs[i]|..] == ancillas[i]
  {
    var e := CombineBlocks(qregs, ancillas)[i];
    assert e == qregs[i] + ancillas[i];
  }

  /** The j-th register of every operand, concatenated in operand order. */
  function Column(qregs: seq<seq<seq<Wire>>>, j: nat): (ws: seq<Wire>)
    requires forall i :: 0 <= i < |qregs| ==> j < |qregs[i]|
  {
    if |qregs| == 0 then [] else Column(qregs[..|qregs| - 1], j) + qregs[|qregs| - 1][j]
  }

  /** Every operand has at least as many registers as the first one, so `qregs[i][j]` is
      defined for every j below `|qregs[0]|`. */
  ghost predicate OperandsCover(qregs: seq<seq<seq<Wire>>>)
  {
    |qregs| > 0 && forall i :: 0 <= i < |qregs| ==> |qregs[0]| <= |qregs[i]|
  }

  /** Interleaved mode: entry j is `ancillas[j]` followed by `qregs[0][j]`,
      `qregs[1][j]`, ... Python reads `qregs[0]` (an IndexError on no operands) and
      `ancillas[j]` for every j below `len(qregs[0])`. */
  function CombineInterleaved(qregs: seq<seq<seq<Wire>>>, ancillas: seq<seq<Wire>>): (qbits: seq<seq<Wire>>)
    requires OperandsCover(qregs) && |qregs[0]| <= |ancillas|
    ensures |qbits| == |qregs[0]|
    ensures forall j :: 0 <= j < |qregs[0]| ==> qbits[j] == ancillas[j] + Column(qregs, j)
  {
    seq(|qregs[0]|, j requires 0 <= j < |qregs[0]| => ancillas[j] + Column(qregs, j))
  }

  /** With every register `width` bits wide, bit b of operand i's j-th register sits at
      position `i * width + b` of the column. */
  lemma {:induction false} ColumnPosition(qregs: seq<seq<seq<Wire>>>, j: nat, width: nat, i: nat, b: nat)
    requires forall t :: 0 <= t < |qregs| ==> j < |qregs[t]| && |qregs[t][j]| == width
    requires i < |qregs| && b < width
    ensures |Column(qregs, j)| == |qregs| * width
    ensures Column(qregs, j)[i * width + b] == qregs[i][j][b]
  {
    var n := |qregs|;
    var front := qregs[..n - 1];
    assert forall t :: 0 <= t < |front| ==> front[t] == qregs[t];
    assert Column(qregs, j) == Column(front, j) + qregs[n - 1][j];
    ColumnLength(qregs, j, width);
    ColumnLength(front, j, width);
    if i < n - 1 {
      ColumnPosition(front, j, width, i, b);
      MulBelow(i, b, width, n - 1);
    } else {
      assert (n - 1) * width + b - |Column(front, j)| == b;
    }
  }

  /** i * w + b < m * w when i < m and b < w. */
  lemma MulBelow(i: nat, b: nat, w: nat, m: nat)
    requires i < m && b < w
    ensures i * w + b < m * w
  {
    calc {
      i * w + b;
    <
      i * w + w;
    ==
      (i + 1) * w;
    <=  { assert i + 1 <= m; }
      m * w;
    }
  }

  /** A column of equally wide registers is as long as their total width. */
  lemma {:induction false} ColumnLength(qregs: seq<seq<seq<Wire>>>, j: nat, width: nat)
    requires forall t :: 0 <= t < |qregs| ==> j < |qregs[t]| && |qregs[t][j]| == width
    ensures |Column(qregs, j)| == |qregs| * width
  {
    if |qregs| > 0 {
      var front := qregs[..|qregs| - 1];
      assert forall t :: 0 <= t < |front| ==> front[t] == qregs[t];
      ColumnLength(front, j, width);
    }
  }

  /** A two-operand gate (CNOT): entry j is the ancillas, then the j-th register of the
      first operand, then the j-th register of the second. */
  lemma InterleavedTwoOperands(qregs: seq<seq<seq<Wire>>>, ancillas: seq<seq<Wire>>, j: nat)
    requires |qregs| == 2 && |qregs[0]| <= |qregs[1]| && |qregs[0]| <= |ancillas| && j < |qregs[0]|
    ensures OperandsCover(qregs)
    ensures CombineInterleaved(qregs, ancillas)[j] == ancillas[j] + qregs[0][j] + qregs[1][j]
  {
    var first := qregs[..1];
    assert qregs[..|qregs| - 1] == first;
    assert first[..0] == [];
    assert Column(first, j) == Column(first[..0], j) + first[0][j];
    assert Column(qregs, j) == Column(first, j) + qregs[1][j];
  }

  /** A one-operand gate: interleaving is block mode with the ancillas in front. */
  lemma InterleavedOneOperand(qregs: seq<seq<seq<Wire>>>, ancillas: seq<seq<Wire>>, j: nat)
    requires |qregs| == 1 && |qregs[0]| <= |ancillas| && j < |qregs[0]|
    ensures OperandsCover(qregs)
    ensures CombineInterleaved(qregs, ancillas)[j] == ancillas[j] + qregs[0][j]
  {
    assert qregs[..|qregs| - 1] == [];
    assert Column(qregs, j) == Column([], j) + qregs[0][j];
  }
}
