/** The two loops every component runs: splice one block per logical qubit
    (`compose(block, qbits[i], clbits[i])`) and reset a list of registers
    (`reset(ancillas[i])`). Each is a method on the program, proved against the function
    giving the instructions it appends. */
module Splicing {
  import opened Wrappers
  import opened Circuits

  /** An unconditioned splice of `block` onto the given wires. */
  function Splice(block: SubProgram, qubits: seq<Wire>, clbits: seq<Wire>): Instruction
  {
    Instruction(Compose(block), qubits, clbits, None)
  }

  /** The splices of `block` onto `qbits[i]` with `clbits[i]` for i = 0 .. n-1, in order. */
  function Splices(block: SubProgram, qbits: seq<seq<Wire>>, clbits: seq<seq<Wire>>, n: nat): (s: seq<Instruction>)
    requires n <= |qbits| && n <= |clbits|
    ensures |s| == n
    ensures forall i :: 0 <= i < n ==> s[i] == Splice(block, qbits[i], clbits[i])
  {
    if n == 0 then [] else Splices(block, qbits, clbits, n - 1) + [Splice(block, qbits[n - 1], clbits[n - 1])]
  }

  /** The resets of `regs[0]`, `regs[1]`, ... in order. */
  function Resets(regs: seq<seq<Wire>>, n: nat): (s: seq<Instruction>)
    requires n <= |regs|
    ensures |s| == n
    ensures forall i :: 0 <= i < n ==> s[i] == Instruction(Reset, regs[i], [], None)
  {
    if n == 0 then [] else Resets(regs, n - 1) + [Instruction(Reset, regs[n - 1], [], None)]
  }

  /** `for i in range(n): compose(block, qbits[i], clbits[i])`. */
  method SpliceEach(p: Program, block: SubProgram, qbits: seq<seq<Wire>>, clbits: seq<seq<Wire>>, n: nat)
    requires n <= |qbits| && n <= |clbits|
    modifies p
    ensures p.registers == old(p.registers)
    ensures p.instructions == old(p.instructions) + Splices(block, qbits, clbits, n)
  {
    for i := 0 to n
      invariant p.registers == old(p.registers)
      invariant p.instructions == old(p.instructions) + Splices(block, qbits, clbits, i)
    {
      p.Append(Splice(block, qbits[i], clbits[i]));
    }
  }

  /** `for i in range(len(regs)): reset(regs[i])`. */
  method ResetEach(p: Program, regs: seq<seq<Wire>>)
    modifies p
    ensures p.registers == old(p.registers)
    ensures p.instructions == old(p.instructions) + Resets(regs, |regs|)
  {
    for i := 0 to |regs|
      invariant p.registers == old(p.registers)
      invariant p.instructions == old(p.instructions) + Resets(regs, i)
    {
      p.Append(Instruction(Reset, regs[i], [], None));
    }
  }

  /** Splicing the first n + m entries is splicing the first n, then the next m. */
  lemma {:induction false} SplicesSplit(block: SubProgram, qbits: seq<seq<Wire>>, clbits: seq<seq<Wire>>, n: nat, m: nat)
    requires n + m <= |qbits| && n + m <= |clbits|
    ensures Splices(block, qbits, clbits, n + m)
         == Splices(block, qbits, clbits, n) + Splices(block, qbits[n..], clbits[n..], m)
  {
    if m > 0 {
      SplicesSplit(block, qbits, clbits, n, m - 1);
      assert qbits[n..][m - 1] == qbits[n + m - 1];
      assert clbits[n..][m - 1] == clbits[n + m - 1];
    }
  }
}
