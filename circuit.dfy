/** The program being built. One `Program` class stands for both of the source's program
    forms (the instruction list of a QuantumCircuit and the graph of a DAGCircuit): each
    component issues the same register additions and appends, in the same order, on both,
    so the model keeps the registers and the appended instructions in order. */
module Circuits {
  import opened Wrappers

  datatype Kind = Quantum | Ancilla | Classical

  /** A named register of `width` bits. */
  datatype Register = Register(name: string, kind: Kind, width: nat)

  /** One bit of a register: `reg[index]`. */
  datatype Wire = Wire(reg: string, index: nat)

  /** The bits of a register, in order (iterating a register in Python). */
  function Bits(r: Register): (ws: seq<Wire>)
    ensures |ws| == r.width
    ensures forall k :: 0 <= k < |ws| ==> ws[k] == Wire(r.name, k)
  {
    seq(r.width, (k: int) requires 0 <= k => Wire(r.name, k))
  }

  /** Bits of registers with different names never coincide. */
  lemma BitsDisjoint(r1: Register, r2: Register)
    requires r1.name != r2.name
    ensures forall w :: w in Bits(r1) ==> w !in Bits(r2)
  {
  }

  /** A gate inside a building block; qubit and clbit numbers are positions in the
      block's own wire list. `IfValue` guards a gate by the value of the block's whole
      classical register (`gate.c_if(creg, value)`). */
  datatype Gate =
    | H(q: nat)
    | X(q: nat)
    | Z(q: nat)
    | S(q: nat)
    | CX(control: nat, target: nat)
    | CZ(control: nat, target: nat)
    | Measure(q: nat, c: nat)
    | IfValue(value: nat, g: Gate)

  /** A fixed building block: its declared widths and its gates. */
  datatype SubProgram = SubProgram(name: string, numQubits: nat, numClbits: nat, body: seq<Gate>)

  /** A classical condition `register == value` attached to one instruction. */
  datatype Condition = Condition(creg: seq<Wire>, value: nat)

  datatype Op = Compose(block: SubProgram) | Reset

  /** One appended instruction: a spliced block or a reset, on `qubits` and `clbits`,
      optionally guarded. */
  datatype Instruction = Instruction(op: Op, qubits: seq<Wire>, clbits: seq<Wire>, cond: Option<Condition>)

  /** The register names present in `regs`. */
  function NamesOf(regs: seq<Register>): set<string>
  {
    set r | r in regs :: r.name
  }

  lemma NamesOfConcat(a: seq<Register>, b: seq<Register>)
    ensures NamesOf(a + b) == NamesOf(a) + NamesOf(b)
  {
    assert forall r :: r in a + b <==> r in a || r in b;
  }

  ghost predicate NamesDistinct(regs: seq<Register>)
  {
    forall i, j :: 0 <= i < j < |regs| ==> regs[i].name != regs[j].name
  }

  /** `_checkNameCircuit` / `_checkNameDag`: scans every register for `name`; true when
      no register carries it. */
  function CheckName(regs: seq<Register>, name: string): (free: bool)
    ensures free <==> name !in NamesOf(regs)
  {
    if |regs| == 0 then true
    else
      assert NamesOf(regs) == NamesOf(regs[..|regs| - 1]) + {regs[|regs| - 1].name} by {
        assert regs == regs[..|regs| - 1] + [regs[|regs| - 1]];
      }
      regs[|regs| - 1].name != name && CheckName(regs[..|regs| - 1], name)
  }

  class Program {
    var registers: seq<Register>
    var instructions: seq<Instruction>

    /** The library refuses a second register with a name already in use. */
    ghost predicate Valid()
      reads this
    {
      NamesDistinct(registers)
    }

    function Names(): set<string>
      reads this
    {
      NamesOf(registers)
    }

    /** `QuantumCircuit()` / `DAGCircuit()`. */
    constructor ()
      ensures Valid()
      ensures registers == [] && instructions == []
    {
      registers := [];
      instructions := [];
    }

    /** `add_register` / `add_qreg` / `add_creg`. */
    method AddRegister(r: Register)
      requires Valid() && r.name !in Names()
      modifies this
      ensures Valid()
      ensures registers == old(registers) + [r]
      ensures instructions == old(instructions)
      ensures Names() == old(Names()) + {r.name}
    {
      registers := registers + [r];
    }

    /** `compose`, `apply_operation_back`, `reset`: one more instruction at the end. */
    method Append(instr: Instruction)
      modifies this
      ensures registers == old(registers)
      ensures instructions == old(instructions) + [instr]
    {
      instructions := instructions + [instr];
    }

    /** `circuit.copy()`. */
    method Copy() returns (q: Program)
      ensures fresh(q)
      ensures q.registers == registers && q.instructions == instructions
    {
      q := new Program();
      q.registers := registers;
      q.instructions := instructions;
    }
  }
}
