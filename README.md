# qiskift core in Dafny

qiskift adds quantum error correction and fault tolerance to qiskit programs. It has two
core files:

- `BaseFaultTolerance.py` holds the generic components:
  - register allocators that add fresh, non-colliding registers to a circuit or DAG;
  - `_combineQregsAncillas`, which lays out the wires a block is spliced onto;
  - the `Encoder` of the logical |0> state;
  - the `FaultTolerantEncoder`: it encodes, then runs `numRepeats - 1` rounds of checks. In each round every checker outcome other than `correctVal` resets the block and re-encodes it;
  - `SyndromeDetector`, `SyndromeCorrector` and `ErrorCorrector`;
  - the `FaultTolerantGates` registry.
- `Steane.py` instantiates all of these for the Steane 7-qubit code.

The model treats a program as a list of registers plus an append-only list of
instructions:

- `Circuits.Program` is a class whose methods add registers and instructions in place.
- An instruction splices a fixed block onto wires, resets wires, or carries a condition `register == value`.
- A block (`SubProgram`) is a value. It holds its declared widths and its gate list.

Each component method becomes an imperative Dafny method. Its `ensures` ties the new state
to a specification function of the inputs: `Splices`, `DetectInstructions`,
`FtInstructions`, `GateInstructions` and so on. Lemmas then prove what the component
promises about those functions:

- allocated names are fresh, distinct and increasing;
- each logical qubit's blocks are disjoint;
- detection and correction share classical registers;
- the checker runs `numRepeats` times;
- a block is reset once per round for each rejected outcome.

The Steane blocks are literal gate lists. The properties proved about them are:

- the correction table corrects exactly the qubit that the detector's syndrome names;
- the encoder's CNOT fans match the detector's stabilizer supports;
- the gate table is transversal.

Each source method comes in two variants: `...Circuit` works on a copy of the caller's
circuit (where the source does), and `...Dag` works on the caller's DAG in place. The model
writes the copying variant as a method that copies the `Program`, then calls the in-place
method.

## Model

| member | source | states |
|---|---|---|
| Names.DigitChar | qiskift/BaseFaultTolerance.py:36 | the character is a decimal digit whose value is `d` |
| Names.NatToString | qiskift/BaseFaultTolerance.py:36 | `str(n)` is a non-empty string of decimal digits that starts with 0 only for n = 0 |
| Names.RegName | qiskift/BaseFaultTolerance.py:36-38 | `prefix + str(k)` starts with the prefix, is longer than it, and continues with digits only |
| Names.StringToNatOfNatToString | qiskift/BaseFaultTolerance.py:36 | `str(n)` read back as a number is `n` |
| Names.NatToStringInjective | qiskift/BaseFaultTolerance.py:36 | different numbers print differently |
| Names.RegNameInjective | qiskift/BaseFaultTolerance.py:34-37 | `prefix + str(m) == prefix + str(n)` exactly when `m == n` |
| Names.IsRegNameOf | qiskift/BaseFaultTolerance.py:34-37 | a name is `prefix + str(k)` exactly when it has that form and its suffix reads back as k |
| Names.TakenSuffixesMember | qiskift/BaseFaultTolerance.py:34-37 | suffix k counts as taken exactly when `prefix + str(k)` is a present name |
| Circuits.Bits | qiskift/BaseFaultTolerance.py:39 | a register's bit list has its width and holds only that register's bits, so registers with different names share no bit (`Circuits.BitsDisjoint`) |
| Circuits.BitsDisjoint | qiskift/BaseFaultTolerance.py:38-39 | registers with different names share no bit |
| Circuits.NamesOfConcat | qiskift/BaseFaultTolerance.py:14-21 | the names of two register lists together are the union of their names |
| Circuits.CheckName | qiskift/BaseFaultTolerance.py:14-30 | the name is reported free exactly when no present register carries it |
| Circuits.Program.constructor | qiskift/BaseFaultTolerance.py:167 | a new program has no registers and no instructions |
| Circuits.Program.AddRegister | qiskift/BaseFaultTolerance.py:38 | a register with a fresh name is appended; names stay distinct; instructions are unchanged |
| Circuits.Program.Append | qiskift/BaseFaultTolerance.py:175 | exactly one instruction is added at the end; registers are unchanged |
| Circuits.Program.Copy | qiskift/BaseFaultTolerance.py:508 | a new program with the same registers and instructions |
| Allocation.MakeRegisters | qiskift/BaseFaultTolerance.py:32-40 | appends `numRegs` registers of the given kind and width, named `prefix + str(k)`; each k was free, and no free suffix was skipped; suffixes are i + n_i with n_i never decreasing |
| Allocation.AddNext | qiskift/BaseFaultTolerance.py:34-38 | one allocation round adds the register at the first free suffix from `next` and advances the scan past it |
| Allocation.SkipTaken | qiskift/BaseFaultTolerance.py:35-36 | the `while` loop stops at the first suffix from `from` whose name is free; every suffix it passed was taken |
| Allocation.AtLeastShrinks | qiskift/BaseFaultTolerance.py:35-36 | passing a taken suffix leaves fewer taken suffixes ahead, so the scan terminates |
| Allocation.RegistersFor | qiskift/BaseFaultTolerance.py:38 | the registers allocated for the handed-out suffixes have the requested kind and width, and their names are pairwise different and fresh (`Allocation.AllocatedNamesDistinct`, `Allocation.AllocatedNamesFresh`) |
| Allocation.Round | qiskift/BaseFaultTolerance.py:34-38 | one round keeps the loop invariant: the suffixes handed out are the first free ones, in order |
| Allocation.RegistersForSnoc | qiskift/BaseFaultTolerance.py:38 | one more suffix adds one more register at the end |
| Allocation.TakenWithNew | qiskift/BaseFaultTolerance.py:35-38 | after a round, the taken suffixes are the earlier ones plus those handed out |
| Allocation.ScanStep | qiskift/BaseFaultTolerance.py:34-38 | the scan state advances by exactly the new suffix |
| Allocation.ScannedToFirstFree | qiskift/BaseFaultTolerance.py:32-40 | when the loop ends, every handed-out suffix was free and every free suffix below the last one was handed out |
| Allocation.IncreasingOffsetsGrow | qiskift/BaseFaultTolerance.py:34-38 | strictly increasing suffixes are exactly i + n_i with n_i never decreasing |
| Allocation.OffsetsGrowIncreasing | qiskift/BaseFaultTolerance.py:34-38 | never-decreasing offsets give strictly increasing suffixes |
| Allocation.AllocatedNamesDistinct | qiskift/BaseFaultTolerance.py:34-38 | the names of the allocated registers are pairwise different |
| Allocation.AllocatedNamesFresh | qiskift/BaseFaultTolerance.py:35-38 | no allocated name was present before the call |
| Allocators.BitLists | qiskift/BaseFaultTolerance.py:39 | the returned lists are the allocated registers' bits, one list per register and in allocation order; the allocated names are distinct (`Allocation.AllocatedNamesDistinct`), so by `Circuits.BitsDisjoint` no two lists share a wire |
| Allocators.AllocatedRegisters | qiskift/BaseFaultTolerance.py:32-98 | an allocation keeps the old registers as a prefix and appends registers of the requested kind and width; their suffixes increase strictly, and their names are distinct and fresh (prefixes `Allocators.DefaultQregPrefix`, `Allocators.DefaultAncillaPrefix`, `Allocators.DefaultCregPrefix`) |
| Allocators.MakeQregs | qiskift/BaseFaultTolerance.py:32-50 | `numRegs` data registers of `numBits` bits are allocated with fresh names; their bit lists are returned |
| Allocators.MakeAncillas | qiskift/BaseFaultTolerance.py:52-74 | the same for ancilla registers; below one bit, no register is added and `numRegs` empty lists are returned |
| Allocators.MakeCregs | qiskift/BaseFaultTolerance.py:76-98 | the same for classical registers; below one bit, no register and `numRegs` empty lists |
| Allocators.MakeOptional | qiskift/BaseFaultTolerance.py:52-98 | the shared shape of the ancilla and classical allocators |
| Allocators.OrAllocate | qiskift/BaseFaultTolerance.py:222-226 | given lists are used unchanged and nothing is added; a missing one is allocated: `numRegs` registers of the kind and width, each named `prefix + str(k)`, or nothing below one bit for ancillas and classical registers |
| Allocators.RegistersNamed | qiskift/BaseFaultTolerance.py:36-38 | every register the loop allocates under `prefix` is named `prefix + str(k)` for some k |
| Layout.CombineBlocks | qiskift/BaseFaultTolerance.py:101-105 | block-mode entry i is data register i followed by ancilla register i |
| Layout.CombineBlocksSplit | qiskift/BaseFaultTolerance.py:101-105 | cutting an entry at the data width gives back the data bits and then the ancilla bits |
| Layout.CombineInterleaved | qiskift/BaseFaultTolerance.py:107-113 | interleaved entry j is ancilla j followed by the j-th register of every operand, so bit b of operand i's register sits after the ancillas at i*w + b (`Layout.ColumnPosition`, `Layout.InterleavedTwoOperands`) |
| Layout.ColumnPosition | qiskift/BaseFaultTolerance.py:107-113 | with w-bit registers, bit b of operand i's j-th register sits at position i*w + b (`Layout.Column`) |
| Layout.ColumnLength | qiskift/BaseFaultTolerance.py:107-113 | a column of m registers of w bits each has m*w wires |
| Layout.InterleavedTwoOperands | qiskift/BaseFaultTolerance.py:107-113 | for two operands, entry j is the ancillas, then the j-th register of the first operand, then that of the second |
| Layout.InterleavedOneOperand | qiskift/BaseFaultTolerance.py:107-113 | for one operand, entry j is the ancillas followed by its j-th register |
| Splicing.Splices | qiskift/BaseFaultTolerance.py:174-175 | splice i puts the block onto `qbits[i]` with `clbits[i]`, in order (`Splicing.Splice`) |
| Splicing.Resets | qiskift/BaseFaultTolerance.py:558-559 | reset i acts on register i, in order |
| Splicing.SpliceEach | qiskift/BaseFaultTolerance.py:174-175 | the loop appends exactly those splices and adds no register |
| Splicing.ResetEach | qiskift/BaseFaultTolerance.py:558-559 | the loop appends one reset per register and adds no register |
| Splicing.SplicesSplit | qiskift/BaseFaultTolerance.py:174-175 | splicing n + m entries is splicing the first n, then the next m |
| Encoders.CreateEncoder | qiskift/BaseFaultTolerance.py:155-202 | a new program holds data registers, then ancillas, then classical registers, `numQubits` of each, all fresh; each logical qubit's block is spliced onto its data and ancilla bits |
| Encoders.EncoderRegisters | qiskift/BaseFaultTolerance.py:167-171 | the new program holds exactly the three allocations, in that order, and no instruction |
| Encoders.EncoderWiring | qiskift/BaseFaultTolerance.py:222-226 | the given lists are kept; missing ones are allocated, ancillas first, named `ancilla` and `measure` followed by a number |
| Encoders.GetEncoder | qiskift/BaseFaultTolerance.py:235-266 | the DAG gains exactly the missing registers and one splice per given data register |
| Encoders.GetEncoderCopy | qiskift/BaseFaultTolerance.py:204-233 | missing registers go into the caller's circuit; the splices go into a new circuit, which is the caller's own when there is nothing to splice |
| Encoders.CreatedBlocksDisjoint | qiskift/BaseFaultTolerance.py:169-175 | two logical qubits' blocks share no wire |
| Encoders.BlockOwner | qiskift/BaseFaultTolerance.py:169-175 | a wire of logical qubit i's block belongs to data register i or ancilla register i |
| FaultTolerantEncoders.Pow2 | qiskift/BaseFaultTolerance.py:330 | `2**n` is at least one |
| FaultTolerantEncoders.Retries | qiskift/BaseFaultTolerance.py:330-333 | the `k` loop appends two instructions per rejected value |
| FaultTolerantEncoders.RetryEach | qiskift/BaseFaultTolerance.py:330-333 | the loop appends the guarded reset and the guarded re-encoding for each value the checker register can hold other than `correctVal` |
| FaultTolerantEncoders.CheckEach | qiskift/BaseFaultTolerance.py:328-333 | one round appends, for each logical qubit, its checker splice followed by its retries |
| FaultTolerantEncoders.RoundEach | qiskift/BaseFaultTolerance.py:327-333 | the `i` loop appends `numRepeats - 1` identical rounds, or none below two (`FaultTolerantEncoders.Repeats`, the rounds as `FaultTolerantEncoders.Rounds`) |
| FaultTolerantEncoders.Encode | qiskift/BaseFaultTolerance.py:326-337 | the plain encoding, then the rounds, then a last check of every logical qubit |
| FaultTolerantEncoders.CheckerRegisters | qiskift/BaseFaultTolerance.py:320-321 | the checker's ancillas and classical registers are allocated after the encoder's |
| FaultTolerantEncoders.CreateFtEncoder | qiskift/BaseFaultTolerance.py:305-373 | a new program with five fresh allocations in source order, holding exactly the full fault-tolerant encoding |
| FaultTolerantEncoders.FtWiring | qiskift/BaseFaultTolerance.py:392-402 | the given lists are kept and add nothing; each missing list is `len(qregs)` fresh registers of the right kind (ancilla or classical) and width, named `ancilla` or `measure` followed by a number; exactly those registers are added, in source order, and no instruction |
| FaultTolerantEncoders.CheckerWiring | qiskift/BaseFaultTolerance.py:398-402 | the checker's lists are the given ones or new allocations of the checker's widths, named `ancilla` and `measure` followed by a number |
| FaultTolerantEncoders.GetFtEncoder | qiskift/BaseFaultTolerance.py:421-464 | each missing list is `len(qregs)` fresh registers of the right kind and width, and the DAG gains exactly those registers, in source order, followed by the full encoding of the given registers |
| FaultTolerantEncoders.GetFtEncoderCopy | qiskift/BaseFaultTolerance.py:375-419 | each missing list is `len(qregs)` fresh registers of the right kind and width, and exactly those go into the caller's circuit; the encoding goes into a new program extending it |
| FaultTolerantEncoders.NoQubitsNoInstructions | qiskift/BaseFaultTolerance.py:327-337 | with no logical qubit nothing is appended, however many rounds run |
| FtProperties.CountConcat | qiskift/BaseFaultTolerance.py:326-337 | occurrences in a concatenation add up |
| FtProperties.CountOne | qiskift/BaseFaultTolerance.py:326-337 | a one-instruction list holds x once if it is x, otherwise not at all |
| FtProperties.NotInCount | qiskift/BaseFaultTolerance.py:326-337 | an instruction that is not in a list occurs there zero times |
| FaultTolerantEncoders.RejectedBelow | qiskift/BaseFaultTolerance.py:330-331 | no more values are rejected than the `range(2**n)` loop visits |
| FtProperties.RejectedBelowCount | qiskift/BaseFaultTolerance.py:330-331 | an integer `correctVal` in range leaves n − 1 rejected values; any other `correctVal` rejects all n (`FaultTolerantEncoders.Rejects` is the test `k != correctVal`) |
| FtProperties.RetriesMembers | qiskift/BaseFaultTolerance.py:330-333 | the guarded reset and the re-encoding under value k occur exactly when k is in range and rejected |
| FtProperties.RetriesGuarded | qiskift/BaseFaultTolerance.py:331-333 | every retry acts on the data block under a guard whose value is rejected; resets act on the block alone (`FaultTolerantEncoders.ResetIf`, `FaultTolerantEncoders.EncodeIf`) |
| FtProperties.UnguardedNotRetried | qiskift/BaseFaultTolerance.py:332-333 | no unguarded instruction is a retry |
| FtProperties.RetryResetHere | qiskift/BaseFaultTolerance.py:330-332 | the retries for one value k hold the guarded reset of their own block under k once when k is rejected, and no other reset |
| FtProperties.RetriesResetCount | qiskift/BaseFaultTolerance.py:331-332 | a guarded reset occurs at most once among the retries, and only for a rejected value |
| FtProperties.CheckRoundCheckerCount | qiskift/BaseFaultTolerance.py:328-329 | within one round, each logical qubit's checker splice occurs once |
| FtProperties.CheckRoundResetCount | qiskift/BaseFaultTolerance.py:328-333 | within one round, each logical qubit's guarded reset under k occurs once if k is rejected, otherwise never |
| FtProperties.RoundStep | qiskift/BaseFaultTolerance.py:328-333 | one more logical qubit adds its check and its retries to the count |
| FtProperties.FtCountSplit | qiskift/BaseFaultTolerance.py:326-337 | the count over the whole stream is the encoding's count plus the rounds' count plus the last checks' count |
| FtProperties.RoundsCount | qiskift/BaseFaultTolerance.py:327 | r rounds hold r times one round's count |
| FtProperties.SplicesCount | qiskift/BaseFaultTolerance.py:336 | splices onto distinct wire lists hold each splice once |
| FtProperties.CountDistinct | qiskift/BaseFaultTolerance.py:326-337 | an element of a list without repetitions occurs in it once |
| FtProperties.SplicesOtherBlock | qiskift/BaseFaultTolerance.py:326 | splices of the encoder hold no splice of another block |
| FtProperties.CheckerCount | qiskift/BaseFaultTolerance.py:327-337 | each logical qubit is checked `numRepeats` times, or once when `numRepeats` is below two |
| FtProperties.ResetCount | qiskift/BaseFaultTolerance.py:327-333 | each data block is reset under k once per round if k is rejected, otherwise never |
| FtProperties.CheckRoundLength | qiskift/BaseFaultTolerance.py:328-333 | a round over m logical qubits has m × (1 + 2 × rejected values) instructions (`FaultTolerantEncoders.CheckRound`; the checker register holds `FaultTolerantEncoders.Syndromes` values) |
| FtProperties.RoundsLength | qiskift/BaseFaultTolerance.py:327 | r rounds are r times as long as one |
| FtProperties.FtLength | qiskift/BaseFaultTolerance.py:326-337 | the whole stream is n encodings, the rounds and n last checks (`FaultTolerantEncoders.FtInstructions`) |
| Correction.DetectLayout | qiskift/BaseFaultTolerance.py:553-559 | detection splices the detector onto logical qubit i's data bits followed by its ancilla bits with `cregs[i]`, then resets every ancilla register in order (`Correction.DetectInstructions`) |
| Correction.DetectorWiring | qiskift/BaseFaultTolerance.py:547-551 | missing classical registers are allocated first, `_numMeasurements` bits wide and named `measure` followed by a number, then missing ancillas named `ancilla` followed by a number |
| Correction.SyndromeDetect | qiskift/BaseFaultTolerance.py:526-561 | the DAG gains exactly the missing registers and the detection instructions |
| Correction.Detect | qiskift/BaseFaultTolerance.py:553-559 | the two loops append the splices and then the resets |
| Correction.SyndromeDetectCopy | qiskift/BaseFaultTolerance.py:490-524 | the same on a copy; the caller's circuit is untouched |
| Correction.SyndromeCorrect | qiskift/BaseFaultTolerance.py:607-627 | one corrector splice per data register, with its classical register |
| Correction.SyndromeCorrectCopy | qiskift/BaseFaultTolerance.py:583-605 | the same on a copy |
| Correction.SharedCregs | qiskift/BaseFaultTolerance.py:696-708 | logical qubit i's corrector reads the classical register its detector wrote and acts on the same data register (`Correction.ErrorCorrectInstructions`, made of `Correction.DetectInstructions` and `Correction.CorrectInstructions`) |
| Correction.ErrorCorrect | qiskift/BaseFaultTolerance.py:683-708 | with no corrector, nothing changes and the result is `None`; otherwise missing registers are allocated once, then detection and correction are appended using them |
| Correction.ErrorCorrectCopy | qiskift/BaseFaultTolerance.py:654-681 | the same on a copy; `None` without a corrector |
| Gates.PrefixesApart | qiskift/BaseFaultTolerance.py:32-98 | names made under the prefixes `q`, `ancilla`, `measure` and the gate registry's `classical` (line 761) never coincide |
| Gates.GateClbits | qiskift/BaseFaultTolerance.py:807-811 | each position reads its own classical register when the gate measures, and none when it does not, as the splices of `Gates.GateLayout` then use |
| Gates.GateLayout | qiskift/BaseFaultTolerance.py:805-811 | position j's splice acts on its ancillas and then the j-th register of every operand (`Gates.GateInstructions`; the classical prefix is `Gates.GatePrefix`) |
| Gates.GateCregsApart | qiskift/BaseFaultTolerance.py:799-800 | a classical register the registry allocates under `classical` never takes a name of the form `q…`, `ancilla…` or `measure…` that the other allocators hand out |
| Gates.GateWiring | qiskift/BaseFaultTolerance.py:799-803 | missing classical registers are allocated first, each named `classical` followed by a number, then missing ancillas named `ancilla` followed by a number; given lists are kept and add nothing |
| Gates.AddGate | qiskift/BaseFaultTolerance.py:777-813 | an unregistered gate fails before anything changes; otherwise the registers are wired and one splice is added per position |
| Gates.ApplyGate | qiskift/BaseFaultTolerance.py:797-813 | the loop appends the gate's splices and adds no register |
| Gates.AddGateCopy | qiskift/BaseFaultTolerance.py:737-775 | the same on a copy; an unregistered gate fails |
| Steane.Guarded | qiskift/Steane.py:189-219 | each corrector clause is a single X or Z on its own qubit conditioned on that qubit's table value, so a value selects exactly the gate of its qubit (`SteaneProperties.GuardedByTable`) |
| Steane.SteaneFtEncoderAsWritten | qiskift/Steane.py:85-101 | the Steane encoder and the parity checker with `correctVal` as written, which rejects every checker outcome |
| Steane.SteaneFtEncoder | qiskift/Steane.py:85-101 | the same encoder and checker with `correctVal` 0: exactly the outcomes other than 0 are rejected |
| SteaneProperties.Fan | qiskift/Steane.py:128-159 | a fan holds one two-qubit gate per target, each from the control, so a gate is in it exactly when it reaches one of the targets (`SteaneProperties.FanMember`) |
| SteaneProperties.FanMember | qiskift/Steane.py:128-159 | a gate lies in the fan exactly when it is that control onto one of the targets |
| SteaneProperties.TableRelations | qiskift/Steane.py:189-219 | each X value is eight times the Z value of the same qubit; the combined value is their sum; Z values lie in 1..7 |
| SteaneProperties.ZValuesDistinct | qiskift/Steane.py:197-203 | the Z values are pairwise different |
| SteaneProperties.TableDistinct | qiskift/Steane.py:189-219 | the 21 values are pairwise distinct and lie in 1..63 |
| SteaneProperties.TablesDistinct | qiskift/Steane.py:189-219 | each table has no repeated value, and no two tables share a value |
| SteaneProperties.OwnTable | qiskift/Steane.py:189-219 | each qubit's X, Z and combined values appear in no other table |
| SteaneProperties.GuardedBy | qiskift/Steane.py:189-219 | every selected gate carries the value `v` in the body |
| SteaneProperties.GuardedByConcat | qiskift/Steane.py:189-219 | selection by value distributes over concatenation |
| SteaneProperties.GuardedByPrefix | qiskift/Steane.py:189-219 | among a table's first k clauses, value `vals[q]` selects only the gate on qubit q |
| SteaneProperties.GuardedByTable | qiskift/Steane.py:189-219 | a value selects the gate of its qubit if it is in the table, and nothing otherwise |
| SteaneProperties.CorrectorSplit | qiskift/Steane.py:187-219 | what a value selects is the contribution of the four tables, in order (`Steane.SteaneCorrector`; `Steane.SteaneErrorCorrector` pairs it with `Steane.SteaneDetector`) |
| SteaneProperties.XCorrection | qiskift/Steane.py:189-195 | the X value of qubit q applies exactly X on q |
| SteaneProperties.ZCorrection | qiskift/Steane.py:197-203 | the Z value of qubit q applies exactly Z on q |
| SteaneProperties.BothCorrection | qiskift/Steane.py:205-219 | the combined value of qubit q applies exactly Z on q and then X on q |
| SteaneProperties.NoCorrection | qiskift/Steane.py:187-219 | a value outside the tables applies nothing |
| SteaneProperties.ZeroSyndromeNoCorrection | qiskift/Steane.py:187-219 | the all-clear syndrome 0 applies nothing |
| SteaneProperties.CorrectorClauses | qiskift/Steane.py:187-219 | the corrector has 28 clauses, each a single gate conditioned on a value in 1..63 |
| SteaneProperties.SyndromeValue | qiskift/Steane.py:163-165 | the value read from the flipped ancillas fits in n bits |
| SteaneProperties.DetectorLayout | qiskift/Steane.py:119-167 | the detector is: Hadamards, the controlled-Z fans of ancillas 5, 4, 3, the CNOT fans of ancillas 2, 1, 0, Hadamards, then measurements (`Steane.SteaneDetector`) |
| SteaneProperties.DetectorChecks | qiskift/Steane.py:128-159 | an X error on qubit q flips ancilla a exactly when an ancilla among 3..5 has q in its generator's support; a Z error likewise for ancillas 0..2 |
| SteaneProperties.SyndromeBits | qiskift/Steane.py:163-165 | the syndrome of a single error is the sum of the bits of the ancillas it flips |
| SteaneProperties.DetectorXSyndrome | qiskift/Steane.py:128-165 | an X error on qubit q yields the corrector's X value for q |
| SteaneProperties.DetectorZSyndrome | qiskift/Steane.py:128-165 | a Z error on qubit q yields the corrector's Z value for q |
| SteaneProperties.DetectorBothSyndrome | qiskift/Steane.py:128-165 | an X and a Z error on qubit q together yield the combined value for q |
| SteaneProperties.DetectorShape | qiskift/Steane.py:119-167 | the detector spans 7 data qubits and 6 ancillas and measures ancilla a into bit a; the corrector reads as many bits as the detector writes and spans the detector's data qubits |
| SteaneProperties.EncoderLayout | qiskift/Steane.py:41-61 | the encoder is Hadamards on 0..2, then qubit c for c = 2, 1, 0 applies CNOTs onto the rest of generator c's support (`Steane.SteaneEncoder`) |
| SteaneProperties.EncoderMatchesDetector | qiskift/Steane.py:1-14 | qubit c together with its encoder targets is generator c's support, the same set that detector ancillas 2 − c and 5 − c act on |
| SteaneProperties.EncoderHadamards | qiskift/Steane.py:45 | the encoder puts a Hadamard only on qubits 0, 1, 2 |
| SteaneProperties.SupportCount | qiskift/Steane.py:4-12 | a qubit lies in at most three supports |
| SteaneProperties.CheckerTargets | qiskift/Steane.py:86-92 | the checker gathers the parity of exactly the data qubits that lie in an even number of supports |
| SteaneProperties.CheckerShape | qiskift/Steane.py:86-101 | the checker spans the encoder's data qubits plus one ancilla and measures that ancilla last, so it can read two values (`Steane.CheckerBlock`) |
| SteaneProperties.AsWrittenRejectsSuccess | qiskift/Steane.py:101 | with `correctVal` the list `[0]`, outcome 0 is rejected and both outcomes are rejected |
| SteaneProperties.AsWrittenResetsOnSuccess | qiskift/Steane.py:101 | as written, a correctly encoded block is reset under outcome 0 in each of the `numRepeats - 1` rounds |
| SteaneProperties.CorrectedRejectsFailureOnly | qiskift/Steane.py:101 | with `correctVal` 0, only outcome 1 is rejected |
| SteaneProperties.CorrectedResetsOnFailureOnly | qiskift/Steane.py:101 | with `correctVal` 0, a block is reset once per round under outcome 1 and never under outcome 0 |
| SteaneProperties.GateTable | qiskift/Steane.py:306 | exactly `cx`, `h`, `x` and `s` are registered, none with ancillas or classical bits (`Steane.SteaneGates`) |
| SteaneProperties.TransversalCnot | qiskift/Steane.py:273-281 | the CNOT's splice j acts on the j-th block of each operand, and its gate i pairs qubit i of the first block with qubit i of the second |
| SteaneProperties.TransversalSingle | qiskift/Steane.py:284-304 | H, X and S act on the j-th block alone, qubit by qubit; S is S followed by Z |

## Left out

- Quantum semantics is not modelled: states, unitaries and measurement outcomes. A syndrome is modelled as the classical value the flipped ancillas spell.
- A `qiskit` block is a named gate list, and a splice is one instruction. `to_gate`/`to_instruction` wrapping, `compose`'s width checks and qiskit's DAG internals are not modelled.
- The circuit variants and the DAG variants share one `Program` class. The model does not distinguish a `QuantumCircuit` from a `DAGCircuit`.
- `FaultTolerance.run` (qiskift/BaseFaultTolerance.py:127-131) is not modelled. It is an unfinished stub that uses none of its components.
- `BaseFaultTolerantMeasurement` (qiskift/BaseFaultTolerance.py:816-820) is not modelled. It is declared but not implemented.
- `circuit.reset(...).c_if(...)` attaches its condition to the reset's instruction set. The model writes that as one conditioned reset instruction on the whole data block, and does not model qiskit's one-reset-per-qubit broadcast. The same holds for the detector's resets: with no ancilla, `circuit.reset(ancillas[i])` (line 521) on an empty list resets nothing, while the model appends a reset on no wires, as `apply_operation_back(Reset(), ancillas[i])` (line 559) does.
- Gate keys are the strings `CXGate().qasm()` and so on, written as `"cx"`, `"h"`, `"x"` and `"s"`. qiskit's QASM printer is not part of this model.
- Block widths are integers carried in the block. The source reads them with `num_qubits` and `num_clbits`, and calls `num_qubits()` and `num_clbits()` as methods on a circuit at lines 316, 318, 321, 330, 396, 402 and 411, which qiskit would reject. The model reads the width as the DAG variant does.
- Encoders.GetEncoder: the source sizes missing lists with a `numQubits` that is undefined in that method (lines 223, 226, 255, 258). The model uses `len(qregs)`, the only sensible binding. The same holds for `Encoders.GetEncoderCopy`.
- FaultTolerantEncoders.GetFtEncoder: missing lists are sized by `len(qregs)` instead of the undefined `numQubits` (lines 437-446). The same holds for `FaultTolerantEncoders.GetFtEncoderCopy`.
- FaultTolerantEncoders.GetFtEncoderCopy: line 390 replaces the caller's circuit with a fresh empty one before anything is allocated. The result would then refer to registers that circuit lacks. The model applies the encoding to the caller's circuit, as `getEncoderDag` and `Encoder.getEncoderCircuit` do.
- Errors that Python raises on malformed input are preconditions: short lists, an operand with fewer registers than the first, or a negative register width. The missing-key path of the gate registry and the missing corrector of the error corrector are modelled as results.
- There is no I/O, clock or randomness in the core.

## Findings

| source | as written | input that shows it | evidently intended | confidence | as-written member | corrected member |
|---|---|---|---|---|---|---|
| qiskift/Steane.py:101 | `correctVal` is the list `[0]`, and lines 331, 366, 412 and 456 of qiskift/BaseFaultTolerance.py compare `k != correctVal` for an integer k, so every checker outcome is rejected | `SteaneFaultTolerantEncoder(2)`: after the checker reads 0, meaning the block is correct, the block is still reset and encoded again | `correctVal` 0, so only outcome 1 triggers a retry | not executed | SteaneProperties.AsWrittenResetsOnSuccess | SteaneProperties.CorrectedResetsOnFailureOnly |
