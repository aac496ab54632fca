/** The register allocators `_makeQregs*`, `_makeAncillas*` and `_makeCregs*`: each makes
    `numRegs` registers of `numBits` bits named `prefix + str(k)`, scanning k upward for a
    name that no register of the program carries yet and adding each register before the
    next name is chosen. */
module Allocation {
  import opened Names
  import opened Circuits

  /** The loop shared by every allocator: registers of one kind, one prefix, one width.
      Register i is named `prefix + str(i + n)`, where the offset n only grows while the
      scan skips names already in use. The registers come back in order; the suffixes
      used are returned as a ghost so that the predicates below can say which they are,
      and the lemmas after them turn that into distinct and fresh names. */
  method MakeRegisters(p: Program, numRegs: nat, numBits: nat, prefix: string, kind: Kind)
    returns (regs: seq<Register>, ghost suffixes: seq<nat>)
    requires p.Valid()
    modifies p
    ensures p.Valid()
    ensures |suffixes| == numRegs
    ensures regs == RegistersFor(prefix, suffixes, kind, numBits)
    ensures OffsetsGrow(suffixes)
    ensures FirstFree(TakenSuffixes(old(p.Names()), prefix), suffixes)
    ensures p.registers == old(p.registers) + regs
    ensures p.instructions == old(p.instructions)
  {
    ghost var taken := TakenSuffixes(p.Names(), prefix);
    regs, suffixes := [], [];
    var n: nat := 0;
    for i := 0 to numRegs
      invariant p.Valid()
      invariant |suffixes| == i
      invariant regs == RegistersFor(prefix, suffixes, kind, numBits)
      invariant ScannedTo(taken, suffixes, i + n)
      invariant p.registers == old(p.registers) + regs
      invariant p.instructions == old(p.instructions)
    {
      var r, skipped := AddNext(p, prefix, kind, numBits, old(p.registers), regs, suffixes, i + n);
      n := n + skipped;
      regs, suffixes := regs + [r], suffixes + [i + n];
    }
    ScannedToFirstFree(taken, suffixes, numRegs + n);
  }

  /** One round of the allocation loop: scan from `next` for a free name and add the
      register carrying it. */
  method AddNext(p: Program, prefix: string, kind: Kind, numBits: nat, ghost before: seq<Register>,
                 ghost regs: seq<Register>, ghost suffixes: seq<nat>, next: nat)
    returns (r: Register, skipped: nat)
    requires p.Valid()
    requires p.registers == before + regs
    requires regs == RegistersFor(prefix, suffixes, kind, numBits)
    requires ScannedTo(TakenSuffixes(NamesOf(before), prefix), suffixes, next)
    modifies p
    ensures p.Valid()
    ensures r == Register(RegName(prefix, next + skipped), kind, numBits)
    ensures p.registers == before + (regs + [r])
    ensures p.instructions == old(p.instructions)
    ensures regs + [r] == RegistersFor(prefix, suffixes + [next + skipped], kind, numBits)
    ensures ScannedTo(TakenSuffixes(NamesOf(before), prefix), suffixes + [next + skipped], next + skipped + 1)
  {
    skipped := SkipTaken(p, prefix, next);
    Round(before, regs, prefix, suffixes, kind, numBits, next, skipped);
    RegistersForSnoc(prefix, suffixes, kind, numBits, next + skipped);
    r := Register(RegName(prefix, next + skipped), kind, numBits);
    p.AddRegister(r);
  }

  /** The `while` scan: how far past `from` the first suffix k lies whose name
      `prefix + str(k)` no register carries. */
  method SkipTaken(p: Program, prefix: string, from: nat) returns (skipped: nat)
    ensures RegName(prefix, from + skipped) !in p.Names()
    ensures from + skipped !in TakenSuffixes(p.Names(), prefix)
    ensures forall k :: from <= k < from + skipped ==> k in TakenSuffixes(p.Names(), prefix)
  {
    ghost var taken := TakenSuffixes(p.Names(), prefix);
    skipped := 0;
    while !CheckName(p.registers, RegName(prefix, from + skipped))
      invariant forall k :: from <= k < from + skipped ==> k in taken
      decreases |AtLeast(taken, from + skipped)|
    {
      TakenSuffixesMember(p.Names(), prefix, from + skipped);
      AtLeastShrinks(taken, from + skipped);
      skipped := skipped + 1;
    }
    TakenSuffixesMember(p.Names(), prefix, from + skipped);
  }

  /** The members of `s` from `m` on. */
  function AtLeast(s: set<nat>, m: nat): set<nat>
  {
    set k | k in s && k >= m
  }

  /** A taken suffix at the scan position leaves one fewer taken suffix ahead. */
  lemma AtLeastShrinks(s: set<nat>, m: nat)
    requires m in s
    ensures |AtLeast(s, m + 1)| < |AtLeast(s, m)|
  {
    assert AtLeast(s, m) == AtLeast(s, m + 1) + {m};
  }

  /** The suffixes in `s`, as a set. */
  function SetOf(s: seq<nat>): set<nat>
  {
    set k | k in s
  }

  /** The registers named by `suffixes`, in order. */
  function RegistersFor(prefix: string, suffixes: seq<nat>, kind: Kind, numBits: nat): (regs: seq<Register>)
    ensures |regs| == |suffixes|
    ensures forall t :: 0 <= t < |suffixes| ==> regs[t] == Register(RegName(prefix, suffixes[t]), kind, numBits)
  {
    seq(|suffixes|, t requires 0 <= t < |suffixes| => Register(RegName(prefix, suffixes[t]), kind, numBits))
  }

  /** Suffix i is i + n_i with 0 <= n_i and n_i never going down. */
  ghost predicate OffsetsGrow(suffixes: seq<nat>)
  {
    && (forall i :: 0 <= i < |suffixes| ==> i <= suffixes[i])
    && (forall i, j :: 0 <= i < j < |suffixes| ==> suffixes[i] - i <= suffixes[j] - j)
  }

  /** Every suffix handed out was free before the call (not in `taken`), and every
      smaller suffix passed over was taken. */
  ghost predicate FirstFree(taken: set<nat>, suffixes: seq<nat>)
  {
    && (forall t :: 0 <= t < |suffixes| ==> suffixes[t] !in taken)
    && (forall k: nat :: |suffixes| > 0 && k < suffixes[|suffixes| - 1] && k !in suffixes ==> k in taken)
  }

  ghost predicate Increasing(s: seq<nat>)
  {
    forall t :: 0 < t < |s| ==> s[t - 1] < s[t]
  }

  /** The state of the allocation loop with the scan at `next`: the suffixes handed out
      increase, all lie before `next`, were free before the call, and every other suffix
      before `next` was taken. */
  ghost predicate ScannedTo(taken: set<nat>, suffixes: seq<nat>, next: nat)
  {
    && Increasing(suffixes)
    && (forall t :: 0 <= t < |suffixes| ==> suffixes[t] < next)
    && (forall t :: 0 <= t < |suffixes| ==> suffixes[t] !in taken)
    && (forall k: nat :: k < next && k !in suffixes ==> k in taken)
  }

  /** One round of the allocation loop, on a program whose registers are `before`
      followed by the registers `regs` this call added: the scan from `next` passed
      `skipped` suffixes taken now, which were taken before the call since the call's own
      suffixes all lie before `next`, and the one after them is free. */
  lemma Round(before: seq<Register>, regs: seq<Register>, prefix: string, suffixes: seq<nat>,
              kind: Kind, numBits: nat, next: nat, skipped: nat)
    requires regs == RegistersFor(prefix, suffixes, kind, numBits)
    requires ScannedTo(TakenSuffixes(NamesOf(before), prefix), suffixes, next)
    requires forall k :: next <= k < next + skipped ==> k in TakenSuffixes(NamesOf(before + regs), prefix)
    requires next + skipped !in TakenSuffixes(NamesOf(before + regs), prefix)
    ensures ScannedTo(TakenSuffixes(NamesOf(before), prefix), suffixes + [next + skipped], next + skipped + 1)
  {
    NamesOfConcat(before, regs);
    TakenWithNew(NamesOf(before), prefix, suffixes, kind, numBits);
    ScanStep(TakenSuffixes(NamesOf(before), prefix), TakenSuffixes(NamesOf(before + regs), prefix),
             suffixes, next, skipped);
  }

  lemma RegistersForSnoc(prefix: string, suffixes: seq<nat>, kind: Kind, numBits: nat, m: nat)
    ensures RegistersFor(prefix, suffixes + [m], kind, numBits)
         == RegistersFor(prefix, suffixes, kind, numBits) + [Register(RegName(prefix, m), kind, numBits)]
  {
  }

  /** The suffixes taken among the names before the call and the names this call has
      added so far. */
  lemma TakenWithNew(before: set<string>, prefix: string, suffixes: seq<nat>, kind: Kind, numBits: nat)
    ensures TakenSuffixes(before + NamesOf(RegistersFor(prefix, suffixes, kind, numBits)), prefix)
         == TakenSuffixes(before, prefix) + SetOf(suffixes)
  {
    var regs := RegistersFor(prefix, suffixes, kind, numBits);
    forall k: nat
      ensures k in TakenSuffixes(before + NamesOf(regs), prefix) <==> k in TakenSuffixes(before, prefix) + SetOf(suffixes)
    {
      TakenSuffixesMember(before + NamesOf(regs), prefix, k);
      TakenSuffixesMember(before, prefix, k);
      if RegName(prefix, k) in NamesOf(regs) {
        var r :| r in regs && r.name == RegName(prefix, k);
        var t :| 0 <= t < |regs| && regs[t] == r;
        RegNameInjective(prefix, suffixes[t], k);
      }
      if k in SetOf(suffixes) {
        var t :| 0 <= t < |suffixes| && suffixes[t] == k;
        assert regs[t] in regs;
      }
    }
  }

  /** The loop state advances by one suffix, `next + skipped`. */
  lemma ScanStep(taken: set<nat>, now: set<nat>, suffixes: seq<nat>, next: nat, skipped: nat)
    requires now == taken + SetOf(suffixes)
    requires ScannedTo(taken, suffixes, next)
    requires forall k :: next <= k < next + skipped ==> k in now
    requires next + skipped !in now
    ensures ScannedTo(taken, suffixes + [next + skipped], next + skipped + 1)
  {
    var m := next + skipped;
    var suffixes' := suffixes + [m];
    forall k: nat | k < m + 1 && k !in suffixes'
      ensures k in taken
    {
      if next <= k {
        assert k in now;
      }
    }
  }

  /** At the end of the loop the public description holds. */
  lemma ScannedToFirstFree(taken: set<nat>, suffixes: seq<nat>, next: nat)
    requires ScannedTo(taken, suffixes, next)
    ensures FirstFree(taken, suffixes)
    ensures OffsetsGrow(suffixes)
  {
    IncreasingOffsetsGrow(suffixes);
  }

  /** Strictly increasing suffixes are exactly i + n_i with n_i never going down. */
  lemma {:induction false} IncreasingOffsetsGrow(s: seq<nat>)
    requires Increasing(s)
    ensures OffsetsGrow(s)
  {
    if |s| > 1 {
      var s' := s[..|s| - 1];
      assert Increasing(s');
      IncreasingOffsetsGrow(s');
      var last := |s| - 1;
      forall i | 0 <= i < last
        ensures s[i] - i <= s[last] - last
      {
        assert s'[i] - i <= s'[last - 1] - (last - 1);
      }
    }
  }

  /** Growing offsets make the suffixes strictly increasing. */
  lemma OffsetsGrowIncreasing(suffixes: seq<nat>)
    requires OffsetsGrow(suffixes)
    ensures forall i, j :: 0 <= i < j < |suffixes| ==> suffixes[i] < suffixes[j]
  {
  }

  /** Allocated names are pairwise different. */
  lemma AllocatedNamesDistinct(prefix: string, suffixes: seq<nat>, kind: Kind, numBits: nat)
    requires OffsetsGrow(suffixes)
    ensures NamesDistinct(RegistersFor(prefix, suffixes, kind, numBits))
  {
    OffsetsGrowIncreasing(suffixes);
    var regs := RegistersFor(prefix, suffixes, kind, numBits);
    forall i, j | 0 <= i < j < |regs|
      ensures regs[i].name != regs[j].name
    {
      RegNameInjective(prefix, suffixes[i], suffixes[j]);
    }
  }

  /** Allocated names collide with no name present before the call. */
  lemma AllocatedNamesFresh(before: set<string>, prefix: string, suffixes: seq<nat>, kind: Kind, numBits: nat)
    requires FirstFree(TakenSuffixes(before, prefix), suffixes)
    ensures forall r :: r in RegistersFor(prefix, suffixes, kind, numBits) ==> r.name !in before
  {
    forall t | 0 <= t < |suffixes|
      ensures RegName(prefix, suffixes[t]) !in before
    {
      TakenSuffixesMember(before, prefix, suffixes[t]);
    }
  }
}

/** The three allocator families as the components call them. Each returns the bit lists
    of the registers it made, in order; the Circuit and DAG variants make the same checks
    and additions in the same order, so one method stands for both. */
module Allocators {
  import opened Wrappers
  import opened Names
  import opened Circuits
  import opened Allocation

  const DefaultQregPrefix := "q"
  const DefaultAncillaPrefix := "ancilla"
  const DefaultCregPrefix := "measure"

  /** The bits of each register, in order. */
  function BitLists(regs: seq<Register>): (ws: seq<seq<Wire>>)
    ensures |ws| == |regs|
    ensures forall i :: 0 <= i < |regs| ==> ws[i] == Bits(regs[i])
  {
    seq(|regs|, i requires 0 <= i < |regs| => Bits(regs[i]))
  }

  /** `after` is `before` followed by the registers with suffixes `suffixes`, chosen as the
      allocation loop chooses them. */
  ghost predicate Allocated(before: seq<Register>, after: seq<Register>, prefix: string,
                            suffixes: seq<nat>, kind: Kind, numBits: nat)
  {
    && after == before + RegistersFor(prefix, suffixes, kind, numBits)
    && OffsetsGrow(suffixes)
    && FirstFree(TakenSuffixes(NamesOf(before), prefix), suffixes)
  }

  /** What an allocation promises: the program gains exactly |suffixes| registers, after the
      old ones, of the requested kind and width, named `prefix + str(k)` for increasing k,
      with names distinct from each other and from every name present before. */
  lemma AllocatedRegisters(before: seq<Register>, after: seq<Register>, prefix: string,
                           suffixes: seq<nat>, kind: Kind, numBits: nat)
    requires Allocated(before, after, prefix, suffixes, kind, numBits)
    ensures |after| == |before| + |suffixes|
    ensures after[..|before|] == before
    ensures forall i :: |before| <= i < |after| ==>
      after[i].kind == kind && after[i].width == numBits
      && after[i].name == RegName(prefix, suffixes[i - |before|])
    ensures forall i, j :: 0 <= i < j < |suffixes| ==> suffixes[i] < suffixes[j]
    ensures NamesDistinct(after[|before|..])
    ensures forall i :: |before| <= i < |after| ==> after[i].name !in NamesOf(before)
  {
    var regs := RegistersFor(prefix, suffixes, kind, numBits);
    assert after[|before|..] == regs;
    OffsetsGrowIncreasing(suffixes);
    AllocatedNamesDistinct(prefix, suffixes, kind, numBits);
    AllocatedNamesFresh(NamesOf(before), prefix, suffixes, kind, numBits);
    forall i | |before| <= i < |after|
      ensures after[i].name !in NamesOf(before)
    {
      assert after[i] == regs[i - |before|];
    }
  }

  /** Every register allocated under `prefix` is named `prefix + str(k)` for some k. */
  lemma RegistersNamed(prefix: string, suffixes: seq<nat>, kind: Kind, numBits: nat)
    ensures forall t :: 0 <= t < |suffixes| ==> IsRegName(prefix, RegistersFor(prefix, suffixes, kind, numBits)[t].name)
  {
    forall t | 0 <= t < |suffixes|
      ensures IsRegName(prefix, RegistersFor(prefix, suffixes, kind, numBits)[t].name)
    {
      IsRegNameOf(prefix, RegName(prefix, suffixes[t]), suffixes[t]);
    }
  }

  /** What a component needs to know of one allocator call: it added `added` and
      returned `lists`. Ancilla and classical allocation below one bit adds nothing and
      returns `numRegs` empty lists; otherwise `numRegs` registers of the kind and width,
      each named `prefix + str(k)` for some k, were added, and `lists` holds their bits. */
  ghost predicate Made(added: seq<Register>, lists: seq<seq<Wire>>, numRegs: nat, numBits: int, kind: Kind, prefix: string)
  {
    && |lists| == numRegs
    && if numBits < 1 && kind != Quantum then
         added == [] && forall i :: 0 <= i < numRegs ==> lists[i] == []
       else
         && |added| == numRegs
         && lists == BitLists(added)
         && forall i :: 0 <= i < numRegs ==>
              added[i].kind == kind && added[i].width == numBits && IsRegName(prefix, added[i].name)
  }

  /** `_makeQregsCircuit` / `_makeQregsDag`. */
  method MakeQregs(p: Program, numRegs: nat, numBits: nat, prefix: string)
    returns (qregs: seq<seq<Wire>>, ghost added: seq<Register>, ghost suffixes: seq<nat>)
    requires p.Valid()
    modifies p
    ensures p.Valid()
    ensures p.registers == old(p.registers) + added
    ensures Allocated(old(p.registers), p.registers, prefix, suffixes, Quantum, numBits)
    ensures Made(added, qregs, numRegs, numBits, Quantum, prefix)
    ensures p.instructions == old(p.instructions)
  {
    var regs;
    regs, suffixes := MakeRegisters(p, numRegs, numBits, prefix, Quantum);
    added := regs;
    RegistersNamed(prefix, suffixes, Quantum, numBits);
    qregs := BitLists(regs);
  }

  /** `_makeAncillasCircuit` / `_makeAncillasDag`: below one bit, `numRegs` empty lists
      and no register. */
  method MakeAncillas(p: Program, numRegs: nat, numBits: int, prefix: string)
    returns (ancillas: seq<seq<Wire>>, ghost added: seq<Register>, ghost suffixes: seq<nat>)
    requires p.Valid()
    modifies p
    ensures p.Valid()
    ensures p.registers == old(p.registers) + added
    ensures numBits >= 1 ==> Allocated(old(p.registers), p.registers, prefix, suffixes, Ancilla, numBits)
    ensures Made(added, ancillas, numRegs, numBits, Ancilla, prefix)
    ensures p.instructions == old(p.instructions)
  {
    ancillas, added, suffixes := MakeOptional(p, numRegs, numBits, prefix, Ancilla);
  }

  /** `_makeCregsCircuit` / `_makeCregsDag`: below one bit, `numRegs` empty lists and no
      register. */
  method MakeCregs(p: Program, numRegs: nat, numBits: int, prefix: string)
    returns (cregs: seq<seq<Wire>>, ghost added: seq<Register>, ghost suffixes: seq<nat>)
    requires p.Valid()
    modifies p
    ensures p.Valid()
    ensures p.registers == old(p.registers) + added
    ensures numBits >= 1 ==> Allocated(old(p.registers), p.registers, prefix, suffixes, Classical, numBits)
    ensures Made(added, cregs, numRegs, numBits, Classical, prefix)
    ensures p.instructions == old(p.instructions)
  {
    cregs, added, suffixes := MakeOptional(p, numRegs, numBits, prefix, Classical);
  }

  /** The shared shape of the ancilla and classical allocators. */
  method MakeOptional(p: Program, numRegs: nat, numBits: int, prefix: string, kind: Kind)
    returns (lists: seq<seq<Wire>>, ghost added: seq<Register>, ghost suffixes: seq<nat>)
    requires p.Valid() && kind != Quantum
    modifies p
    ensures p.Valid()
    ensures p.registers == old(p.registers) + added
    ensures numBits >= 1 ==> Allocated(old(p.registers), p.registers, prefix, suffixes, kind, numBits)
    ensures Made(added, lists, numRegs, numBits, kind, prefix)
    ensures p.instructions == old(p.instructions)
  {
    if numBits < 1 {
      lists, added, suffixes := seq(numRegs, _ => []), [], [];
      return;
    }
    var regs;
    regs, suffixes := MakeRegisters(p, numRegs, numBits, prefix, kind);
    added := regs;
    RegistersNamed(prefix, suffixes, kind, numBits);
    lists := BitLists(regs);
  }

  /** The components' `if lists == None: lists = _make...(...)`: the lists given, or
      freshly allocated ones. */
  method OrAllocate(p: Program, given: Option<seq<seq<Wire>>>, numRegs: nat, numBits: int, prefix: string, kind: Kind)
    returns (lists: seq<seq<Wire>>, ghost added: seq<Register>)
    requires p.Valid() && kind != Quantum
    modifies p
    ensures p.Valid()
    ensures p.registers == old(p.registers) + added
    ensures given.Some? ==> lists == given.value && added == []
    ensures given.None? ==> Made(added, lists, numRegs, numBits, kind, prefix)
    ensures p.instructions == old(p.instructions)
  {
    if given.Some? {
      lists, added := given.value, [];
      return;
    }
    ghost var suffixes;
    lists, added, suffixes := MakeOptional(p, numRegs, numBits, prefix, kind);
  }
}
