/** What the fault-tolerant encoder's instruction stream contains: how many values trigger
    a retry, what each retry consists of, how often each logical qubit is checked and
    re-encoded, and how long the stream is. */
module FtProperties {
  import opened Wrappers
  import opened Circuits
  import opened Splicing
  import opened FaultTolerantEncoders

  /** The number of occurrences of `x` in `s`. */
  ghost function Count(s: seq<Instruction>, x: Instruction): nat
  {
    if |s| == 0 then 0 else Count(s[..|s| - 1], x) + (if s[|s| - 1] == x then 1 else 0)
  }

  lemma {:induction false} CountConcat(a: seq<Instruction>, b: seq<Instruction>, x: Instruction)
    ensures Count(a + b, x) == Count(a, x) + Count(b, x)
  {
    if |b| > 0 {
      assert (a + b)[..|a + b| - 1] == a + b[..|b| - 1];
      CountConcat(a, b[..|b| - 1], x);
    } else {
      assert a + b == a;
    }
  }

  lemma CountOne(y: Instruction, x: Instruction)
    ensures Count([y], x) == if y == x then 1 else 0
  {
    assert [y][..0] == [];
  }

  lemma {:induction false} NotInCount(s: seq<Instruction>, x: Instruction)
    requires forall t :: 0 <= t < |s| ==> s[t] != x
    ensures Count(s, x) == 0
  {
    if |s| > 0 {
      NotInCount(s[..|s| - 1], x);
    }
  }

  /** Among `0 .. n-1`, an integer accepted value inside the range leaves `n - 1` rejected
      values, one outside it leaves all `n`, and a list leaves all `n`. */
  lemma {:induction false} RejectedBelowCount(a: Accepted, n: nat)
    ensures a.IntValue? && 0 <= a.v < n ==> RejectedBelow(a, n) == n - 1
    ensures a.IntValue? && !(0 <= a.v < n) ==> RejectedBelow(a, n) == n
    ensures a.ListValue? ==> RejectedBelow(a, n) == n
  {
    if n > 0 {
      RejectedBelowCount(a, n - 1);
    }
  }

  /** A guarded reset, and likewise a guarded re-encoding, of block `qb` appears in the
      retries for values below `n` exactly when its value is below `n` and rejected. */
  lemma {:induction false} RetriesMembers(f: FtEncoder, qb: seq<Wire>, cr1: seq<Wire>, cr2: seq<Wire>, n: nat, k: nat)
    ensures ResetIf(qb, cr2, k) in Retries(f, qb, cr1, cr2, n) <==> k < n && Rejects(f.correctVal, k)
    ensures EncodeIf(f, qb, cr1, cr2, k) in Retries(f, qb, cr1, cr2, n) <==> k < n && Rejects(f.correctVal, k)
  {
    if n > 0 {
      RetriesMembers(f, qb, cr1, cr2, n - 1, k);
    }
  }

  /** Every retry instruction acts on block `qb` under a guard `cr2 == k` for a rejected
      `k` below `n`, and every reset is followed at once by the re-encoding under the same
      guard. */
  lemma {:induction false} RetriesGuarded(f: FtEncoder, qb: seq<Wire>, cr1: seq<Wire>, cr2: seq<Wire>, n: nat)
    ensures forall t :: 0 <= t < |Retries(f, qb, cr1, cr2, n)| ==>
              var ins := Retries(f, qb, cr1, cr2, n)[t];
              && ins.qubits == qb
              && ins.cond.Some? && ins.cond.value.creg == cr2
              && ins.cond.value.value < n && Rejects(f.correctVal, ins.cond.value.value)
    ensures forall t :: 0 <= t < |Retries(f, qb, cr1, cr2, n)| && Retries(f, qb, cr1, cr2, n)[t].op == Reset ==>
              && t + 1 < |Retries(f, qb, cr1, cr2, n)|
              && Retries(f, qb, cr1, cr2, n)[t] == ResetIf(qb, cr2, Retries(f, qb, cr1, cr2, n)[t].cond.value.value)
              && Retries(f, qb, cr1, cr2, n)[t + 1] == EncodeIf(f, qb, cr1, cr2, Retries(f, qb, cr1, cr2, n)[t].cond.value.value)
  {
    if n > 0 {
      RetriesGuarded(f, qb, cr1, cr2, n - 1);
    }
  }

  /** An instruction without a guard never occurs among the retries. */
  lemma UnguardedNotRetried(f: FtEncoder, qb: seq<Wire>, cr1: seq<Wire>, cr2: seq<Wire>, n: nat, x: Instruction)
    requires x.cond.None?
    ensures Count(Retries(f, qb, cr1, cr2, n), x) == 0
  {
    RetriesGuarded(f, qb, cr1, cr2, n);
    NotInCount(Retries(f, qb, cr1, cr2, n), x);
  }

  /** The guarded reset of a block occurs at most once among the retries, and only for
      its own block, guard register and a rejected value below `n`. */
  lemma {:induction false} RetriesResetCount(f: FtEncoder, qb: seq<Wire>, cr1: seq<Wire>, cr2: seq<Wire>, n: nat,
                                             qb': seq<Wire>, cr2': seq<Wire>, k: nat)
    ensures Count(Retries(f, qb, cr1, cr2, n), ResetIf(qb', cr2', k))
         == if qb' == qb && cr2' == cr2 && k < n && Rejects(f.correctVal, k) then 1 else 0
  {
    if n == 0 {
      assert Retries(f, qb, cr1, cr2, n) == [];
    } else {
      RetriesResetCount(f, qb, cr1, cr2, n - 1, qb', cr2', k);
      var x := ResetIf(qb', cr2', k);
      var tail := if Rejects(f.correctVal, n - 1) then [ResetIf(qb, cr2, n - 1), EncodeIf(f, qb, cr1, cr2, n - 1)] else [];
      assert Retries(f, qb, cr1, cr2, n) == Retries(f, qb, cr1, cr2, n - 1) + tail;
      CountConcat(Retries(f, qb, cr1, cr2, n - 1), tail, x);
      RetryResetHere(f, qb, cr1, cr2, n - 1, qb', cr2', k);
    }
  }

  /** The retries for value `j` hold the guarded reset of `qb'` under `cr2' == k` once
      when it is theirs and `j` is rejected, and otherwise not at all. */
  lemma RetryResetHere(f: FtEncoder, qb: seq<Wire>, cr1: seq<Wire>, cr2: seq<Wire>, j: nat,
                       qb': seq<Wire>, cr2': seq<Wire>, k: nat)
    ensures Count(if Rejects(f.correctVal, j) then [ResetIf(qb, cr2, j), EncodeIf(f, qb, cr1, cr2, j)] else [],
                  ResetIf(qb', cr2', k))
         == if qb' == qb && cr2' == cr2 && k == j && Rejects(f.correctVal, j) then 1 else 0
  {
    var x := ResetIf(qb', cr2', k);
    if Rejects(f.correctVal, j) {
      CountConcat([ResetIf(qb, cr2, j)], [EncodeIf(f, qb, cr1, cr2, j)], x);
      assert [ResetIf(qb, cr2, j), EncodeIf(f, qb, cr1, cr2, j)] == [ResetIf(qb, cr2, j)] + [EncodeIf(f, qb, cr1, cr2, j)];
      CountOne(ResetIf(qb, cr2, j), x);
      CountOne(EncodeIf(f, qb, cr1, cr2, j), x);
    } else {
      assert Count([], x) == 0;
    }
  }

  /** The checker is spliced onto each logical qubit once per round. */
  lemma {:induction false} CheckRoundCheckerCount(f: FtEncoder, qbits1: seq<seq<Wire>>, qbits2: seq<seq<Wire>>,
                                                  cregs1: seq<seq<Wire>>, cregs2: seq<seq<Wire>>, n: nat, m: nat, j: nat)
    requires n <= |qbits1| && n <= |qbits2| && n <= |cregs1| && n <= |cregs2|
    requires forall a, b :: 0 <= a < b < n ==> qbits2[a] != qbits2[b]
    requires m <= n && j < n
    ensures Count(CheckRound(f, qbits1, qbits2, cregs1, cregs2, m), Splice(f.checker, qbits2[j], cregs2[j]))
         == if j < m then 1 else 0
  {
    if m > 0 {
      var x := Splice(f.checker, qbits2[j], cregs2[j]);
      CheckRoundCheckerCount(f, qbits1, qbits2, cregs1, cregs2, n, m - 1, j);
      UnguardedNotRetried(f, qbits1[m - 1], cregs1[m - 1], cregs2[m - 1], Syndromes(f), x);
      RoundStep(f, qbits1, qbits2, cregs1, cregs2, m, x);
    }
  }

  /** In a round, logical qubit j's data block is reset under `cregs2[j] == k` once when
      `k` is a rejected value the checker register can hold, and never otherwise. */
  lemma {:induction false} CheckRoundResetCount(f: FtEncoder, qbits1: seq<seq<Wire>>, qbits2: seq<seq<Wire>>,
                                                cregs1: seq<seq<Wire>>, cregs2: seq<seq<Wire>>, n: nat, m: nat, j: nat, k: nat)
    requires n <= |qbits1| && n <= |qbits2| && n <= |cregs1| && n <= |cregs2|
    requires forall a, b :: 0 <= a < b < n ==> qbits1[a] != qbits1[b]
    requires m <= n && j < n
    ensures Count(CheckRound(f, qbits1, qbits2, cregs1, cregs2, m), ResetIf(qbits1[j], cregs2[j], k))
         == if j < m && k < Syndromes(f) && Rejects(f.correctVal, k) then 1 else 0
  {
    if m > 0 {
      CheckRoundResetCount(f, qbits1, qbits2, cregs1, cregs2, n, m - 1, j, k);
      RetriesResetCount(f, qbits1[m - 1], cregs1[m - 1], cregs2[m - 1], Syndromes(f), qbits1[j], cregs2[j], k);
      RoundStep(f, qbits1, qbits2, cregs1, cregs2, m, ResetIf(qbits1[j], cregs2[j], k));
    }
  }

  /** One more logical qubit adds its check and its retries to a round's count. */
  lemma RoundStep(f: FtEncoder, qbits1: seq<seq<Wire>>, qbits2: seq<seq<Wire>>,
                  cregs1: seq<seq<Wire>>, cregs2: seq<seq<Wire>>, m: nat, x: Instruction)
    requires 0 < m <= |qbits1| && m <= |qbits2| && m <= |cregs1| && m <= |cregs2|
    ensures Count(CheckRound(f, qbits1, qbits2, cregs1, cregs2, m), x)
         == Count(CheckRound(f, qbits1, qbits2, cregs1, cregs2, m - 1), x)
            + Count([Splice(f.checker, qbits2[m - 1], cregs2[m - 1])], x)
            + Count(Retries(f, qbits1[m - 1], cregs1[m - 1], cregs2[m - 1], Syndromes(f)), x)
  {
    var a := CheckRound(f, qbits1, qbits2, cregs1, cregs2, m - 1);
    var b := [Splice(f.checker, qbits2[m - 1], cregs2[m - 1])];
    CountConcat(a, b, x);
    CountConcat(a + b, Retries(f, qbits1[m - 1], cregs1[m - 1], cregs2[m - 1], Syndromes(f)), x);
  }

  /** The count over the whole stream is the sum over its three parts. */
  lemma FtCountSplit(f: FtEncoder, qbits1: seq<seq<Wire>>, qbits2: seq<seq<Wire>>,
                     cregs1: seq<seq<Wire>>, cregs2: seq<seq<Wire>>, n: nat, x: Instruction)
    requires n <= |qbits1| && n <= |qbits2| && n <= |cregs1| && n <= |cregs2|
    ensures Count(FtInstructions(f, qbits1, qbits2, cregs1, cregs2, n), x)
         == Count(Splices(f.encoder.block, qbits1, cregs1, n), x)
            + Count(Rounds(f, qbits1, qbits2, cregs1, cregs2, n, Repeats(f)), x)
            + Count(Splices(f.checker, qbits2, cregs2, n), x)
  {
    var a := Splices(f.encoder.block, qbits1, cregs1, n);
    var b := Rounds(f, qbits1, qbits2, cregs1, cregs2, n, Repeats(f));
    CountConcat(a, b, x);
    CountConcat(a + b, Splices(f.checker, qbits2, cregs2, n), x);
  }

  /** Every round appends the same instructions, so `r` rounds hold `r` times as many of
      each. */
  lemma {:induction false} RoundsCount(f: FtEncoder, qbits1: seq<seq<Wire>>, qbits2: seq<seq<Wire>>,
                                       cregs1: seq<seq<Wire>>, cregs2: seq<seq<Wire>>, n: nat, r: nat, x: Instruction)
    requires n <= |qbits1| && n <= |qbits2| && n <= |cregs1| && n <= |cregs2|
    ensures Count(Rounds(f, qbits1, qbits2, cregs1, cregs2, n, r), x)
         == r * Count(CheckRound(f, qbits1, qbits2, cregs1, cregs2, n), x)
  {
    if r > 0 {
      RoundsCount(f, qbits1, qbits2, cregs1, cregs2, n, r - 1, x);
      CountConcat(Rounds(f, qbits1, qbits2, cregs1, cregs2, n, r - 1), CheckRound(f, qbits1, qbits2, cregs1, cregs2, n), x);
      var c := Count(CheckRound(f, qbits1, qbits2, cregs1, cregs2, n), x);
      assert (r - 1) * c + c == r * c;
    }
  }

  /** The unguarded splices of a block onto distinct wire lists hold each once. */
  lemma SplicesCount(block: SubProgram, qbits: seq<seq<Wire>>, clbits: seq<seq<Wire>>, n: nat, j: nat)
    requires n <= |qbits| && n <= |clbits|
    requires forall a, b :: 0 <= a < b < n ==> qbits[a] != qbits[b]
    requires j < n
    ensures Count(Splices(block, qbits, clbits, n), Splice(block, qbits[j], clbits[j])) == 1
  {
    var s := Splices(block, qbits, clbits, n);
    forall a, b | 0 <= a < b < |s|
      ensures s[a] != s[b]
    {
      assert s[a].qubits == qbits[a] && s[b].qubits == qbits[b];
    }
    CountDistinct(s, j);
  }

  /** An element of a sequence without repetitions occurs in it once. */
  lemma {:induction false} CountDistinct(s: seq<Instruction>, t: nat)
    requires forall a, b :: 0 <= a < b < |s| ==> s[a] != s[b]
    requires t < |s|
    ensures Count(s, s[t]) == 1
  {
    var front := s[..|s| - 1];
    if t == |s| - 1 {
      NotInCount(front, s[t]);
    } else {
      CountDistinct(front, t);
      assert front[t] == s[t];
    }
  }

  /** Splices of one block never hold a splice of another. */
  lemma SplicesOtherBlock(block: SubProgram, qbits: seq<seq<Wire>>, clbits: seq<seq<Wire>>, n: nat, x: Instruction)
    requires n <= |qbits| && n <= |clbits|
    requires x.op != Compose(block)
    ensures Count(Splices(block, qbits, clbits, n), x) == 0
  {
    NotInCount(Splices(block, qbits, clbits, n), x);
  }

  /** Each logical qubit is checked `numRepeats` times (once when `numRepeats` is below
      one): once per round and once at the end. The checker must differ from the encoding
      block, and the blocks the checker is spliced onto must differ. */
  lemma CheckerCount(f: FtEncoder, qbits1: seq<seq<Wire>>, qbits2: seq<seq<Wire>>,
                     cregs1: seq<seq<Wire>>, cregs2: seq<seq<Wire>>, n: nat, j: nat)
    requires n <= |qbits1| && n <= |qbits2| && n <= |cregs1| && n <= |cregs2|
    requires f.encoder.block != f.checker
    requires forall a, b :: 0 <= a < b < n ==> qbits2[a] != qbits2[b]
    requires j < n
    ensures Count(FtInstructions(f, qbits1, qbits2, cregs1, cregs2, n), Splice(f.checker, qbits2[j], cregs2[j]))
         == if f.numRepeats >= 1 then f.numRepeats else 1
  {
    var x := Splice(f.checker, qbits2[j], cregs2[j]);
    FtCountSplit(f, qbits1, qbits2, cregs1, cregs2, n, x);
    SplicesOtherBlock(f.encoder.block, qbits1, cregs1, n, x);
    RoundsCount(f, qbits1, qbits2, cregs1, cregs2, n, Repeats(f), x);
    CheckRoundCheckerCount(f, qbits1, qbits2, cregs1, cregs2, n, n, j);
    SplicesCount(f.checker, qbits2, cregs2, n, j);
  }

  /** Each logical qubit's data block is reset under `cregs2[j] == k` once per round for
      every rejected value `k` the checker register can hold, and never for any other. */
  lemma ResetCount(f: FtEncoder, qbits1: seq<seq<Wire>>, qbits2: seq<seq<Wire>>,
                   cregs1: seq<seq<Wire>>, cregs2: seq<seq<Wire>>, n: nat, j: nat, k: nat)
    requires n <= |qbits1| && n <= |qbits2| && n <= |cregs1| && n <= |cregs2|
    requires forall a, b :: 0 <= a < b < n ==> qbits1[a] != qbits1[b]
    requires j < n
    ensures Count(FtInstructions(f, qbits1, qbits2, cregs1, cregs2, n), ResetIf(qbits1[j], cregs2[j], k))
         == if k < Syndromes(f) && Rejects(f.correctVal, k) then Repeats(f) else 0
  {
    var x := ResetIf(qbits1[j], cregs2[j], k);
    FtCountSplit(f, qbits1, qbits2, cregs1, cregs2, n, x);
    SplicesOtherBlock(f.encoder.block, qbits1, cregs1, n, x);
    SplicesOtherBlock(f.checker, qbits2, cregs2, n, x);
    RoundsCount(f, qbits1, qbits2, cregs1, cregs2, n, Repeats(f), x);
    CheckRoundResetCount(f, qbits1, qbits2, cregs1, cregs2, n, n, j, k);
  }

  /** A round over m logical qubits appends a check and two instructions per rejected
      value for each. */
  lemma {:induction false} CheckRoundLength(f: FtEncoder, qbits1: seq<seq<Wire>>, qbits2: seq<seq<Wire>>,
                                            cregs1: seq<seq<Wire>>, cregs2: seq<seq<Wire>>, m: nat)
    requires m <= |qbits1| && m <= |qbits2| && m <= |cregs1| && m <= |cregs2|
    ensures |CheckRound(f, qbits1, qbits2, cregs1, cregs2, m)|
         == m * (1 + 2 * RejectedBelow(f.correctVal, Syndromes(f)))
  {
    if m > 0 {
      CheckRoundLength(f, qbits1, qbits2, cregs1, cregs2, m - 1);
      var c := 1 + 2 * RejectedBelow(f.correctVal, Syndromes(f));
      assert (m - 1) * c + c == m * c;
    }
  }

  /** `r` rounds are `r` times as long as one. */
  lemma {:induction false} RoundsLength(f: FtEncoder, qbits1: seq<seq<Wire>>, qbits2: seq<seq<Wire>>,
                                        cregs1: seq<seq<Wire>>, cregs2: seq<seq<Wire>>, n: nat, r: nat)
    requires n <= |qbits1| && n <= |qbits2| && n <= |cregs1| && n <= |cregs2|
    ensures |Rounds(f, qbits1, qbits2, cregs1, cregs2, n, r)| == r * |CheckRound(f, qbits1, qbits2, cregs1, cregs2, n)|
  {
    if r > 0 {
      RoundsLength(f, qbits1, qbits2, cregs1, cregs2, n, r - 1);
      var c := |CheckRound(f, qbits1, qbits2, cregs1, cregs2, n)|;
      assert (r - 1) * c + c == r * c;
    }
  }

  /** The whole stream: n encodings, `numRepeats - 1` rounds and n last checks. */
  lemma FtLength(f: FtEncoder, qbits1: seq<seq<Wire>>, qbits2: seq<seq<Wire>>,
                 cregs1: seq<seq<Wire>>, cregs2: seq<seq<Wire>>, n: nat)
    requires n <= |qbits1| && n <= |qbits2| && n <= |cregs1| && n <= |cregs2|
    ensures |FtInstructions(f, qbits1, qbits2, cregs1, cregs2, n)|
         == 2 * n + Repeats(f) * (n * (1 + 2 * RejectedBelow(f.correctVal, Syndromes(f))))
  {
    CheckRoundLength(f, qbits1, qbits2, cregs1, cregs2, n);
    RoundsLength(f, qbits1, qbits2, cregs1, cregs2, n, Repeats(f));
  }
}
