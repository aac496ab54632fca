/** Register names. The allocators build names as `prefix + str(k)`, so the model needs
    Python's `str` on non-negative integers (decimal, no leading zeros) and an inverse
    that shows two different suffixes never give the same name. */
module Names {

  /** The decimal digit character for 0 <= d < 10. */
  function DigitChar(d: nat): (c: char)
    requires d < 10
    ensures '0' <= c <= '9'
    ensures c as int - '0' as int == d
  {
    (d + '0' as int) as char
  }

  /** Python's `str(n)` for a non-negative integer: a non-empty string of decimal digits
      with no leading zero. */
  function NatToString(n: nat): (s: string)
    ensures 1 <= |s|
    ensures forall i :: 0 <= i < |s| ==> '0' <= s[i] <= '9'
    ensures s[0] == '0' ==> n == 0
  {
    if n < 10 then [DigitChar(n)] else NatToString(n / 10) + [DigitChar(n % 10)]
  }

  /** Reads a string of decimal digits back as a number (Python's `int(s)` on digit strings). */
  function StringToNat(s: string): (n: nat)
  {
    if |s| == 0 then 0
    else
      var d := s[|s| - 1] as int - '0' as int;
      StringToNat(s[..|s| - 1]) * 10 + (if 0 <= d < 10 then d else 0)
  }

  /** Decimal printing round-trips through parsing. */
  lemma {:induction false} StringToNatOfNatToString(n: nat)
    ensures StringToNat(NatToString(n)) == n
  {
    var s := NatToString(n);
    if n < 10 {
      assert s[..|s| - 1] == [];
    } else {
      StringToNatOfNatToString(n / 10);
      assert s[..|s| - 1] == NatToString(n / 10);
    }
  }

  /** `str` is injective on non-negative integers. */
  lemma NatToStringInjective(m: nat, n: nat)
    requires NatToString(m) == NatToString(n)
    ensures m == n
  {
    StringToNatOfNatToString(m);
    StringToNatOfNatToString(n);
  }

  /** The name `prefix + str(k)` a register allocator tries for suffix k. */
  function RegName(prefix: string, k: nat): (name: string)
    ensures |prefix| < |name| && name[..|prefix|] == prefix
    ensures forall i :: |prefix| <= i < |name| ==> '0' <= name[i] <= '9'
  {
    prefix + NatToString(k)
  }

  /** Reads back the suffix of a name that starts with `prefix`. */
  function SuffixOf(prefix: string, name: string): nat
    requires |prefix| <= |name|
  {
    StringToNat(name[|prefix|..])
  }

  /** `name` is `prefix + str(k)` for some k. */
  predicate IsRegName(prefix: string, name: string)
  {
    && |prefix| <= |name|
    && name[..|prefix|] == prefix
    && NatToString(SuffixOf(prefix, name)) == name[|prefix|..]
  }

  /** Names with one prefix are equal exactly when their suffixes are. */
  lemma RegNameInjective(prefix: string, m: nat, n: nat)
    ensures RegName(prefix, m) == RegName(prefix, n) <==> m == n
  {
    if RegName(prefix, m) == RegName(prefix, n) {
      assert RegName(prefix, m)[|prefix|..] == NatToString(m);
      assert RegName(prefix, n)[|prefix|..] == NatToString(n);
      NatToStringInjective(m, n);
    }
  }

  /** A name is `prefix + str(k)` exactly when it has the form and reads back as k. */
  lemma IsRegNameOf(prefix: string, name: string, k: nat)
    ensures name == RegName(prefix, k) <==> IsRegName(prefix, name) && SuffixOf(prefix, name) == k
  {
    if name == RegName(prefix, k) {
      assert name[..|prefix|] == prefix;
      assert name[|prefix|..] == NatToString(k);
      StringToNatOfNatToString(k);
    }
    if IsRegName(prefix, name) && SuffixOf(prefix, name) == k {
      assert name == name[..|prefix|] + name[|prefix|..];
    }
  }

  /** The suffixes k for which `prefix + str(k)` is among `names`: one per name of that
      form, so the set is finite and a scan for a free suffix stops. */
  ghost function TakenSuffixes(names: set<string>, prefix: string): set<nat>
    decreases names
  {
    if names == {} then {}
    else
      var s :| s in names;
      TakenSuffixes(names - {s}, prefix) + (if IsRegName(prefix, s) then {SuffixOf(prefix, s)} else {})
  }

  /** k is a taken suffix exactly when `prefix + str(k)` is among `names`. */
  lemma {:induction false} TakenSuffixesMember(names: set<string>, prefix: string, k: nat)
    ensures k in TakenSuffixes(names, prefix) <==> RegName(prefix, k) in names
    decreases names
  {
    if names != {} {
      var s :| s in names && TakenSuffixes(names, prefix)
        == TakenSuffixes(names - {s}, prefix) + (if IsRegName(prefix, s) then {SuffixOf(prefix, s)} else {});
      TakenSuffixesMember(names - {s}, prefix, k);
      IsRegNameOf(prefix, s, k);
    }
  }
}
