/**
 * Bitwise AND and OR on non-negative integers, as C's and Python's `&`
 * and `|` compute them, and the facts about single-bit capability flags
 * that the HAL headers and test façades rely on.
 */
module Bits {

  function Pow2(k: nat): (r: nat)
    ensures r >= 1
  {
    if k == 0 then 1 else 2 * Pow2(k - 1)
  }

  /** Bit `k` of `x`: the lowest bit of `x` shifted right by `k`. */
  function Bit(x: nat, k: nat): (b: nat)
    ensures b == 0 || b == 1
  {
    if k == 0 then x % 2 else Bit(x / 2, k - 1)
  }

  /** `a & b`. */
  function BitAnd(a: nat, b: nat): nat
  {
    if a == 0 || b == 0 then 0 else 2 * BitAnd(a / 2, b / 2) + (a % 2) * (b % 2)
  }

  /** `a | b`. */
  function BitOr(a: nat, b: nat): nat
  {
    if a == 0 then b else if b == 0 then a
    else 2 * BitOr(a / 2, b / 2) + (if a % 2 == 1 || b % 2 == 1 then 1 else 0)
  }

  /** `1 << k`. */
  function Shl1(k: nat): (r: nat)
    ensures r == Pow2(k)
  {
    if k == 0 then 1 else 2 * Shl1(k - 1)
  }

  /** The OR of a list of flag words. */
  function OrAll(fs: seq<nat>): nat
  {
    if fs == [] then 0 else BitOr(OrAll(fs[..|fs| - 1]), fs[|fs| - 1])
  }

  lemma {:induction false} BitZero(k: nat)
    ensures Bit(0, k) == 0
  {
    if k > 0 {
      BitZero(k - 1);
    }
  }

  /** A bit of `a & b` is set exactly when it is set in both. */
  lemma {:induction false} BitOfAnd(a: nat, b: nat, k: nat)
    ensures Bit(BitAnd(a, b), k) == Bit(a, k) * Bit(b, k)
    decreases k
  {
    if a == 0 || b == 0 {
      BitZero(k);
    } else if k == 0 {
    } else {
      var c := BitAnd(a / 2, b / 2);
      var d := (a % 2) * (b % 2);
      assert BitAnd(a, b) == 2 * c + d;
      assert (2 * c + d) / 2 == c;
      BitOfAnd(a / 2, b / 2, k - 1);
    }
  }

  /** A bit of `a | b` is set exactly when it is set in either. */
  lemma {:induction false} BitOfOr(a: nat, b: nat, k: nat)
    ensures Bit(BitOr(a, b), k) == 1 <==> Bit(a, k) == 1 || Bit(b, k) == 1
    decreases k
  {
    if a == 0 {
      BitZero(k);
    } else if b == 0 {
      BitZero(k);
    } else if k == 0 {
    } else {
      var c := BitOr(a / 2, b / 2);
      var d := if a % 2 == 1 || b % 2 == 1 then 1 else 0;
      assert BitOr(a, b) == 2 * c + d;
      assert (2 * c + d) / 2 == c;
      BitOfOr(a / 2, b / 2, k - 1);
    }
  }

  /** The only bit of `2^j` is bit `j`. */
  lemma {:induction false} BitOfPow2(j: nat, k: nat)
    ensures Bit(Pow2(j), k) == if j == k then 1 else 0
    decreases j
  {
    if j == 0 {
      if k > 0 {
        BitZero(k - 1);
      }
    } else if k == 0 {
      assert Pow2(j) == 2 * Pow2(j - 1);
    } else {
      assert Pow2(j) / 2 == Pow2(j - 1);
      BitOfPow2(j - 1, k - 1);
    }
  }

  /** Masking with a single bit leaves that bit and nothing else. */
  lemma {:induction false} AndPow2(x: nat, k: nat)
    ensures BitAnd(x, Pow2(k)) == Bit(x, k) * Pow2(k)
    ensures BitAnd(x, Pow2(k)) != 0 <==> Bit(x, k) == 1
    decreases k
  {
    if k == 0 {
      assert Pow2(0) == 1;
      if x != 0 {
        assert BitAnd(x, 1) == 2 * BitAnd(x / 2, 0) + (x % 2);
      }
    } else {
      assert Pow2(k) == 2 * Pow2(k - 1);
      if x == 0 {
        BitZero(k);
      } else {
        assert BitAnd(x, Pow2(k)) == 2 * BitAnd(x / 2, Pow2(k - 1));
        AndPow2(x / 2, k - 1);
        var b := Bit(x, k);
        assert b == Bit(x / 2, k - 1);
        assert 2 * (b * Pow2(k - 1)) == b * Pow2(k);
      }
    }
  }

  /** A number below `2^k` has bit `k` clear. */
  lemma {:induction false} BitAbove(x: nat, k: nat)
    requires x < Pow2(k)
    ensures Bit(x, k) == 0
    decreases k
  {
    if k == 0 {
    } else {
      assert x / 2 < Pow2(k - 1);
      BitAbove(x / 2, k - 1);
    }
  }

  /** A word whose only set bits are those at the listed exponents. */
  lemma {:induction false} BitOfOrAll(fs: seq<nat>, k: nat)
    ensures Bit(OrAll(fs), k) == 1 <==> exists i :: 0 <= i < |fs| && Bit(fs[i], k) == 1
    decreases |fs|
  {
    if fs == [] {
      BitZero(k);
    } else {
      var init := fs[..|fs| - 1];
      BitOfOrAll(init, k);
      BitOfOr(OrAll(init), fs[|fs| - 1], k);
      assert forall i :: 0 <= i < |init| ==> init[i] == fs[i];
    }
  }

  /** The flag values of an enumeration, given by their bit positions. */
  function Flags(exps: seq<nat>): (fs: seq<nat>)
    ensures |fs| == |exps| && forall i :: 0 <= i < |fs| ==> fs[i] == Pow2(exps[i])
  {
    if exps == [] then [] else Flags(exps[..|exps| - 1]) + [Pow2(exps[|exps| - 1])]
  }

  /** Distinct bit positions give pairwise disjoint flags. */
  lemma DisjointFlags(j: nat, k: nat)
    requires j != k
    ensures BitAnd(Pow2(j), Pow2(k)) == 0
  {
    AndPow2(Pow2(j), k);
    BitOfPow2(j, k);
  }

  /**
   * A capability word built as the OR of some single-bit flags has the
   * bit of a flag set exactly when that flag was among them.
   */
  lemma {:induction false} OrOfFlagsHas(chosen: seq<nat>, k: nat)
    ensures BitAnd(OrAll(Flags(chosen)), Pow2(k)) != 0 <==> k in chosen
  {
    var fs := Flags(chosen);
    AndPow2(OrAll(fs), k);
    BitOfOrAll(fs, k);
    forall i | 0 <= i < |fs|
      ensures Bit(fs[i], k) == 1 <==> chosen[i] == k
    {
      BitOfPow2(chosen[i], k);
    }
    if k in chosen {
      var i :| 0 <= i < |chosen| && chosen[i] == k;
      assert Bit(fs[i], k) == 1;
    }
  }

  /** The entries of `exps` picked out by the indices in `chosen`. */
  function Select(exps: seq<nat>, chosen: seq<nat>): (r: seq<nat>)
    requires forall i :: 0 <= i < |chosen| ==> chosen[i] < |exps|
    ensures |r| == |chosen| && forall i :: 0 <= i < |r| ==> r[i] == exps[chosen[i]]
  {
    seq(|chosen|, i requires 0 <= i < |chosen| => exps[chosen[i]])
  }

  /** The bit positions 0, 1, ..., n - 1. */
  function Positions(n: nat): (r: seq<nat>)
    ensures |r| == n && forall i :: 0 <= i < n ==> r[i] == i
  {
    seq(n, i => i)
  }

  /** No bit position is listed twice. */
  predicate DistinctBits(exps: seq<nat>)
  {
    forall i, j :: 0 <= i < j < |exps| ==> exps[i] != exps[j]
  }

  /** Flags at distinct positions are pairwise disjoint. */
  lemma DistinctFlagsDisjoint(exps: seq<nat>)
    requires DistinctBits(exps)
    ensures forall i, j :: 0 <= i < |exps| && 0 <= j < |exps| && i != j ==>
      BitAnd(Pow2(exps[i]), Pow2(exps[j])) == 0
  {
    forall i, j | 0 <= i < |exps| && 0 <= j < |exps| && i != j
      ensures BitAnd(Pow2(exps[i]), Pow2(exps[j])) == 0
    {
      DisjointFlags(exps[i], exps[j]);
    }
  }

  /**
   * A capability word made of some of an enumeration's flags, chosen by
   * index, tests positive for flag `k` exactly when `k` was chosen.
   */
  lemma FlagWordHas(exps: seq<nat>, chosen: seq<nat>, k: nat)
    requires DistinctBits(exps)
    requires forall i :: 0 <= i < |chosen| ==> chosen[i] < |exps|
    requires k < |exps|
    ensures BitAnd(OrAll(Flags(Select(exps, chosen))), Pow2(exps[k])) != 0 <==> k in chosen
  {
    var picked := Select(exps, chosen);
    OrOfFlagsHas(picked, exps[k]);
    if exps[k] in picked {
      var i :| 0 <= i < |picked| && picked[i] == exps[k];
      assert chosen[i] == k;
    }
    if k in chosen {
      var i :| 0 <= i < |chosen| && chosen[i] == k;
      assert picked[i] == exps[k];
    }
  }
}
