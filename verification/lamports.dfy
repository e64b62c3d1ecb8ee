/** Conversion of a SOL amount to lamports, the integer base unit. */
module Lamports {

  /** Lamports per SOL (`LAMPORTS_PER_SOL`). */
  const LamportsPerSol: int := 1_000_000_000

  /** Integer rounding in BigNumber's ROUND_HALF_UP mode: to the nearest
      integer, with ties rounded away from zero. */
  function RoundHalfUp(x: real): (n: int)
    ensures x >= 0.0 ==> x - 0.5 < n as real <= x + 0.5
    ensures x < 0.0 ==> x - 0.5 <= n as real < x + 0.5
  {
    if x >= 0.0 then (x + 0.5).Floor else -((0.5 - x).Floor)
  }

  /** The two bounds above determine the rounded value: any integer meeting
      them is the one RoundHalfUp returns. */
  lemma RoundHalfUpUnique(x: real, m: int)
    requires x >= 0.0 ==> x - 0.5 < m as real <= x + 0.5
    requires x < 0.0 ==> x - 0.5 <= m as real < x + 0.5
    ensures m == RoundHalfUp(x)
  {
  }

  /** `toLamports`: the amount times 10^9, rounded half-up. */
  function ToLamports(amount: real): (lamports: int)
    ensures amount >= 0.0 ==> lamports >= 0
    ensures amount >= 0.0 ==> (lamports > 0 <==> amount * LamportsPerSol as real >= 0.5)
    ensures amount >= 0.0 ==>
              amount * LamportsPerSol as real - 0.5 < lamports as real <= amount * LamportsPerSol as real + 0.5
  {
    RoundHalfUp(amount * LamportsPerSol as real)
  }

  /** An amount with at most nine decimals converts exactly. */
  lemma ToLamportsExact(amount: real, k: int)
    requires amount * LamportsPerSol as real == k as real
    ensures ToLamports(amount) == k
  {
  }

  /** Converting is monotone in the amount. */
  lemma ToLamportsMonotone(a: real, b: real)
    requires 0.0 <= a <= b
    ensures ToLamports(a) <= ToLamports(b)
  {
  }

  /** 1.5 SOL is 1 500 000 000 lamports. */
  lemma OneAndAHalfSol()
    ensures ToLamports(1.5) == 1_500_000_000
  {
  }

  /** Positive amounts below half a lamport round to zero. */
  lemma BelowHalfLamport(amount: real)
    requires 0.0 < amount < 0.0000000005
    ensures ToLamports(amount) == 0
  {
  }
}
