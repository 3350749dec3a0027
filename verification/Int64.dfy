/** Where Go's 64-bit arithmetic and the model's integers agree, and what happens where they do not. */
module Int64 {
  import opened Seqs
  import opened Types
  import opened Helpers
  import opened Rules

  const TWO_63: int := 0x8000_0000_0000_0000
  const TWO_62: int := 0x4000_0000_0000_0000

  predicate InRange(x: int) { -TWO_63 <= x < TWO_63 }

  /** The value a Go int64 holds after overflowing to x. */
  function Wrap(x: int): int { (x + TWO_63) % (2 * TWO_63) - TWO_63 }

  /** A Go loop `total += f(x)`: it wraps at every step. */
  function WrappedSum<T>(f: T -> int, s: seq<T>): int {
    if s == [] then 0 else Wrap(WrappedSum(f, s[..|s| - 1]) + f(s[|s| - 1]))
  }

  lemma WrapOnce(x: int, y: int)
    ensures Wrap(Wrap(x) + y) == Wrap(x + y)
  {
    var m := 2 * TWO_63;
    var q := (x + TWO_63) / m;
    assert Wrap(x) == x - m * q;
    ModShift(x + y + TWO_63, q);
  }

  lemma ModShift(a: int, q: int)
    ensures (a - 2 * TWO_63 * q) % (2 * TWO_63) == a % (2 * TWO_63)
  {
    var m := 2 * TWO_63;
    var d := a / m;
    assert a - m * q == m * (d - q) + a % m;
  }

  lemma {:induction false} WrappedSumWraps<T>(f: T -> int, s: seq<T>)
    ensures WrappedSum(f, s) == Wrap(SumI(f, s))
  {
    if s != [] {
      var init, x := s[..|s| - 1], f(s[|s| - 1]);
      WrappedSumWraps(f, init);
      hide Wrap;
      WrapOnce(SumI(f, init), x);
    }
  }

  /** A summing loop, such as Evaluate's over the retained bytes, is exact if and only if the true total fits:
      intermediate overflow does not matter. */
  lemma SumIsExactIff<T>(f: T -> int, s: seq<T>)
    ensures WrappedSum(f, s) == SumI(f, s) <==> InRange(SumI(f, s))
  {
    WrappedSumWraps(f, s);
  }

  /** R3's proposal as Go computes it. */
  function MachineProposal(cfg: R3Config, t: Topic): int {
    MaxI(cfg.minFloorMs, Wrap(2 * t.maxConsumerLagMs))
  }

  /** R3 promises at least twice the lag. In 64 bits it keeps the promise exactly for lags below 2^62 ms;
      from there doubling overflows, and the proposal can be shorter than the consumers' lag. */
  lemma MachineProposalIsSafeIff(cfg: R3Config, t: Topic)
    requires InRange(cfg.minFloorMs) && InRange(t.maxConsumerLagMs) && t.maxConsumerLagMs >= 0
    ensures MachineProposal(cfg, t) >= 2 * t.maxConsumerLagMs <==> t.maxConsumerLagMs < TWO_62
    ensures MachineProposal(cfg, t) == ProposedRetention(cfg, t) <==> t.maxConsumerLagMs < TWO_62
  {
  }

  /** The median of two middle sizes as Go computes it: their sum may wrap. */
  function MachineMidpoint(a: int, b: int): int { Half(Wrap(a + b)) }

  /** For sizes that are not negative the midpoint is exact exactly when the pair's sum fits; otherwise it
      comes out not positive, and R7 passes over the topic. */
  lemma MidpointIsExactIff(a: int, b: int)
    requires InRange(a) && InRange(b) && 0 <= a <= b
    ensures MachineMidpoint(a, b) == Half(a + b) <==> InRange(a + b)
    ensures !InRange(a + b) ==> MachineMidpoint(a, b) <= 0
  {
  }
}
