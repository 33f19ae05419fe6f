/** Game configuration and the side-bet / jackpot tables (constants.ts). */
module Constants {
  import opened Types

  const HouseEdge: real := 0.02
  /** The multiplier returned when the skewed uniform value is exactly 1. */
  const MaxX: real := 10000.0

  const JackpotContributionPercent: real := 0.01
  /** A round must crash strictly above this multiplier for an eligible player to win the jackpot. */
  const JackpotWinThreshold: real := 100.0
  const JackpotInitialAmount: real := 1000.0

  const MinBet: int := 1
  const MaxBet: int := 10000
  const HistoryLength: nat := 15
  const InitialBalance: real := 5000.0

  /** The static part of a side-bet row: its caption (the source's label), stake (as a fraction of the main bet) and payout factor. */
  datatype SideBetConfig = SideBetConfig(caption: string, wagerPercent: real, payout: real)

  function SideBets(option: SideBetOption): SideBetConfig
  {
    match option
    case NoSideBet => SideBetConfig("None", 0.0, 0.0)
    case Under2x => SideBetConfig("Crash < 2x", 0.2, 2.5)
    case Between3And5x => SideBetConfig("Crash 3-5x", 0.2, 3.5)
    case Above10x => SideBetConfig("Crash > 10x", 0.2, 5.0)
  }

  /** The `condition` column of the side-bet table, evaluated on the crash point. */
  predicate SideBetCondition(option: SideBetOption, m: real)
  {
    match option
    case NoSideBet => false
    case Under2x => m < 2.0
    case Between3And5x => 3.0 <= m <= 5.0
    case Above10x => m > 10.0
  }

  /** Choosing no side bet costs nothing and can never pay. */
  lemma NoSideBetIsInert(m: real)
    ensures SideBets(NoSideBet).wagerPercent == 0.0 && SideBets(NoSideBet).payout == 0.0
    ensures !SideBetCondition(NoSideBet, m)
  {
  }

  /** Every real side bet costs a fifth of the main bet and pays more than it costs. */
  lemma RealSideBetsCostAFifth(option: SideBetOption)
    requires option != NoSideBet
    ensures SideBets(option).wagerPercent == 0.2
    ensures SideBets(option).payout > 1.0
  {
  }

  /** The band bet includes both of its bounds; the high bet excludes 10 itself, the low bet excludes 2. */
  lemma SideBetBoundaries()
    ensures SideBetCondition(Between3And5x, 3.0) && SideBetCondition(Between3And5x, 5.0)
    ensures !SideBetCondition(Above10x, 10.0) && SideBetCondition(Above10x, 10.01)
    ensures !SideBetCondition(Under2x, 2.0) && SideBetCondition(Under2x, 1.99)
  {
  }

  /** No crash point satisfies two different side-bet conditions. */
  lemma SideBetConditionsExclusive(a: SideBetOption, b: SideBetOption, m: real)
    requires a != b
    ensures !(SideBetCondition(a, m) && SideBetCondition(b, m))
  {
  }
}
