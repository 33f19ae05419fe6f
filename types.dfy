/** The value types shared by the round engine and the controls (types.ts). */
module Types {

  datatype Option<T> = None | Some(value: T)

  /** Phase of a round; the single gate for which actions take effect. */
  datatype GamePhase = Lobby | Betting | Running | Ended

  /** The optional side bet a player may add to the main bet. */
  datatype SideBetOption = NoSideBet | Under2x | Between3And5x | Above10x

  /** Live state of the current round. `payout` is present once the player cashed out. */
  datatype RoundState = RoundState(multiplier: real, crashed: bool, cashedOut: bool, payout: Option<real>)

  /** Fairness material published for a round: the seed is empty until the round ends. */
  datatype ProvablyFairData = ProvablyFairData(serverSeed: string, serverSeedHash: string, clientSeed: string, nonce: nat)

  /** One completed round as shown in the history bar. */
  datatype HistoryEntry = HistoryEntry(id: string, crashMultiplier: real, provablyFairData: ProvablyFairData)

  /** One sample of the multiplier curve; `None` marks the terminal gap after the crash. */
  datatype GraphDataPoint = GraphDataPoint(time: real, multiplier: Option<real>)

  /** The round state every new round starts from. */
  const InitialRoundState := RoundState(1.0, false, false, None)

  function Min(a: int, b: int): int { if a <= b then a else b }

  function MaxReal(a: real, b: real): real { if a >= b then a else b }
}
