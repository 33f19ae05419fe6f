# Crash round engine in Dafny

This project models the round engine of a browser "crash" wagering game and proves properties of it. Each round works like this:

1. The player places a main bet and, optionally, a side bet on the round's crash point.
2. A multiplier grows from 1x until it reaches a crash point that is fixed before the round starts.
3. The player may cash out at the current multiplier before the crash.
4. When the round ends, the side bet and a shared jackpot are settled.

The crash point is *provably fair*:

- Before the round, the engine publishes a commitment to a secret server seed, the string `hash(<hex>)`.
- After the round, it reveals the seed.
- Anyone can then recompute the commitment and the crash point from the revealed seed, the client seed and the round nonce.

The modules follow the program's files:

| module | file | form |
|---|---|---|
| `Types` | `types.ts` | datatypes for phases, side-bet options, round state, history entries and trajectory points |
| `Constants` | `constants.ts` | the configuration, and the side-bet table as functions |
| `NumberText` | (JavaScript built-ins) | `Number.prototype.toString(16)` and decimal formatting, each with a parser so round trips can be stated |
| `ProvablyFair` | `lib/provablyFair.ts` | the 32-bit string hash, the seed commitment, seed-to-uniform reduction and the crash-point formula; the two hashing loops are methods with loop invariants proved against a recursive specification function |
| `GameLogic` | `hooks/useGameLogic.ts` | the hook, as a class `Game` whose fields are the hook's state and refs |
| `Controls` | `components/Controls.tsx` | the control panel's decisions as values: bet clamp and parsing, button enablement, keyboard dispatch, side-bet toggle |

### The `Game` class

Each timer callback and each user action in the hook is a method:

| method | stands for |
|---|---|
| `StartGame`, `CashOut`, `SetBetAmount`, `SetSideBet` | the callbacks the hook exports |
| `BeginRunning` | the bet-phase timer |
| `Tick` | one interval tick of the growth loop |
| `CrashEffect` | the effect that ends a crashed round |
| `EndRound` | settlement |
| `SetupNewRound` | the summary timer |

The class invariant `Valid` holds between all events. It states:

- The console holds at most 101 lines and the history at most 15 rounds.
- The published `ProvablyFairData` commits to the secret server seed and hides it until the round has ended.
- While a crash point exists, it is the one derived from the committed seeds and the current nonce.
- The round state is consistent:
  - the multiplier is at least 1, and in RUNNING and ENDED at most the crash point;
  - a crashed round sits exactly at its crash point;
  - `cashedOut` holds exactly when there is a payout;
  - the jackpot-eligibility flag equals the cash-out flag.

The commitment chain is proved through `SetupNewRound` and `EndRound`. Once `EndRound` has run, the revealed data `Verifies`:

- the commitment opens to the revealed seed;
- recomputing the crash point yields the one the round used.

Console lines are modelled as `Message` tokens, one per kind of line the hook writes, carrying the values the line formats. The console contents are stated exactly, one event at a time: each event's new console is `Newest(previous console + the lines that event logs)`, the last 101 entries of that sequence (see `BetLogIsNewest`, `TickLogIsNewest` and `SettlementLogIsNewest`).

## Model

| member | source | states |
|---|---|---|
| `Constants.NoSideBetIsInert` | constants.ts:18 | the NONE option stakes nothing, pays nothing and its condition never holds |
| `Constants.RealSideBetsCostAFifth` | constants.ts:19-21 | every real side bet stakes 20% of the main bet and pays more than 1x |
| `Constants.SideBetBoundaries` | constants.ts:19-21 | the 3-5x band includes both ends; `< 2x` excludes 2; `> 10x` excludes 10 |
| `Constants.SideBetConditionsExclusive` | constants.ts:18-21 | no crash point satisfies two different side-bet conditions |
| `Constants.SideBets` | constants.ts:17-22 | the side-bet table's label, stake fraction and payout per option (a definition; its properties are the `Constants` lemmas) |
| `Constants.SideBetCondition` | constants.ts:18-21 | the table's win condition per option, evaluated on the crash point (a definition; see `SideBetBoundaries`, `SideBetConditionsExclusive`) |
| `NumberText.Hex` | lib/provablyFair.ts:11 | `x.toString(16)`: a minus sign for negatives, then the lower-case hex magnitude (a definition; see `HexRoundTrip`, `HexInjective`) |
| `NumberText.Decimal` | lib/provablyFair.ts:24 | a non-negative integer inside a template string (a definition; see `DigitsRoundTrip`, `Controls.ParseIntRoundTrip`) |
| `ProvablyFair.ShiftLeft5` | lib/provablyFair.ts:8 | `h << 5` on the 32-bit value of `h`, truncated to 32 bits (a definition; see `ShiftStepAgrees`) |
| `ProvablyFair.HashStep` | lib/provablyFair.ts:28 | one step of the hash, `31 * h + code` truncated to 32 bits (a definition; see `HashStepInjective`, `HashStepDistinct`) |
| `ProvablyFair.SeedMaterial` | lib/provablyFair.ts:24 | the combined text `server-client-nonce-round-cursor` (a definition; used by `GenerateNumberFromSeeds`) |
| `ProvablyFair.Uniform` | lib/provablyFair.ts:30 | `Math.abs(hash) / 2147483647` (a definition; see `UniformRange`) |
| `ProvablyFair.GetCrashPoint` | lib/provablyFair.ts:33-42 | the skewed value fed through the crash-point formula (a definition; see `CrashPointFromBiased` and its lemmas) |
| `NumberText.Digits` | lib/provablyFair.ts:11 | the digit string of a number is never empty |
| `NumberText.DigitsAreDigits` | lib/provablyFair.ts:11 | every character written is a digit of the base |
| `NumberText.DigitsRoundTrip` | lib/provablyFair.ts:11 | parsing the digits of `n` in base 10 or 16 gives back `n` |
| `NumberText.HexRoundTrip` | lib/provablyFair.ts:11 | parsing `x.toString(16)` gives back `x`, negative values included |
| `NumberText.HexInjective` | lib/provablyFair.ts:11 | two integers print the same in hex if and only if they are equal |
| `ProvablyFair.ToInt32` | lib/provablyFair.ts:9 | the truncation `x OR 0` is a signed 32-bit value congruent to `x` modulo 2^32, and is `x` itself when `x` already fits |
| `ProvablyFair.ToInt32Congruent` | lib/provablyFair.ts:28 | values that differ by a multiple of 2^32 truncate to the same 32-bit value |
| `ProvablyFair.ToInt32Collision` | lib/provablyFair.ts:28 | two values truncate to the same 32-bit value only if they differ by a multiple of 2^32 (the witness is returned) |
| `ProvablyFair.StringHash` | lib/provablyFair.ts:26-29 | the hash of any string is a signed 32-bit integer |
| `ProvablyFair.ShiftStepAgrees` | lib/provablyFair.ts:8-9 | the shift form `(h << 5) - h + c` and the multiply form `h * 31 + c`, each truncated to 32 bits, agree |
| `ProvablyFair.SimpleHash` | lib/provablyFair.ts:4-12 | the loop returns the hex text of the string's 31-polynomial hash taken modulo 2^32 |
| `ProvablyFair.GenerateSeedHash` | lib/provablyFair.ts:18-20 | the result is the commitment `hash(<hex>)` of the seed |
| `ProvablyFair.CommitmentOpens` | lib/provablyFair.ts:18-20 | reading the hex back out of a commitment yields the seed's hash |
| `ProvablyFair.CommitmentMatchesHash` | lib/provablyFair.ts:18-20 | two seeds have the same commitment if and only if they have the same 32-bit hash |
| `ProvablyFair.HashStepInjective` | lib/provablyFair.ts:28 | for a fixed next character, one hash step is injective on 32-bit states |
| `ProvablyFair.HashStepDistinct` | lib/provablyFair.ts:28 | from one state, two different characters lead to different states |
| `ProvablyFair.SubstitutionChangesHash` | lib/provablyFair.ts:26-29 | replacing one character of a string by a different one always changes the hash |
| `ProvablyFair.SingleEditChangesCommitment` | lib/provablyFair.ts:18-20 | a seed edited in one position never carries the original commitment |
| `ProvablyFair.TwoEditsCanCollide` | lib/provablyFair.ts:4-12 | two different seeds ("Aa" and "BB") share a commitment |
| `ProvablyFair.UniformRange` | lib/provablyFair.ts:30 | the reduced value lies in [0, 2^31/(2^31-1)]; it is exactly 1 only for the hashes ±(2^31-1) and exceeds 1 only for -2^31 |
| `ProvablyFair.GenerateNumberFromSeeds` | lib/provablyFair.ts:23-31 | the loop returns the uniform reduction of the hash of `server-client-nonce-round-cursor` |
| `ProvablyFair.CrashPointFromBiased` | lib/provablyFair.ts:39-41 | the crash point is at least 1.01; it is 10000 at a biased value of exactly 1, 1.01 above 1, and otherwise a whole number of hundredths |
| `ProvablyFair.CrashPointFloorsRaw` | lib/provablyFair.ts:40-41 | below 1 the crash point is the house-edge multiplier floored to hundredths, or 1.01 when that is lower |
| `ProvablyFair.RawMultiplierMonotone` | lib/provablyFair.ts:40 | the raw multiplier grows with the biased value |
| `ProvablyFair.CrashPointMonotone` | lib/provablyFair.ts:39-41 | the crash point grows with the biased value below 1 |
| `ProvablyFair.CrashPointExample` | lib/provablyFair.ts:40-41 | a biased value of 0.5 gives 1.96 |
| `ProvablyFair.CrashPointNotCapped` | lib/provablyFair.ts:39-41 | a biased value close to 1 gives a crash point above the 10000 cap |
| `ProvablyFair.CalculateCrashPoint` | lib/provablyFair.ts:44-47 | the result is the crash point of round 0, cursor 1 for the seeds and nonce, and at least 1.01 |
| `GameLogic.AppendBounded` | hooks/useGameLogic.ts:52 | appending to the console keeps at most 101 lines |
| `GameLogic.AppendBoundedKeepsNewest` | hooks/useGameLogic.ts:52 | the bounded append is the last 101 entries of the full log |
| `GameLogic.NewestSnoc` | hooks/useGameLogic.ts:52 | bounded-appending to a window is the window of the longer log |
| `GameLogic.LogIfStep` | hooks/useGameLogic.ts:52 | a conditional log line extends the window of the full log by that optional line |
| `GameLogic.NewestOfShort` | hooks/useGameLogic.ts:52 | a log of at most 101 lines is its own window |
| `GameLogic.PrependBounded` | hooks/useGameLogic.ts:132 | the new history starts with the new entry and holds at most 15 |
| `GameLogic.PrependKeepsRecentWindow` | hooks/useGameLogic.ts:132 | if the history lists the newest completed rounds newest first, it still does after a round is added |
| `GameLogic.TotalCost` | hooks/useGameLogic.ts:149-151 | the main bet plus the side-bet stake, as both the engine and the panel compute it (a definition; see `TotalCostByOption`, `Controls.PlaceBetMatchesEngine`) |
| `GameLogic.SideBetCredit` | hooks/useGameLogic.ts:94-104 | the side-bet prize when a real side bet's condition holds, else nothing (a definition; see `LostSideBetCreditsNothing`) |
| `GameLogic.SettlementTotal` | hooks/useGameLogic.ts:91-116 | payout, side-bet credit and jackpot added up (a definition; see `SettlementNonNegative`, `Game.Settle`) |
| `GameLogic.TotalCostByOption` | hooks/useGameLogic.ts:149-151 | a bet costs the bet alone without a side bet, and 1.2 times the bet with one |
| `GameLogic.LostSideBetCreditsNothing` | hooks/useGameLogic.ts:94-104 | a side bet whose condition fails credits nothing |
| `GameLogic.SettlementNonNegative` | hooks/useGameLogic.ts:91-116 | with non-negative payout, bet and pool, the settlement total is non-negative |
| `GameLogic.UnderTwoExample` | hooks/useGameLogic.ts:94-99 | an under-2x side bet of 20% on 100 credits, crash at 1.8, credits 50 |
| `GameLogic.JackpotExample` | hooks/useGameLogic.ts:107-111 | a 3x cash-out of 10 credits with eligibility and a crash at 150 settles 30 + 1000; the threshold is strict and eligibility is required |
| `GameLogic.BetLogIsNewest` | hooks/useGameLogic.ts:161-164 | the bet lines extend the console as the window of the full log |
| `GameLogic.NewMilestonesAreFresh` | hooks/useGameLogic.ts:196-207 | a tick logs exactly the reached milestone levels not yet hit, each once and in increasing order |
| `GameLogic.MilestonesLoggedOnce` | hooks/useGameLogic.ts:196-207 | over any sequence of ticks of a round, each of 2, 5 and 10 is logged at most once, and none already hit |
| `GameLogic.TickMilestones` | hooks/useGameLogic.ts:196-207 | the three checks in sequence add exactly the reached levels to the hit set, and log the new ones in order |
| `GameLogic.TickLogIsNewest` | hooks/useGameLogic.ts:196-218 | a tick's console is the window of the log extended by its milestone and crash lines |
| `GameLogic.SettlementLogIsNewest` | hooks/useGameLogic.ts:94-116 | settlement's console is the window of the log extended by its side-bet, jackpot and payout lines |
| `GameLogic.NewRoundCommitted` | hooks/useGameLogic.ts:57-71 | publishing a fresh seed's hash with the seed hidden and the nonce incremented keeps the commitment relation |
| `GameLogic.RevealCommitted` | hooks/useGameLogic.ts:118-125 | revealing the secret seed of a running round keeps the commitment, and the revealed data verifies the crash point |
| `GameLogic.Game.constructor` | hooks/useGameLogic.ts:10-82 | fields start from the saved or default balance and jackpot, a bet of 10, no side bet, and the first round prepared with nonce 1; the crash point is 0 until a round starts |
| `GameLogic.Game.SetBetAmount` | hooks/useGameLogic.ts:14 | the bet is set as given and the invariant still holds |
| `GameLogic.Game.SetSideBet` | hooks/useGameLogic.ts:15 | the side bet is set as given, in any phase, and the invariant still holds |
| `GameLogic.Game.SetupNewRound` | hooks/useGameLogic.ts:55-77 | new seeds are committed with the nonce incremented; the phase, side bet, round state, trajectory, flags and milestone set are reset |
| `GameLogic.Game.CommitSeeds` | hooks/useGameLogic.ts:57-71 | the secrets become the new seeds and the published data commits to them |
| `GameLogic.Game.ResetRound` | hooks/useGameLogic.ts:61-76 | the per-round flags, milestones, side bet, round state and trajectory are reset in the lobby |
| `GameLogic.Game.StartGame` | hooks/useGameLogic.ts:148-165 | with too little balance only the refusal is logged; otherwise balance, jackpot, phase and console change as the source computes; a non-negative balance stays non-negative |
| `GameLogic.Game.EnterBetting` | hooks/useGameLogic.ts:160 | the phase becomes BETTING and the round state stays consistent |
| `GameLogic.Game.BeginRunning` | hooks/useGameLogic.ts:177-186 | the phase becomes RUNNING, the loop starts, and the crash point is the one derived from the committed seeds |
| `GameLogic.Game.CheckMilestone` | hooks/useGameLogic.ts:196-207 | one milestone check logs and records a level exactly when it is reached and not yet hit |
| `GameLogic.Game.Tick` | hooks/useGameLogic.ts:190-228 | a tick after the crash stops the loop; otherwise the multiplier advances, or the round crashes at the crash point; the trajectory, milestones and console are stated exactly; the multiplier never decreases when the supplied next value does not |
| `GameLogic.Game.Advance` | hooks/useGameLogic.ts:209-228 | the round-state update and trajectory sample of one tick |
| `GameLogic.Game.CashOut` | hooks/useGameLogic.ts:236-251 | outside RUNNING or after a cash-out nothing changes; otherwise eligibility is set, and the payout is recorded only if the round has not crashed; a second cash-out never takes effect |
| `GameLogic.Game.SettleSideBet` | hooks/useGameLogic.ts:94-104 | credits the side-bet prize when its condition holds, and logs a win or loss line for a real side bet |
| `GameLogic.Game.SettleJackpot` | hooks/useGameLogic.ts:107-111 | an eligible player in a round crashing above 100 is credited the pool, which is reset to 1000 |
| `GameLogic.Game.CreditPayout` | hooks/useGameLogic.ts:113-116 | a positive total is credited and logged, and a zero total is neither |
| `GameLogic.Game.Settle` | hooks/useGameLogic.ts:91-116 | the balance grows by the settlement total, the jackpot follows its rule, and the console is the settlement log |
| `GameLogic.Game.CloseRound` | hooks/useGameLogic.ts:85-132 | the round ends, the seed is revealed, the revealed data verifies, and the history gains the round's entry first |
| `GameLogic.Game.EndRound` | hooks/useGameLogic.ts:84-138 | the round is closed and settled against its crash point, cash-out payout, side bet and eligibility; a non-negative balance stays non-negative |
| `GameLogic.Game.CrashEffect` | hooks/useGameLogic.ts:141-146 | a crashed running round is ended exactly as `EndRound` ends it: balance, jackpot, revealed data (which verifies), history and console are stated; any other state is left unchanged |
| `Controls.IsBettingAllowed` | components/Controls.tsx:67 | LOBBY or BETTING (a definition; see `PanelsExclusive`) |
| `Controls.CanCashOut` | components/Controls.tsx:68 | RUNNING, not cashed out and not crashed (a definition; see `CashOutButtonMatchesEngine`) |
| `Controls.PlaceBetEnabled` | components/Controls.tsx:112 | the complement of the button's `disabled` test (a definition; see `PlaceBetMatchesEngine`) |
| `Controls.ParseInt` | components/Controls.tsx:75 | `parseInt(text, 10)` with NaN as `None` (a definition; see `ParseIntRoundTrip`, `ParseIntStopsAtPoint`, `ParseIntNaN`) |
| `Controls.PanelsExclusive` | components/Controls.tsx:67-68 | the bet panel shows exactly in LOBBY and BETTING, and the cash-out button is never enabled there |
| `Controls.CashOutButtonMatchesEngine` | components/Controls.tsx:68 | in a consistent engine state, the cash-out button is enabled if and only if the engine would pay out |
| `Controls.PlaceBetMatchesEngine` | components/Controls.tsx:112 | an enabled place-bet button means LOBBY and an accepted bet with a non-negative balance left; a disabled one in the lobby means the engine refuses |
| `Controls.ClampBet` | components/Controls.tsx:77 | the result is in [1, 10000], at most the floored balance when that is at least 1, exactly 1 below one credit or for inputs of at most 1, the smaller of 10000 and the floored balance for inputs at or above it, and the input itself when that is allowed |
| `Controls.ClampIdempotent` | components/Controls.tsx:77 | clamping twice against the same balance is the same as clamping once |
| `Controls.ClampBelowOneCredit` | components/Controls.tsx:77 | concrete clamps, including one where the minimum bet exceeds a balance of 0.5 |
| `Controls.DigitPrefixIsLongest` | components/Controls.tsx:75 | the digits `parseInt` reads are a prefix of digits that the next character cannot extend |
| `Controls.ParseIntRoundTrip` | components/Controls.tsx:75 | `parseInt` reads back any decimal integer, with or without a minus sign |
| `Controls.ParseIntStopsAtPoint` | components/Controls.tsx:75 | `parseInt("12.7")` is 12 |
| `Controls.ParseIntNaN` | components/Controls.tsx:75-76 | an empty text, a lone sign and a letter-first text read as NaN |
| `Controls.HandleBetChange` | components/Controls.tsx:74-81 | a number sets the clamped bet; an empty field sets 1; other text leaves the bet alone; any bet set is in [1, 10000] |
| `Controls.TypedAmountIsKept` | components/Controls.tsx:74-81 | typing an allowed amount sets exactly that amount |
| `Controls.KeyDispatch` | components/Controls.tsx:84-90 | Enter starts a round exactly in LOBBY; `c`, `C` and space request a cash-out in every phase |
| `Controls.KeysRespectEngineGuards` | components/Controls.tsx:85-88 | a key starts a round only where `StartGame` may run; a cash-out request that pays was one the button would have allowed |
| `Controls.SideBetButtons` | components/Controls.tsx:39 | NONE is not offered, and each option appears once |
| `Controls.SideBetButtonsOfferEveryBet` | components/Controls.tsx:39 | an option has a button if and only if it is not NONE |
| `Controls.SideBetClick` | components/Controls.tsx:45 | clicking the active option clears the choice, clicking another selects it (a definition; see `SideBetClickTwice`) |
| `Controls.SideBetClickTwice` | components/Controls.tsx:45 | two clicks on one button restore the earlier choice if and only if it was that option or NONE |
| `Controls.InputsDuringCountdown` | components/Controls.tsx:106-109 | the bet field is editable only in LOBBY, while the side-bet buttons stay live during BETTING |

## Behaviour worth knowing

The model follows the code in each case below.

- **No cap on the crash point.** The crash point is not capped at `growth.maxX` (constants.ts:9), although the name suggests a maximum. A biased value just below 1 yields a crash point above 10000 (`CrashPointNotCapped`). The cap applies only when the biased value is exactly 1.
- **The uniform value can exceed 1.** The seed reduction divides `Math.abs(hash)` by 2^31 - 1. For the hash -2^31 the result exceeds 1 (`UniformRange`). Once the skew keeps such a value above 1, as `Math.pow(u, 1/1.5)` does, the crash point is the 1.01 floor (`CrashPointFromBiased`); the model leaves the skew a parameter and does not capture that property of `Math.pow`.
- **Eligibility can follow a crash.** A cash-out after the crash tick, but before the end-of-round effect runs, still marks the player jackpot-eligible (`Game.CashOut`). The jackpot line at useGameLogic.ts:108, "You survived a … trace", suggests that eligibility was meant to need a cash-out before the crash.
- **The side bet can change during BETTING.** During the countdown, after the stake has been charged, `setSideBet` is unguarded and the side-bet buttons are still live (`Game.SetSideBet`, `Controls.InputsDuringCountdown`). Settlement uses the side bet current at the end of the round.
- **The bet can exceed the balance below one credit.** The clamp returns the minimum bet 1 when the balance is below 1 (`Controls.ClampBet`), although the `Math.floor(balance)` term of the clamp aims to keep the bet within the balance. `StartGame` then refuses such a bet.
- **`startGame` has no phase guard.** The engine's `startGame` does not check the phase itself. Its callers, the Enter key and the place-bet button, admit it only in LOBBY. `Game.StartGame` therefore requires LOBBY, and `Controls.KeysRespectEngineGuards` and `Controls.PlaceBetMatchesEngine` prove that the callers meet that requirement.
- **Seeds can collide.** The commitment is a 32-bit hash, so two different seeds can share one (`TwoEditsCanCollide`). A single-character edit never produces a collision (`SingleEditChangesCommitment`).

## Left out

- Console text: lines are `Message` tokens carrying their values. The timestamp prefix from `toLocaleTimeString` and `toFixed` formatting are not modelled.
- Character codes: `charCodeAt` is the code point of a Dafny `char`. This differs from the UTF-16 code unit for characters outside the Basic Multilingual Plane.
- Timers and scheduling:
  - `setTimeout`, `setInterval` and the React effect are event methods that the environment calls in the order the timers permit.
  - The countdown display (`countdown`, useGameLogic.ts:166-175) is not modelled, nor is the cleanup on unmount.
  - React's batching of state updates is not modelled: each event applies its updates in program order.
- Clock and growth:
  - `Date.now()` and `Math.exp(k * t)` are parameters. `Game.Tick` receives the elapsed time and the next multiplier, and requires the multiplier to be at least 1.
  - `Math.pow(u, 1 / distributionBias)` is the `skew` function, fixed per game. Its numeric behaviour is not modelled.
- Numbers:
  - Money and multipliers are exact `real`, not IEEE-754 doubles.
  - `Math.floor(x * 100) / 100` is exact flooring.
  - NaN and infinities do not arise.
- Randomness and storage:
  - `generateSeed` (`Math.random`) supplies the seeds as arguments to `SetupNewRound` and the constructor.
  - `localStorage` supplies the saved balance and jackpot as constructor arguments; writes back to it are not modelled.
- `parseInt` white space: `Controls.ParseInt` skips only the Basic Latin and Latin-1 white space and the byte-order mark. The other Unicode space separators are not skipped.
- `e.key.toLowerCase()`: only `"c"` and `"C"` are taken to lower-case to `"c"`.
- Rendering: class names, captions and layout of the panel are not modelled.
- `Game.Valid`, history: the invariant bounds the history but does not tie it to the full list of completed rounds. That relation is proved as a value-level lemma (`PrependKeepsRecentWindow`) rather than carried as class state.
- `Game.Valid`, milestones: the invariant does not state that the milestone set is empty outside a running round. `SetupNewRound` states the reset, and `MilestonesLoggedOnce` proves the once-per-round property over a sequence of ticks.
- Event structure: `SetupNewRound`, `StartGame`, `Tick` and `EndRound` are composed of smaller state-changing steps (`CommitSeeds`, `ResetRound`, `EnterBetting`, `CheckMilestone`, `Advance`, `CloseRound`, `Settle`). Each step's new state is stated.
