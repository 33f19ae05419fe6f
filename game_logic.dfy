/**
 * The round engine (hooks/useGameLogic.ts): wallet, jackpot pool, the phase
 * machine LOBBY -> BETTING -> RUNNING -> ENDED -> LOBBY, the multiplier tick,
 * cash-out, settlement, the bounded history and console feed, and the seed
 * commitment and reveal. Each callback is one atomic step; the timers that
 * fire the steps are the events the caller invokes.
 */
module GameLogic {
  import opened Types
  import opened Constants
  import opened NumberText
  import opened ProvablyFair

  /** Console entries, as tokens carrying the values the source formats into text. */
  datatype Message =
    | Initialized
    | PreparingRound
    | InsufficientFunds
    | BetPlaced(amount: real)
    | SideBetPlaced(cost: real, option: SideBetOption)
    | TraceInitiated
    | MilestoneReached(level: int)
    | SignalLost(crashPoint: real)
    | CashOutSucceeded(multiplier: real, payout: real)
    | SideBetWon(option: SideBetOption, amount: real)
    | SideBetLost(option: SideBetOption)
    | JackpotWon(crashPoint: real, amount: real)
    | TotalPayout(amount: real)

  /** The console keeps the previous 100 messages plus the new one. */
  const ConsoleCapacity: nat := 101

  /** `addConsoleMessage`: `[...prev.slice(-100), msg]`. */
  function AppendBounded(prev: seq<Message>, m: Message): (r: seq<Message>)
    ensures |r| == Min(|prev| + 1, ConsoleCapacity)
  {
    (if |prev| <= ConsoleCapacity - 1 then prev else prev[|prev| - (ConsoleCapacity - 1)..]) + [m]
  }

  /** `m` is logged when `c` holds. */
  function LogIf(c: bool, console: seq<Message>, m: Message): seq<Message>
  {
    if c then AppendBounded(console, m) else console
  }

  /** `[m]` when `c` holds, else nothing. */
  function Opt(c: bool, m: Message): seq<Message>
  {
    if c then [m] else []
  }

  /** The `ConsoleCapacity` most recent of `all`, oldest first. */
  function Newest(all: seq<Message>): seq<Message>
  {
    if |all| <= ConsoleCapacity then all else all[|all| - ConsoleCapacity..]
  }

  /** Appending to the console keeps exactly the newest 101 of everything logged, newest last. */
  lemma AppendBoundedKeepsNewest(prev: seq<Message>, m: Message)
    ensures AppendBounded(prev, m) == Newest(prev + [m])
  {
    var all := prev + [m];
    if |prev| > ConsoleCapacity - 1 {
      assert all[|all| - ConsoleCapacity..] == prev[|prev| - (ConsoleCapacity - 1)..] + [m];
    }
  }

  /** Appending to a console that shows the newest of `all` shows the newest of `all` and the new message. */
  lemma NewestSnoc(all: seq<Message>, m: Message)
    ensures AppendBounded(Newest(all), m) == Newest(all + [m])
  {
    if |all| >= ConsoleCapacity {
      var p := Newest(all);
      assert p[|p| - (ConsoleCapacity - 1)..] == all[|all| - (ConsoleCapacity - 1)..];
      assert (all + [m])[|all| + 1 - ConsoleCapacity..] == all[|all| - (ConsoleCapacity - 1)..] + [m];
    }
  }

  /** A console that shows the newest of `prev + ms` shows, after a conditional log, the newest of the longer list. */
  lemma LogIfStep(prev: seq<Message>, ms: seq<Message>, c: bool, m: Message)
    ensures LogIf(c, Newest(prev + ms), m) == Newest(prev + (ms + Opt(c, m)))
  {
    if c {
      NewestSnoc(prev + ms, m);
      assert prev + (ms + [m]) == (prev + ms) + [m];
    } else {
      assert ms + [] == ms;
    }
  }

  lemma NewestOfShort(all: seq<Message>)
    requires |all| <= ConsoleCapacity
    ensures Newest(all + []) == all
  {
    assert all + [] == all;
  }

  /** `[historyEntry, ...prev.slice(0, HISTORY_LENGTH - 1)]`. */
  function PrependBounded(e: HistoryEntry, prev: seq<HistoryEntry>): (r: seq<HistoryEntry>)
    ensures |r| == Min(|prev| + 1, HistoryLength)
    ensures r[0] == e
  {
    [e] + prev[..Min(|prev|, HistoryLength - 1)]
  }

  /** `view` shows the `HistoryLength` most recent of `rounds` (oldest first), newest first. */
  ghost predicate IsRecentWindow(view: seq<HistoryEntry>, rounds: seq<HistoryEntry>)
  {
    && |view| == Min(|rounds|, HistoryLength)
    && forall i :: 0 <= i < |view| ==> view[i] == rounds[|rounds| - 1 - i]
  }

  /** Prepending the newest round to the bar keeps it the window of the most recent rounds. */
  lemma PrependKeepsRecentWindow(e: HistoryEntry, view: seq<HistoryEntry>, rounds: seq<HistoryEntry>)
    requires IsRecentWindow(view, rounds)
    ensures IsRecentWindow(PrependBounded(e, view), rounds + [e])
  {
    var r, all := PrependBounded(e, view), rounds + [e];
    forall i | 0 <= i < |r|
      ensures r[i] == all[|all| - 1 - i]
    {
      if i > 0 {
        assert r[i] == view[i - 1];
      }
    }
  }

  /** The side-bet stake, `betAmount * wagerPercent`. */
  function SideBetStake(bet: real, option: SideBetOption): real
  {
    bet * SideBets(option).wagerPercent
  }

  /** What a winning side bet pays, `sideBetWager * payout`. */
  function SideBetPrize(bet: real, option: SideBetOption): real
  {
    SideBetStake(bet, option) * SideBets(option).payout
  }

  /** Main bet plus side-bet stake, debited at `startGame` and shown by the controls. */
  function TotalCost(bet: real, option: SideBetOption): real
  {
    bet + SideBetStake(bet, option)
  }

  /** The cash-out payout, `betAmount * multiplier`. */
  function CashOutPayout(bet: real, multiplier: real): real
  {
    bet * multiplier
  }

  /** What the side bet credits at settlement: nothing unless one was chosen and its condition holds. */
  function SideBetCredit(option: SideBetOption, bet: real, crash: real): real
  {
    if option != NoSideBet && SideBetCondition(option, crash) then SideBetPrize(bet, option) else 0.0
  }

  predicate WinsJackpot(eligible: bool, crash: real)
  {
    eligible && crash > JackpotWinThreshold
  }

  /** The total a round credits: cash-out payout, side-bet win and jackpot. */
  function SettlementTotal(payout: Option<real>, option: SideBetOption, bet: real, crash: real,
                           eligible: bool, jackpot: real): real
  {
    (if payout.Some? then payout.value else 0.0)
    + SideBetCredit(option, bet, crash)
    + (if WinsJackpot(eligible, crash) then jackpot else 0.0)
  }

  /** No side bet costs nothing; a real one costs a fifth of the bet, so the debit is 1.2 times the bet. */
  lemma TotalCostByOption(bet: real, option: SideBetOption)
    ensures TotalCost(bet, option) == (if option == NoSideBet then bet else bet * 1.2)
  {
  }

  /** A side bet on a crash point its condition rejects credits nothing: its stake is not refunded. */
  lemma LostSideBetCreditsNothing(option: SideBetOption, bet: real, crash: real)
    requires !SideBetCondition(option, crash)
    ensures SideBetCredit(option, bet, crash) == 0.0
  {
  }

  /** With non-negative parts the settlement never takes money away. */
  lemma SettlementNonNegative(payout: Option<real>, option: SideBetOption, bet: real, crash: real,
                              eligible: bool, jackpot: real)
    requires payout.Some? ==> payout.value >= 0.0
    requires bet >= 0.0 && jackpot >= 0.0
    ensures SettlementTotal(payout, option, bet, crash, eligible, jackpot) >= 0.0
  {
    var c := SideBets(option);
    assert c.wagerPercent >= 0.0 && c.payout >= 0.0;
    assert SideBetStake(bet, option) >= 0.0;
    assert SideBetPrize(bet, option) >= 0.0;
  }

  /** Bet 100 with a crash-under-2x side bet, no cash-out, crash at 1.8: the side bet credits 20 * 2.5 = 50. */
  lemma UnderTwoExample()
    ensures SettlementTotal(None, Under2x, 100.0, 1.8, false, 1000.0) == 50.0
  {
  }

  /** Cashed out at 3x on bet 10 in a round crashing at 150x, with pool 1000: credit 30 + 1000. */
  lemma JackpotExample()
    ensures SettlementTotal(Some(CashOutPayout(10.0, 3.0)), NoSideBet, 10.0, 150.0, true, 1000.0) == 1030.0
    ensures WinsJackpot(true, 150.0) && !WinsJackpot(true, 100.0) && !WinsJackpot(false, 150.0)
  {
  }

  /** Console lines of a successful bet placement. */
  function BetMessages(bet: real, option: SideBetOption): seq<Message>
  {
    [BetPlaced(bet)] + Opt(option != NoSideBet, SideBetPlaced(SideBetStake(bet, option), option))
  }

  /** The console after a successful bet placement. */
  function BetLog(console: seq<Message>, bet: real, option: SideBetOption): seq<Message>
  {
    LogIf(option != NoSideBet, AppendBounded(console, BetPlaced(bet)), SideBetPlaced(SideBetStake(bet, option), option))
  }

  lemma BetLogIsNewest(console: seq<Message>, bet: real, option: SideBetOption)
    requires |console| <= ConsoleCapacity
    ensures BetLog(console, bet, option) == Newest(console + BetMessages(bet, option))
  {
    NewestOfShort(console);
    LogIfStep(console, [], true, BetPlaced(bet));
    assert [] + Opt(true, BetPlaced(bet)) == [BetPlaced(bet)];
    LogIfStep(console, [BetPlaced(bet)], option != NoSideBet, SideBetPlaced(SideBetStake(bet, option), option));
  }

  /** The multiplier `next` has reached `level` and the level was not logged yet this round. */
  predicate MilestoneFresh(hit: set<int>, level: int, next: real)
  {
    next >= level as real && level !in hit
  }

  /** The levels hit after one milestone check. */
  function HitAfter(hit: set<int>, level: int, next: real): set<int>
  {
    if MilestoneFresh(hit, level, next) then hit + {level} else hit
  }

  /** The console after one milestone check. */
  function ConsoleAfter(hit: set<int>, console: seq<Message>, level: int, next: real): seq<Message>
  {
    LogIf(MilestoneFresh(hit, level, next), console, MilestoneReached(level))
  }

  /** Milestone levels a tick with value `next` logs, in order, given those already logged this round. */
  function NewMilestones(hit: set<int>, next: real): seq<int>
  {
    (if MilestoneFresh(hit, 2, next) then [2] else [])
    + (if MilestoneFresh(hit, 5, next) then [5] else [])
    + (if MilestoneFresh(hit, 10, next) then [10] else [])
  }

  /** The milestone levels a multiplier of `next` has reached. */
  function Reached(next: real): set<int>
  {
    (if next >= 2.0 then {2} else {}) + (if next >= 5.0 then {5} else {}) + (if next >= 10.0 then {10} else {})
  }

  /** A tick logs exactly the reached levels not logged before, each once, in increasing order. */
  lemma NewMilestonesAreFresh(hit: set<int>, next: real)
    ensures forall l :: l in NewMilestones(hit, next) <==> l in Reached(next) && l !in hit
    ensures forall i, j :: 0 <= i < j < |NewMilestones(hit, next)| ==>
      NewMilestones(hit, next)[i] < NewMilestones(hit, next)[j]
  {
  }

  /** The levels logged over successive ticks of one round with values `nexts`, starting from the levels in `hit`. */
  function MilestoneRun(hit: set<int>, nexts: seq<real>): seq<int>
    decreases |nexts|
  {
    if nexts == [] then [] else NewMilestones(hit, nexts[0]) + MilestoneRun(hit + Reached(nexts[0]), nexts[1..])
  }

  /** Over the ticks of a round each of the levels 2, 5 and 10 is logged at most once, and none already hit. */
  lemma {:induction false} MilestonesLoggedOnce(hit: set<int>, nexts: seq<real>)
    ensures forall l :: l in MilestoneRun(hit, nexts) ==> l !in hit && l in {2, 5, 10}
    ensures forall i, j :: 0 <= i < j < |MilestoneRun(hit, nexts)| ==>
      MilestoneRun(hit, nexts)[i] != MilestoneRun(hit, nexts)[j]
    decreases |nexts|
  {
    if nexts != [] {
      var later := hit + Reached(nexts[0]);
      var now, rest := NewMilestones(hit, nexts[0]), MilestoneRun(later, nexts[1..]);
      NewMilestonesAreFresh(hit, nexts[0]);
      MilestonesLoggedOnce(later, nexts[1..]);
      var run := now + rest;
      assert MilestoneRun(hit, nexts) == run;
      forall l | l in run
        ensures l !in hit && l in {2, 5, 10}
      {
        if l !in now {
          assert l in rest;
        }
      }
      forall i, j | 0 <= i < j < |run|
        ensures run[i] != run[j]
      {
        if j < |now| {
          assert run[i] == now[i] && run[j] == now[j];
        } else if i < |now| {
          assert run[i] == now[i] && now[i] in now && now[i] in later;
          assert run[j] == rest[j - |now|] && rest[j - |now|] in rest;
        } else {
          assert run[i] == rest[i - |now|] && run[j] == rest[j - |now|];
        }
      }
    }
  }

  /** The console after the milestone checks of one tick, each judged against the levels hit before the tick. */
  function MilestoneConsole(console: seq<Message>, hit: set<int>, next: real): seq<Message>
  {
    var c2 := LogIf(MilestoneFresh(hit, 2, next), console, MilestoneReached(2));
    var c5 := LogIf(MilestoneFresh(hit, 5, next), c2, MilestoneReached(5));
    LogIf(MilestoneFresh(hit, 10, next), c5, MilestoneReached(10))
  }

  /**
   * The three checks of a tick, run one after the other on the updated
   * levels, add the reached levels and judge each level as if against the
   * levels hit before the tick.
   */
  lemma TickMilestones(hit: set<int>, console: seq<Message>, next: real)
    ensures var h2 := HitAfter(hit, 2, next); var h5 := HitAfter(h2, 5, next);
      && HitAfter(h5, 10, next) == hit + Reached(next)
      && ConsoleAfter(h5, ConsoleAfter(h2, ConsoleAfter(hit, console, 2, next), 5, next), 10, next)
         == MilestoneConsole(console, hit, next)
  {
    var h2 := HitAfter(hit, 2, next);
    var h5 := HitAfter(h2, 5, next);
    assert MilestoneFresh(h2, 5, next) == MilestoneFresh(hit, 5, next);
    assert MilestoneFresh(h5, 10, next) == MilestoneFresh(hit, 10, next);
  }

  /** Console lines of one tick: milestones, then the crash. */
  function TickMessages(hit: set<int>, crashed: bool, next: real, crashPoint: real): seq<Message>
  {
    Opt(MilestoneFresh(hit, 2, next), MilestoneReached(2))
    + Opt(MilestoneFresh(hit, 5, next), MilestoneReached(5))
    + Opt(MilestoneFresh(hit, 10, next), MilestoneReached(10))
    + Opt(!crashed && next >= crashPoint, SignalLost(crashPoint))
  }

  /** The console after one tick. */
  function TickLog(console: seq<Message>, hit: set<int>, crashed: bool, next: real, crashPoint: real): seq<Message>
  {
    LogIf(!crashed && next >= crashPoint, MilestoneConsole(console, hit, next), SignalLost(crashPoint))
  }

  /** A tick's console shows the newest of everything logged before plus the tick's lines. */
  lemma TickLogIsNewest(console: seq<Message>, hit: set<int>, crashed: bool, next: real, crashPoint: real)
    requires |console| <= ConsoleCapacity
    ensures TickLog(console, hit, crashed, next, crashPoint) == Newest(console + TickMessages(hit, crashed, next, crashPoint))
  {
    var o2, o5, o10 := Opt(MilestoneFresh(hit, 2, next), MilestoneReached(2)),
                       Opt(MilestoneFresh(hit, 5, next), MilestoneReached(5)),
                       Opt(MilestoneFresh(hit, 10, next), MilestoneReached(10));
    NewestOfShort(console);
    LogIfStep(console, [], MilestoneFresh(hit, 2, next), MilestoneReached(2));
    assert [] + o2 == o2;
    LogIfStep(console, o2, MilestoneFresh(hit, 5, next), MilestoneReached(5));
    LogIfStep(console, o2 + o5, MilestoneFresh(hit, 10, next), MilestoneReached(10));
    LogIfStep(console, o2 + o5 + o10, !crashed && next >= crashPoint, SignalLost(crashPoint));
  }

  /** The console line settling a chosen side bet. */
  function SideBetOutcome(option: SideBetOption, bet: real, crash: real): Message
  {
    if SideBetCondition(option, crash) then SideBetWon(option, SideBetPrize(bet, option)) else SideBetLost(option)
  }

  /** Console lines of settlement: the side bet's outcome, the jackpot, then the total. */
  function SettlementMessages(payout: Option<real>, option: SideBetOption, bet: real, crash: real,
                              eligible: bool, jackpot: real): seq<Message>
  {
    Opt(option != NoSideBet, SideBetOutcome(option, bet, crash))
    + Opt(WinsJackpot(eligible, crash), JackpotWon(crash, jackpot))
    + Opt(SettlementTotal(payout, option, bet, crash, eligible, jackpot) > 0.0,
          TotalPayout(SettlementTotal(payout, option, bet, crash, eligible, jackpot)))
  }

  /** The console after settlement. */
  function SettlementLog(console: seq<Message>, payout: Option<real>, option: SideBetOption, bet: real, crash: real,
                         eligible: bool, jackpot: real): seq<Message>
  {
    var side := LogIf(option != NoSideBet, console, SideBetOutcome(option, bet, crash));
    var pot := LogIf(WinsJackpot(eligible, crash), side, JackpotWon(crash, jackpot));
    var total := SettlementTotal(payout, option, bet, crash, eligible, jackpot);
    LogIf(total > 0.0, pot, TotalPayout(total))
  }

  lemma SettlementLogIsNewest(console: seq<Message>, payout: Option<real>, option: SideBetOption, bet: real,
                              crash: real, eligible: bool, jackpot: real)
    requires |console| <= ConsoleCapacity
    ensures SettlementLog(console, payout, option, bet, crash, eligible, jackpot)
         == Newest(console + SettlementMessages(payout, option, bet, crash, eligible, jackpot))
  {
    var sideLine := SideBetOutcome(option, bet, crash);
    var o1, o2 := Opt(option != NoSideBet, sideLine), Opt(WinsJackpot(eligible, crash), JackpotWon(crash, jackpot));
    var total := SettlementTotal(payout, option, bet, crash, eligible, jackpot);
    NewestOfShort(console);
    LogIfStep(console, [], option != NoSideBet, sideLine);
    assert [] + o1 == o1;
    LogIfStep(console, o1, WinsJackpot(eligible, crash), JackpotWon(crash, jackpot));
    LogIfStep(console, o1 + o2, total > 0.0, TotalPayout(total));
  }

  /** The id of a history entry, `${serverSeed}-${nonce}`. */
  function HistoryId(serverSeed: string, nonce: nat): string
  {
    serverSeed + "-" + Decimal(nonce)
  }

  /**
   * The published data `pf` commits to the secret server seed, which stays
   * hidden until the round has ended.
   */
  ghost predicate SeedCommitted(pf: ProvablyFairData, secret: string, clientSecret: string, phase: GamePhase)
  {
    && pf.nonce >= 1
    && pf.serverSeedHash == Commitment(secret)
    && pf.clientSeed == clientSecret
    && pf.serverSeed == (if phase == Ended then secret else "")
  }

  /** Once the round runs, its crash point is the one the committed seeds determine. */
  ghost predicate CrashPointCommitted(phase: GamePhase, crashPoint: real, secret: string, clientSecret: string,
                                      nonce: nat, skew: real -> real)
  {
    phase == Running || phase == Ended ==> crashPoint == CrashPoint(secret, clientSecret, nonce, skew)
  }

  /** A new round publishes the commitment to fresh seeds, hides the server seed and takes the next nonce. */
  lemma NewRoundCommitted(pf: ProvablyFairData, secret: string, clientSecret: string,
                          serverSeed: string, clientSeed: string, seedHash: string)
    requires SeedCommitted(pf, secret, clientSecret, Ended)
    requires seedHash == Commitment(serverSeed)
    ensures SeedCommitted(ProvablyFairData("", seedHash, clientSeed, pf.nonce + 1), serverSeed, clientSeed, Lobby)
  {
  }

  /**
   * Revealing the server seed at the end of a running round keeps the
   * commitment and makes the round verifiable from the published data.
   */
  lemma RevealCommitted(pf: ProvablyFairData, secret: string, clientSecret: string, crashPoint: real,
                        skew: real -> real)
    requires SeedCommitted(pf, secret, clientSecret, Running)
    requires CrashPointCommitted(Running, crashPoint, secret, clientSecret, pf.nonce, skew)
    ensures SeedCommitted(pf.(serverSeed := secret), secret, clientSecret, Ended)
    ensures Verifies(pf.(serverSeed := secret), crashPoint, skew)
  {
  }

  class Game {
    /** Stands for `u -> Math.pow(u, 1 / distributionBias)`. */
    const skew: real -> real

    var balance: real
    var betAmount: real
    var sideBet: SideBetOption
    var jackpotAmount: real
    var gamePhase: GamePhase
    var roundState: RoundState
    var graphData: seq<GraphDataPoint>
    var history: seq<HistoryEntry>
    var consoleMessages: seq<Message>
    var provablyFair: ProvablyFairData

    var roundCrashPoint: real
    /** The tick interval is scheduled. */
    var loopActive: bool
    var secretServerSeed: string
    var secretClientSeed: string
    var hasCashedOutThisRound: bool
    var milestonesHit: set<int>
    var isJackpotEligible: bool

    /** The invariant every step keeps. */
    ghost predicate Valid()
      reads this`consoleMessages, this`history, this`provablyFair, this`secretServerSeed, this`secretClientSeed,
            this`gamePhase, this`roundCrashPoint, this`loopActive, this`roundState, this`hasCashedOutThisRound,
            this`isJackpotEligible, this`milestonesHit, this`graphData
    {
      && |consoleMessages| <= ConsoleCapacity
      && |history| <= HistoryLength
      && SeedCommitted(provablyFair, secretServerSeed, secretClientSeed, gamePhase)
      && CrashPointCommitted(gamePhase, roundCrashPoint, secretServerSeed, secretClientSeed, provablyFair.nonce, skew)
      && RoundConsistent()
    }

    /** The round record and the cash-out flags agree with the phase. */
    ghost predicate RoundConsistent()
      reads this`gamePhase, this`loopActive, this`roundState, this`roundCrashPoint, this`hasCashedOutThisRound,
            this`isJackpotEligible, this`graphData
    {
      && (loopActive ==> gamePhase == Running)
      && (gamePhase == Lobby || gamePhase == Betting ==>
            roundState == InitialRoundState && !hasCashedOutThisRound && graphData == [])
      && (gamePhase == Running || gamePhase == Ended ==> roundState.multiplier <= roundCrashPoint)
      && (gamePhase == Ended ==> roundState.crashed)
      && 1.0 <= roundState.multiplier
      && (roundState.crashed ==> roundState.multiplier == roundCrashPoint)
      && (roundState.cashedOut <==> roundState.payout.Some?)
      && (roundState.cashedOut ==> hasCashedOutThisRound)
      && (hasCashedOutThisRound ==> roundState.cashedOut || roundState.crashed)
      && isJackpotEligible == hasCashedOutThisRound
    }

    /** A cash-out request now would settle a payout. */
    predicate CashOutTakesEffect()
      reads this
    {
      gamePhase == Running && !hasCashedOutThisRound && !roundState.crashed && !roundState.cashedOut
    }

    /**
     * The hook's initial state (balance and jackpot from storage when present)
     * followed by the mount effect's first `setupNewRound`.
     */
    constructor (savedBalance: Option<real>, savedJackpot: Option<real>,
                 serverSeed: string, clientSeed: string, skew: real -> real)
      ensures Valid()
      ensures this.skew == skew
      ensures balance == (if savedBalance.Some? then savedBalance.value else InitialBalance)
      ensures jackpotAmount == (if savedJackpot.Some? then savedJackpot.value else JackpotInitialAmount)
      ensures betAmount == 10.0 && sideBet == NoSideBet
      ensures gamePhase == Lobby && roundState == InitialRoundState && graphData == [] && history == []
      ensures provablyFair == ProvablyFairData("", Commitment(serverSeed), clientSeed, 1)
      ensures secretServerSeed == serverSeed && secretClientSeed == clientSeed
      ensures consoleMessages == [Initialized, PreparingRound]
      ensures !loopActive && !hasCashedOutThisRound && !isJackpotEligible && milestonesHit == {}
      ensures roundCrashPoint == 0.0
    {
      var seedHash := GenerateSeedHash(serverSeed);
      this.skew := skew;
      balance := if savedBalance.Some? then savedBalance.value else InitialBalance;
      betAmount := 10.0;
      sideBet := NoSideBet;
      jackpotAmount := if savedJackpot.Some? then savedJackpot.value else JackpotInitialAmount;
      gamePhase := Lobby;
      roundState := InitialRoundState;
      graphData := [];
      history := [];
      consoleMessages := [Initialized, PreparingRound];
      provablyFair := ProvablyFairData("", seedHash, clientSeed, 1);
      roundCrashPoint := 0.0;
      loopActive := false;
      secretServerSeed := serverSeed;
      secretClientSeed := clientSeed;
      hasCashedOutThisRound := false;
      milestonesHit := {};
      isJackpotEligible := false;
    }

    /** `setBetAmount`, which the hook exposes without any check. */
    method SetBetAmount(amount: real)
      requires Valid()
      modifies this`betAmount
      ensures Valid() && betAmount == amount
    {
      betAmount := amount;
    }

    /** `setSideBet`, which the hook exposes without any check. */
    method SetSideBet(option: SideBetOption)
      requires Valid()
      modifies this`sideBet
      ensures Valid() && sideBet == option
    {
      sideBet := option;
    }

    /** `setupNewRound`, fired by the summary timer that `EndRound` arms. */
    method SetupNewRound(serverSeed: string, clientSeed: string)
      requires Valid() && gamePhase == Ended
      modifies this`consoleMessages, this`secretServerSeed, this`secretClientSeed, this`hasCashedOutThisRound,
               this`milestonesHit, this`isJackpotEligible, this`provablyFair, this`gamePhase,
               this`sideBet, this`roundState, this`graphData
      ensures Valid()
      ensures provablyFair == ProvablyFairData("", Commitment(serverSeed), clientSeed, old(provablyFair.nonce) + 1)
      ensures secretServerSeed == serverSeed && secretClientSeed == clientSeed
      ensures gamePhase == Lobby && sideBet == NoSideBet && roundState == InitialRoundState && graphData == []
      ensures !hasCashedOutThisRound && !isJackpotEligible && milestonesHit == {}
      ensures consoleMessages == AppendBounded(old(consoleMessages), PreparingRound)
    {
      consoleMessages := AppendBounded(consoleMessages, PreparingRound);
      CommitSeeds(serverSeed, clientSeed);
      ResetRound();
    }

    /** The seed part of `setupNewRound`: keep the new seeds secret, publish the commitment and take the next nonce. */
    method CommitSeeds(serverSeed: string, clientSeed: string)
      requires SeedCommitted(provablyFair, secretServerSeed, secretClientSeed, Ended)
      modifies this`secretServerSeed, this`secretClientSeed, this`provablyFair
      ensures provablyFair == ProvablyFairData("", Commitment(serverSeed), clientSeed, old(provablyFair.nonce) + 1)
      ensures secretServerSeed == serverSeed && secretClientSeed == clientSeed
      ensures SeedCommitted(provablyFair, secretServerSeed, secretClientSeed, Lobby)
    {
      var seedHash := GenerateSeedHash(serverSeed);
      NewRoundCommitted(provablyFair, secretServerSeed, secretClientSeed, serverSeed, clientSeed, seedHash);
      secretServerSeed := serverSeed;
      secretClientSeed := clientSeed;
      provablyFair := ProvablyFairData("", seedHash, clientSeed, provablyFair.nonce + 1);
    }

    /** The round part of `setupNewRound`: clear the per-round refs and the round record, back to LOBBY. */
    method ResetRound()
      requires !loopActive
      modifies this`hasCashedOutThisRound, this`milestonesHit, this`isJackpotEligible, this`gamePhase,
               this`sideBet, this`roundState, this`graphData
      ensures gamePhase == Lobby && sideBet == NoSideBet && roundState == InitialRoundState && graphData == []
      ensures !hasCashedOutThisRound && !isJackpotEligible && milestonesHit == {}
      ensures RoundConsistent()
    {
      hasCashedOutThisRound := false;
      milestonesHit := {};
      isJackpotEligible := false;
      gamePhase := Lobby;
      sideBet := NoSideBet;
      roundState := InitialRoundState;
      graphData := [];
    }

    /**
     * `startGame`. It has no phase check of its own: both of its callers
     * (the Enter key and the place-bet button) only call it in LOBBY.
     */
    method StartGame()
      requires Valid() && gamePhase == Lobby
      modifies this`balance, this`jackpotAmount, this`gamePhase, this`consoleMessages
      ensures Valid()
      ensures old(balance) < TotalCost(betAmount, sideBet) ==>
        && balance == old(balance) && jackpotAmount == old(jackpotAmount) && gamePhase == Lobby
        && consoleMessages == AppendBounded(old(consoleMessages), InsufficientFunds)
      ensures old(balance) >= TotalCost(betAmount, sideBet) ==>
        && balance == old(balance) - TotalCost(betAmount, sideBet)
        && jackpotAmount == old(jackpotAmount) + betAmount * JackpotContributionPercent
        && gamePhase == Betting
        && consoleMessages == BetLog(old(consoleMessages), betAmount, sideBet)
      ensures old(balance) >= 0.0 ==> balance >= 0.0
    {
      var sideBetCost := SideBetStake(betAmount, sideBet);
      var totalCost := betAmount + sideBetCost;
      if balance < totalCost {
        consoleMessages := AppendBounded(consoleMessages, InsufficientFunds);
        return;
      }
      balance := balance - totalCost;
      jackpotAmount := jackpotAmount + betAmount * JackpotContributionPercent;
      consoleMessages := AppendBounded(consoleMessages, BetPlaced(betAmount));
      if sideBet != NoSideBet {
        consoleMessages := AppendBounded(consoleMessages, SideBetPlaced(sideBetCost, sideBet));
      }
      EnterBetting();
    }

    /** The phase change of an accepted bet: LOBBY becomes BETTING, with the round record still fresh. */
    method EnterBetting()
      requires RoundConsistent() && gamePhase == Lobby
      modifies this`gamePhase
      ensures RoundConsistent() && gamePhase == Betting
    {
      gamePhase := Betting;
    }

    /** The start timer: the betting countdown has elapsed, the crash point is computed and the tick loop starts. */
    method BeginRunning()
      requires Valid() && gamePhase == Betting
      modifies this`gamePhase, this`consoleMessages, this`roundCrashPoint, this`loopActive
      ensures Valid()
      ensures gamePhase == Running && loopActive
      ensures roundCrashPoint == CrashPoint(secretServerSeed, secretClientSeed, provablyFair.nonce, skew)
      ensures consoleMessages == AppendBounded(old(consoleMessages), TraceInitiated)
    {
      gamePhase := Running;
      consoleMessages := AppendBounded(consoleMessages, TraceInitiated);
      roundCrashPoint := CalculateCrashPoint(secretServerSeed, secretClientSeed, provablyFair.nonce, skew);
      loopActive := true;
    }

    /** One of the tick's milestone checks: the first time this round the multiplier reaches `level`, it is logged. */
    method CheckMilestone(level: int, next: real)
      requires |consoleMessages| <= ConsoleCapacity
      modifies this`consoleMessages, this`milestonesHit
      ensures |consoleMessages| <= ConsoleCapacity
      ensures consoleMessages == ConsoleAfter(old(milestonesHit), old(consoleMessages), level, next)
      ensures milestonesHit == HitAfter(old(milestonesHit), level, next)
    {
      if next >= level as real && level !in milestonesHit {
        consoleMessages := AppendBounded(consoleMessages, MilestoneReached(level));
        milestonesHit := milestonesHit + {level};
      }
    }

    /** One tick of the loop, with `next` standing for `Math.exp(k * elapsed)`. */
    method Tick(elapsed: real, next: real)
      requires Valid() && loopActive && next >= 1.0
      modifies this`consoleMessages, this`milestonesHit, this`roundState, this`loopActive, this`graphData
      ensures Valid()
      ensures milestonesHit == old(milestonesHit) + Reached(next)
      ensures old(roundState.crashed) ==> roundState == old(roundState) && !loopActive
      ensures !old(roundState.crashed) && next >= roundCrashPoint ==>
        roundState == old(roundState).(multiplier := roundCrashPoint, crashed := true) && loopActive
      ensures !old(roundState.crashed) && next < roundCrashPoint ==>
        roundState == old(roundState).(multiplier := next) && loopActive
      ensures graphData == old(graphData) + [GraphDataPoint(elapsed, if next >= roundCrashPoint then None else Some(next))]
      ensures consoleMessages == TickLog(old(consoleMessages), old(milestonesHit), old(roundState.crashed), next, roundCrashPoint)
      ensures old(roundState.multiplier) <= next ==> old(roundState.multiplier) <= roundState.multiplier
    {
      TickMilestones(milestonesHit, consoleMessages, next);
      CheckMilestone(2, next);
      CheckMilestone(5, next);
      CheckMilestone(10, next);
      Advance(elapsed, next);
    }

    /** The end of a tick: the crash check, the multiplier update and the graph sample. */
    method Advance(elapsed: real, next: real)
      requires RoundConsistent() && loopActive && next >= 1.0 && |consoleMessages| <= ConsoleCapacity
      modifies this`consoleMessages, this`roundState, this`loopActive, this`graphData
      ensures RoundConsistent() && |consoleMessages| <= ConsoleCapacity
      ensures old(roundState.crashed) ==> roundState == old(roundState) && !loopActive
      ensures !old(roundState.crashed) && next >= roundCrashPoint ==>
        roundState == old(roundState).(multiplier := roundCrashPoint, crashed := true) && loopActive
      ensures !old(roundState.crashed) && next < roundCrashPoint ==>
        roundState == old(roundState).(multiplier := next) && loopActive
      ensures graphData == old(graphData) + [GraphDataPoint(elapsed, if next >= roundCrashPoint then None else Some(next))]
      ensures consoleMessages == LogIf(!old(roundState.crashed) && next >= roundCrashPoint, old(consoleMessages),
                                       SignalLost(roundCrashPoint))
    {
      var crashPoint := roundCrashPoint;
      if roundState.crashed {
        loopActive := false;
      } else if next >= crashPoint {
        consoleMessages := AppendBounded(consoleMessages, SignalLost(crashPoint));
        roundState := roundState.(multiplier := crashPoint, crashed := true);
      } else {
        roundState := roundState.(multiplier := next);
      }
      graphData := graphData + [GraphDataPoint(elapsed, if next >= crashPoint then None else Some(next))];
    }

    /**
     * `cashOut`. Outside RUNNING, or once already called this round, nothing happens.
     * Otherwise jackpot eligibility is set first, and only then is the round
     * checked: a round already crashed is left as it is.
     */
    method CashOut()
      requires Valid()
      modifies this`hasCashedOutThisRound, this`isJackpotEligible, this`roundState, this`consoleMessages
      ensures Valid()
      ensures !old(gamePhase == Running && !hasCashedOutThisRound) ==> unchanged(this)
      ensures old(gamePhase == Running && !hasCashedOutThisRound) ==> hasCashedOutThisRound && isJackpotEligible
      ensures old(CashOutTakesEffect()) ==>
        && roundState == old(roundState).(cashedOut := true, payout := Some(CashOutPayout(betAmount, old(roundState.multiplier))))
        && consoleMessages == AppendBounded(old(consoleMessages),
             CashOutSucceeded(old(roundState.multiplier), CashOutPayout(betAmount, old(roundState.multiplier))))
      ensures !old(CashOutTakesEffect()) ==> roundState == old(roundState) && consoleMessages == old(consoleMessages)
      ensures !CashOutTakesEffect()
    {
      if gamePhase != Running || hasCashedOutThisRound {
        return;
      }
      hasCashedOutThisRound := true;
      isJackpotEligible := true;
      if roundState.crashed || roundState.cashedOut {
        return;
      }
      var m := roundState.multiplier;
      var payout := CashOutPayout(betAmount, m);
      consoleMessages := AppendBounded(consoleMessages, CashOutSucceeded(m, payout));
      roundState := roundState.(cashedOut := true, payout := Some(payout));
    }

    /** The side-bet part of settlement: logs the outcome of a chosen side bet and returns what it credits. */
    method SettleSideBet(option: SideBetOption, bet: real, crash: real) returns (credit: real)
      requires |consoleMessages| <= ConsoleCapacity
      modifies this`consoleMessages
      ensures |consoleMessages| <= ConsoleCapacity
      ensures credit == SideBetCredit(option, bet, crash)
      ensures consoleMessages == LogIf(option != NoSideBet, old(consoleMessages), SideBetOutcome(option, bet, crash))
    {
      credit := 0.0;
      if option != NoSideBet {
        if SideBetCondition(option, crash) {
          var sideBetPayout := SideBetPrize(bet, option);
          credit := sideBetPayout;
          consoleMessages := AppendBounded(consoleMessages, SideBetWon(option, sideBetPayout));
        } else {
          consoleMessages := AppendBounded(consoleMessages, SideBetLost(option));
        }
      }
    }

    /** The jackpot part of settlement: an eligible player in a round crashing above the threshold takes the pool, which resets. */
    method SettleJackpot(eligible: bool, crash: real) returns (credit: real)
      requires |consoleMessages| <= ConsoleCapacity
      modifies this`consoleMessages, this`jackpotAmount
      ensures |consoleMessages| <= ConsoleCapacity
      ensures credit == (if WinsJackpot(eligible, crash) then old(jackpotAmount) else 0.0)
      ensures jackpotAmount == (if WinsJackpot(eligible, crash) then JackpotInitialAmount else old(jackpotAmount))
      ensures consoleMessages == LogIf(WinsJackpot(eligible, crash), old(consoleMessages), JackpotWon(crash, old(jackpotAmount)))
    {
      credit := 0.0;
      if eligible && crash > JackpotWinThreshold {
        consoleMessages := AppendBounded(consoleMessages, JackpotWon(crash, jackpotAmount));
        credit := jackpotAmount;
        jackpotAmount := JackpotInitialAmount;
      }
    }

    /** The last part of settlement: a positive total is logged and credited to the balance. */
    method CreditPayout(total: real)
      requires |consoleMessages| <= ConsoleCapacity
      modifies this`consoleMessages, this`balance
      ensures |consoleMessages| <= ConsoleCapacity
      ensures balance == old(balance) + MaxReal(0.0, total)
      ensures consoleMessages == LogIf(total > 0.0, old(consoleMessages), TotalPayout(total))
    {
      if total > 0.0 {
        consoleMessages := AppendBounded(consoleMessages, TotalPayout(total));
        balance := balance + total;
      }
    }

    /** The settlement part of `endRound`: cash-out payout, side bet and jackpot, credited as one total. */
    method Settle(payout: Option<real>, option: SideBetOption, bet: real, crash: real, eligible: bool)
      requires |consoleMessages| <= ConsoleCapacity
      modifies this`consoleMessages, this`jackpotAmount, this`balance
      ensures |consoleMessages| <= ConsoleCapacity
      ensures balance == old(balance) + MaxReal(0.0, SettlementTotal(payout, option, bet, crash, eligible, old(jackpotAmount)))
      ensures jackpotAmount == (if WinsJackpot(eligible, crash) then JackpotInitialAmount else old(jackpotAmount))
      ensures consoleMessages == SettlementLog(old(consoleMessages), payout, option, bet, crash, eligible, old(jackpotAmount))
    {
      var totalPayout := if payout.Some? then payout.value else 0.0;
      var sideBetCredit := SettleSideBet(option, bet, crash);
      var jackpotCredit := SettleJackpot(eligible, crash);
      totalPayout := totalPayout + sideBetCredit + jackpotCredit;
      CreditPayout(totalPayout);
    }

    /**
     * The closing part of `endRound`: the loop stops, the phase becomes ENDED,
     * the server seed is revealed and the round is prepended to the history bar.
     */
    method CloseRound()
      requires RoundConsistent() && gamePhase == Running && roundState.crashed
      requires SeedCommitted(provablyFair, secretServerSeed, secretClientSeed, gamePhase)
      requires CrashPointCommitted(gamePhase, roundCrashPoint, secretServerSeed, secretClientSeed, provablyFair.nonce, skew)
      requires |history| <= HistoryLength
      modifies this`loopActive, this`gamePhase, this`provablyFair, this`history
      ensures gamePhase == Ended && !loopActive && RoundConsistent()
      ensures provablyFair == old(provablyFair).(serverSeed := secretServerSeed)
      ensures SeedCommitted(provablyFair, secretServerSeed, secretClientSeed, gamePhase)
      ensures CrashPointCommitted(gamePhase, roundCrashPoint, secretServerSeed, secretClientSeed, provablyFair.nonce, skew)
      ensures Verifies(provablyFair, roundCrashPoint, skew)
      ensures history == PrependBounded(HistoryEntry(HistoryId(secretServerSeed, provablyFair.nonce), roundCrashPoint,
                                                     provablyFair), old(history))
      ensures |history| <= HistoryLength
    {
      RevealCommitted(provablyFair, secretServerSeed, secretClientSeed, roundCrashPoint, skew);
      loopActive := false;
      gamePhase := Ended;
      var finalProvablyFairData := ProvablyFairData(secretServerSeed, provablyFair.serverSeedHash, secretClientSeed,
                                                    provablyFair.nonce);
      provablyFair := finalProvablyFairData;
      var historyEntry := HistoryEntry(HistoryId(secretServerSeed, finalProvablyFairData.nonce), roundCrashPoint,
                                       finalProvablyFairData);
      history := PrependBounded(historyEntry, history);
    }

    /** `endRound`: stop the loop, settle, reveal the seed and record the round. */
    method EndRound()
      requires Valid() && gamePhase == Running && roundState.crashed
      modifies this`loopActive, this`gamePhase, this`consoleMessages, this`jackpotAmount, this`balance,
               this`provablyFair, this`history
      ensures Valid()
      ensures gamePhase == Ended && !loopActive
      ensures balance == old(balance) + MaxReal(0.0, SettlementTotal(old(roundState.payout), old(sideBet), old(betAmount),
                                                                      old(roundCrashPoint), old(isJackpotEligible),
                                                                      old(jackpotAmount)))
      ensures jackpotAmount ==
        (if WinsJackpot(old(isJackpotEligible), old(roundCrashPoint)) then JackpotInitialAmount else old(jackpotAmount))
      ensures provablyFair == old(provablyFair).(serverSeed := old(secretServerSeed))
      ensures Verifies(provablyFair, old(roundCrashPoint), skew)
      ensures history == PrependBounded(HistoryEntry(HistoryId(old(secretServerSeed), provablyFair.nonce),
                                                     old(roundCrashPoint), provablyFair), old(history))
      ensures consoleMessages == SettlementLog(old(consoleMessages), old(roundState.payout), old(sideBet), old(betAmount),
                                               old(roundCrashPoint), old(isJackpotEligible), old(jackpotAmount))
      ensures old(balance) >= 0.0 ==> balance >= 0.0
    {
      var payout, option, bet, crash, eligible := roundState.payout, sideBet, betAmount, roundCrashPoint, isJackpotEligible;
      CloseRound();
      Settle(payout, option, bet, crash, eligible);
    }

    /**
     * The effect that ends the round: it settles only in RUNNING with the round
     * crashed, and leaves the engine in ENDED, so a repeated crash signal
     * finds nothing to do.
     */
    method CrashEffect()
      requires Valid()
      modifies this`loopActive, this`gamePhase, this`consoleMessages, this`jackpotAmount, this`balance,
               this`provablyFair, this`history
      ensures Valid()
      ensures !old(gamePhase == Running && roundState.crashed) ==> unchanged(this)
      ensures old(gamePhase == Running && roundState.crashed) ==>
        && gamePhase == Ended
        && balance == old(balance) + MaxReal(0.0, SettlementTotal(roundState.payout, sideBet, betAmount, roundCrashPoint,
                                                                   isJackpotEligible, old(jackpotAmount)))
        && !loopActive
        && jackpotAmount ==
          (if WinsJackpot(isJackpotEligible, roundCrashPoint) then JackpotInitialAmount else old(jackpotAmount))
        && provablyFair == old(provablyFair).(serverSeed := secretServerSeed)
        && Verifies(provablyFair, roundCrashPoint, skew)
        && history == PrependBounded(HistoryEntry(HistoryId(secretServerSeed, provablyFair.nonce), roundCrashPoint,
                                                  provablyFair), old(history))
        && consoleMessages == SettlementLog(old(consoleMessages), roundState.payout, sideBet, betAmount,
                                            roundCrashPoint, isJackpotEligible, old(jackpotAmount))
      ensures !(gamePhase == Running && roundState.crashed)
    {
      if gamePhase == Running && roundState.crashed {
        EndRound();
      }
    }
  }
}
