/**
 * The control panel's decisions (components/Controls.tsx): which actions are offered,
 * how a typed bet is read and clamped, how keys are dispatched and how the
 * side-bet buttons toggle. Rendering itself is not modelled; each decision is
 * a value computed from the engine state the panel receives.
 */
module Controls {
  import opened Types
  import opened Constants
  import opened NumberText
  import opened GameLogic

  /** `isBettingAllowed`: the bet panel (rather than the cash-out panel) is shown. */
  predicate IsBettingAllowed(phase: GamePhase)
  {
    phase == Lobby || phase == Betting
  }

  /** `canCashOut`: the cash-out button is enabled. */
  predicate CanCashOut(phase: GamePhase, round: RoundState)
  {
    phase == Running && !round.cashedOut && !round.crashed
  }

  /** The two panels never show at once, and the cash-out button lives only on the second one. */
  lemma PanelsExclusive(phase: GamePhase, round: RoundState)
    ensures IsBettingAllowed(phase) <==> phase !in {Running, Ended}
    ensures CanCashOut(phase, round) ==> !IsBettingAllowed(phase)
  {
  }

  /**
   * With the engine in a consistent state, the cash-out button is enabled exactly
   * when pressing it would pay out: the button's test and the engine's own guard agree.
   */
  lemma CashOutButtonMatchesEngine(g: Game)
    requires g.RoundConsistent()
    ensures CanCashOut(g.gamePhase, g.roundState) <==> g.CashOutTakesEffect()
  {
  }

  /** The place-bet button is enabled: only in the lobby, and only when the total cost is covered. */
  predicate PlaceBetEnabled(phase: GamePhase, bet: real, option: SideBetOption, balance: real)
  {
    !(phase != Lobby || TotalCost(bet, option) > balance)
  }

  /**
   * The button applies the same funds test as the engine's `StartGame`: when it is
   * enabled the bet is accepted and leaves a non-negative balance; in the lobby with
   * the button disabled the engine refuses the bet.
   */
  lemma PlaceBetMatchesEngine(phase: GamePhase, bet: real, option: SideBetOption, balance: real)
    requires bet >= 0.0
    ensures PlaceBetEnabled(phase, bet, option, balance) ==>
      phase == Lobby && !(balance < TotalCost(bet, option)) && balance - TotalCost(bet, option) >= 0.0 && balance >= bet
    ensures phase == Lobby && !PlaceBetEnabled(phase, bet, option, balance) ==> balance < TotalCost(bet, option)
  {
    TotalCostByOption(bet, option);
  }

  function MaxInt(a: int, b: int): int { if a >= b then a else b }

  /** `Math.max(MIN_BET, Math.min(val, MAX_BET, Math.floor(balance)))`. */
  function ClampBet(val: int, balance: real): (r: int)
    ensures MinBet <= r <= MaxBet
    ensures balance >= 1.0 ==> r <= balance.Floor && r as real <= balance
    ensures balance < 1.0 ==> r == MinBet
    ensures MinBet <= val <= MaxBet && val <= balance.Floor ==> r == val
    ensures balance >= 1.0 && val >= Min(MaxBet, balance.Floor) ==> r == Min(MaxBet, balance.Floor)
    ensures val <= MinBet ==> r == MinBet
  {
    MaxInt(MinBet, Min(val, Min(MaxBet, balance.Floor)))
  }

  /** Clamping an already clamped amount against the same balance changes nothing. */
  lemma ClampIdempotent(val: int, balance: real)
    ensures ClampBet(ClampBet(val, balance), balance) == ClampBet(val, balance)
  {
    var r := ClampBet(val, balance);
    if balance < 1.0 {
      assert ClampBet(r, balance) == MinBet;
    } else {
      assert MinBet <= r <= MaxBet && r <= balance.Floor;
    }
  }

  /** A ban on betting more than the balance cannot be honoured below one credit: the floor wins. */
  lemma ClampBelowOneCredit()
    ensures ClampBet(50, 0.5) == 1 && (ClampBet(50, 0.5) as real) > 0.5
    ensures ClampBet(20000, 15000.7) == MaxBet && ClampBet(-3, 200.0) == MinBet
    ensures ClampBet(250, 120.9) == 120
  {
  }

  /** The white-space characters `parseInt` skips that are in the Basic Latin and Latin-1 ranges, plus the byte-order mark. */
  predicate IsSpace(c: char)
  {
    c == ' ' || c == '\t' || c == '\n' || c == '\r' || c == '\U{000B}' || c == '\U{000C}'
    || c == '\U{00A0}' || c == '\U{FEFF}'
  }

  predicate IsDecimalDigit(c: char) { '0' <= c <= '9' }

  /** The longest prefix of decimal digits. */
  function DigitPrefix(s: string): string
  {
    if s != [] && IsDecimalDigit(s[0]) then [s[0]] + DigitPrefix(s[1..]) else []
  }

  /** `DigitPrefix` is a prefix, made of digits, and cannot be extended by the next character. */
  lemma {:induction false} DigitPrefixIsLongest(s: string)
    ensures |DigitPrefix(s)| <= |s| && DigitPrefix(s) == s[..|DigitPrefix(s)|]
    ensures forall i :: 0 <= i < |DigitPrefix(s)| ==> IsDecimalDigit(DigitPrefix(s)[i])
    ensures |DigitPrefix(s)| < |s| ==> !IsDecimalDigit(s[|DigitPrefix(s)|])
  {
    if s != [] && IsDecimalDigit(s[0]) {
      DigitPrefixIsLongest(s[1..]);
      var p := DigitPrefix(s[1..]);
      assert DigitPrefix(s) == [s[0]] + p;
      assert s[1..][..|p|] == s[1..|p| + 1];
    }
  }

  function SkipSpaces(s: string): (t: string)
  {
    if s != [] && IsSpace(s[0]) then SkipSpaces(s[1..]) else s
  }

  /** The digits `parseInt` reads after the sign, as a number; `None` when there are none. */
  function ParseUnsigned(body: string): Option<nat>
  {
    ParseDigits(DigitPrefix(body), 10)
  }

  function Signed(negative: bool, magnitude: Option<nat>): Option<int>
  {
    match magnitude
    case None => None
    case Some(v) => Some(if negative then -(v as int) else v as int)
  }

  /** `parseInt(text, 10)`: leading white space, an optional sign, then as many decimal digits as follow; `None` stands for `NaN`. */
  function ParseInt(text: string): Option<int>
  {
    var t := SkipSpaces(text);
    if t != [] && (t[0] == '-' || t[0] == '+') then Signed(t[0] == '-', ParseUnsigned(t[1..]))
    else Signed(false, ParseUnsigned(t))
  }

  lemma DigitPrefixOfDigits(s: string)
    requires forall i :: 0 <= i < |s| ==> IsDecimalDigit(s[i])
    ensures DigitPrefix(s) == s
  {
    if s != [] {
      DigitPrefixOfDigits(s[1..]);
    }
  }

  /** Decimal digits as written by `Decimal` are exactly the characters `'0'` to `'9'`. */
  lemma DecimalIsDigits(n: nat)
    ensures forall i :: 0 <= i < |Decimal(n)| ==> IsDecimalDigit(Decimal(n)[i])
  {
    DigitsAreDigits(n, 10);
    forall i | 0 <= i < |Decimal(n)|
      ensures IsDecimalDigit(Decimal(n)[i])
    {
      var c := Decimal(n)[i];
      assert DigitValue(c).Some? && DigitValue(c).value < 10;
    }
  }

  /** On a non-empty run of digits `parseInt` reads the whole run. */
  lemma ParseUnsignedOfDigits(s: string, v: nat)
    requires forall i :: 0 <= i < |s| ==> IsDecimalDigit(s[i])
    requires ParseDigits(s, 10) == Some(v)
    ensures ParseUnsigned(s) == Some(v)
  {
    DigitPrefixOfDigits(s);
  }

  /** A text that starts with a digit is read without skipping or a sign. */
  lemma ParseIntOfUnsigned(s: string, v: nat)
    requires s != [] && IsDecimalDigit(s[0]) && ParseUnsigned(s) == Some(v)
    ensures ParseInt(s) == Some(v as int)
  {
    assert SkipSpaces(s) == s;
  }

  /** A text that starts with a minus sign is read as the negated number after it. */
  lemma ParseIntOfNegated(s: string, v: nat)
    requires ParseUnsigned(s) == Some(v)
    ensures ParseInt("-" + s) == Some(-(v as int))
  {
    var m := "-" + s;
    assert m[0] == '-' && !IsSpace(m[0]);
    assert SkipSpaces(m) == m;
    assert m[1..] == s;
  }

  /** `parseInt` reads back any integer written in decimal, with or without a minus sign. */
  lemma ParseIntRoundTrip(n: nat)
    ensures ParseInt(Decimal(n)) == Some(n as int)
    ensures ParseInt("-" + Decimal(n)) == Some(-(n as int))
  {
    DecimalIsDigits(n);
    DigitsRoundTrip(n, 10);
    ParseUnsignedOfDigits(Decimal(n), n);
    ParseIntOfUnsigned(Decimal(n), n);
    ParseIntOfNegated(Decimal(n), n);
  }

  /** `parseInt` stops at the first character that is not a digit. */
  lemma ParseIntStopsAtPoint()
    ensures ParseInt("12.7") == Some(12)
  {
    assert SkipSpaces("12.7") == "12.7";
    assert DigitPrefix("12.7") == "12" by {
      assert DigitPrefix("2.7") == "2" by {
        assert DigitPrefix(".7") == [];
      }
    }
    assert ParseDigits("12", 10) == Some(12) by {
      assert "12"[..1] == "1";
    }
  }

  /** `parseInt` reads nothing from an empty text, a lone sign or a text without leading digits. */
  lemma ParseIntNaN()
    ensures ParseInt("") == None && ParseInt("-") == None && ParseInt("e5") == None
  {
    assert DigitPrefix("e5") == [];
    assert "-"[1..] == [];
  }

  /**
   * `handleBetChange`: the new bet amount, or `None` when the bet is left as it was.
   * A number is clamped; an empty field resets the bet to the minimum; any other text is ignored.
   */
  function HandleBetChange(text: string, balance: real): (r: Option<int>)
    ensures r.Some? ==> MinBet <= r.value <= MaxBet
    ensures text == "" ==> r == Some(MinBet)
    ensures r.None? <==> text != "" && ParseInt(text).None?
    ensures ParseInt(text).Some? ==> r == Some(ClampBet(ParseInt(text).value, balance))
  {
    match ParseInt(text)
    case Some(v) => Some(ClampBet(v, balance))
    case None => if text == "" then Some(MinBet) else None
  }

  /** Typing an amount the clamp lets through sets the bet to exactly that amount. */
  lemma TypedAmountIsKept(n: nat, balance: real)
    requires MinBet <= n <= MaxBet && n <= balance.Floor
    ensures HandleBetChange(Decimal(n), balance) == Some(n as int)
  {
    ParseIntRoundTrip(n);
  }

  /** What a key press asks the engine to do. */
  datatype Action = NoAction | Start | RequestCashOut

  /** The keyboard handler: Enter places the bet from the lobby; `c`, `C` and space request a cash-out in any phase. */
  function KeyDispatch(key: string, phase: GamePhase): (r: Action)
    ensures r == Start <==> key == "Enter" && phase == Lobby
    ensures r == RequestCashOut <==> key in {"c", "C", " "}
  {
    if key == "Enter" && IsBettingAllowed(phase) && phase == Lobby then Start
    else if key == "c" || key == "C" || key == " " then RequestCashOut
    else NoAction
  }

  /**
   * A key can only start a round where the engine's `StartGame` may be called; a
   * cash-out request reaches the engine in every phase, and pays only when the
   * cash-out button would have been enabled.
   */
  lemma KeysRespectEngineGuards(g: Game, key: string)
    requires g.RoundConsistent()
    ensures KeyDispatch(key, g.gamePhase) == Start ==> g.gamePhase == Lobby
    ensures KeyDispatch(key, g.gamePhase) == RequestCashOut && g.CashOutTakesEffect() ==>
      CanCashOut(g.gamePhase, g.roundState)
  {
    CashOutButtonMatchesEngine(g);
  }

  /** The side-bet buttons, in the enum's order with `NONE` filtered out. */
  function SideBetButtons(): (r: seq<SideBetOption>)
    ensures NoSideBet !in r
    ensures forall i, j :: 0 <= i < j < |r| ==> r[i] != r[j]
  {
    [Under2x, Between3And5x, Above10x]
  }

  /** Every option other than `NONE` has its button. */
  lemma SideBetButtonsOfferEveryBet(option: SideBetOption)
    ensures option in SideBetButtons() <==> option != NoSideBet
  {
    match option
    case NoSideBet =>
    case Under2x => assert SideBetButtons()[0] == option;
    case Between3And5x => assert SideBetButtons()[1] == option;
    case Above10x => assert SideBetButtons()[2] == option;
  }

  /** The choice after clicking the button for `option` while `selected` is active. */
  function SideBetClick(selected: SideBetOption, option: SideBetOption): SideBetOption
  {
    if selected == option then NoSideBet else option
  }

  /** Clicking the same button twice returns to the earlier choice exactly when nothing else was chosen before. */
  lemma SideBetClickTwice(selected: SideBetOption, option: SideBetOption)
    requires option in SideBetButtons()
    ensures SideBetClick(SideBetClick(selected, option), option) == selected <==>
      selected == option || selected == NoSideBet
  {
  }

  /** The bet field can be edited only in the lobby; the side-bet buttons also stay live while the countdown runs. */
  predicate BetInputEditable(phase: GamePhase)
  {
    IsBettingAllowed(phase) && phase != Betting
  }

  lemma InputsDuringCountdown(phase: GamePhase)
    ensures BetInputEditable(phase) <==> phase == Lobby
    ensures IsBettingAllowed(Betting) && !BetInputEditable(Betting)
  {
  }
}
