/**
 * What the action parser guarantees: the legality rule of each action letter,
 * the bet-size bounds, street closing, the all-in collapse, the invariants of
 * every reachable state, and concrete scenarios.
 */
module ParserProperties {
  import opened Results
  import opened ActionParser

  /** The invariants every state reachable from the blinds satisfies. */
  predicate ValidState(b: BettingState)
  {
    && 0 <= b.st < NumStreets
    && -1 <= b.pos <= 1
    && -1 <= b.lastBettor <= 1
    && 0 <= b.lastBetSize <= b.streetLastBetTo <= StackSize
    && b.streetLastBetTo <= b.totalLastBetTo
    && BigBlind <= b.totalLastBetTo
  }

  /** `b2` is at least as far along as `b1`: same or later street, no chips taken back. */
  predicate Progress(b1: BettingState, b2: BettingState)
  {
    b1.st <= b2.st && b1.totalLastBetTo <= b2.totalLastBetTo
  }

  /** At index `k` stands a 'b' whose digit run is too long for `int()`. */
  predicate LongBetAt(action: string, k: nat)
    requires k < |action|
  {
    action[k] == 'b' && DigitRunEnd(action, k + 1) - (k + 1) > MaxStrDigits
  }

  /** n street separators. */
  function Slashes(n: nat): (s: string)
    ensures |s| == n && forall k :: 0 <= k < n ==> s[k] == '/'
  {
    seq(n, _ => '/')
  }

  // ---------------------------------------------------------------------------
  // The empty string and the letters k, c, f

  lemma EmptyIsInitial()
    ensures Parse("") == Ok(BettingState(0, 1, 100, 100, 50, 0))
  {
  }

  /** A check is refused exactly when a bet is outstanding; a first check passes the turn. */
  lemma CheckRule(action: string, i: nat, sc: Scan)
    requires i < |action| && action[i] == 'k' && 0 <= sc.state.st < NumStreets
    ensures StepAt(action, i, sc) == Stop(Err(IllegalCheck)) <==> sc.state.lastBetSize > 0
    ensures sc.state.lastBetSize <= 0 && !sc.endsStreet ==>
              StepAt(action, i, sc) == Next(i + 1, Scan(sc.state.(pos := OtherSeat(sc.state.pos)), true))
  {
  }

  /** A call is refused exactly when no bet is outstanding; a call that does not end the street passes the turn. */
  lemma CallRule(action: string, i: nat, sc: Scan)
    requires i < |action| && action[i] == 'c' && 0 <= sc.state.st < NumStreets
    ensures StepAt(action, i, sc) == Stop(Err(IllegalCall)) <==> sc.state.lastBetSize == 0
    ensures sc.state.lastBetSize != 0 && sc.state.totalLastBetTo != StackSize && !sc.endsStreet ==>
              StepAt(action, i, sc) ==
                Next(i + 1, Scan(sc.state.(pos := OtherSeat(sc.state.pos), lastBetSize := 0, lastBettor := -1), true))
  {
    if sc.state.lastBetSize != 0 && sc.state.totalLastBetTo == StackSize && i + 1 < |action| {
      AllInSlashesExact(action, i + 1, sc.state.st);
    }
  }

  /**
   * A fold is refused when no bet is outstanding, must be the last character,
   * and otherwise ends the hand with every other field unchanged.
   */
  lemma FoldRule(action: string, i: nat, sc: Scan)
    requires i < |action| && action[i] == 'f' && 0 <= sc.state.st < NumStreets
    ensures Run(action, i, sc) == Err(IllegalFold) <==> sc.state.lastBetSize == 0
    ensures sc.state.lastBetSize != 0 && i + 1 < |action| ==> Run(action, i, sc) == Err(ExtraCharacters)
    ensures Run(action, i, sc) == Ok(sc.state.(pos := -1)) <==>
              sc.state.lastBetSize != 0 && i + 1 == |action|
  {
  }

  /**
   * A check (no bet outstanding) or a non-all-in call that ends the street.
   * Before the river it must be followed by '/' or the end of the string; it
   * then opens the next street with seat 0 to act. On the river it ends the
   * hand at showdown and the street stays the river. A call also clears the
   * outstanding bet and the last bettor.
   */
  lemma StreetCloseRule(action: string, i: nat, sc: Scan)
    requires i < |action| && 0 <= sc.state.st < NumStreets && sc.endsStreet
    requires (action[i] == 'k' && sc.state.lastBetSize <= 0)
          || (action[i] == 'c' && sc.state.lastBetSize != 0 && sc.state.totalLastBetTo != StackSize)
    ensures var b := sc.state;
            var b' := if action[i] == 'c' then b.(lastBetSize := 0, lastBettor := -1) else b;
            && (b.st < NumStreets - 1 && i + 1 < |action| && action[i + 1] != '/' ==>
                  StepAt(action, i, sc) == Stop(Err(MissingSlash)))
            && (b.st < NumStreets - 1 && i + 1 < |action| && action[i + 1] == '/' ==>
                  StepAt(action, i, sc) == Next(i + 2, Scan(b'.(st := b.st + 1, pos := 0, streetLastBetTo := 0), false)))
            && (b.st < NumStreets - 1 && i + 1 == |action| ==>
                  StepAt(action, i, sc) == Next(i + 1, Scan(b'.(st := b.st + 1, pos := 0, streetLastBetTo := 0), false)))
            && (b.st == NumStreets - 1 ==>
                  StepAt(action, i, sc) == Next(i + 1, Scan(b'.(pos := -1, streetLastBetTo := 0), false)))
  {
  }

  // ---------------------------------------------------------------------------
  // Bets

  /**
   * A bet "b<N>" is read from the maximal digit run after the 'b'. A run of
   * more than MaxStrDigits digits is not an integer to `int()`. Otherwise, with
   * increment N - streetLastBetTo and remaining StackSize - streetLastBetTo it
   * is accepted exactly when MinBetSize <= increment <= remaining; then N
   * becomes the street level, the total grows by the increment, the bettor is
   * recorded, the turn passes and the next check or call ends the street.
   */
  lemma BetRule(action: string, i: nat, sc: Scan)
    requires i < |action| && action[i] == 'b' && 0 <= sc.state.st < NumStreets
    ensures var j := DigitRunEnd(action, i + 1);
            StepAt(action, i, sc) == Stop(Err(MissingBetSize)) <==> j == i + 1
    ensures var j := DigitRunEnd(action, i + 1);
            j > i + 1 ==>
              (StepAt(action, i, sc) == Stop(Err(BetSizeNotInteger)) <==> j - (i + 1) > MaxStrDigits)
    ensures var j := DigitRunEnd(action, i + 1);
            var b := sc.state;
            j > i + 1 && j - (i + 1) <= MaxStrDigits ==>
              var betTo := DigitsValue(action[i + 1..j]);
              var increment := betTo - b.streetLastBetTo;
              && (StepAt(action, i, sc) == Stop(Err(BetTooSmall)) <==> increment < MinBetSize(b))
              && (StepAt(action, i, sc) == Stop(Err(BetTooBig)) <==>
                    MinBetSize(b) <= increment && increment > StackSize - b.streetLastBetTo)
              && (StepAt(action, i, sc).Next? <==>
                    MinBetSize(b) <= increment <= StackSize - b.streetLastBetTo)
              && (StepAt(action, i, sc).Next? ==>
                    StepAt(action, i, sc) ==
                      Next(j, Scan(BettingState(b.st, OtherSeat(b.pos), betTo, b.totalLastBetTo + increment,
                                                increment, b.pos), true)))
  {
  }

  // ---------------------------------------------------------------------------
  // All-in call

  /** The slash run after an all-in call: exactly one '/' per street left before the river. */
  lemma {:induction false} AllInSlashesExact(action: string, i: nat, st1: int)
    requires i <= |action| && 0 <= st1 < NumStreets
    ensures var n := NumStreets - 1 - st1;
            AllInSlashes(action, i, st1).Ok? <==> i + n <= |action| && action[i..i + n] == Slashes(n)
    ensures AllInSlashes(action, i, st1).Ok? ==> AllInSlashes(action, i, st1).value == i + NumStreets - 1 - st1
    ensures AllInSlashes(action, i, st1).Err? ==> AllInSlashes(action, i, st1).error in {MissingSlash, MissingSlashAtEnd}
    decreases NumStreets - st1
  {
    var n := NumStreets - 1 - st1;
    if st1 == NumStreets - 1 {
      assert action[i..i + n] == [] == Slashes(n);
    } else if i == |action| {
    } else if action[i] != '/' {
      if i + n <= |action| {
        assert action[i..i + n][0] != Slashes(n)[0];
      }
    } else {
      AllInSlashesExact(action, i + 1, st1 + 1);
      assert Slashes(n) == ['/'] + Slashes(n - 1);
      if i + n <= |action| {
        assert action[i..i + n] == [action[i]] + action[i + 1..i + 1 + (n - 1)];
      }
    }
  }

  /**
   * Calling an all-in bet ends the hand: it is accepted only with nothing
   * after it or with exactly the slashes of the streets left and then the
   * end; the result is the river, hand over, no bet outstanding, with the
   * committed amounts and the last bettor unchanged.
   */
  lemma AllInCallRule(action: string, i: nat, sc: Scan)
    requires i < |action| && action[i] == 'c' && 0 <= sc.state.st < NumStreets
    requires sc.state.lastBetSize != 0 && sc.state.totalLastBetTo == StackSize
    ensures var b := sc.state;
            var rest := action[i + 1..];
            Run(action, i, sc) == Ok(b.(st := NumStreets - 1, pos := -1, lastBetSize := 0)) <==>
              rest == [] || rest == Slashes(NumStreets - 1 - b.st)
    ensures Run(action, i, sc).Err? ==> Run(action, i, sc).error in {MissingSlash, MissingSlashAtEnd, ExtraCharacters}
  {
    var b := sc.state;
    var n := NumStreets - 1 - b.st;
    if i + 1 < |action| {
      AllInSlashesExact(action, i + 1, b.st);
      if action[i + 1..] == Slashes(n) {
        assert action[i + 1..i + 1 + n] == Slashes(n);
      } else if AllInSlashes(action, i + 1, b.st).Ok? {
        assert action[i + 1..i + 1 + n] == Slashes(n);
        var rest, slashRun := action[i + 1..], action[i + 1..i + 1 + n];
        assert i + 1 + n == |action| ==> rest == slashRun;
      }
    }
  }

  // ---------------------------------------------------------------------------
  // Invariants of every reachable state

  lemma StepKeepsValid(action: string, i: nat, sc: Scan)
    requires i < |action| && ValidState(sc.state)
    ensures match StepAt(action, i, sc)
            case Next(_, sc') => ValidState(sc'.state) && Progress(sc.state, sc'.state)
            case Stop(Ok(b')) => ValidState(b') && Progress(sc.state, b')
            case Stop(Err(e)) => e != UnexpectedError && (e == BetSizeNotInteger ==> LongBetAt(action, i))
  {
  }

  lemma {:induction false} RunKeepsValid(action: string, i: nat, sc: Scan)
    requires i <= |action| && ValidState(sc.state)
    ensures Run(action, i, sc).Ok? ==> ValidState(Run(action, i, sc).value) && Progress(sc.state, Run(action, i, sc).value)
    ensures Run(action, i, sc) == Err(BetSizeNotInteger) ==> exists k :: i <= k < |action| && LongBetAt(action, k)
    decreases |action| - i
  {
    if i < |action| {
      StepKeepsValid(action, i, sc);
      match StepAt(action, i, sc)
      case Stop(_) =>
      case Next(i', sc') => RunKeepsValid(action, i', sc');
    }
  }

  /**
   * Every parse succeeds with a state on one of the four streets, with the
   * street level between 0 and the stack, and the total never below the big
   * blind; "Bet size not an integer" is reported only when some 'b' is
   * followed by more digits than `int()` converts.
   */
  lemma ParseIsValid(action: string)
    ensures Parse(action).Ok? ==> ValidState(Parse(action).value)
    ensures Parse(action) == Err(BetSizeNotInteger) ==> exists k :: 0 <= k < |action| && LongBetAt(action, k)
  {
    RunKeepsValid(action, 0, Start());
  }

  lemma {:induction false} DigitRunThrough(s: string, i: nat, j: nat)
    requires i <= j <= |s|
    requires forall k :: i <= k < j ==> IsDigit(s[k])
    requires j == |s| || !IsDigit(s[j])
    ensures DigitRunEnd(s, i) == j
    decreases j - i
  {
    if i < j {
      DigitRunThrough(s, i + 1, j);
    }
  }

  /**
   * An opening bet of more than MaxStrDigits digits is "Bet size not an
   * integer" whatever its value, leading zeros included.
   */
  lemma LongBetRefused(digits: string, rest: string)
    requires AllDigits(digits) && |digits| > MaxStrDigits
    requires rest == [] || !IsDigit(rest[0])
    ensures Parse("b" + digits + rest) == Err(BetSizeNotInteger)
  {
    var s := "b" + digits + rest;
    var j := 1 + |digits|;
    assert forall k :: 1 <= k < j ==> s[k] == digits[k - 1];
    assert j < |s| ==> s[j] == rest[0];
    DigitRunThrough(s, 1, j);
    RunUnfold(s, 0, Start());
  }

  // ---------------------------------------------------------------------------
  // Scenarios

  /** The decimal values of the bet sizes used in the scenarios below. */
  lemma BetAmounts()
    ensures DigitsValue("150") == 150 && DigitsValue("200") == 200
    ensures DigitsValue("10000") == 10000 && DigitsValue("20000") == 20000
  {
    assert "15"[..1] == "1" && "150"[..2] == "15";
    assert "20"[..1] == "2" && "200"[..2] == "20";
    assert "10"[..1] == "1" && "100"[..2] == "10" && "1000"[..3] == "100" && "10000"[..4] == "1000";
    assert "2000"[..3] == "200" && "20000"[..4] == "2000";
  }

  // Scenarios at the stakes 50/100 with a 20000 stack.

  /** No check into the live big blind. */
  lemma ScenarioCheckIntoBlind()
    ensures Parse("k") == Err(IllegalCheck)
  {
  }

  /** The small blind completes; the big blind is to act with no bet outstanding. */
  lemma ScenarioLimpPreflop()
    ensures Parse("c") == Ok(BettingState(0, 0, 100, 100, 0, -1))
  {
  }

  /** A completed blind and a check close the preflop street; the slash is optional at the end. */
  lemma ScenarioLimpCheck()
    ensures Parse("ck") == Ok(BettingState(1, 0, 0, 100, 0, -1))
  {
    var s := "ck";
    var r: ParseResult := Ok(BettingState(1, 0, 0, 100, 0, -1));
    assert Run(s, 1, Scan(BettingState(0, 0, 100, 100, 0, -1), true)) == r;
  }

  lemma ScenarioLimpCheckSlash()
    ensures Parse("ck/") == Ok(BettingState(1, 0, 0, 100, 0, -1))
  {
    var s := "ck/";
    var r: ParseResult := Ok(BettingState(1, 0, 0, 100, 0, -1));
    assert Run(s, 1, Scan(BettingState(0, 0, 100, 100, 0, -1), true)) == r;
  }

  /** A raise to 150 adds only 50, below the big blind. */
  lemma ScenarioRaiseTooSmall()
    ensures Parse("b150") == Err(BetTooSmall)
  {
    var s := "b150";
    var r: ParseResult := Err(BetTooSmall);
    BetAmounts();
    assert s[1..4] == "150";
  }

  /** An all-in called preflop goes straight to showdown. */
  lemma ScenarioAllInCalled()
    ensures Parse("b20000c") == Ok(BettingState(3, -1, 20000, 20000, 0, 1))
  {
    var s := "b20000c";
    var r: ParseResult := Ok(BettingState(3, -1, 20000, 20000, 0, 1));
    BetAmounts();
    assert s[1..6] == "20000";
    assert Run(s, 6, Scan(BettingState(0, 0, 20000, 20000, 19900, 1), true)) == r;
  }

  /** A hand played to a river bet. */
  lemma ScenarioRiverBet()
    ensures Parse("b200c/kk/kk/kb200") == Ok(BettingState(3, 0, 200, 400, 200, 1))
  {
    var s := "b200c/kk/kk/kb200";
    var r: ParseResult := Ok(BettingState(3, 0, 200, 400, 200, 1));
    BetAmounts();
    RiverBetFlop();
    assert s[1..4] == "200";
    assert Run(s, 4, Scan(BettingState(0, 0, 200, 200, 100, 1), true)) == r;
  }

  /** The flop of `ScenarioRiverBet`, checked through. */
  lemma RiverBetFlop()
    ensures Run("b200c/kk/kk/kb200", 6, Scan(BettingState(1, 0, 0, 200, 0, -1), false))
            == Ok(BettingState(3, 0, 200, 400, 200, 1))
  {
    var s := "b200c/kk/kk/kb200";
    var r: ParseResult := Ok(BettingState(3, 0, 200, 400, 200, 1));
    RiverBetTurn();
    assert Run(s, 7, Scan(BettingState(1, 1, 0, 200, 0, -1), true)) == r;
  }

  /** The turn of `ScenarioRiverBet`, checked through. */
  lemma RiverBetTurn()
    ensures Run("b200c/kk/kk/kb200", 9, Scan(BettingState(2, 0, 0, 200, 0, -1), false))
            == Ok(BettingState(3, 0, 200, 400, 200, 1))
  {
    var s := "b200c/kk/kk/kb200";
    var r: ParseResult := Ok(BettingState(3, 0, 200, 400, 200, 1));
    RiverBetRiver();
    assert StepAt(s, 10, Scan(BettingState(2, 1, 0, 200, 0, -1), true))
           == Next(12, Scan(BettingState(3, 0, 0, 200, 0, -1), false));
    assert Run(s, 10, Scan(BettingState(2, 1, 0, 200, 0, -1), true)) == r;
  }

  /** The river of `ScenarioRiverBet`: a check, then a bet to 200. */
  lemma RiverBetRiver()
    ensures Run("b200c/kk/kk/kb200", 12, Scan(BettingState(3, 0, 0, 200, 0, -1), false))
            == Ok(BettingState(3, 0, 200, 400, 200, 1))
  {
    var s := "b200c/kk/kk/kb200";
    var r: ParseResult := Ok(BettingState(3, 0, 200, 400, 200, 1));
    BetAmounts();
    assert s[14..17] == "200";
    assert Run(s, 13, Scan(BettingState(3, 1, 0, 200, 0, -1), true)) == r;
  }

  /** With nothing to call, a fold is illegal. */
  lemma ScenarioFoldWithoutBet()
    ensures Parse("cf") == Err(IllegalFold)
  {
    var s := "cf";
    var r: ParseResult := Err(IllegalFold);
    assert Run(s, 1, Scan(BettingState(0, 0, 100, 100, 0, -1), true)) == r;
  }

  /** A fold ends the hand and leaves every other field as it was. */
  lemma ScenarioFoldToRaise()
    ensures Parse("b200f") == Ok(BettingState(0, -1, 200, 200, 100, 1))
  {
    var s := "b200f";
    var r: ParseResult := Ok(BettingState(0, -1, 200, 200, 100, 1));
    BetAmounts();
    assert s[1..4] == "200";
    assert Run(s, 4, Scan(BettingState(0, 0, 200, 200, 100, 1), true)) == r;
  }

  /** Nothing may follow a fold. */
  lemma ScenarioActionAfterFold()
    ensures Parse("b200fk") == Err(ExtraCharacters)
  {
    var s := "b200fk";
    var r: ParseResult := Err(ExtraCharacters);
    BetAmounts();
    assert s[1..4] == "200";
    assert Run(s, 4, Scan(BettingState(0, 0, 200, 200, 100, 1), true)) == r;
  }

  /** The street stays the river after showdown, so a further check is still read. */
  lemma ScenarioCheckAfterShowdown()
    ensures Parse("ck/kk/kk/kkk") == Ok(BettingState(3, 0, 0, 100, 0, -1))
  {
    var s := "ck/kk/kk/kkk";
    var r: ParseResult := Ok(BettingState(3, 0, 0, 100, 0, -1));
    assert Run(s, 11, Scan(BettingState(3, -1, 0, 100, 0, -1), false)) == r;
    assert Run(s, 10, Scan(BettingState(3, 1, 0, 100, 0, -1), true)) == r;
    assert Run(s, 9, Scan(BettingState(3, 0, 0, 100, 0, -1), false)) == r;
    assert Run(s, 7, Scan(BettingState(2, 1, 0, 100, 0, -1), true)) == r;
    assert Run(s, 6, Scan(BettingState(2, 0, 0, 100, 0, -1), false)) == r;
    assert Run(s, 4, Scan(BettingState(1, 1, 0, 100, 0, -1), true)) == r;
    assert Run(s, 3, Scan(BettingState(1, 0, 0, 100, 0, -1), false)) == r;
    assert Run(s, 1, Scan(BettingState(0, 0, 100, 100, 0, -1), true)) == r;
  }

  /** A slash after the river closes is an unexpected character. */
  lemma ScenarioSlashAfterRiver()
    ensures Parse("ck/kk/kk/kk/") == Err(UnexpectedCharacter)
  {
    var s := "ck/kk/kk/kk/";
    var r: ParseResult := Err(UnexpectedCharacter);
    assert Run(s, 11, Scan(BettingState(3, -1, 0, 100, 0, -1), false)) == r;
    assert Run(s, 10, Scan(BettingState(3, 1, 0, 100, 0, -1), true)) == r;
    assert Run(s, 9, Scan(BettingState(3, 0, 0, 100, 0, -1), false)) == r;
    assert Run(s, 7, Scan(BettingState(2, 1, 0, 100, 0, -1), true)) == r;
    assert Run(s, 6, Scan(BettingState(2, 0, 0, 100, 0, -1), false)) == r;
    assert Run(s, 4, Scan(BettingState(1, 1, 0, 100, 0, -1), true)) == r;
    assert Run(s, 3, Scan(BettingState(1, 0, 0, 100, 0, -1), false)) == r;
    assert Run(s, 1, Scan(BettingState(0, 0, 100, 100, 0, -1), true)) == r;
  }

  /** A street closed before the river needs a slash before the next action. */
  lemma ScenarioMissingStreetBreak()
    ensures Parse("ckk") == Err(MissingSlash)
  {
    var s := "ckk";
    var r: ParseResult := Err(MissingSlash);
    assert Run(s, 1, Scan(BettingState(0, 0, 100, 100, 0, -1), true)) == r;
  }

  /** After an all-in call: all three remaining slashes ... */
  lemma ScenarioAllInAllSlashes()
    ensures Parse("b20000c///") == Ok(BettingState(3, -1, 20000, 20000, 0, 1))
  {
    var s := "b20000c///";
    var r: ParseResult := Ok(BettingState(3, -1, 20000, 20000, 0, 1));
    BetAmounts();
    assert s[1..6] == "20000";
    assert AllInSlashes(s, 10, 3) == Ok(10);
    assert AllInSlashes(s, 9, 2) == Ok(10);
    assert AllInSlashes(s, 8, 1) == Ok(10);
    assert AllInSlashes(s, 7, 0) == Ok(10);
    assert Run(s, 6, Scan(BettingState(0, 0, 20000, 20000, 19900, 1), true)) == r;
  }

  /** ... but not fewer ... */
  lemma ScenarioAllInTooFewSlashes()
    ensures Parse("b20000c//") == Err(MissingSlashAtEnd)
  {
    var s := "b20000c//";
    var r: ParseResult := Err(MissingSlashAtEnd);
    BetAmounts();
    assert s[1..6] == "20000";
    assert AllInSlashes(s, 9, 2) == Err(MissingSlashAtEnd);
    assert AllInSlashes(s, 8, 1) == Err(MissingSlashAtEnd);
    assert AllInSlashes(s, 7, 0) == Err(MissingSlashAtEnd);
    assert Run(s, 6, Scan(BettingState(0, 0, 20000, 20000, 19900, 1), true)) == r;
  }

  /** ... nor an action in their place ... */
  lemma ScenarioAllInActionAfterSlash()
    ensures Parse("b20000c/k") == Err(MissingSlash)
  {
    var s := "b20000c/k";
    var r: ParseResult := Err(MissingSlash);
    BetAmounts();
    assert s[1..6] == "20000";
    assert AllInSlashes(s, 8, 1) == Err(MissingSlash);
    assert AllInSlashes(s, 7, 0) == Err(MissingSlash);
    assert Run(s, 6, Scan(BettingState(0, 0, 20000, 20000, 19900, 1), true)) == r;
  }

  /** ... nor more. */
  lemma ScenarioAllInTooManySlashes()
    ensures Parse("b20000c////") == Err(ExtraCharacters)
  {
    var s := "b20000c////";
    var r: ParseResult := Err(ExtraCharacters);
    BetAmounts();
    assert s[1..6] == "20000";
    assert AllInSlashes(s, 10, 3) == Ok(10);
    assert AllInSlashes(s, 9, 2) == Ok(10);
    assert AllInSlashes(s, 8, 1) == Ok(10);
    assert AllInSlashes(s, 7, 0) == Ok(10);
    assert Run(s, 6, Scan(BettingState(0, 0, 20000, 20000, 19900, 1), true)) == r;
  }

  /** With nothing left behind, a bet to the same level is accepted with increment 0. */
  lemma ScenarioZeroIncrementReraise()
    ensures Parse("b20000b20000") == Ok(BettingState(0, 1, 20000, 20000, 0, 0))
  {
    var s := "b20000b20000";
    BetAmounts();
    assert s[1..6] == "20000";
    ZeroIncrementRaise();
    assert StepAt(s, 0, Start()) == Next(6, Scan(BettingState(0, 0, 20000, 20000, 19900, 1), true));
  }

  /** The reraise of `ScenarioZeroIncrementReraise`: nothing is left behind, so an increment of 0 is enough. */
  lemma ZeroIncrementRaise()
    ensures Run("b20000b20000", 6, Scan(BettingState(0, 0, 20000, 20000, 19900, 1), true))
            == Ok(BettingState(0, 1, 20000, 20000, 0, 0))
  {
    var s := "b20000b20000";
    var sc' := Scan(BettingState(0, 1, 20000, 20000, 0, 0), true);
    BetAmounts();
    assert s[7..12] == "20000";
    assert StepAt(s, 6, Scan(BettingState(0, 0, 20000, 20000, 19900, 1), true)) == Next(12, sc');
    assert Run(s, 12, sc') == Ok(sc'.state);
  }

  /** The stack bound is per street, so the total can pass the stack. */
  lemma ScenarioTotalAboveStack()
    ensures Parse("b200c/b20000") == Ok(BettingState(1, 1, 20000, 20200, 20000, 0))
  {
    var s := "b200c/b20000";
    var r: ParseResult := Ok(BettingState(1, 1, 20000, 20200, 20000, 0));
    BetAmounts();
    assert s[1..4] == "200" && s[7..12] == "20000";
    assert Run(s, 6, Scan(BettingState(1, 0, 0, 200, 0, -1), false)) == r;
    assert Run(s, 4, Scan(BettingState(0, 0, 200, 200, 100, 1), true)) == r;
  }

  /** A 'b' needs digits. */
  lemma ScenarioMissingAmount()
    ensures Parse("b") == Err(MissingBetSize)
  {
  }

  /** Letters outside the alphabet are refused. */
  lemma ScenarioUnknownLetter()
    ensures Parse("b200x") == Err(UnexpectedCharacter)
  {
    var s := "b200x";
    var r: ParseResult := Err(UnexpectedCharacter);
    BetAmounts();
    assert s[1..4] == "200";
    assert Run(s, 4, Scan(BettingState(0, 0, 200, 200, 100, 1), true)) == r;
  }

  /**
   * Parsing is not prefix-closed: "ck" parses with no bet outstanding, so a
   * check is legal next, yet "ckk" is refused because the street break "/"
   * must come first; and "b20000c//" is refused though "b20000c///" is
   * accepted.
   */
  lemma NotPrefixClosed()
    ensures Parse("ck").Ok? && Parse("ck").value.lastBetSize == 0 && Parse("ckk") == Err(MissingSlash)
    ensures Parse("b20000c//").Err? && Parse("b20000c///").Ok?
  {
    ScenarioLimpCheck();
    ScenarioMissingStreetBreak();
    ScenarioAllInTooFewSlashes();
    ScenarioAllInAllSlashes();
  }
}
