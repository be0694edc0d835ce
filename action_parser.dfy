/**
 * The betting-action parser of the Slumbot client: it replays an incremental
 * action string such as "b200c/kk/kk/kb200" from the post-blinds state and
 * returns the derived betting state, or the first error met.
 *
 * `StepAt` and `Run` are the specification (one token per step); the method
 * `ParseAction` is the scanning loop of the client, proved to compute `Parse`.
 */
module ActionParser {
  import opened Results

  // Fixed stakes of the client.
  const NumStreets: int := 4
  const SmallBlind: int := 50
  const BigBlind: int := 100
  const StackSize: int := 20000

  /**
   * The most digits CPython's `int()` converts from a decimal string (the
   * interpreter's default `sys.int_info.default_max_str_digits`, in force
   * since Python 3.11 and the 2022 security releases of 3.7 to 3.10); a
   * longer string, leading zeros included, raises ValueError.
   */
  const MaxStrDigits: int := 4300

  /**
   * What the parser returns on success. `pos` is -1 once the hand is over,
   * otherwise the seat to act; `lastBettor` is -1 when nobody bet since the
   * last call.
   */
  datatype BettingState = BettingState(
    st: int,
    pos: int,
    streetLastBetTo: int,
    totalLastBetTo: int,
    lastBetSize: int,
    lastBettor: int)

  /** The error strings of the client, one constructor each. */
  datatype ParseError =
    | UnexpectedError        // street index out of range
    | IllegalCheck
    | IllegalCall
    | IllegalFold
    | MissingSlash
    | MissingSlashAtEnd      // "Missing slash (end of string)"
    | ExtraCharacters        // "Extra characters at end of action"
    | MissingBetSize
    | BetSizeNotInteger
    | BetTooSmall
    | BetTooBig
    | UnexpectedCharacter

  type ParseResult = Result<BettingState, ParseError>

  /** The parser's internal accumulator: the state plus the ends-street flag. */
  datatype Scan = Scan(state: BettingState, endsStreet: bool)

  /** Outcome of one token: continue at index `next`, or stop with a result. */
  datatype Step = Next(next: nat, scan: Scan) | Stop(result: ParseResult)

  /** State after the blinds are posted, before any action. */
  function Initial(): BettingState
  {
    BettingState(0, 1, BigBlind, BigBlind, BigBlind - SmallBlind, 0)
  }

  /** The accumulator built from the client's seven loop variables. */
  function MakeScan(st: int, pos: int, streetLastBetTo: int, totalLastBetTo: int,
                 lastBetSize: int, lastBettor: int, endsStreet: bool): Scan
  {
    Scan(BettingState(st, pos, streetLastBetTo, totalLastBetTo, lastBetSize, lastBettor), endsStreet)
  }

  function Start(): Scan
  {
    Scan(Initial(), false)
  }

  predicate IsDigit(ch: char)
  {
    '0' <= ch <= '9'
  }

  predicate AllDigits(s: string)
  {
    forall k :: 0 <= k < |s| ==> IsDigit(s[k])
  }

  /** End of the maximal run of decimal digits that starts at `i`. */
  function DigitRunEnd(s: string, i: nat): (j: nat)
    requires i <= |s|
    ensures i <= j <= |s|
    ensures forall k :: i <= k < j ==> IsDigit(s[k])
    ensures j < |s| ==> !IsDigit(s[j])
    decreases |s| - i
  {
    if i < |s| && IsDigit(s[i]) then DigitRunEnd(s, i + 1) else i
  }

  function DigitOf(ch: char): nat
    requires IsDigit(ch)
  {
    ch as int - '0' as int
  }

  /** Decimal value of a digit string, as Python's `int` reads it. */
  function DigitsValue(d: string): nat
    requires AllDigits(d)
  {
    if d == [] then 0
    else DigitsValue(d[..|d| - 1]) * 10 + DigitOf(d[|d| - 1])
  }

  /** The smallest legal increment of a bet or raise in state `b`. */
  function MinBetSize(b: BettingState): (m: int)
    ensures m <= StackSize - b.streetLastBetTo
    ensures m < BigBlind ==> m == StackSize - b.streetLastBetTo
    ensures m < b.lastBetSize ==> m == StackSize - b.streetLastBetTo
    ensures m <= (if b.lastBetSize > BigBlind then b.lastBetSize else BigBlind)
  {
    var nominal :=
      if b.lastBetSize > 0 then (if b.lastBetSize < BigBlind then BigBlind else b.lastBetSize)
      else BigBlind;
    var remaining := StackSize - b.streetLastBetTo;
    if nominal > remaining then remaining else nominal
  }

  /** The seat that acts after seat `pos`. */
  function OtherSeat(pos: int): int
  {
    (pos + 1) % 2
  }

  /**
   * A check or call that ends the street; `i` is just past the 'k' or 'c'.
   * Before the river a '/' must follow unless the string ends here.
   */
  function CloseStreet(action: string, i: nat, b: BettingState): (o: Step)
    requires i <= |action|
    ensures o.Next? ==> i <= o.next <= i + 1 && o.next <= |action|
    ensures o.Stop? ==> o.result == Err(MissingSlash)
  {
    if b.st < NumStreets - 1 && i < |action| && action[i] != '/' then
      Stop(Err(MissingSlash))
    else
      var i' := if b.st < NumStreets - 1 && i < |action| then i + 1 else i;
      var b' := if b.st == NumStreets - 1 then b.(pos := -1) else b.(pos := 0, st := b.st + 1);
      Next(i', Scan(b'.(streetLastBetTo := 0), false))
  }

  /**
   * The slashes allowed after an all-in call: one per street from `st1` up to
   * the river, each required once the string goes on. Gives the index after them.
   */
  function AllInSlashes(action: string, i: nat, st1: int): (r: Result<nat, ParseError>)
    requires i <= |action|
    ensures r.Ok? ==> r.value == i + (if st1 >= NumStreets - 1 then 0 else NumStreets - 1 - st1)
    ensures r.Ok? ==> r.value <= |action| && forall k :: i <= k < r.value ==> action[k] == '/'
    ensures r.Err? ==> r.error == MissingSlash || r.error == MissingSlashAtEnd
    decreases NumStreets - 1 - st1
  {
    if st1 >= NumStreets - 1 then Ok(i)
    else if i == |action| then Err(MissingSlashAtEnd)
    else if action[i] != '/' then Err(MissingSlash)
    else AllInSlashes(action, i + 1, st1 + 1)
  }

  /** A call of an all-in bet; `i` is just past the 'c'. */
  function AllInCall(action: string, i: nat, b: BettingState): (r: ParseResult)
    requires i <= |action|
    ensures r.Ok? ==> forall k :: i <= k < |action| ==> action[k] == '/'
    ensures r.Ok? ==> r.value == b.(st := NumStreets - 1, pos := -1, lastBetSize := 0)
    ensures r.Err? ==> r.error in {MissingSlash, MissingSlashAtEnd, ExtraCharacters}
  {
    var tail := if i != |action| then AllInSlashes(action, i, b.st) else Ok(i);
    match tail
    case Err(e) => Err(e)
    case Ok(j) =>
      if j != |action| then Err(ExtraCharacters)
      else Ok(b.(st := NumStreets - 1, pos := -1, lastBetSize := 0))
  }

  /** A bet "b<digits>"; `i` is just past the 'b'. */
  function Bet(action: string, i: nat, b: BettingState): (o: Step)
    requires i <= |action|
    ensures o.Next? ==> i < o.next <= |action|
  {
    var j := DigitRunEnd(action, i);
    if j == i then Stop(Err(MissingBetSize))
    else if j - i > MaxStrDigits then Stop(Err(BetSizeNotInteger))
    else
      assert AllDigits(action[i..j]);
      var betTo := DigitsValue(action[i..j]);
      var increment := betTo - b.streetLastBetTo;
      var remaining := StackSize - b.streetLastBetTo;
      if increment < MinBetSize(b) then Stop(Err(BetTooSmall))
      else if increment > remaining then Stop(Err(BetTooBig))
      else
        Next(j, Scan(BettingState(b.st, OtherSeat(b.pos), betTo,
                                  b.totalLastBetTo + increment, increment, b.pos), true))
  }

  /** One pass of the client's scanning loop, at index `i` with accumulator `sc`. */
  function StepAt(action: string, i: nat, sc: Scan): (o: Step)
    requires i < |action|
    ensures o.Next? ==> i < o.next <= |action|
    ensures o == Stop(Err(UnexpectedError)) <==> sc.state.st >= NumStreets
    ensures o.Next? ==> sc.state.st <= o.scan.state.st < NumStreets
  {
    var b := sc.state;
    if b.st >= NumStreets then Stop(Err(UnexpectedError))
    else
      var c := action[i];
      if c == 'k' then
        if b.lastBetSize > 0 then Stop(Err(IllegalCheck))
        else if sc.endsStreet then CloseStreet(action, i + 1, b)
        else Next(i + 1, Scan(b.(pos := OtherSeat(b.pos)), true))
      else if c == 'c' then
        if b.lastBetSize == 0 then Stop(Err(IllegalCall))
        else if b.totalLastBetTo == StackSize then Stop(AllInCall(action, i + 1, b))
        else
          var o := if sc.endsStreet then CloseStreet(action, i + 1, b)
                   else Next(i + 1, Scan(b.(pos := OtherSeat(b.pos)), true));
          match o
          case Stop(r) => o
          case Next(i', sc') =>
            Next(i', Scan(sc'.state.(lastBetSize := 0, lastBettor := -1), sc'.endsStreet))
      else if c == 'f' then
        if b.lastBetSize == 0 then Stop(Err(IllegalFold))
        else if i + 1 != |action| then Stop(Err(ExtraCharacters))
        else Stop(Ok(b.(pos := -1)))
      else if c == 'b' then
        Bet(action, i + 1, b)
      else
        Stop(Err(UnexpectedCharacter))
  }

  /** Replays `action` from index `i` with accumulator `sc`. */
  function Run(action: string, i: nat, sc: Scan): (r: ParseResult)
    requires i <= |action|
    ensures 0 <= sc.state.st < NumStreets ==> r != Err(UnexpectedError)
    decreases |action| - i
  {
    if i == |action| then Ok(sc.state)
    else
      match StepAt(action, i, sc)
      case Stop(r) => r
      case Next(i', sc') => Run(action, i', sc')
  }

  lemma RunUnfold(action: string, i: nat, sc: Scan)
    requires i < |action|
    ensures Run(action, i, sc) == match StepAt(action, i, sc)
                                  case Stop(r) => r
                                  case Next(i', sc') => Run(action, i', sc')
  {
  }

  /** The meaning of the whole action string. */
  function Parse(action: string): (r: ParseResult)
    ensures action == [] ==> r == Ok(Initial())
    ensures r != Err(UnexpectedError)
  {
    Run(action, 0, Start())
  }

  /** The digit run after a 'b': advances while the character is in '0'..'9'. */
  method ScanDigits(action: string, start: nat) returns (i: nat)
    requires start <= |action|
    ensures i == DigitRunEnd(action, start)
  {
    i := start;
    while i < |action| && action[i] >= '0' && action[i] <= '9'
      invariant start <= i <= |action|
      invariant DigitRunEnd(action, i) == DigitRunEnd(action, start)
      decreases |action| - i
    {
      i := i + 1;
    }
  }

  /**
   * After an all-in call that is not at the end of the string: one '/' for
   * each street from `st` up to the river. Gives the index after them.
   */
  method ScanAllInSlashes(action: string, start: nat, st: int) returns (r: Result<nat, ParseError>)
    requires start <= |action|
    ensures r == AllInSlashes(action, start, st)
  {
    var i := start;
    var st1 := st;
    while st1 < NumStreets - 1
      invariant start <= i <= |action|
      invariant AllInSlashes(action, i, st1) == AllInSlashes(action, start, st)
      decreases NumStreets - 1 - st1
    {
      if i == |action| {
        return Err(MissingSlashAtEnd);
      }
      var c := action[i];
      i := i + 1;
      if c != '/' {
        return Err(MissingSlash);
      }
      st1 := st1 + 1;
    }
    return Ok(i);
  }

  /**
   * The client's parser: a left-to-right scan that updates the seven state
   * variables in place. It computes exactly `Parse`.
   */
  method ParseAction(action: string) returns (r: ParseResult)
    ensures r == Parse(action)
  {
    var st := 0;
    var streetLastBetTo := BigBlind;
    var totalLastBetTo := BigBlind;
    var lastBetSize := BigBlind - SmallBlind;
    var lastBettor := 0;
    var sz := |action|;
    var pos := 1;
    if sz == 0 {
      return Ok(BettingState(st, pos, streetLastBetTo, totalLastBetTo, lastBetSize, lastBettor));
    }
    var checkOrCallEndsStreet := false;
    var i := 0;
    while i < sz
      invariant 0 <= i <= sz
      invariant Run(action, i, MakeScan(st, pos, streetLastBetTo, totalLastBetTo,
                                     lastBetSize, lastBettor, checkOrCallEndsStreet))
                == Parse(action)
      decreases sz - i
    {
      ghost var i0 := i;
      ghost var sc := MakeScan(st, pos, streetLastBetTo, totalLastBetTo,
                            lastBetSize, lastBettor, checkOrCallEndsStreet);
      RunUnfold(action, i0, sc);
      if st >= NumStreets {
        return Err(UnexpectedError);
      }
      var c := action[i];
      i := i + 1;
      if c == 'k' {
        if lastBetSize > 0 {
          return Err(IllegalCheck);
        }
        if checkOrCallEndsStreet {
          // A check that ends a pre-river street is followed by '/' or the end.
          if st < NumStreets - 1 && i < sz {
            if action[i] != '/' {
              return Err(MissingSlash);
            }
            i := i + 1;
          }
          if st == NumStreets - 1 {
            pos := -1;  // showdown
          } else {
            pos := 0;
            st := st + 1;
          }
          streetLastBetTo := 0;
          checkOrCallEndsStreet := false;
        } else {
          pos := (pos + 1) % 2;
          checkOrCallEndsStreet := true;
        }
      } else if c == 'c' {
        if lastBetSize == 0 {
          return Err(IllegalCall);
        }
        if totalLastBetTo == StackSize {
          // Call of an all-in bet: no slashes, or one per street before the river.
          if i != sz {
            var tail := ScanAllInSlashes(action, i, st);
            if tail.Err? {
              return Err(tail.error);
            }
            i := tail.value;
          }
          if i != sz {
            return Err(ExtraCharacters);
          }
          st := NumStreets - 1;
          pos := -1;
          lastBetSize := 0;
          return Ok(BettingState(st, pos, streetLastBetTo, totalLastBetTo, lastBetSize, lastBettor));
        }
        if checkOrCallEndsStreet {
          // A call that ends a pre-river street is followed by '/' or the end.
          if st < NumStreets - 1 && i < sz {
            if action[i] != '/' {
              return Err(MissingSlash);
            }
            i := i + 1;
          }
          if st == NumStreets - 1 {
            pos := -1;  // showdown
          } else {
            pos := 0;
            st := st + 1;
          }
          streetLastBetTo := 0;
          checkOrCallEndsStreet := false;
        } else {
          pos := (pos + 1) % 2;
          checkOrCallEndsStreet := true;
        }
        lastBetSize := 0;
        lastBettor := -1;
      } else if c == 'f' {
        if lastBetSize == 0 {
          return Err(IllegalFold);
        }
        if i != sz {
          return Err(ExtraCharacters);
        }
        pos := -1;
        return Ok(BettingState(st, pos, streetLastBetTo, totalLastBetTo, lastBetSize, lastBettor));
      } else if c == 'b' {
        var j := i;
        i := ScanDigits(action, j);
        if i == j {
          return Err(MissingBetSize);
        }
        if i - j > MaxStrDigits {
          // int() refuses a string of more digits than the interpreter's limit.
          return Err(BetSizeNotInteger);
        }
        var newStreetLastBetTo := DigitsValue(action[j..i]);
        var newLastBetSize := newStreetLastBetTo - streetLastBetTo;
        // Validate that the bet is legal.
        var remaining := StackSize - streetLastBetTo;
        var minBetSize;
        if lastBetSize > 0 {
          minBetSize := lastBetSize;
          // The minimum opening bet is the big blind.
          if minBetSize < BigBlind {
            minBetSize := BigBlind;
          }
        } else {
          minBetSize := BigBlind;
        }
        // An all-in is always allowed.
        if minBetSize > remaining {
          minBetSize := remaining;
        }
        if newLastBetSize < minBetSize {
          return Err(BetTooSmall);
        }
        var maxBetSize := remaining;
        if newLastBetSize > maxBetSize {
          return Err(BetTooBig);
        }
        lastBetSize := newLastBetSize;
        streetLastBetTo := newStreetLastBetTo;
        totalLastBetTo := totalLastBetTo + lastBetSize;
        lastBettor := pos;
        pos := (pos + 1) % 2;
        checkOrCallEndsStreet := true;
      } else {
        return Err(UnexpectedCharacter);
      }
      assert StepAt(action, i0, sc) == Next(i, MakeScan(st, pos, streetLastBetTo, totalLastBetTo,
                                                     lastBetSize, lastBettor, checkOrCallEndsStreet));
    }
    return Ok(BettingState(st, pos, streetLastBetTo, totalLastBetTo, lastBetSize, lastBettor));
  }
}
