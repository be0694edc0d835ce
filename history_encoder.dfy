/**
 * The history encoder of the Slumbot client: it rescans an action string into
 * the token list a decision agent looks strategies up by. The list opens with
 * the two hole-card entries, and each street break is followed by the board
 * cards that street reveals.
 */
module HistoryEncoder {
  import opened Results

  /** Stands for the hole cards of the player whose hand is not visible. */
  const MaskedHole: string := "2s2h"

  /** The only failure: a board card read past the end of the board (Python's IndexError). */
  datatype HistoryError = BoardIndexOutOfRange

  /** The actions that always form a token of their own. */
  predicate IsDiscrete(ch: char)
  {
    ch == 'k' || ch == 'c' || ch == '/'
  }

  /**
   * The inner scan, resumed at `j`, of the run that starts at `i`: it stops at
   * the next 'k', 'c', '/' or at a 'b' other than the first character.
   */
  function RunEnd(s: string, i: nat, j: nat): (e: nat)
    requires i < |s| && !IsDiscrete(s[i]) && i <= j <= |s|
    requires forall m :: i < m < j ==> !IsDiscrete(s[m]) && s[m] != 'b'
    ensures i < e <= |s| && j <= e
    ensures forall m :: i < m < e ==> !IsDiscrete(s[m]) && s[m] != 'b'
    ensures e < |s| ==> IsDiscrete(s[e]) || s[e] == 'b'
    decreases |s| - j
  {
    if j < |s| && !(IsDiscrete(s[j]) || (j != i && s[j] == 'b')) then RunEnd(s, i, j + 1) else j
  }

  /**
   * The board entry after the `stage`-th street break: the first three cards
   * joined, then the fourth card, then the fifth (for every later break too).
   */
  function BoardToken(board: seq<string>, stage: nat): (r: Result<string, HistoryError>)
    requires stage >= 1
    ensures r.Ok? <==> stage == 1 || (stage == 2 && |board| >= 4) || (stage >= 3 && |board| >= 5)
    ensures stage == 1 && |board| >= 3 ==> r == Ok(board[0] + board[1] + board[2])
    ensures stage == 2 && r.Ok? ==> r.value == board[3]
    ensures stage >= 3 && r.Ok? ==> r.value == board[4]
  {
    if stage == 1 then
      var flop := board[..if |board| < 3 then |board| else 3];
      assert |board| >= 3 ==> Concat(flop) == board[0] + board[1] + board[2] by {
        if |board| >= 3 {
          var last := flop[1..][1..];
          assert last[1..] == [] && Concat(last) == board[2] + [];
          assert Concat(flop[1..]) == board[1] + Concat(last);
          assert board[0] + (board[1] + (board[2] + [])) == board[0] + board[1] + board[2];
        }
      }
      Ok(Concat(flop))
    else if stage == 2 then (if |board| > 3 then Ok(board[3]) else Err(BoardIndexOutOfRange))
    else if |board| > 4 then Ok(board[4]) else Err(BoardIndexOutOfRange)
  }

  function Prepend(h: seq<string>, r: Result<seq<string>, HistoryError>): Result<seq<string>, HistoryError>
  {
    match r
    case Ok(t) => Ok(h + t)
    case Err(e) => Err(e)
  }

  lemma PrependTwice(h1: seq<string>, h2: seq<string>, r: Result<seq<string>, HistoryError>)
    ensures Prepend(h1, Prepend(h2, r)) == Prepend(h1 + h2, r)
  {
    if r.Ok? {
      assert h1 + (h2 + r.value) == (h1 + h2) + r.value;
    }
  }

  /** The entries the scan appends from index `i` on, `stage` street breaks having been seen. */
  function HistoryFrom(action: string, board: seq<string>, i: nat, stage: nat): (r: Result<seq<string>, HistoryError>)
    requires i <= |action|
    ensures (forall k :: i <= k < |action| ==> action[k] != '/') ==> r.Ok?
    ensures r.Ok? ==> (r.value == [] <==> i == |action|)
    decreases |action| - i
  {
    if i == |action| then Ok([])
    else if action[i] == '/' then
      match BoardToken(board, stage + 1)
      case Err(e) => Err(e)
      case Ok(cards) => Prepend(["/", cards], HistoryFrom(action, board, i + 1, stage + 1))
    else if IsDiscrete(action[i]) then
      Prepend([[action[i]]], HistoryFrom(action, board, i + 1, stage))
    else
      var j := RunEnd(action, i, i);
      Prepend([action[i..j]], HistoryFrom(action, board, j, stage))
  }

  /** The two hole-card entries: the dealer's first. */
  function Seed(holeCards: seq<string>, isDealer: bool): (s: seq<string>)
    ensures |s| == 2 && multiset(s) == multiset{MaskedHole, Concat(holeCards)}
    ensures s[if isDealer then 1 else 0] == Concat(holeCards)
  {
    if isDealer then [MaskedHole, Concat(holeCards)] else [Concat(holeCards), MaskedHole]
  }

  /** The whole history. */
  function History(holeCards: seq<string>, board: seq<string>, action: string, isDealer: bool)
    : (r: Result<seq<string>, HistoryError>)
    ensures r.Ok? ==> |r.value| >= 2 && r.value[..2] == Seed(holeCards, isDealer)
    ensures r.Ok? ==> (|r.value| == 2 <==> action == [])
    ensures (forall k :: 0 <= k < |action| ==> action[k] != '/') ==> r.Ok?
  {
    Prepend(Seed(holeCards, isDealer), HistoryFrom(action, board, 0, 0))
  }

  /** The inner scan of a run token: it stops at 'k', 'c', '/' or at a 'b' after the first character. */
  method ScanRun(action: string, i: nat) returns (j: nat)
    requires i < |action| && !IsDiscrete(action[i])
    ensures j == RunEnd(action, i, i)
  {
    j := i;
    while j < |action|
      invariant i <= j <= |action|
      invariant forall m :: i < m < j ==> !IsDiscrete(action[m]) && action[m] != 'b'
      invariant RunEnd(action, i, j) == RunEnd(action, i, i)
      decreases |action| - j
    {
      if IsDiscrete(action[j]) || (j != i && action[j] == 'b') {
        break;
      }
      j := j + 1;
    }
  }

  /** The board cards appended after the `stage`-th street break; reading past the board fails. */
  method BoardEntry(board: seq<string>, stage: nat) returns (r: Result<string, HistoryError>)
    requires stage >= 1
    ensures r == BoardToken(board, stage)
  {
    if stage == 1 {
      return Ok(Concat(board[..if |board| < 3 then |board| else 3]));
    } else if stage == 2 {
      if |board| <= 3 {
        return Err(BoardIndexOutOfRange);
      }
      return Ok(board[3]);
    } else {
      if |board| <= 4 {
        return Err(BoardIndexOutOfRange);
      }
      return Ok(board[4]);
    }
  }

  /** The client's encoder: a scan that grows the history list. It computes exactly `History`. */
  method ConvertActionToHistory(holeCards: seq<string>, board: seq<string>, action: string, isDealer: bool)
    returns (r: Result<seq<string>, HistoryError>)
    ensures r == History(holeCards, board, action, isDealer)
  {
    var stage := 0;
    var history := if isDealer then [MaskedHole, Concat(holeCards)] else [Concat(holeCards), MaskedHole];
    var i := 0;
    while i < |action|
      invariant 0 <= i <= |action|
      invariant Prepend(history, HistoryFrom(action, board, i, stage)) == History(holeCards, board, action, isDealer)
      decreases |action| - i
    {
      ghost var before, old_stage := history, stage;
      var a := action[i];
      if IsDiscrete(a) {
        if a == '/' {
          stage := stage + 1;
          var cards := BoardEntry(board, stage);
          if cards.Err? {
            return Err(cards.error);
          }
          history := history + ["/", cards.value];
          assert history[|before|..] == ["/", cards.value];
        } else {
          history := history + [[a]];
        }
        assert HistoryFrom(action, board, i, old_stage) == Prepend(history[|before|..], HistoryFrom(action, board, i + 1, stage));
        PrependTwice(before, history[|before|..], HistoryFrom(action, board, i + 1, stage));
        assert before + history[|before|..] == history;
        i := i + 1;
      } else {
        var j := ScanRun(action, i);
        history := history + [action[i..j]];
        PrependTwice(before, [action[i..j]], HistoryFrom(action, board, j, stage));
        i := j;
      }
    }
    assert history + [] == history;
    return Ok(history);
  }
}
