/**
 * What the history encoder guarantees: how the action string is cut into
 * tokens, that the action tokens put back together give the action string,
 * where the board entries go, and when the board is long enough.
 */
module HistoryProperties {
  import opened Results
  import opened HistoryEncoder

  /** The action tokens of `action` from index `i` on, as the encoder cuts them. */
  function Tokens(action: string, i: nat): seq<string>
    requires i <= |action|
    decreases |action| - i
  {
    if i == |action| then []
    else if IsDiscrete(action[i]) then [[action[i]]] + Tokens(action, i + 1)
    else
      var j := RunEnd(action, i, i);
      [action[i..j]] + Tokens(action, j)
  }

  /** The entries of a history body that are not board entries: each "/" is followed by one board entry. */
  function StripBoard(h: seq<string>): seq<string>
  {
    if h == [] then []
    else if h[0] == "/" && |h| >= 2 then [h[0]] + StripBoard(h[2..])
    else [h[0]] + StripBoard(h[1..])
  }

  /** The board entries of a history body, in order. */
  function BoardEntries(h: seq<string>): seq<string>
  {
    if h == [] then []
    else if h[0] == "/" && |h| >= 2 then [h[1]] + BoardEntries(h[2..])
    else BoardEntries(h[1..])
  }

  function SlashCount(s: string): nat
  {
    if s == [] then 0 else (if s[0] == '/' then 1 else 0) + SlashCount(s[1..])
  }

  // ---------------------------------------------------------------------------
  // The token cut

  lemma {:induction false} ConcatCons(t: string, rest: seq<string>)
    ensures Concat([t] + rest) == t + Concat(rest)
  {
    assert ([t] + rest)[1..] == rest;
  }

  /** Putting the tokens back together gives the action string: nothing is lost or reordered. */
  lemma {:induction false} TokensRoundTrip(action: string, i: nat)
    requires i <= |action|
    ensures Concat(Tokens(action, i)) == action[i..]
    decreases |action| - i
  {
    if i < |action| {
      var j := if IsDiscrete(action[i]) then i + 1 else RunEnd(action, i, i);
      assert action[i..i + 1] == [action[i]];
      assert Tokens(action, i) == [action[i..j]] + Tokens(action, j);
      TokensRoundTrip(action, j);
      ConcatCons(action[i..j], Tokens(action, j));
      assert action[i..j] + action[j..] == action[i..];
    }
  }

  lemma TokensHead(action: string, i: nat)
    requires i < |action|
    ensures |Tokens(action, i)| > 0 && |Tokens(action, i)[0]| > 0 && Tokens(action, i)[0][0] == action[i]
  {
  }

  /**
   * A token is non-empty; 'k', 'c' and '/' are tokens of one character; no
   * token holds 'k', 'c', '/' or 'b' after its first character.
   */
  predicate TokenShape(t: string)
  {
    && |t| > 0
    && (IsDiscrete(t[0]) ==> |t| == 1)
    && forall m :: 0 < m < |t| ==> !IsDiscrete(t[m]) && t[m] != 'b'
  }

  /** Where a token ends and the next begins: after a run only at 'k', 'c', '/' or 'b'. */
  predicate RunBoundary(prev: string, next: string)
  {
    prev != [] && next != [] && (IsDiscrete(prev[0]) || IsDiscrete(next[0]) || next[0] == 'b')
  }

  /**
   * Every token has the shape above, and a token that follows a run (a token
   * not starting with 'k', 'c' or '/') starts with 'k', 'c', '/' or 'b': each
   * run is as long as it can be.
   */
  lemma {:induction false} TokensShape(action: string, i: nat)
    requires i <= |action|
    ensures forall k :: 0 <= k < |Tokens(action, i)| ==> TokenShape(Tokens(action, i)[k])
    ensures forall k :: 0 < k < |Tokens(action, i)| ==> RunBoundary(Tokens(action, i)[k - 1], Tokens(action, i)[k])
    decreases |action| - i
  {
    if i < |action| {
      var j := if IsDiscrete(action[i]) then i + 1 else RunEnd(action, i, i);
      var toks := Tokens(action, i);
      var rest := Tokens(action, j);
      assert action[i..i + 1] == [action[i]];
      assert toks == [action[i..j]] + rest;
      TokensShape(action, j);
      if j < |action| {
        TokensHead(action, j);
      }
      assert TokenShape(toks[0]);
      forall k | 0 < k < |toks|
        ensures TokenShape(toks[k])
        ensures RunBoundary(toks[k - 1], toks[k])
      {
        assert toks[k] == rest[k - 1];
        if k > 1 {
          assert toks[k - 1] == rest[k - 2];
        }
      }
    }
  }

  // ---------------------------------------------------------------------------
  // The history body

  lemma {:induction false} SlashCountCons(s: string, i: nat)
    requires i < |s|
    ensures SlashCount(s[i..]) == (if s[i] == '/' then 1 else 0) + SlashCount(s[i + 1..])
  {
    assert s[i..][1..] == s[i + 1..];
  }

  lemma {:induction false} SlashCountRun(s: string, i: nat, j: nat)
    requires i <= j <= |s|
    requires forall m :: i <= m < j ==> s[m] != '/'
    ensures SlashCount(s[i..]) == SlashCount(s[j..])
    decreases j - i
  {
    if i < j {
      SlashCountCons(s, i);
      SlashCountRun(s, i + 1, j);
    }
  }

  /** Removing the board entries from the body the encoder builds from index `i` gives the action tokens. */
  lemma {:induction false} BodyTokens(action: string, board: seq<string>, i: nat, stage: nat)
    requires i <= |action|
    ensures HistoryFrom(action, board, i, stage).Ok? ==>
              StripBoard(HistoryFrom(action, board, i, stage).value) == Tokens(action, i)
    decreases |action| - i
  {
    if i < |action| && HistoryFrom(action, board, i, stage).Ok? {
      var body := HistoryFrom(action, board, i, stage).value;
      if action[i] == '/' {
        var rest := HistoryFrom(action, board, i + 1, stage + 1).value;
        BodyTokens(action, board, i + 1, stage + 1);
        assert body == ["/", BoardToken(board, stage + 1).value] + rest;
        assert body[2..] == rest;
      } else if IsDiscrete(action[i]) {
        var rest := HistoryFrom(action, board, i + 1, stage).value;
        BodyTokens(action, board, i + 1, stage);
        assert body == [[action[i]]] + rest;
        assert body[1..] == rest;
      } else {
        var j := RunEnd(action, i, i);
        var rest := HistoryFrom(action, board, j, stage).value;
        BodyTokens(action, board, j, stage);
        assert body == [action[i..j]] + rest;
        assert body[1..] == rest;
        assert body[0] != "/" by {
          assert body[0][0] == action[i];
        }
      }
    }
  }

  /**
   * The body the encoder builds from index `i` holds one board entry per "/"
   * of the action, and the k-th is the one for street break `stage + k + 1`.
   */
  lemma {:induction false} BodyBoardEntries(action: string, board: seq<string>, i: nat, stage: nat)
    requires i <= |action|
    ensures HistoryFrom(action, board, i, stage).Ok? ==>
              var entries := BoardEntries(HistoryFrom(action, board, i, stage).value);
              && |entries| == SlashCount(action[i..])
              && forall k :: 0 <= k < |entries| ==> BoardToken(board, stage + k + 1) == Ok(entries[k])
    decreases |action| - i
  {
    if i < |action| && HistoryFrom(action, board, i, stage).Ok? {
      var body := HistoryFrom(action, board, i, stage).value;
      SlashCountCons(action, i);
      if action[i] == '/' {
        var rest := HistoryFrom(action, board, i + 1, stage + 1).value;
        BodyBoardEntries(action, board, i + 1, stage + 1);
        assert body == ["/", BoardToken(board, stage + 1).value] + rest;
        assert body[2..] == rest;
        assert BoardEntries(body) == [body[1]] + BoardEntries(rest);
      } else if IsDiscrete(action[i]) {
        var rest := HistoryFrom(action, board, i + 1, stage).value;
        BodyBoardEntries(action, board, i + 1, stage);
        assert body == [[action[i]]] + rest;
        assert body[1..] == rest;
      } else {
        var j := RunEnd(action, i, i);
        var rest := HistoryFrom(action, board, j, stage).value;
        BodyBoardEntries(action, board, j, stage);
        SlashCountRun(action, i, j);
        assert body == [action[i..j]] + rest;
        assert body[1..] == rest;
        assert body[0] != "/" by {
          assert body[0][0] == action[i];
        }
      }
    }
  }

  /** A board entry is available for street break `s` only if it is for every earlier one. */
  lemma BoardTokenMonotone(board: seq<string>, s1: nat, s2: nat)
    requires 1 <= s1 <= s2
    ensures BoardToken(board, s2).Ok? ==> BoardToken(board, s1).Ok?
  {
  }

  /** The encoder fails exactly when the last street break it meets has no board entry. */
  lemma {:induction false} BodyDefined(action: string, board: seq<string>, i: nat, stage: nat)
    requires i <= |action|
    ensures var n := SlashCount(action[i..]);
            HistoryFrom(action, board, i, stage).Ok? <==> n == 0 || BoardToken(board, stage + n).Ok?
    decreases |action| - i
  {
    if i < |action| {
      SlashCountCons(action, i);
      if action[i] == '/' {
        BodyDefined(action, board, i + 1, stage + 1);
        BodyDefinedSlash(action, board, i, stage);
      } else if IsDiscrete(action[i]) {
        BodyDefined(action, board, i + 1, stage);
      } else {
        var j := RunEnd(action, i, i);
        SlashCountRun(action, i, j);
        BodyDefined(action, board, j, stage);
      }
    }
  }

  /** The step of `BodyDefined` at a street break. */
  lemma BodyDefinedSlash(action: string, board: seq<string>, i: nat, stage: nat)
    requires i < |action| && action[i] == '/'
    requires SlashCount(action[i..]) == SlashCount(action[i + 1..]) + 1
    requires var n := SlashCount(action[i + 1..]);
             HistoryFrom(action, board, i + 1, stage + 1).Ok? <==> n == 0 || BoardToken(board, stage + 1 + n).Ok?
    ensures var n := SlashCount(action[i..]);
            HistoryFrom(action, board, i, stage).Ok? <==> BoardToken(board, stage + n).Ok?
  {
    var n := SlashCount(action[i..]);
    BoardTokenMonotone(board, stage + 1, stage + n);
  }

  // ---------------------------------------------------------------------------
  // The whole history

  /**
   * The history is defined exactly when the board has a fourth card if the
   * action string has two or more street breaks, and a fifth card if it has
   * three or more.
   */
  lemma HistoryDefined(holeCards: seq<string>, board: seq<string>, action: string, isDealer: bool)
    ensures History(holeCards, board, action, isDealer).Ok? <==>
              (SlashCount(action) >= 2 ==> |board| >= 4) && (SlashCount(action) >= 3 ==> |board| >= 5)
  {
    BodyDefined(action, board, 0, 0);
    assert action[0..] == action;
  }

  /**
   * The history opens with the masked and the own hole cards (masked first
   * for the dealer), then the action tokens with, after the k-th "/", the
   * board entry of street break k + 1; the action tokens put back together
   * give the action string.
   */
  lemma HistoryLayout(holeCards: seq<string>, board: seq<string>, action: string, isDealer: bool)
    ensures History(holeCards, board, action, isDealer).Ok? ==>
              var h := History(holeCards, board, action, isDealer).value;
              && |h| >= 2
              && h[0] == (if isDealer then MaskedHole else Concat(holeCards))
              && h[1] == (if isDealer then Concat(holeCards) else MaskedHole)
              && StripBoard(h[2..]) == Tokens(action, 0)
              && Concat(StripBoard(h[2..])) == action
              && |BoardEntries(h[2..])| == SlashCount(action)
              && forall k :: 0 <= k < |BoardEntries(h[2..])| ==>
                   BoardToken(board, k + 1) == Ok(BoardEntries(h[2..])[k])
  {
    if History(holeCards, board, action, isDealer).Ok? {
      var h := History(holeCards, board, action, isDealer).value;
      var body := HistoryFrom(action, board, 0, 0).value;
      assert h == Seed(holeCards, isDealer) + body;
      assert h[2..] == body;
      BodyTokens(action, board, 0, 0);
      BodyBoardEntries(action, board, 0, 0);
      TokensRoundTrip(action, 0);
      assert action[0..] == action;
    }
  }

  // ---------------------------------------------------------------------------
  // Scenarios

  /** The end of `ScenarioDealerFlop`'s action: a call closes the preflop and the flop is checked through. */
  lemma DealerFlopStreet()
    ensures HistoryFrom("kb200c/kk", ["2h", "7d", "9c"], 5, 0) == Ok(["c", "/", "2h7d9c", "k", "k"])
  {
    var a := "kb200c/kk";
    var board := ["2h", "7d", "9c"];
    assert board[..3] == board;
    ConcatCons("2h", ["7d", "9c"]);
    ConcatCons("7d", ["9c"]);
    ConcatCons("9c", []);
    assert Concat(board) == "2h7d9c";
    assert [a[5]] == "c" && [a[7]] == "k" && [a[8]] == "k";
    assert HistoryFrom(a, board, 9, 1) == Ok([]);
    assert [[a[8]]] + [] == ["k"];
    assert HistoryFrom(a, board, 8, 1) == Ok(["k"]);
    assert [[a[7]]] + ["k"] == ["k", "k"];
    assert HistoryFrom(a, board, 7, 1) == Ok(["k", "k"]);
    assert BoardToken(board, 1) == Ok("2h7d9c");
    assert ["/", "2h7d9c"] + ["k", "k"] == ["/", "2h7d9c", "k", "k"];
    assert HistoryFrom(a, board, 6, 0) == Ok(["/", "2h7d9c", "k", "k"]);
    assert [[a[5]]] + ["/", "2h7d9c", "k", "k"] == ["c", "/", "2h7d9c", "k", "k"];
  }

  /** The dealer's view of a flop reached after a raise and a call. */
  lemma ScenarioDealerFlop()
    ensures History(["Ac", "9d"], ["2h", "7d", "9c"], "kb200c/kk", true)
            == Ok(["2s2h", "Ac9d", "k", "b200", "c", "/", "2h7d9c", "k", "k"])
  {
    var a := "kb200c/kk";
    var board := ["2h", "7d", "9c"];
    DealerFlopStreet();
    assert RunEnd(a, 1, 1) == 5;
    assert a[1..5] == "b200";
    ConcatCons("Ac", ["9d"]);
    ConcatCons("9d", []);
    assert Concat(["Ac", "9d"]) == "Ac9d";
    assert [a[0]] == "k";
    assert [a[1..5]] + ["c", "/", "2h7d9c", "k", "k"] == ["b200", "c", "/", "2h7d9c", "k", "k"];
    assert HistoryFrom(a, board, 1, 0) == Ok(["b200", "c", "/", "2h7d9c", "k", "k"]);
    assert [[a[0]]] + ["b200", "c", "/", "2h7d9c", "k", "k"] == ["k", "b200", "c", "/", "2h7d9c", "k", "k"];
    assert HistoryFrom(a, board, 0, 0) == Ok(["k", "b200", "c", "/", "2h7d9c", "k", "k"]);
    assert Seed(["Ac", "9d"], true) == ["2s2h", "Ac9d"];
    assert ["2s2h", "Ac9d"] + ["k", "b200", "c", "/", "2h7d9c", "k", "k"]
        == ["2s2h", "Ac9d", "k", "b200", "c", "/", "2h7d9c", "k", "k"];
  }

  /** The two runs of `ScenarioFoldGlued`: the second 'b' starts a new run, the 'f' does not. */
  lemma FoldGluedRuns()
    ensures RunEnd("b200b600f", 0, 0) == 4 && RunEnd("b200b600f", 4, 4) == 9
  {
    var a := "b200b600f";
    assert RunEnd(a, 4, 8) == 9;
    assert RunEnd(a, 0, 3) == 4;
  }

  /** A fold is not a token boundary: it stays glued to the bet before it. */
  lemma ScenarioFoldGlued()
    ensures History(["Ac", "9d"], [], "b200b600f", false)
            == Ok(["Ac9d", "2s2h", "b200", "b600f"])
  {
    var a := "b200b600f";
    FoldGluedRuns();
    assert a[0..4] == "b200" && a[4..9] == "b600f";
    ConcatCons("Ac", ["9d"]);
    ConcatCons("9d", []);
    assert HistoryFrom(a, [], 9, 0) == Ok([]);
    assert [a[4..9]] + [] == ["b600f"];
    assert HistoryFrom(a, [], 4, 0) == Ok(["b600f"]);
    assert [a[0..4]] + ["b600f"] == ["b200", "b600f"];
    assert HistoryFrom(a, [], 0, 0) == Ok(["b200", "b600f"]);
    assert Concat(["Ac", "9d"]) == "Ac9d";
    assert Seed(["Ac", "9d"], false) == ["Ac9d", "2s2h"];
    assert ["Ac9d", "2s2h"] + ["b200", "b600f"] == ["Ac9d", "2s2h", "b200", "b600f"];
  }

  /** A second street break with only a flop on the board has no card to show. */
  lemma ScenarioBoardTooShort()
    ensures History(["Ac", "9d"], ["2h", "7d", "9c"], "ck/kk/", true) == Err(BoardIndexOutOfRange)
  {
  }
}
