/**
 * Card input of the two Streamlit front ends: each typed card is checked and
 * rewritten into the two-character form of the equity evaluator ("10s" ->
 * "Ts"), and the number of hole and board cards is checked before a
 * suggestion is asked for. Both front ends carry identical copies.
 */
module CardInput {
  import opened Results

  const ValidValues: set<string> := {"2", "3", "4", "5", "6", "7", "8", "9", "10", "J", "Q", "K", "A"}
  const ValidSuits: set<char> := {'h', 'd', 's', 'c'}

  /** The single characters that are ranks on their own (all but the ten). */
  const SingleRanks: seq<char> := "23456789JQKA"

  /** Why a card was refused: wrong length, or an unknown rank or suit. */
  datatype CardError = BadFormat(card: string) | BadCard(card: string)

  /** The rank part of a card: everything but its last character. */
  function Value(card: string): string
    requires |card| >= 1
  {
    card[..|card| - 1]
  }

  /**
   * Checks a typed card and gives it in the evaluator's form: an accepted card
   * comes out as two characters, a rank of "23456789JQKA" or "T" for the ten,
   * then the card's own suit; a wrong length is the format error.
   */
  function ValidateAndFormatCard(card: string): (r: Result<string, CardError>)
    ensures r.Ok? ==> 2 <= |card| <= 3 && |r.value| == 2 && r.value[0] in SingleRanks + "T" && r.value[1] == card[|card| - 1]
    ensures (|card| < 2 || |card| > 3) <==> r == Err(BadFormat(card))
    ensures r.Err? ==> r.error.card == card
  {
    if |card| < 2 || |card| > 3 then Err(BadFormat(card))
    else
      var value := Value(card);
      var suit := card[|card| - 1];
      if value !in ValidValues || suit !in ValidSuits then Err(BadCard(card))
      else Ok((if value == "10" then "T" else value) + [suit])
  }

  /** A one-character string is a valid value exactly when its character is a single rank. */
  lemma SingleValue(c: char)
    ensures [c] in ValidValues <==> c in SingleRanks
  {
    assert "2" == ['2'] && "3" == ['3'] && "4" == ['4'] && "5" == ['5'] && "6" == ['6'];
    assert "7" == ['7'] && "8" == ['8'] && "9" == ['9'] && "J" == ['J'] && "Q" == ['Q'];
    assert "K" == ['K'] && "A" == ['A'];
  }

  /**
   * The cards accepted are exactly a single rank followed by a suit, or "10"
   * followed by a suit; the error says whether the length or the content was
   * wrong.
   */
  lemma AcceptedCards(card: string)
    ensures ValidateAndFormatCard(card).Ok? <==>
              (|card| == 2 && card[0] in SingleRanks && card[1] in ValidSuits)
              || (|card| == 3 && card[..2] == "10" && card[2] in ValidSuits)
    ensures (|card| < 2 || |card| > 3) <==> ValidateAndFormatCard(card) == Err(BadFormat(card))
    ensures ValidateAndFormatCard(card).Err? && 2 <= |card| <= 3 ==> ValidateAndFormatCard(card) == Err(BadCard(card))
  {
    if |card| == 2 {
      assert Value(card) == [card[0]];
      SingleValue(card[0]);
    } else if |card| == 3 {
      assert Value(card) == card[..2];
      assert forall v :: v in ValidValues && |v| == 2 ==> v == "10";
    }
  }

  /** Only the ten is rewritten: every other accepted card comes back unchanged, and "10x" becomes "Tx". */
  lemma OnlyTensRewritten(card: string)
    requires ValidateAndFormatCard(card).Ok?
    ensures |card| == 2 ==> ValidateAndFormatCard(card).value == card
    ensures |card| == 3 ==> ValidateAndFormatCard(card).value == ['T', card[2]]
  {
    AcceptedCards(card);
    if |card| == 2 {
      assert Value(card) + [card[1]] == card;
    }
  }

  /**
   * Formatting is not idempotent: the output for a ten, "Tx", is itself
   * refused, while every other formatted card is accepted again unchanged.
   */
  lemma ReformatFormatted(card: string)
    requires ValidateAndFormatCard(card).Ok?
    ensures var f := ValidateAndFormatCard(card).value;
      if Value(card) == "10" then ValidateAndFormatCard(f) == Err(BadCard(f))
      else ValidateAndFormatCard(f) == Ok(f)
  {
    var f := ValidateAndFormatCard(card).value;
    AcceptedCards(card);
    OnlyTensRewritten(card);
    AcceptedCards(f);
    if Value(card) == "10" {
      assert f[0] == 'T' && 'T' !in SingleRanks;
    }
  }

  /** The card-count checks of the form, in the order they are made. */
  datatype CountError = WrongHoleCount | WrongBoardCount

  /** A suggestion is asked for exactly when there are two hole cards and a board of a legal size. */
  function CheckCardCounts(hole: seq<string>, board: seq<string>): (r: Result<(), CountError>)
    ensures r.Ok? <==> |hole| == 2 && (|board| == 0 || 3 <= |board| <= 5)
  {
    if |hole| != 2 then Err(WrongHoleCount)
    else if |board| !in [0, 3, 4, 5] then Err(WrongBoardCount)
    else Ok(())
  }

  /** A wrong hole count is reported even when the board is wrong too; a board error means the hole was right. */
  lemma HoleCountFirst(hole: seq<string>, board: seq<string>)
    ensures |hole| != 2 ==> CheckCardCounts(hole, board) == Err(WrongHoleCount)
    ensures CheckCardCounts(hole, board) == Err(WrongBoardCount) <==>
              |hole| == 2 && (|board| == 1 || |board| == 2 || |board| > 5)
  {
  }
}
