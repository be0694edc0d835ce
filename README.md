# Poker front ends and the Slumbot betting-action codec, in Dafny

This project models the parts of a small heads-up no-limit hold'em toolkit that have precise behaviour, and proves what they promise.

- **The Slumbot client's betting-action codec** (`slumbot/slumbot_api.py`). It has two parts:
  - `ParseAction` replays an incremental action string such as `b200c/kk/kk/kb200` from the post-blinds state. It returns the betting state (street, seat to act, street and total bet levels, last increment, last bettor) or the first error.
  - `convert_action_to_history` re-scans the same string into the token list a decision agent uses as its lookup key. The list opens with the two hole-card entries, one masked, and the board cards are spliced in after each `/`.
- **The console table** (`src/table.py`):
  - the lookup table from powers of two to bit positions;
  - the `Table` object, whose players, community cards and pot are updated in place.
- **The card input of the two Streamlit front ends** (`src/poker-ai.py`, `src/poker-aiv2.py`):
  - the card validator/normaliser ("10s" becomes "Ts");
  - the hole-card and board-card count check.

The files:

- `results.dfy`: the `Result` wrapper and `"".join`.
- `action_parser.dfy`: the parser.
  - `StepAt`/`Run`/`Parse` are its specification, one token per step, carrying the betting state and the client's "next check or call ends the street" flag.
  - `ParseAction` is the client's scanning loop, with the same seven variables. It is proved to compute `Parse`.
- `parser_properties.dfy`:
  - the legality rule of every action letter;
  - bet bounds, street closing and the all-in collapse;
  - the invariants of every reachable state;
  - concrete scenarios at the 50/100 stakes with 20000 stacks.
- `history_encoder.dfy`: the history specification `History` and the client's loop `ConvertActionToHistory`, proved equal to it.
- `history_properties.dfy`:
  - the token cut and its round trip;
  - where the board entries go;
  - exactly when the board is long enough.
- `table.dfy`: `GenerateTable` and the `Player`/`Table` classes.
- `cards.dfy`: the card validator and the count check.

Where the code behaves differently from what one might expect, the model follows the code:

- **Totals above the stack.** The stack bound on a bet is taken from the amount bet on the current street, not from the total. So the total committed can pass the stack (`ScenarioTotalAboveStack`).
- **A zero-increment bet.** With nothing left behind, a bet to the same level is accepted with increment 0 (`ScenarioZeroIncrementReraise`).
- **Actions after a river showdown.** The street stays the river after showdown, so further checks are still read (`ScenarioCheckAfterShowdown`). A `/` after the river closes is an unexpected character.
- **The all-in call.** After an all-in call, either nothing may follow, or exactly one `/` per street left before the river.
- **The illegal-fold branch returns a set.** In the client this branch returns the Python set `{"error", "Illegal fold"}` rather than a dictionary. The caller's `"error" in a` test still sees an error, so it is modelled as the error kind `IllegalFold`.
  - The caller's next step, reading `a["error"]`, would fail on a set. That caller is not part of this model.
- **The "Unexpected error" branch is never taken.** The loop refuses to go on once the street index reaches 4, but no step takes the street past the river (`StepAt`, `Parse`).
- **Very long bet sizes.** The client converts the digits after `b` with Python's `int()`. Since CPython 3.11 (and the 2022 security releases of 3.7 to 3.10) `int()` refuses a decimal string of more than 4300 digits (`sys.int_info.default_max_str_digits`), leading zeros included. The client then reports "Bet size not an integer".
  - The model writes this limit as `MaxStrDigits` and takes the branch exactly for a digit run longer than that (`BetRule`, `LongBetRefused`). It is the only way to reach that error (`ParseIsValid`).
  - Under an interpreter without the limit the branch is unreachable, and such a bet is judged by its value like any other.
- **Parsing is not prefix-closed.** A string that parses can have an extension that the state it gives would allow, and still be refused (`NotPrefixClosed`).
  - "ck" parses with no bet outstanding, yet "ckk" is "Missing slash": after a street-closing check or call the optional final `/` becomes compulsory as soon as the string goes on.
  - "b20000c///" is accepted but its prefix "b20000c//" is not: after an all-in call the slashes come all at once or not at all.
- **Folds in the history.** In the history, `f` is not a token boundary and stays glued to the bet before it (`ScenarioFoldGlued`).
- **Short boards.** A second or third street break with no fourth or fifth board card raises Python's `IndexError`. This is modelled as `Err(BoardIndexOutOfRange)`.
  - A first street break with fewer than three board cards joins whatever cards there are.
- **Normalising twice.** Normalising a ten is not idempotent: "10s" becomes "Ts", and "Ts" is refused.

## Model

| member | source | states |
|---|---|---|
| ActionParser.ParseAction | slumbot/slumbot_api.py:104-262 | the client's scan loop returns exactly `Parse(action)`: the replay of the string, token by token, from the state after the blinds, with the 4300-digit limit of `int()` checked right after the digit scan |
| ActionParser.ScanDigits | slumbot/slumbot_api.py:219-221 | the digit scan after a `b` stops at the end of the maximal run of `0`..`9` |
| ActionParser.ScanAllInSlashes | slumbot/slumbot_api.py:163-171 | the slash scan after an all-in call needs one `/` per street from the current one up to the river; it fails with "Missing slash (end of string)" or "Missing slash" |
| ActionParser.DigitRunEnd | slumbot/slumbot_api.py:220-221 | the bet amount is read from a run of digits only, and the run cannot be extended |
| ActionParser.StepAt | slumbot/slumbot_api.py:132-253 | every pass of the scan loop that does not return moves the index strictly forward and stays inside the string; it is "Unexpected error" exactly when the street index is 4 or more, and otherwise never moves the street backwards or past the river |
| ActionParser.Run | slumbot/slumbot_api.py:132-262 | replaying the rest of the string from a street before 4 never gives "Unexpected error" |
| ActionParser.Parse | slumbot/slumbot_api.py:113-262 | the empty string gives the state after the blinds, and no string gives "Unexpected error" |
| ActionParser.MinBetSize | slumbot/slumbot_api.py:230-240 | the minimum increment is the outstanding increment raised to at least the big blind (the big blind when nothing is outstanding), capped at what is left of the stack: it never exceeds either, and only the cap lets it fall below the big blind or the outstanding increment |
| ActionParser.CloseStreet | slumbot/slumbot_api.py:140-153 | closing a street consumes at most the one `/` after the action; its only error is "Missing slash" |
| ActionParser.AllInSlashes | slumbot/slumbot_api.py:163-171 | the slash run after an all-in call ends 3 - st characters further on, all of them `/`; its only errors are the two missing-slash errors |
| ActionParser.AllInCall | slumbot/slumbot_api.py:160-184 | an accepted all-in call is followed by slashes only and gives street 3, hand over, increment 0, with the bet levels and the last bettor unchanged; its only errors are the two missing-slash errors and "Extra characters" |
| ActionParser.Bet | slumbot/slumbot_api.py:218-251 | an accepted bet consumes at least one digit |
| ParserProperties.EmptyIsInitial | slumbot/slumbot_api.py:113-128 | the empty string gives street 0, seat 1 to act, both bet levels 100, last increment 50, last bettor 0 |
| ParserProperties.CheckRule | slumbot/slumbot_api.py:137-156 | a check is an error exactly when a bet is outstanding; a first check on a street passes the turn and sets the ends-street flag |
| ParserProperties.CallRule | slumbot/slumbot_api.py:157-203 | a call is an error exactly when no bet is outstanding; a call that does not close the street passes the turn and clears the increment and the last bettor |
| ParserProperties.FoldRule | slumbot/slumbot_api.py:204-217 | a fold is an error exactly when no bet is outstanding; it must be the last character; it ends the hand (seat -1) with every other field unchanged |
| ParserProperties.StreetCloseRule | slumbot/slumbot_api.py:140-203 | a street-closing check or call before the river must be followed by `/` or the end of the string ("Missing slash" otherwise); it then opens the next street with seat 0 and street level 0; on the river it ends the hand and the street stays 3; a call also clears the increment and the last bettor |
| ParserProperties.BetRule | slumbot/slumbot_api.py:218-251 | `b` without digits is "Missing bet size"; more than 4300 digits is exactly "Bet size not an integer"; otherwise `bN` is accepted exactly when `MinBetSize <= N - streetLevel <= 20000 - streetLevel`, is "Bet too small" below and "Bet too big" above; an accepted bet sets the street level to N, adds the increment to the total, records the bettor, passes the turn and sets the ends-street flag |
| ParserProperties.AllInSlashesExact | slumbot/slumbot_api.py:163-171 | the slash run after an all-in call is accepted exactly when the next 3 - st characters are all `/`, and it then ends just after them |
| ParserProperties.AllInCallRule | slumbot/slumbot_api.py:160-184 | calling an all-in succeeds exactly when nothing or exactly 3 - st slashes follow; the result is street 3, hand over, increment 0, with both bet levels and the last bettor unchanged; its only errors are the two missing-slash errors and "Extra characters" |
| ParserProperties.StepKeepsValid | slumbot/slumbot_api.py:132-253 | from a valid state one pass of the loop gives a valid state: street in 0..3, seats in -1..1, 0 <= increment <= street level <= 20000, street level <= total, total >= 100. Street and total never decrease; no error is "Unexpected error", and "Bet size not an integer" only for a `b` followed by more than 4300 digits |
| ParserProperties.RunKeepsValid | slumbot/slumbot_api.py:132-262 | the same holds for the rest of the string from any valid state: a successful end is valid and no earlier, and "Bet size not an integer" means some later `b` has more than 4300 digits |
| ParserProperties.ParseIsValid | slumbot/slumbot_api.py:113-262 | every successful parse is a valid state, and "Bet size not an integer" is reported only for a string holding a `b` followed by more than 4300 digits |
| ParserProperties.LongBetRefused | slumbot/slumbot_api.py:224-227 | an opening `b` followed by more than 4300 digits, leading zeros included, is "Bet size not an integer" whatever follows the digit run |
| ParserProperties.ScenarioCheckIntoBlind | slumbot/slumbot_api.py:137-139 | "k" is an illegal check: the big blind is an outstanding bet |
| ParserProperties.ScenarioLimpPreflop | slumbot/slumbot_api.py:157-203 | "c" gives street 0, seat 0 to act, levels 100/100, no bet outstanding, no last bettor |
| ParserProperties.ScenarioLimpCheck | slumbot/slumbot_api.py:137-153 | "ck" closes the preflop: street 1, seat 0, street level 0, total 100 |
| ParserProperties.ScenarioLimpCheckSlash | slumbot/slumbot_api.py:142-145 | "ck/" gives the same state: the final slash is optional |
| ParserProperties.ScenarioRaiseTooSmall | slumbot/slumbot_api.py:241-242 | "b150" raises by 50, below the big blind: "Bet too small" |
| ParserProperties.ScenarioAllInCalled | slumbot/slumbot_api.py:160-184 | "b20000c" goes straight to the river with the hand over |
| ParserProperties.ScenarioRiverBet | slumbot/slumbot_api.py:132-262 | "b200c/kk/kk/kb200" ends on the river with seat 0 to act, levels 200/400, increment 200, bettor 1 |
| ParserProperties.ScenarioFoldWithoutBet | slumbot/slumbot_api.py:204-206 | "cf" is an illegal fold |
| ParserProperties.ScenarioFoldToRaise | slumbot/slumbot_api.py:204-217 | "b200f" ends the hand with the bet state left as it was |
| ParserProperties.ScenarioActionAfterFold | slumbot/slumbot_api.py:207-208 | "b200fk" is "Extra characters at end of action" |
| ParserProperties.ScenarioCheckAfterShowdown | slumbot/slumbot_api.py:137-156 | "ck/kk/kk/kkk": after the river showdown a further check is still read, giving seat 0 to act on street 3 |
| ParserProperties.ScenarioSlashAfterRiver | slumbot/slumbot_api.py:252-253 | "ck/kk/kk/kk/": a slash after the river is an unexpected character |
| ParserProperties.ScenarioMissingStreetBreak | slumbot/slumbot_api.py:142-144 | "ckk" is "Missing slash" |
| ParserProperties.ScenarioAllInAllSlashes | slumbot/slumbot_api.py:163-184 | "b20000c///" is accepted |
| ParserProperties.ScenarioAllInTooFewSlashes | slumbot/slumbot_api.py:165-166 | "b20000c//" is "Missing slash (end of string)" |
| ParserProperties.ScenarioAllInActionAfterSlash | slumbot/slumbot_api.py:168-171 | "b20000c/k" is "Missing slash" |
| ParserProperties.ScenarioAllInTooManySlashes | slumbot/slumbot_api.py:172-173 | "b20000c////" is "Extra characters at end of action" |
| ParserProperties.ScenarioZeroIncrementReraise | slumbot/slumbot_api.py:230-245 | "b20000b20000" is accepted with increment 0 |
| ParserProperties.ScenarioTotalAboveStack | slumbot/slumbot_api.py:230-248 | "b200c/b20000" is accepted with a total of 20200, above the 20000 stack |
| ParserProperties.ScenarioMissingAmount | slumbot/slumbot_api.py:222-223 | "b" is "Missing bet size" |
| ParserProperties.ScenarioUnknownLetter | slumbot/slumbot_api.py:252-253 | "b200x" is "Unexpected character in action" |
| ParserProperties.NotPrefixClosed | slumbot/slumbot_api.py:137-173 | "ck" parses with no bet outstanding but "ckk" is "Missing slash"; "b20000c//" is refused but "b20000c///" is accepted |
| HistoryEncoder.ConvertActionToHistory | slumbot/slumbot_api.py:385-421 | the client's loop returns exactly `History`, the seed entries followed by the token-by-token replay with board entries |
| HistoryEncoder.Seed | slumbot/slumbot_api.py:388-391 | the history opens with two entries, the masked hole "2s2h" and the joined own hole cards, the own cards second for the dealer and first otherwise |
| HistoryEncoder.BoardToken | slumbot/slumbot_api.py:398-406 | the first street break always has an entry, the first three cards joined when there are three; the second needs a 4th card and its entry is that 4th card; every later one needs a 5th card and its entry is that 5th card |
| HistoryEncoder.HistoryFrom | slumbot/slumbot_api.py:393-420 | a rest of the string without `/` always succeeds, and it appends nothing exactly when nothing is left |
| HistoryEncoder.History | slumbot/slumbot_api.py:385-421 | a history opens with the two seed entries, has nothing more exactly for the empty action, and always exists when the action has no `/` |
| HistoryEncoder.BoardEntry | slumbot/slumbot_api.py:401-406 | the client's board lookup after a street break computes exactly `BoardToken`, an `IndexError` becoming `Err(BoardIndexOutOfRange)` |
| HistoryEncoder.ScanRun | slumbot/slumbot_api.py:413-417 | the inner loop stops where `RunEnd` says a run token ends |
| HistoryEncoder.RunEnd | slumbot/slumbot_api.py:412-417 | a run token is at least one character long and holds no `k`, `c`, `/` and no `b` after its first character; it ends at the end of the string or just before `k`, `c`, `/` or `b` |
| HistoryProperties.TokensRoundTrip | slumbot/slumbot_api.py:393-420 | the action tokens put back together give the action string |
| HistoryProperties.TokensShape | slumbot/slumbot_api.py:397-417 | every token is non-empty; `k`, `c`, `/` are one-character tokens; a run holds none of `k`, `c`, `/`, `b` after its first character; after a run the next token starts with `k`, `c`, `/` or `b` |
| HistoryProperties.BodyTokens | slumbot/slumbot_api.py:394-420 | removing the board entries from what the loop appends gives the action tokens |
| HistoryProperties.BodyBoardEntries | slumbot/slumbot_api.py:398-406 | the loop appends one board entry per `/`, and the k-th is the one for street break k + 1 |
| HistoryProperties.BoardTokenMonotone | slumbot/slumbot_api.py:401-406 | a board entry exists for a later street break only if it exists for every earlier one |
| HistoryProperties.BodyDefined | slumbot/slumbot_api.py:398-406 | the loop fails exactly when the last street break it meets has no board entry |
| HistoryProperties.HistoryDefined | slumbot/slumbot_api.py:385-421 | the history exists exactly when the board has a 4th card if there are two or more `/` and a 5th if there are three or more |
| HistoryProperties.HistoryLayout | slumbot/slumbot_api.py:385-421 | the history opens with "2s2h" and the joined own hole cards (masked first for the dealer), then the action tokens, which rebuild the action string, with after the k-th `/` the board entry of street break k: the first three cards joined, the 4th, then the 5th |
| HistoryProperties.ScenarioDealerFlop | slumbot/slumbot_api.py:385-421 | the dealer's history of "kb200c/kk" with a three-card board is `2s2h, Ac9d, k, b200, c, /, 2h7d9c, k, k` |
| HistoryProperties.ScenarioFoldGlued | slumbot/slumbot_api.py:386 | for the non-dealer, "b200b600f" gives `Ac9d, 2s2h, b200, b600f`: the fold stays glued to the bet |
| HistoryProperties.ScenarioBoardTooShort | slumbot/slumbot_api.py:403-404 | "ck/kk/" with only a flop on the board fails for the missing 4th card |
| PokerTable.GenerateTable | src/table.py:4-12 | the table has exactly 64 keys; 2^i maps to i for 0 <= i < 64, and every key is 2 to the power of the position it maps to |
| PokerTable.Table.constructor | src/table.py:16-19 | a new table has no players, no community cards and an empty pot |
| PokerTable.Table.AddPlayer | src/table.py:21-23 | the player is appended after the seated ones; pot and community cards unchanged |
| PokerTable.Table.StartHand | src/table.py:25-31 | community cards emptied, pot 0, player list unchanged, every seated player with an empty hand and active |
| PokerTable.Table.ApplyAction | src/table.py:33-42 | "fold" deactivates the player and leaves the pot; "call" and "raise" add `amount` (default 0) to the pot; any other action is `InvalidAction` and nothing changes; the player list, the cards and the player's hand never change |
| CardInput.ValidateAndFormatCard | src/poker-ai.py:11-22 | a card of the wrong length is exactly the format error; every error names the card; an accepted card comes out as two characters, a rank of `23456789JQKAT` and the card's own suit |
| CardInput.AcceptedCards | src/poker-ai.py:11-20 | a card is accepted exactly when it is a single rank of `23456789JQKA` then a suit, or "10" then a suit; a wrong length is the format error and anything else refused is the card error |
| CardInput.OnlyTensRewritten | src/poker-ai.py:22 | a two-character card comes back unchanged; a "10x" card comes back as "Tx" |
| CardInput.ReformatFormatted | src/poker-aiv2.py:55-65 | validating a formatted card again refuses a formatted ten ("T" is not a rank) and gives back any other card unchanged |
| CardInput.CheckCardCounts | src/poker-ai.py:53-56 | a suggestion is asked for exactly with two hole cards and 0, 3, 4 or 5 board cards |
| CardInput.HoleCountFirst | src/poker-aiv2.py:114-117 | a wrong hole-card count is reported first; the board error is reported exactly when the hole count is right and the board has 1, 2 or more than 5 cards |

`validate_and_format_card` and the count check are identical in `src/poker-ai.py` (11-22, 53-56) and `src/poker-aiv2.py` (55-65, 114-117), so they are modelled once.

## Left out

- `NewHand`, `Act`, `Login`, `PlayHand` and `main` in `slumbot/slumbot_api.py`: HTTP requests, JSON, console output and persistence are all I/O.
  - The caller that reads `a["error"]` after the illegal-fold set is part of `PlayHand` and is not part of this model.
- `ComputeStrategy` in `slumbot/slumbot_api.py` is not part of this model. It hands the parsed state to strategy agents that are not in this repository, and to a Monte-Carlo equity estimate (floating point and randomness).
- `game/poker_main.py` and `src/main.py` are not part of this model. They are a pygame front end and an interactive console loop.
- `ai_suggestion` and `calculate_equity_cached` in both Streamlit front ends are not part of this model. They use floating-point equity thresholds, caching and UI widgets.
- Errors are constructors rather than messages:
  - `ParseAction` returns its messages as dictionary entries; the model returns a `ParseError` constructor per message and the state as a `BettingState` record.
  - `ValueError` exceptions become `Err` results.
  - Streamlit's `st.error` calls become `CountError` values.
- The Streamlit handlers split the typed text on whitespace with `.split()`. The model takes the lists of cards as given.
- `PokerTable.Player`: the player class lives in `src/player.py`, which is not part of this model. The model gives it only the two fields the table writes, `hand` and `active`.
- The conversion limit is fixed at CPython's default of 4300. The interpreter's `sys.set_int_max_str_digits` and the `PYTHONINTMAXSTRDIGITS` setting, which change it, are not modelled.
