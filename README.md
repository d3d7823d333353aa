# NFL bet settlement, modelled in Dafny

This project models the bet-settlement core of a small NFL odds tracker. A game record
(`NflGame`) holds the week, kickoff, venue and teams. It also holds an optional final score,
the optional moneyline (h2h), point-spread and over/under markets with their prices, lines and
stakes, and the settled results. The settlement engine (`BetCalculator`) decides for each
market whether each staked side won, lost or pushed. It pays wins at American odds, rounded
to the cent. It stores a `BetResults` tally (wins, losses, pushes, net) on each market and
their field-wise sum on the game. A week (`NflWeek`) builds one game per schedule event.
It attaches the odds event and the bet-sheet row of the same two teams. Then it settles every
game against the final scores. The older dict-based revision (`util.py`) computes nets per
row and builds flat game and odds records from the two feeds.

Modules, one per source file or shared concern:

- `Common` (common.dfy): `Option` for Python's None and `Fallible` for an expression that may
  raise. It also holds the `HomeAway` pair, first-match lookup and the `" at "` name split.
- `Money` (money.dfy): `RoundCents`, Python's `round(x, 2)` on an exact real.
- `Results` (bet_results.dfy): `BetResults`, its field-wise sum and its display text.
- `Odds` (odds.dfy) and `Feeds` (feeds.dfy): the market records, and the parsed ESPN and
  odds-API records.
- `Calculator` (calculator.dfy): the payout rule, the three market rules and the whole-game
  settlement.
- `Game` (game.dfy): class `NflGame`, its setters, settlement and CSV export.
- `Week` (week.dfy): class `NflWeek` and game construction.
- `Util` (util.dfy): the older revision.

Scores are `int`. Prices are `int`, where 0 means "no price". Lines and stakes are exact
`real`s. Where Python can hold None the model uses `Option`. Where the source raises
(IndexError, KeyError, TypeError, ValueError), functions return `Fallible.Raises` and methods
return `ok == false`. Whether a market settles without raising is the predicate
`Calculator.H2hSettleable` (and its spread and total siblings). It follows Python's evaluation
order: `or` and `and` stop early, so a None stake, line or price that the evaluation never reaches
does not make the market raise. `calculate` settles the markets in turn (`Calculator.Settle`).
A market that raises stops it there, with the earlier markets' results already stored.

## Model

| member | source | states |
|---|---|---|
| `Common.FirstFinds` | src/odds/nfl/NflGame.py:53-56 | `next(iter([x for x in xs if p(x)]), None)` finds an element iff one satisfies p, and then the earliest such element |
| `Common.FirstOrRaise` | src/odds/nfl/util.py:84-87 | `[x for x in xs if p(x)][0]` succeeds iff some element satisfies p, with the first one |
| `Common.IndexOf` | src/odds/nfl/NflWeek.py:83-84 | `s.index(sep)` is the first position where sep occurs; None (ValueError) iff sep does not occur |
| `Common.SplitName` | src/odds/nfl/NflWeek.py:83-84 | splitting an event name at its first `" at "` fails iff there is none; otherwise the two parts joined by `" at "` give back the name, and the away part holds no earlier `" at "` |
| `Common.SplitJoin` | src/odds/nfl/util.py:14-20 | splitting `away + " at " + home` recovers both names when the away name (with a trailing space) holds no `" at "` |
| `Common.SplitJoinNeedsItsCondition` | src/odds/nfl/util.py:19-20 | an away name ending in `" at"` is split in the wrong place, so the condition of SplitJoin is needed |
| `Money.Cents` | src/odds/BetCalculator.py:189 | the cent count is within half a cent of the amount, and not negative for a non-negative amount |
| `Money.RoundCents` | src/odds/BetCalculator.py:189 | `round(x, 2)` is a whole number of cents within half a cent of x, and keeps a non-negative x non-negative |
| `Money.RoundCentsUnique` | src/odds/BetCalculator.py:189 | any whole-cents value strictly closer than half a cent to x is its rounding, whatever the tie rule |
| `Money.RoundCentsExact` | src/odds/BetCalculator.py:189 | rounding leaves whole cents unchanged |
| `Results.AddZero` | src/odds/BetCalculator.py:23-32 | the default `BetResults()` (all zero) is a two-sided identity of the field-wise sum |
| `Results.AddCommutes` | src/odds/BetCalculator.py:23-32 | the field-wise sum is commutative |
| `Results.AddAssociates` | src/odds/BetCalculator.py:23-32 | the field-wise sum is associative |
| `Results.SumAppend` | src/odds/BetCalculator.py:26-32 | folding one more result with `+=` adds it to the running sum |
| `Results.SumConcat` | src/odds/BetCalculator.py:23-32 | folded sums add up over concatenation, so the folding order does not matter |
| `Results.SumOfThree` | src/odds/BetCalculator.py:23-32 | the fold of three market results is their field-by-field total |
| `Results.SumBounds` | src/odds/BetCalculator.py:23-32 | results with at most one push and at most two counted sides each sum to at most one push and two counted sides per result |
| `Results.NatText` | src/odds/BetResults.py:9-14 | the decimal text of a non-negative int is non-empty and all digits |
| `Results.IntText` | src/odds/BetResults.py:9-14 | `str` of an int is non-empty; read back as decimal digits it gives the int, after a leading `-` when the int is negative |
| `Results.AmountReadsBack` | src/odds/BetResults.py:9-14 | the `{:,.2f}` text of the net, read back without its commas and point, is the signed cent count of the net, within half a cent of it |
| `Results.UngroupGrouped` | src/odds/BetResults.py:9 | thousands grouping only inserts commas into the digit string |
| `Results.TextOfWin` | src/odds/BetResults.py:9-14 | a win of 90.91 displays as `1-0-0 $90.91` |
| `Results.TextOfLoss` | src/odds/BetResults.py:9-14 | a lost 100 displays as `0-1-0 $-100.00`, with the minus after the dollar sign |
| `Results.AmountGroupsThousands` | src/odds/BetResults.py:9 | 1234.5 renders as `1,234.50` |
| `Feeds.Location` | src/odds/nfl/NflWeek.py:55-56 | the venue is the city when there is no state, otherwise `"city, state"` |
| `Calculator.ProfitNonNegative` | src/odds/BetCalculator.py:188 | a non-negative stake earns a non-negative profit at any nonzero price |
| `Calculator.Payout` | src/odds/BetCalculator.py:183-189 | price 0 nets 0 whatever the outcome; a loss at a nonzero price nets minus the stake |
| `Calculator.WinAmountIsProfit` | src/odds/BetCalculator.py:188-189 | the multiplier formula equals stake × price/100 for an underdog and stake × 100/\|price\| for a favourite |
| `Calculator.PayoutOfWin` | src/odds/BetCalculator.py:186-189 | a win pays its profit to within half a cent, exactly when the profit is whole cents, and never a negative amount |
| `Calculator.PayoutExamples` | src/odds/BetCalculator.py:183-189 | 100 won at -110 nets 90.91, at +115 nets 115, at +150 nets 150; lost at -110 nets -100; at price 0 nets 0 |
| `Calculator.SettleSide` | src/odds/BetCalculator.py:59-69 | a positively staked side adds one win or one loss and its payout to the running counters; an unstaked side adds nothing |
| `Calculator.CalculateH2h` | src/odds/BetCalculator.py:35-88 | the step-by-step moneyline settlement equals the moneyline rule H2hResult |
| `Calculator.CalculateSpread` | src/odds/BetCalculator.py:90-135 | the step-by-step spread settlement equals the spread rule SpreadResult |
| `Calculator.CalculateTotal` | src/odds/BetCalculator.py:137-181 | the step-by-step total settlement equals the total rule TotalResult |
| `Calculator.MarketPush` | src/odds/BetCalculator.py:52-53 | a push with any stake is exactly (0,0,1,0), whatever the prices and stakes |
| `Calculator.MarketTally` | src/odds/BetCalculator.py:55-88 | outside a push each staked side is exactly one win or one loss, unstaked sides count nothing, there are no pushes, and the net is the staked sides' payouts |
| `Calculator.H2hRules` | src/odds/BetCalculator.py:51-88 | a staked tie pushes; otherwise away wins iff away > home and home iff home > away; wins + losses is the number of staked sides; with both staked, one win and one loss |
| `Calculator.SpreadRules` | src/odds/BetCalculator.py:95-135 | a staked push iff away + away points == home; each side wins iff its score plus its own points beats the other; nothing staked gives zero; on a two-way line with both staked, one win and one loss |
| `Calculator.TotalRules` | src/odds/BetCalculator.py:142-181 | a staked push iff the sum equals the line; the under (away slot) wins iff the sum is below, the over (home slot) iff above; both staked gives one win and one loss |
| `Calculator.ShortCircuitSettles` | src/odds/BetCalculator.py:52-120 | a None stake or line the short-circuit evaluation never reaches does not raise: a 13-13 tie staked only on the away side pushes, a spread whose away line pushes needs no home line; with no tie, the None side is read and raises |
| `Calculator.ZeroPriceStillCounts` | src/odds/BetCalculator.py:59-69 | a staked side at price 0 still counts its win or loss but moves no money |
| `Calculator.SettleIdempotent` | src/odds/BetCalculator.py:23-32 | settling stores each market's result, the game total is the sum of the stored results, and settling again changes nothing |
| `Calculator.SettleCompletes` | src/odds/BetCalculator.py:23-32 | the three settlement steps get through every market iff the game is settleable, and then leave the settled markets and their results in order |
| `Calculator.SettleStopsAtRaise` | src/odds/BetCalculator.py:23-32 | a market that raises stops the steps: earlier markets keep their stored results, it and later markets are untouched, and only the earlier results were recorded |
| `Calculator.AsWrittenRaises` | src/odds/BetCalculator.py:23-32 | as written, `calculate` completes only for a game with no markets, and then agrees with GameTotal |
| `Calculator.AsWrittenPushRaises` | src/odds/BetCalculator.py:26 | the 13-13 moneyline push raises as written, while the corrected total is (0,0,1,0) |
| `Calculator.GameTotalBounds` | src/odds/BetCalculator.py:23-32 | the game aggregate has at most three pushes, non-negative wins and losses, and at most six counted outcomes |
| `Calculator.Scenarios` | src/odds/BetCalculator.py:35-181 | the four end-to-end scenarios: a moneyline tie pushes, the spread and over wins at -110 net 90.91, a total on the line pushes |
| `Game.PriceOrZero` | src/odds/nfl/NflGame.py:165 | a present price is exported as itself (0 stays 0), a missing one as 0 |
| `Game.StakeOrZero` | src/odds/nfl/NflGame.py:166 | a present stake is exported as itself, a missing one as 0 |
| `Game.LineOrNone` | src/odds/nfl/NflGame.py:170 | a line is exported iff it is present and nonzero, so a line of 0 exports as None |
| `Game.OddsFromRow` | src/odds/nfl/NflGame.py:101-125 | `__set_odds` builds all three markets from the row, with under price in the away slot and over price in the home slot, and no stakes |
| `Game.SetBetsRules` | src/odds/nfl/NflGame.py:134-154 | `set_bets` keeps which markets exist, their prices, lines and results; it sets each market's stakes from the row, missing keys as 0, under stake in the away slot and over stake in the home slot |
| `Game.CsvWithoutOdds` | src/odds/nfl/NflGame.py:161-181 | a game without odds exports every price and stake as 0 and every line as None |
| `Game.CsvTotalSlots` | src/odds/nfl/NflGame.py:176-180 | over columns come from the home slot and under columns from the away slot; a spread of 0 exports as None |
| `Game.CsvRoundTrip` | src/odds/nfl/NflGame.py:101-181 | feeding a game's exported row to `set_bets` on a fresh game restores every present nonzero price, line and stake, and exports the same row |
| `Game.FinalScoreReads` | src/odds/nfl/NflGame.py:35-42 | no score unless the status id is 3; then the first away-tagged and home-tagged competitors' scores, failing iff either is missing |
| `Game.MarketNamed` | src/odds/nfl/NflGame.py:47-48 | a market with the key is found iff the bookmaker lists one, and it is the earliest such market |
| `Game.OutcomeNamed` | src/odds/nfl/NflGame.py:53-56 | an outcome with the name is found iff the market lists one, and it is the earliest such outcome |
| `Game.H2hFromReads` | src/odds/nfl/NflGame.py:46-58 | the moneyline is absent iff no market has key "h2h"; otherwise it holds each team's price by name |
| `Game.SpreadFromReads` | src/odds/nfl/NflGame.py:60-79 | the spread is absent without a "spreads" market; otherwise it is read iff both teams have an outcome with a point, and holds those points and prices |
| `Game.TotalFromReads` | src/odds/nfl/NflGame.py:81-97 | the total is absent without a "totals" market; otherwise it holds the Under line, the under price in the away slot and the over price in the home slot |
| `Game.SetOddsRules` | src/odds/nfl/NflGame.py:44-99 | `set_odds` fails iff there is no bookmaker or a spread or total cannot be read; each market is absent iff bookmaker 0 lists no market with its key |
| `Game.ScoreExamples` | src/odds/nfl/NflGame.py:35-42 | a final competition records 31-30; one in progress records nothing |
| `Game.OddsExample` | src/odds/nfl/NflGame.py:44-99 | the sample odds event yields prices 160/-190, spread 3.5/-3.5 at -110, total 40.5 with under -108 and over -112 |
| `Game.SetBetsExample` | src/odds/nfl/NflGame.py:127-154 | the sample bet row puts the under stake 1500 in the away slot and the over stake 1000 in the home slot |
| `Game.CalculatedRules` | src/odds/BetCalculator.py:18-32 | settling changes nothing without a score or odds and always keeps the score; it completes iff the game is settleable, and then stores the settled markets and, as the game's results, the sum of the results stored on them |
| `Game.CalculateRaisesPartway` | src/odds/BetCalculator.py:23-29 | a raise on the moneyline leaves the game's results reset to `BetResults()` and nothing else changed; a raise on the spread leaves the moneyline settled and the game's results equal to its result |
| `Game.CalculateIdempotent` | src/odds/BetCalculator.py:23-32 | settling a settled game again gives the same state: results never accumulate |
| `Game.NflGame.constructor` | src/odds/nfl/NflGame.py:9-22 | a new game stores week, date, location and teams as given, with no score, odds or results |
| `Game.NflGame.SetScore` | src/odds/nfl/NflGame.py:35-42 | records the final score only when the status id is 3, and changes nothing else |
| `Game.NflGame.SetOdds` | src/odds/nfl/NflGame.py:44-99 | replaces the odds with those read from the event, and changes nothing else |
| `Game.NflGame.SetOddsFromRow` | src/odds/nfl/NflGame.py:101-125 | sets the odds to those built from the row |
| `Game.NflGame.SetBets` | src/odds/nfl/NflGame.py:127-154 | no row changes nothing; otherwise it builds odds from the row when there are none, then places the row's stakes |
| `Game.NflGame.Calculate` | src/odds/BetCalculator.py:5-32 | the in-place settlement leaves exactly the state and completion flag given by Calculated, including the partly settled state when a market raises |
| `Game.NflGame.SetBetResults` | src/odds/nfl/NflGame.py:156-159 | records the event's score, then settles the game; a settlement that raises keeps the new score and what it had done |
| `Week.EventTeamsReads` | src/odds/nfl/NflWeek.py:57-62 | a game's teams are the display names of the first away-tagged and home-tagged competitors, read iff both exist |
| `Week.GameForRecord` | src/odds/nfl/NflWeek.py:50-69 | each event's game has the event's week and date, its venue, teams and score, no results, and the odds of the first odds event with both team names equal (none if there is none) |
| `Week.NewGame` | src/odds/nfl/NflWeek.py:51-68 | one loop iteration yields a fresh game whose record is GameFor of the event |
| `Week.InitializeGames` | src/odds/nfl/NflWeek.py:45-70 | exactly one fresh, distinct game per event, in event order |
| `Week.RowFor` | src/odds/nfl/NflWeek.py:77-78 | a game's bet row is found iff some row names both teams, and it is the earliest such row |
| `Week.EventForRules` | src/odds/nfl/NflWeek.py:83-84 | the lookup raises iff some event name lacks `" at "`; otherwise it finds the first event whose name splits into the game's away and home team |
| `Week.SettleGame` | src/odds/nfl/NflWeek.py:82-85 | one iteration looks up the game's event and settles the game against it |
| `Week.NflWeek.constructor` | src/odds/nfl/NflWeek.py:25 | the week holds the games built for it |
| `Week.NflWeek.ToCsv` | src/odds/nfl/NflWeek.py:72-73 | one exported row per game, in order |
| `Week.NflWeek.SetBets` | src/odds/nfl/NflWeek.py:75-79 | each game takes the first row naming its teams, a game without one is unchanged, and the list keeps its games and order |
| `Week.NflWeek.SetBetResults` | src/odds/nfl/NflWeek.py:81-85 | games are settled in order; the first failing iteration stops the loop, the game it raised on keeps what its step left (the new score, the markets settled before the raise), and later games are untouched |
| `Util.BetWinningsAgrees` | src/odds/nfl/util.py:121-127 | the net of `calculate_bet_winnings` is the engine's payout; the tally is [1,0,0] for a win, [0,1,0] for a loss, [0,0,0] at price 0 |
| `Util.UnstakedSideNetsNothing` | src/odds/nfl/util.py:121-127 | a side with stake 0 nets 0 whether it won or lost |
| `Util.BetWinningsExamples` | src/odds/nfl/util.py:121-127 | the six single-side nets: -100, 0, -100, 90.91, 0, 115 |
| `Util.AsWrittenNeverSettles` | src/odds/nfl/util.py:129-190 | as written, the moneyline function yields a number never, and the spread and totals functions only on a push (0) |
| `Util.AsWrittenRowRaises` | src/odds/nfl/util.py:193-199 | as written, settling any row raises |
| `Util.AsWrittenTests` | src/odds/nfl/util.py:121-190 | as written, a single side returns a pair where the tests compare a number (-100, 90.91), the moneyline home win raises, its push returns a pair, and the spread and over wins raise |
| `Util.CalculateH2hWinnings` | src/odds/nfl/util.py:129-150 | the running moneyline net equals H2hNet: 0 on a tie whatever the stakes, otherwise the two sides' nets |
| `Util.CalculateSpreadWinnings` | src/odds/nfl/util.py:153-170 | the running spread net equals SpreadNet: 0 on the away-handicap push, otherwise the two sides' nets |
| `Util.CalculateTotalsWinnings` | src/odds/nfl/util.py:173-190 | the running totals net equals TotalsNet: 0 on the line, otherwise the over and under nets |
| `Util.CalculateBetResults` | src/odds/nfl/util.py:193-199 | every row gets its h2h + spread + totals net in place; all other fields and the row order are kept |
| `Util.SideAgrees` | src/odds/nfl/util.py:121-127 | for a non-negative stake, a side nets the same in both revisions |
| `Util.H2hAgrees` | src/odds/nfl/util.py:129-150 | with non-negative stakes the older moneyline net equals the engine's moneyline net |
| `Util.SpreadAgrees` | src/odds/nfl/util.py:153-170 | with non-negative stakes the older spread net equals the engine's spread net |
| `Util.TotalsAgree` | src/odds/nfl/util.py:173-190 | with non-negative stakes the older totals net equals the engine's total net, over and under slots swapped as the engine stores them |
| `Util.H2hTests` | src/odds/nfl/util.py:129-150 | the five moneyline fixtures net 115, -100, 90.91, -100 and 0 |
| `Util.SpreadTests` | src/odds/nfl/util.py:153-170 | the five spread fixtures net 90.91, -100, 115, -100 and 0 |
| `Util.TotalsTests` | src/odds/nfl/util.py:173-190 | the five totals fixtures net 90.91, -100, 115, -100 and 0 |
| `Util.GameNetAgrees` | src/odds/nfl/util.py:193-199 | with non-negative stakes a row's net equals the net of the engine's aggregate over the same three markets |
| `Util.GetMarketRules` | src/odds/nfl/util.py:78-81 | no market iff no bookmaker; raises iff bookmaker 0 has no market with the key; else the earliest market with that key |
| `Util.GetOutcomeRules` | src/odds/nfl/util.py:84-87 | raises iff no outcome has the name, else the earliest one that has it |
| `Util.CreateGameInfoRules` | src/odds/nfl/util.py:32-43 | the record holds the week, the odds event's teams, and the city or `"city, state"` |
| `Util.CreateGameInfoExamples` | src/odds/nfl/util.py:39 | London without a state stays `London`; Minneapolis with MN becomes `Minneapolis, MN` |
| `Util.OddsInfoRules` | src/odds/nfl/util.py:49-75 | every stake is 0; scores are -1 while the first competitor has no `winner`, otherwise those of the first competitor with each team name |
| `Util.OddsInfoWithoutBookmakers` | src/odds/nfl/util.py:49-75 | without bookmakers every price, handicap and line is 0 |
| `Util.OddsInfoReads` | src/odds/nfl/util.py:49-75 | with a bookmaker, prices and handicaps come by team name, the line and over price from Over, the under price from Under |
| `Util.OddsGameTeams` | src/odds/nfl/util.py:14-26 | the chosen odds event's teams joined by `" at "` give the event name; none is found iff no odds event matches and the name holds no `" at "` |
| `Util.StandInTeams` | src/odds/nfl/util.py:17-22 | with no odds match, an event named `away + " at " + home` gets back exactly its two teams and no bookmakers |
| `Util.AggregateData` | src/odds/nfl/util.py:9-29 | one game record and one odds record per event, in event order |

## Left out

- Fetching data is left out: the HTTP clients, file caching, the spreadsheet store, credentials,
  the CLI and logging. The records they produce are parameters (`Feeds`, `Game.Row`).
- Dates are left out. Kickoff times stay as the feed's text, and `strptime`/`strftime` are not
  modelled. This covers the date and time columns of `create_game_info`, the week's start and
  end dates, and the conversion in the stand-in odds event. A malformed date therefore never
  raises in the model.
- The week's calendar lookup in `NflWeek.__init__` is left out, and so are the calls that
  fetch events and odds when none are given. `__str__` of the game, the week and the odds
  classes is left out too; those are display strings with float formatting.
- The file writes are left out: `write_csvs`, `add_scores_to_bet_data`, and the JSON dump at the
  end of `calculate_bet_results`.
- Binary floating point is left out. Money is exact `real`.
- Money.RoundCents: an exact half cent is rounded up, while Python's `round` works on the
  nearest double and rounds an exact tie to even (`round(0.125, 2)` is 0.12, the model gives
  0.13). The concrete nets claimed (90.91, 115, 150) are away from ties, so any tie rule gives
  them (`Money.RoundCentsUnique`).
- Game.NflGame.Calculate: the odds are a value held by the game, so the model does not capture
  aliasing of nested odds objects. The source's shared mutable default `HomeAway()` and
  `BetResults()` arguments are modelled as fresh values.
- Game.NflGame.SetBets: an empty bet dict is treated like None (`Option.None`). A row missing a
  price key, which raises KeyError in `__set_odds`, cannot be represented.
- Calculator.H2hResult: the `bet is None` guard (src/odds/BetCalculator.py:48, 92, 139)
  cannot fire, because markets are only built with a `HomeAway` stake pair. Only the None
  sides inside the pair are modelled.
- Which exception is raised (IndexError, KeyError, TypeError, ValueError) is not modelled.
  Only the fact that a call raises is kept.
- Week.NflWeek.SetBetResults: the `stop` index is ghost. It exists only to state which games
  were settled before an iteration raised.

## Findings

| source | as written | input that shows it | evidently intended | confidence | as-written member | corrected member |
|---|---|---|---|---|---|---|
| src/odds/BetCalculator.py:23-32 | `nflgame.bet_results += market.bet_results`, but `BetResults` defines no `__add__` or `__iadd__` (src/odds/BetResults.py:1-14), so the first `+=` raises TypeError | any game with a score and one market, e.g. a 13-13 tie with 100 staked on the away moneyline | a field-wise sum, with `BetResults()` as its identity | high (not executed) | `Calculator.AsWrittenPushRaises` | `Calculator.SettleIdempotent` |
| src/odds/nfl/util.py:129-190 | `calculate_bet_winnings` returns a `(net, [w, l, p])` pair, and the market functions add that pair to a number (TypeError). The h2h tie returns the pair `0, [0, 0, 1]` instead of 0 | the h2h fixture away 10, home 13, home stake 100 at +115 | scalar nets, as the unit tests assert: test/test_util.py:329-334 compares the pair itself with -100, 0, 90.91 and 115, and the market tests expect 115, 0 and 90.91 | high (not executed) | `Util.AsWrittenTests` | `Util.H2hTests` |
