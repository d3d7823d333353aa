/** The older, dict-based revision of the engine (src/odds/nfl/util.py): the payout of one side
    with its win/loss/push tally, the three market nets, the in-place settlement of a bet sheet,
    and the game and odds records built from the two feeds. */
module Util {
  import opened Common
  import opened Money
  import opened Results
  import opened Odds
  import opened Feeds
  import opened Calculator

  // ---- settlement ----

  /** A row of the dict-based bet sheet: the scores, prices, lines and stakes the market
      functions read, and the `net_winnings` key `calculate_bet_results` writes (None before). */
  datatype BetRow = BetRow(
    awayScore: int, homeScore: int,
    awayH2hPrice: int, homeH2hPrice: int, awayH2hBet: real, homeH2hBet: real,
    awaySpread: real, homeSpread: real, awaySpreadPrice: int, homeSpreadPrice: int,
    awaySpreadBet: real, homeSpreadBet: real,
    overUnder: real, overPrice: int, underPrice: int, overBet: real, underBet: real,
    netWinnings: Option<real>)

  /** `calculate_bet_winnings(won_bet, price, bet)`: the net and the [wins, losses, pushes]
      tally of one side. A price of 0 moves nothing and counts nothing. */
  function BetWinnings(won: bool, price: int, bet: real): (real, seq<int>) {
    if price == 0 then (0.0, [0, 0, 0])
    else if !won then (-1.0 * bet, [0, 1, 0])
    else (RoundCents(WinAmount(price, bet)), [1, 0, 0])
  }

  /** The net of a side is what the settlement engine pays for it, and the tally counts exactly
      one win or one loss, as the side went, unless the price is 0. */
  lemma BetWinningsAgrees(won: bool, price: int, bet: real)
    ensures BetWinnings(won, price, bet).0 == Payout(won, Some(price), bet)
    ensures var t := BetWinnings(won, price, bet).1;
      && |t| == 3 && t[2] == 0
      && t[0] == (if price != 0 && won then 1 else 0)
      && t[1] == (if price != 0 && !won then 1 else 0)
  {
  }

  /** A side without a stake nets nothing, whether it won or lost. */
  lemma UnstakedSideNetsNothing(won: bool, price: int)
    ensures BetWinnings(won, price, 0.0).0 == 0.0
  {
    if price != 0 && won {
      assert WinAmount(price, 0.0) == 0.0;
      assert WholeCents(0.0);
      RoundCentsExact(0.0);
    }
  }

  /** The nets the tests expect of one side: a 100 stake lost at -110, at 0 and at +115, and
      won at -110, at 0 and at +115. */
  lemma BetWinningsExamples()
    ensures BetWinnings(false, -110, 100.0).0 == -100.0
    ensures BetWinnings(false, 0, 100.0).0 == 0.0
    ensures BetWinnings(false, 115, 100.0).0 == -100.0
    ensures BetWinnings(true, -110, 100.0).0 == 90.91
    ensures BetWinnings(true, 0, 100.0).0 == 0.0
    ensures BetWinnings(true, 115, 100.0).0 == 115.0
  {
    PayoutExamples();
    BetWinningsAgrees(true, -110, 100.0);
    BetWinningsAgrees(true, 115, 100.0);
  }

  // ---- the market functions as written ----

  /** A Python value a market function produces: a number, or the (net, tally) pair that
      `calculate_bet_winnings` returns. */
  datatype PyValue = Number(x: real) | NetAndTally(net: real, tally: seq<int>)

  /** Python's `+` as the market functions use it: numbers add; a number plus a tuple raises
      TypeError. */
  function Plus(a: PyValue, b: PyValue): Fallible<PyValue> {
    if a.Number? && b.Number? then Ok(Number(a.x + b.x)) else Raises
  }

  function PairOf(p: (real, seq<int>)): PyValue {
    NetAndTally(p.0, p.1)
  }

  /** `calculate_h2h_bet_winnings` as written: a tie returns the pair `0, [0, 0, 1]`; otherwise
      the away pair is unpacked and its net added, and then the home pair itself is added to
      the running number, which raises. */
  function H2hNetAsWritten(g: BetRow): Fallible<PyValue> {
    if g.awayScore == g.homeScore then Ok(NetAndTally(0.0, [0, 0, 1]))
    else
      var away := BetWinnings(g.awayScore > g.homeScore, g.awayH2hPrice, g.awayH2hBet);
      var net := Number(0.0 + away.0);
      Plus(net, PairOf(BetWinnings(g.homeScore > g.awayScore, g.homeH2hPrice, g.homeH2hBet)))
  }

  /** `calculate_spread_bet_winnings` as written: a push returns 0; otherwise the first `+=`
      adds the away pair to the number 0, which raises. */
  function SpreadNetAsWritten(g: BetRow): Fallible<PyValue> {
    if g.awayScore as real + g.awaySpread == g.homeScore as real then Ok(Number(0.0))
    else
      match Plus(Number(0.0), PairOf(BetWinnings(g.awayScore as real + g.awaySpread > g.homeScore as real,
                                                 g.awaySpreadPrice, g.awaySpreadBet)))
      case Raises => Raises
      case Ok(net) =>
        Plus(net, PairOf(BetWinnings(g.homeScore as real + g.homeSpread > g.awayScore as real,
                                     g.homeSpreadPrice, g.homeSpreadBet)))
  }

  /** `calculate_totals_bet_winnings` as written: a push returns 0; otherwise the first `+=`
      adds the over pair to the number 0, which raises. */
  function TotalsNetAsWritten(g: BetRow): Fallible<PyValue> {
    var sum := (g.awayScore + g.homeScore) as real;
    if sum == g.overUnder then Ok(Number(0.0))
    else
      match Plus(Number(0.0), PairOf(BetWinnings(sum > g.overUnder, g.overPrice, g.overBet)))
      case Raises => Raises
      case Ok(net) => Plus(net, PairOf(BetWinnings(sum < g.overUnder, g.underPrice, g.underBet)))
  }

  /** One row of `calculate_bet_results` as written: 0 plus each market's value in turn. */
  function GameNetAsWritten(g: BetRow): Fallible<PyValue> {
    match Plus(Number(0.0), Number(0.0))
    case Raises => Raises
    case Ok(zero) =>
      match H2hNetAsWritten(g)
      case Raises => Raises
      case Ok(h2h) =>
        match Plus(zero, h2h)
        case Raises => Raises
        case Ok(net) =>
          match SpreadNetAsWritten(g)
          case Raises => Raises
          case Ok(spread) =>
            match Plus(net, spread)
            case Raises => Raises
            case Ok(net') =>
              match TotalsNetAsWritten(g)
              case Raises => Raises
              case Ok(total) => Plus(net', total)
  }

  /** As written, the moneyline function never yields a number, the spread and total functions
      yield one only on a push (and then 0). */
  lemma AsWrittenNeverSettles(g: BetRow)
    ensures H2hNetAsWritten(g).Ok? <==> g.awayScore == g.homeScore
    ensures H2hNetAsWritten(g).Ok? ==> H2hNetAsWritten(g).value.NetAndTally?
    ensures SpreadNetAsWritten(g).Ok? <==> g.awayScore as real + g.awaySpread == g.homeScore as real
    ensures SpreadNetAsWritten(g).Ok? ==> SpreadNetAsWritten(g) == Ok(Number(0.0))
    ensures TotalsNetAsWritten(g).Ok? <==> (g.awayScore + g.homeScore) as real == g.overUnder
    ensures TotalsNetAsWritten(g).Ok? ==> TotalsNetAsWritten(g) == Ok(Number(0.0))
  {
  }

  /** So settling any row raises as written: the moneyline value is never a number. */
  lemma AsWrittenRowRaises(g: BetRow)
    ensures GameNetAsWritten(g) == Raises
  {
    AsWrittenNeverSettles(g);
    if H2hNetAsWritten(g).Ok? {
      assert Plus(Number(0.0), H2hNetAsWritten(g).value) == Raises;
    }
  }

  // ---- the market functions as the tests expect ----

  /** The moneyline net the tests expect: 0 on a tie, whatever the stakes; otherwise the away
      side wins iff away > home, the home side iff home > away, and their nets add up. */
  function H2hNet(g: BetRow): real {
    if g.awayScore == g.homeScore then 0.0
    else
      BetWinnings(g.awayScore > g.homeScore, g.awayH2hPrice, g.awayH2hBet).0
      + BetWinnings(g.homeScore > g.awayScore, g.homeH2hPrice, g.homeH2hBet).0
  }

  /** The spread net the tests expect: 0 when away + away handicap == home; otherwise each side
      wins iff its score plus its own handicap beats the other score. */
  function SpreadNet(g: BetRow): real {
    if g.awayScore as real + g.awaySpread == g.homeScore as real then 0.0
    else
      BetWinnings(g.awayScore as real + g.awaySpread > g.homeScore as real, g.awaySpreadPrice, g.awaySpreadBet).0
      + BetWinnings(g.homeScore as real + g.homeSpread > g.awayScore as real, g.homeSpreadPrice, g.homeSpreadBet).0
  }

  /** The totals net the tests expect: 0 when the combined score equals the line; otherwise
      the over wins iff the sum is above the line and the under iff it is below. */
  function TotalsNet(g: BetRow): real {
    var sum := (g.awayScore + g.homeScore) as real;
    if sum == g.overUnder then 0.0
    else
      BetWinnings(sum > g.overUnder, g.overPrice, g.overBet).0
      + BetWinnings(sum < g.overUnder, g.underPrice, g.underBet).0
  }

  /** The net of a row: moneyline, spread and totals. */
  function GameNet(g: BetRow): real {
    H2hNet(g) + SpreadNet(g) + TotalsNet(g)
  }

  /** `calculate_h2h_bet_winnings` with each side's net added to a running total. */
  method CalculateH2hWinnings(g: BetRow) returns (net: real)
    ensures net == H2hNet(g)
  {
    net := 0.0;
    if g.awayScore == g.homeScore {
      return 0.0;
    }
    var away := BetWinnings(g.awayScore > g.homeScore, g.awayH2hPrice, g.awayH2hBet);
    net := net + away.0;
    var home := BetWinnings(g.homeScore > g.awayScore, g.homeH2hPrice, g.homeH2hBet);
    net := net + home.0;
  }

  /** `calculate_spread_bet_winnings` with each side's net added to a running total. */
  method CalculateSpreadWinnings(g: BetRow) returns (net: real)
    ensures net == SpreadNet(g)
  {
    net := 0.0;
    if g.awayScore as real + g.awaySpread == g.homeScore as real {
      return 0.0;
    }
    var away := BetWinnings(g.awayScore as real + g.awaySpread > g.homeScore as real, g.awaySpreadPrice, g.awaySpreadBet);
    net := net + away.0;
    var home := BetWinnings(g.homeScore as real + g.homeSpread > g.awayScore as real, g.homeSpreadPrice, g.homeSpreadBet);
    net := net + home.0;
  }

  /** `calculate_totals_bet_winnings` with each side's net added to a running total. */
  method CalculateTotalsWinnings(g: BetRow) returns (net: real)
    ensures net == TotalsNet(g)
  {
    net := 0.0;
    var sum := (g.awayScore + g.homeScore) as real;
    if sum == g.overUnder {
      return 0.0;
    }
    var over := BetWinnings(sum > g.overUnder, g.overPrice, g.overBet);
    net := net + over.0;
    var under := BetWinnings(sum < g.overUnder, g.underPrice, g.underBet);
    net := net + under.0;
  }

  /** `calculate_bet_results(bet_data)`: every row gets its `net_winnings`, in place; the list
      keeps its rows, their order and every other key. */
  method CalculateBetResults(rows: array<BetRow>)
    modifies rows
    ensures forall i :: 0 <= i < rows.Length ==> rows[i] == old(rows[i]).(netWinnings := Some(GameNet(old(rows[i]))))
  {
    for i := 0 to rows.Length
      invariant forall j :: 0 <= j < i ==> rows[j] == old(rows[j]).(netWinnings := Some(GameNet(old(rows[j]))))
      invariant forall j :: i <= j < rows.Length ==> rows[j] == old(rows[j])
    {
      var net := 0.0;
      var h2h := CalculateH2hWinnings(rows[i]);
      net := net + h2h;
      var spread := CalculateSpreadWinnings(rows[i]);
      net := net + spread;
      var total := CalculateTotalsWinnings(rows[i]);
      net := net + total;
      rows[i] := rows[i].(netWinnings := Some(net));
    }
  }

  /** The moneyline market of a row, as the class-based engine holds it. */
  function H2hOddsOf(g: BetRow): H2HOdds {
    H2HOdds(HomeAway(Some(g.awayH2hPrice), Some(g.homeH2hPrice)), HomeAway(Some(g.awayH2hBet), Some(g.homeH2hBet)), Zero)
  }

  function SpreadOddsOf(g: BetRow): SpreadOdds {
    SpreadOdds(HomeAway(Some(g.awaySpread), Some(g.homeSpread)), HomeAway(Some(g.awaySpreadPrice), Some(g.homeSpreadPrice)),
               HomeAway(Some(g.awaySpreadBet), Some(g.homeSpreadBet)), Zero)
  }

  /** The total market of a row, with the under in the away slot and the over in the home slot. */
  function TotalOddsOf(g: BetRow): TotalOdds {
    TotalOdds(Some(g.overUnder), HomeAway(Some(g.underPrice), Some(g.overPrice)),
              HomeAway(Some(g.underBet), Some(g.overBet)), Zero)
  }

  /** For a stake that is zero or positive, a side nets the same in both revisions: the older
      one settles unstaked sides too, and they net nothing. */
  lemma SideAgrees(won: bool, price: int, bet: real)
    requires bet >= 0.0
    ensures BetWinnings(won, price, bet).0 == SideResult(bet, won, Some(price)).net
  {
    BetWinningsAgrees(won, price, bet);
    if bet == 0.0 {
      UnstakedSideNetsNothing(won, price);
    }
  }

  /** With no negative stakes, the moneyline of the older revision nets exactly what the
      class-based engine settles the same market for. */
  lemma H2hAgrees(g: BetRow)
    requires g.awayH2hBet >= 0.0 && g.homeH2hBet >= 0.0
    ensures H2hNet(g) == H2hResult(HomeAway(g.awayScore, g.homeScore), H2hOddsOf(g)).net
  {
    SideAgrees(g.awayScore > g.homeScore, g.awayH2hPrice, g.awayH2hBet);
    SideAgrees(g.homeScore > g.awayScore, g.homeH2hPrice, g.homeH2hBet);
  }

  /** The same for the spread. The class-based engine settles a side only when it is staked,
      and the older one settles unstaked sides for nothing. */
  lemma SpreadAgrees(g: BetRow)
    requires g.awaySpreadBet >= 0.0 && g.homeSpreadBet >= 0.0
    ensures SpreadNet(g) == SpreadResult(HomeAway(g.awayScore, g.homeScore), SpreadOddsOf(g)).net
  {
    var awayWon := g.awayScore as real + g.awaySpread > g.homeScore as real;
    var homeWon := g.homeScore as real + g.homeSpread > g.awayScore as real;
    SideAgrees(awayWon, g.awaySpreadPrice, g.awaySpreadBet);
    SideAgrees(homeWon, g.homeSpreadPrice, g.homeSpreadBet);
    SideAgrees(g.awaySpreadBet > 0.0 && awayWon, g.awaySpreadPrice, g.awaySpreadBet);
    SideAgrees(g.homeSpreadBet > 0.0 && homeWon, g.homeSpreadPrice, g.homeSpreadBet);
  }

  /** The same for the total, whose under sits in the away slot and over in the home slot. */
  lemma TotalsAgree(g: BetRow)
    requires g.overBet >= 0.0 && g.underBet >= 0.0
    ensures TotalsNet(g) == TotalResult(HomeAway(g.awayScore, g.homeScore), TotalOddsOf(g)).net
  {
    var sum := (g.awayScore + g.homeScore) as real;
    var staked := g.underBet > 0.0 || g.overBet > 0.0;
    SideAgrees(sum < g.overUnder, g.underPrice, g.underBet);
    SideAgrees(sum > g.overUnder, g.overPrice, g.overBet);
    SideAgrees(staked && sum < g.overUnder, g.underPrice, g.underBet);
    SideAgrees(staked && sum > g.overUnder, g.overPrice, g.overBet);
  }

  /** A row holding the keys of a moneyline test dict: scores, prices and stakes. */
  predicate H2hKeys(g: BetRow, away: int, home: int, awayPrice: int, homePrice: int, awayBet: real, homeBet: real) {
    && g.awayScore == away && g.homeScore == home
    && g.awayH2hPrice == awayPrice && g.homeH2hPrice == homePrice
    && g.awayH2hBet == awayBet && g.homeH2hBet == homeBet
  }

  /** A row holding the keys of a spread test dict. */
  predicate SpreadKeys(g: BetRow, away: int, home: int, awaySpread: real, homeSpread: real,
                       awayPrice: int, homePrice: int, awayBet: real, homeBet: real) {
    && g.awayScore == away && g.homeScore == home
    && g.awaySpread == awaySpread && g.homeSpread == homeSpread
    && g.awaySpreadPrice == awayPrice && g.homeSpreadPrice == homePrice
    && g.awaySpreadBet == awayBet && g.homeSpreadBet == homeBet
  }

  /** A row holding the keys of a totals test dict. */
  predicate TotalsKeys(g: BetRow, away: int, home: int, line: real, overPrice: int, underPrice: int, overBet: real, underBet: real) {
    && g.awayScore == away && g.homeScore == home && g.overUnder == line
    && g.overPrice == overPrice && g.underPrice == underPrice
    && g.overBet == overBet && g.underBet == underBet
  }

  /** The moneyline tests, at -110 away and +115 home with 100 on one side: the home side wins
      10-13 (115) and loses 13-10 (-100), the away side wins 13-10 (90.91) and loses 10-13
      (-100), and a 13-13 tie nets 0. */
  lemma H2hTests(homeWin: BetRow, homeLoss: BetRow, awayWin: BetRow, awayLoss: BetRow, push: BetRow)
    requires H2hKeys(homeWin, 10, 13, -110, 115, 0.0, 100.0)
    requires H2hKeys(homeLoss, 13, 10, -110, 115, 0.0, 100.0)
    requires H2hKeys(awayWin, 13, 10, -110, 115, 100.0, 0.0)
    requires H2hKeys(awayLoss, 10, 13, -110, 115, 100.0, 0.0)
    requires H2hKeys(push, 13, 13, -110, 115, 100.0, 0.0)
    ensures H2hNet(homeWin) == 115.0 && H2hNet(homeLoss) == -100.0
    ensures H2hNet(awayWin) == 90.91 && H2hNet(awayLoss) == -100.0
    ensures H2hNet(push) == 0.0
  {
    BetWinningsExamples();
    UnstakedSideNetsNothing(true, 115);
    UnstakedSideNetsNothing(false, 115);
    UnstakedSideNetsNothing(true, -110);
    UnstakedSideNetsNothing(false, -110);
  }

  /** The spread tests, at -3.5 away and +3.5 home priced -110 and +115: the away side wins
      14-10 (90.91) and loses 13-10 (-100), the home side wins 13-10 (115) and loses 17-10
      (-100), and 13-10 at -3 pushes for 0. */
  lemma SpreadTests(awayWin: BetRow, awayLoss: BetRow, homeWin: BetRow, homeLoss: BetRow, push: BetRow)
    requires SpreadKeys(awayWin, 14, 10, -3.5, 3.5, -110, 115, 100.0, 0.0)
    requires SpreadKeys(awayLoss, 13, 10, -3.5, 3.5, -110, 115, 100.0, 0.0)
    requires SpreadKeys(homeWin, 13, 10, -3.5, 3.5, -110, 115, 0.0, 100.0)
    requires SpreadKeys(homeLoss, 17, 10, -3.5, 3.5, -110, 115, 0.0, 100.0)
    requires SpreadKeys(push, 13, 10, -3.0, 3.0, -110, 115, 0.0, 100.0)
    ensures SpreadNet(awayWin) == 90.91 && SpreadNet(awayLoss) == -100.0
    ensures SpreadNet(homeWin) == 115.0 && SpreadNet(homeLoss) == -100.0
    ensures SpreadNet(push) == 0.0
  {
    BetWinningsExamples();
    UnstakedSideNetsNothing(true, 115);
    UnstakedSideNetsNothing(false, 115);
    UnstakedSideNetsNothing(true, -110);
    UnstakedSideNetsNothing(false, -110);
  }

  /** The totals tests, over -110 and under +115 at 23.5: the over wins 14-10 (90.91) and loses
      13-10 (-100), the under wins 13-10 (115) and loses 14-10 (-100), and 14-10 at 24 pushes. */
  lemma TotalsTests(overWin: BetRow, overLoss: BetRow, underWin: BetRow, underLoss: BetRow, push: BetRow)
    requires TotalsKeys(overWin, 14, 10, 23.5, -110, 115, 100.0, 0.0)
    requires TotalsKeys(overLoss, 13, 10, 23.5, -110, 115, 100.0, 0.0)
    requires TotalsKeys(underWin, 13, 10, 23.5, -110, 115, 0.0, 100.0)
    requires TotalsKeys(underLoss, 14, 10, 23.5, -110, 115, 0.0, 100.0)
    requires TotalsKeys(push, 14, 10, 24.0, -110, 115, 100.0, 0.0)
    ensures TotalsNet(overWin) == 90.91 && TotalsNet(overLoss) == -100.0
    ensures TotalsNet(underWin) == 115.0 && TotalsNet(underLoss) == -100.0
    ensures TotalsNet(push) == 0.0
  {
    BetWinningsExamples();
    UnstakedSideNetsNothing(true, 115);
    UnstakedSideNetsNothing(false, 115);
    UnstakedSideNetsNothing(true, -110);
    UnstakedSideNetsNothing(false, -110);
  }

  /** As written, `calculate_bet_winnings` returns a pair where its tests compare with a number
      (a lost 100 at -110 against -100, a won one against 90.91), so those comparisons fail; the
      moneyline home win of the tests, which should net 115, raises; its push, which should net
      0, returns a pair; the spread's away win and the totals' over win, which should net 90.91,
      raise. */
  lemma AsWrittenTests(h2hWin: BetRow, h2hPush: BetRow, spreadWin: BetRow, overWin: BetRow)
    requires H2hKeys(h2hWin, 10, 13, -110, 115, 0.0, 100.0)
    requires H2hKeys(h2hPush, 13, 13, -110, 115, 100.0, 0.0)
    requires SpreadKeys(spreadWin, 14, 10, -3.5, 3.5, -110, 115, 100.0, 0.0)
    requires TotalsKeys(overWin, 14, 10, 23.5, -110, 115, 100.0, 0.0)
    ensures H2hNetAsWritten(h2hWin) == Raises
    ensures H2hNetAsWritten(h2hPush) == Ok(NetAndTally(0.0, [0, 0, 1]))
    ensures SpreadNetAsWritten(spreadWin) == Raises
    ensures TotalsNetAsWritten(overWin) == Raises
    ensures BetWinnings(false, -110, 100.0) == (-100.0, [0, 1, 0])
    ensures PairOf(BetWinnings(false, -110, 100.0)) != Number(-100.0)
    ensures BetWinnings(true, -110, 100.0) == (90.91, [1, 0, 0])
    ensures PairOf(BetWinnings(true, -110, 100.0)) != Number(90.91)
  {
    BetWinningsAgrees(true, -110, 100.0);
    PayoutExamples();
  }

  /** Over a whole row, with no negative stakes: the net `calculate_bet_results` writes is the net
      of the aggregate the class-based engine settles for the same three markets. */
  lemma GameNetAgrees(g: BetRow)
    requires g.awayH2hBet >= 0.0 && g.homeH2hBet >= 0.0
    requires g.awaySpreadBet >= 0.0 && g.homeSpreadBet >= 0.0
    requires g.overBet >= 0.0 && g.underBet >= 0.0
    ensures var s, o := HomeAway(g.awayScore, g.homeScore), NflGameOdds(Some(H2hOddsOf(g)), Some(SpreadOddsOf(g)), Some(TotalOddsOf(g)));
      Settleable(s, o) && GameNet(g) == GameTotal(s, o).net
  {
    var s, o := HomeAway(g.awayScore, g.homeScore), NflGameOdds(Some(H2hOddsOf(g)), Some(SpreadOddsOf(g)), Some(TotalOddsOf(g)));
    H2hAgrees(g);
    SpreadAgrees(g);
    TotalsAgree(g);
    assert MarketResults(s, o) == [H2hResult(s, H2hOddsOf(g)), SpreadResult(s, SpreadOddsOf(g)), TotalResult(s, TotalOddsOf(g))];
    SumOfThree(H2hResult(s, H2hOddsOf(g)), SpreadResult(s, SpreadOddsOf(g)), TotalResult(s, TotalOddsOf(g)));
  }

  // ---- the records built from the feeds ----

  /** `get_market(odds_game, key)`: None when the event has no bookmaker; otherwise the first
      market of the first bookmaker with that key, raising IndexError when there is none. */
  function GetMarket(og: OddsEvent, key: string): Fallible<Option<Market>> {
    if og.bookmakers == [] then Ok(None)
    else
      match FirstOrRaise(og.bookmakers[0].markets, (m: Market) => m.key == key)
      case Ok(m) => Ok(Some(m))
      case Raises => Raises
  }

  /** `get_market` gives no market exactly when there is no bookmaker, and fails exactly when
      the first bookmaker lists no market with the key; what it finds has that key and is
      among the first bookmaker's markets. Unlike `set_odds`, a missing market raises. */
  lemma GetMarketRules(og: OddsEvent, key: string)
    ensures GetMarket(og, key) == Ok(None) <==> og.bookmakers == []
    ensures GetMarket(og, key).Raises? <==>
      og.bookmakers != [] && forall i :: 0 <= i < |og.bookmakers[0].markets| ==> og.bookmakers[0].markets[i].key != key
    ensures GetMarket(og, key).Ok? && GetMarket(og, key).value.Some? ==>
      GetMarket(og, key).value.value.key == key && GetMarket(og, key).value.value in og.bookmakers[0].markets
    ensures GetMarket(og, key).Ok? && GetMarket(og, key).value.Some? ==>
      var ms := og.bookmakers[0].markets;
      exists i :: 0 <= i < |ms| && ms[i] == GetMarket(og, key).value.value &&
                  forall j :: 0 <= j < i ==> ms[j].key != key
  {
    if og.bookmakers != [] {
      var ms := og.bookmakers[0].markets;
      FirstFinds(ms, (m: Market) => m.key == key);
      if First(ms, (m: Market) => m.key == key).Some? {
        var i :| 0 <= i < |ms| && ms[i] == First(ms, (m: Market) => m.key == key).value && ms[i].key == key;
      }
    }
  }

  /** `get_outcome(market, name)` on a market: its first outcome with that name, raising
      IndexError when there is none. */
  function GetOutcome(m: Market, name: string): Fallible<Outcome> {
    FirstOrRaise(m.outcomes, (x: Outcome) => x.name == name)
  }

  /** `get_outcome` fails exactly when no outcome has the name, and otherwise finds the
      earliest one that has it. */
  lemma GetOutcomeRules(m: Market, name: string)
    ensures GetOutcome(m, name).Raises? <==> forall i :: 0 <= i < |m.outcomes| ==> m.outcomes[i].name != name
    ensures GetOutcome(m, name).Ok? ==>
      exists i :: 0 <= i < |m.outcomes| && m.outcomes[i] == GetOutcome(m, name).value && m.outcomes[i].name == name &&
                  forall j :: 0 <= j < i ==> m.outcomes[j].name != name
  {
    FirstFinds(m.outcomes, (x: Outcome) => x.name == name);
  }

  /** The price of a named outcome, 0 when the market is absent. */
  function PriceIn(m: Option<Market>, name: string): Fallible<int> {
    if m.None? then Ok(0)
    else
      match GetOutcome(m.value, name)
      case Ok(x) => Ok(x.price)
      case Raises => Raises
  }

  /** The point of a named outcome, 0 when the market is absent; an outcome without a point
      raises KeyError. */
  function PointIn(m: Option<Market>, name: string): Fallible<real> {
    if m.None? then Ok(0.0)
    else
      match GetOutcome(m.value, name)
      case Ok(x) => if x.point.Some? then Ok(x.point.value) else Raises
      case Raises => Raises
  }

  /** The game record of `create_game_info`, without its date and time. */
  datatype GameInfo = GameInfo(week: int, location: string, awayTeam: string, homeTeam: string)

  /** `create_game_info(week, odds_game, score_game)`: the week, the venue of the event's first
      competition (IndexError without one), and the teams of the odds event. */
  function CreateGameInfo(week: int, og: OddsEvent, e: Event): Fallible<GameInfo> {
    if e.competitions == [] then Raises
    else Ok(GameInfo(week, Location(e.competitions[0].address), og.awayTeam, og.homeTeam))
  }

  /** The game record is built exactly when the event has a competition, and places the game in
      its city, followed by ", state" when the venue has one. */
  lemma CreateGameInfoRules(week: int, og: OddsEvent, e: Event)
    ensures CreateGameInfo(week, og, e).Ok? <==> e.competitions != []
    ensures CreateGameInfo(week, og, e).Ok? ==>
      var r, a := CreateGameInfo(week, og, e).value, e.competitions[0].address;
      && r.week == week && r.awayTeam == og.awayTeam && r.homeTeam == og.homeTeam
      && (a.state.None? ==> r.location == a.city)
      && (a.state.Some? ==> r.location == a.city + ", " + a.state.value)
  {
  }

  /** The venues of the two game-record tests: London, without a state, and Minneapolis, MN. */
  lemma CreateGameInfoExamples()
    ensures CreateGameInfo(8, OddsEvent("Denver Broncos", "Jacksonville Jaguars", "2022-10-30T13:30:00Z", []),
                           Event("Denver Broncos at Jacksonville Jaguars", "2022-10-30T13:30Z", 8,
                                 [Competition(1, [], Address("London", None))]))
            == Ok(GameInfo(8, "London", "Denver Broncos", "Jacksonville Jaguars"))
    ensures CreateGameInfo(8, OddsEvent("Arizona Cardinals", "Minnesota Vikings", "2022-10-30T17:00:00Z", []),
                           Event("Arizona Cardinals at Minnesota Vikings", "2022-10-30T17:00Z", 8,
                                 [Competition(1, [], Address("Minneapolis", Some("MN")))]))
            == Ok(GameInfo(8, "Minneapolis, MN", "Arizona Cardinals", "Minnesota Vikings"))
  {
    assert "Minneapolis" + ", " + "MN" == "Minneapolis, MN";
  }

  /** The odds record of `create_odds_info`: per side a score, a moneyline price and stake, a
      handicap, a spread price and stake; the over/under line, and the over and under prices
      and stakes. */
  datatype OddsInfo = OddsInfo(
    week: int, teams: HomeAway<string>, scores: HomeAway<int>,
    h2hPrice: HomeAway<int>, h2hBet: HomeAway<real>,
    spread: HomeAway<real>, spreadPrice: HomeAway<int>, spreadBet: HomeAway<real>,
    overUnder: real, overPrice: int, overBet: real, underPrice: int, underBet: real)

  /** `get_competitor_score`: the score of the first competitor with the team's display name,
      IndexError when there is none; -1 for both teams when the first competitor carries no
      "winner" key (the game is not decided). */
  function ScoreOf(cs: seq<Competitor>, team: string): Fallible<int>
    requires cs != []
  {
    if cs[0].winner.None? then Ok(-1)
    else
      match FirstOrRaise(cs, (c: Competitor) => c.displayName == team)
      case Ok(c) => Ok(c.score)
      case Raises => Raises
  }

  /** The moneyline, spread and total columns of `create_odds_info`, each 0 where its market is
      absent; the over/under line is the Over outcome's point. */
  function H2hColumns(h2h: Option<Market>, teams: HomeAway<string>): Fallible<HomeAway<int>> {
    match (PriceIn(h2h, teams.away), PriceIn(h2h, teams.home))
    case (Ok(a), Ok(h)) => Ok(HomeAway(a, h))
    case _ => Raises
  }

  function SpreadColumns(spreads: Option<Market>, teams: HomeAway<string>): Fallible<(HomeAway<real>, HomeAway<int>)> {
    match (PointIn(spreads, teams.away), PriceIn(spreads, teams.away), PointIn(spreads, teams.home), PriceIn(spreads, teams.home))
    case (Ok(ap), Ok(apr), Ok(hp), Ok(hpr)) => Ok((HomeAway(ap, hp), HomeAway(apr, hpr)))
    case _ => Raises
  }

  function TotalColumns(totals: Option<Market>): Fallible<(real, int, int)> {
    match (PointIn(totals, "Over"), PriceIn(totals, "Over"), PriceIn(totals, "Under"))
    case (Ok(line), Ok(over), Ok(under)) => Ok((line, over, under))
    case _ => Raises
  }

  /** `create_odds_info(week, odds_game, score_game)`: the three markets looked up with
      `get_market`, the scores read from the event's first competition, and every stake 0. */
  function CreateOddsInfo(week: int, og: OddsEvent, e: Event): Fallible<OddsInfo> {
    var teams := HomeAway(og.awayTeam, og.homeTeam);
    match (GetMarket(og, "h2h"), GetMarket(og, "spreads"), GetMarket(og, "totals"))
    case (Ok(h2h), Ok(spreads), Ok(totals)) =>
      if e.competitions == [] || e.competitions[0].competitors == [] then Raises
      else
        var cs := e.competitions[0].competitors;
        (match (ScoreOf(cs, teams.away), ScoreOf(cs, teams.home), H2hColumns(h2h, teams), SpreadColumns(spreads, teams), TotalColumns(totals))
         case (Ok(awayScore), Ok(homeScore), Ok(price), Ok(sp), Ok(t)) =>
           Ok(OddsInfo(week, teams, HomeAway(awayScore, homeScore), price, HomeAway(0.0, 0.0), sp.0, sp.1, HomeAway(0.0, 0.0),
                       t.0, t.1, 0.0, t.2, 0.0))
         case _ => Raises)
    case _ => Raises
  }

  /** Every stake of a built odds record is 0, its teams are those of the odds event, and both
      scores are -1 while the first competitor carries no "winner" key; once it does, each is
      the score of the first competitor with that team's name. */
  lemma OddsInfoRules(week: int, og: OddsEvent, e: Event)
    ensures CreateOddsInfo(week, og, e).Ok? ==>
      var r, cs := CreateOddsInfo(week, og, e).value, e.competitions[0].competitors;
      && r.week == week && r.teams == HomeAway(og.awayTeam, og.homeTeam)
      && r.h2hBet == r.spreadBet == HomeAway(0.0, 0.0) && r.overBet == r.underBet == 0.0
      && (cs[0].winner.None? ==> r.scores == HomeAway(-1, -1))
      && (cs[0].winner.Some? ==>
            && First(cs, (c: Competitor) => c.displayName == og.awayTeam).Some?
            && First(cs, (c: Competitor) => c.displayName == og.homeTeam).Some?
            && r.scores == HomeAway(First(cs, (c: Competitor) => c.displayName == og.awayTeam).value.score,
                                    First(cs, (c: Competitor) => c.displayName == og.homeTeam).value.score))
  {
  }

  /** Without a bookmaker every price, handicap and line is 0, and the record is built exactly
      when the event has a competition with competitors whose scores can be read. */
  lemma OddsInfoWithoutBookmakers(week: int, og: OddsEvent, e: Event)
    requires og.bookmakers == []
    ensures CreateOddsInfo(week, og, e).Ok? <==>
      && e.competitions != [] && e.competitions[0].competitors != []
      && ScoreOf(e.competitions[0].competitors, og.awayTeam).Ok?
      && ScoreOf(e.competitions[0].competitors, og.homeTeam).Ok?
    ensures CreateOddsInfo(week, og, e).Ok? ==>
      var r := CreateOddsInfo(week, og, e).value;
      && r.h2hPrice == HomeAway(0, 0) && r.spread == HomeAway(0.0, 0.0) && r.spreadPrice == HomeAway(0, 0)
      && r.overUnder == 0.0 && r.overPrice == 0 && r.underPrice == 0
  {
  }

  /** With a bookmaker, each column is read from the first market with its key: the moneyline
      prices and the spread handicaps and prices by team name, and the line and the over price
      from the Over outcome, the under price from the Under outcome. */
  lemma OddsInfoReads(week: int, og: OddsEvent, e: Event)
    requires og.bookmakers != []
    ensures CreateOddsInfo(week, og, e).Ok? ==>
      var r, teams := CreateOddsInfo(week, og, e).value, HomeAway(og.awayTeam, og.homeTeam);
      var h2h, spreads, totals := GetMarket(og, "h2h").value.value, GetMarket(og, "spreads").value.value, GetMarket(og, "totals").value.value;
      && r.h2hPrice == HomeAway(GetOutcome(h2h, teams.away).value.price, GetOutcome(h2h, teams.home).value.price)
      && r.spread == HomeAway(GetOutcome(spreads, teams.away).value.point.value, GetOutcome(spreads, teams.home).value.point.value)
      && r.spreadPrice == HomeAway(GetOutcome(spreads, teams.away).value.price, GetOutcome(spreads, teams.home).value.price)
      && r.overUnder == GetOutcome(totals, "Over").value.point.value
      && r.overPrice == GetOutcome(totals, "Over").value.price
      && r.underPrice == GetOutcome(totals, "Under").value.price
  {
  }

  /** The odds event `aggregate_data` pairs with a schedule event: the first whose
      "away at home" name is the event's name; failing that, a stand-in without bookmakers whose
      teams come from splitting the event's name at its first " at ", which raises ValueError
      when the name has none (None here). */
  function OddsGameFor(e: Event, odds: seq<OddsEvent>): Option<OddsEvent> {
    match First(odds, (og: OddsEvent) => e.name == og.awayTeam + Separator + og.homeTeam)
    case Some(og) => Some(og)
    case None =>
      match SplitName(e.name)
      case Some(t) => Some(OddsEvent(t.away, t.home, e.date, []))
      case None => None
  }

  /** Whichever way the odds event is found, its teams joined with " at " give the event's name;
      and when no odds event matches, an event named `away + " at " + home` gets back exactly
      its two teams, provided the away name holds no separator. */
  lemma OddsGameTeams(e: Event, odds: seq<OddsEvent>)
    ensures OddsGameFor(e, odds).Some? ==>
      OddsGameFor(e, odds).value.awayTeam + Separator + OddsGameFor(e, odds).value.homeTeam == e.name
    ensures OddsGameFor(e, odds).None? <==>
      (forall i :: 0 <= i < |odds| ==> e.name != odds[i].awayTeam + Separator + odds[i].homeTeam) && !Contains(e.name, Separator)
  {
    FirstFinds(odds, (og: OddsEvent) => e.name == og.awayTeam + Separator + og.homeTeam);
  }

  lemma StandInTeams(e: Event, odds: seq<OddsEvent>, away: string, home: string)
    requires e.name == away + Separator + home && !Contains(away + " ", Separator)
    requires forall i :: 0 <= i < |odds| ==> e.name != odds[i].awayTeam + Separator + odds[i].homeTeam
    ensures OddsGameFor(e, odds) == Some(OddsEvent(away, home, e.date, []))
  {
    FirstFinds(odds, (og: OddsEvent) => e.name == og.awayTeam + Separator + og.homeTeam);
    SplitJoin(away, home);
  }

  /** One iteration of `aggregate_data`: the game and the odds record of one event. */
  function Aggregated(week: int, odds: seq<OddsEvent>, e: Event): Fallible<(GameInfo, OddsInfo)> {
    match OddsGameFor(e, odds)
    case None => Raises
    case Some(og) =>
      match (CreateGameInfo(week, og, e), CreateOddsInfo(week, og, e))
      case (Ok(gi), Ok(oi)) => Ok((gi, oi))
      case _ => Raises
  }

  /** `aggregate_data(week, odds_data, score_data)`: one game record and one odds record per
      schedule event, in the events' order; an iteration that raises ends it without a result. */
  method AggregateData(week: int, odds: seq<OddsEvent>, events: seq<Event>)
    returns (games: seq<GameInfo>, infos: seq<OddsInfo>, ok: bool)
    ensures ok <==> forall i :: 0 <= i < |events| ==> Aggregated(week, odds, events[i]).Ok?
    ensures ok ==> |games| == |infos| == |events|
    ensures ok ==> forall i :: 0 <= i < |events| ==> (games[i], infos[i]) == Aggregated(week, odds, events[i]).value
  {
    games, infos := [], [];
    for i := 0 to |events|
      invariant |games| == |infos| == i
      invariant forall j :: 0 <= j < i ==> Aggregated(week, odds, events[j]) == Ok((games[j], infos[j]))
    {
      var pair := Aggregated(week, odds, events[i]);
      if pair.Raises? {
        return games, infos, false;
      }
      games := games + [pair.value.0];
      infos := infos + [pair.value.1];
    }
    ok := true;
  }
}
