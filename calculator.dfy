/** The settlement engine (src/odds/BetCalculator.py): the American-odds payout rule and the
    win/loss/push rules of the moneyline, spread and total markets. */
module Calculator {
  import opened Common
  import opened Money
  import opened Results
  import opened Odds

  // ---- payout ----

  /** The profit a winning stake earns at an American price, written as the odds are quoted:
      price/100 per unit staked for an underdog (price > 0), 100/|price| for a favourite. */
  function Profit(price: int, stake: real): real
    requires price != 0
  {
    if price > 0 then stake * (price as real / 100.0) else stake * (100.0 / (-price) as real)
  }

  lemma ProfitNonNegative(price: int, stake: real)
    requires price != 0 && stake >= 0.0
    ensures Profit(price, stake) >= 0.0
  {
    if price > 0 {
      assert price as real / 100.0 > 0.0;
    } else {
      assert 100.0 / (-price) as real > 0.0;
    }
  }

  /** `__calculate_bet_winnings(won_bet, price, bet)`. A price of None counts as non-zero, as in
      Python (`None == 0` is false); the source raises on `None > 0`, so a won side needs a price.
      What a win pays is stated by PayoutOfWin. */
  function Payout(won: bool, price: Option<int>, stake: real): (r: real)
    requires won ==> price.Some?
    ensures price == Some(0) ==> r == 0.0
    ensures price != Some(0) && !won ==> r == -stake
  {
    if price == Some(0) then 0.0
    else if !won then -1.0 * stake
    else RoundCents(WinAmount(price.value, stake))
  }

  /** The exact winnings before rounding, computed as the source does: the decimal multiplier
      (1 + price/100 for an underdog, 1 - 100/price for a favourite) times the stake, less the stake. */
  function WinAmount(price: int, stake: real): real
    requires price != 0
  {
    var p := price as real;
    var multiplier := if price > 0 then 1.0 + p / 100.0 else 1.0 - 100.0 / p;
    multiplier * stake - stake
  }

  lemma WinAmountIsProfit(price: int, stake: real)
    requires price != 0
    ensures WinAmount(price, stake) == Profit(price, stake)
  {
    var p := price as real;
    var multiplier := if price > 0 then 1.0 + p / 100.0 else 1.0 - 100.0 / p;
    assert multiplier * stake - stake == (multiplier - 1.0) * stake;
  }

  /** A won side pays its profit to the nearest cent, and exactly when the profit is a whole
      number of cents (a 100 stake at +150 pays 150). */
  lemma PayoutOfWin(price: int, stake: real)
    requires price != 0
    ensures -1.0 / 200.0 < Payout(true, Some(price), stake) - Profit(price, stake) <= 1.0 / 200.0
    ensures WholeCents(Profit(price, stake)) ==> Payout(true, Some(price), stake) == Profit(price, stake)
    ensures stake >= 0.0 ==> Payout(true, Some(price), stake) >= 0.0
  {
    WinAmountIsProfit(price, stake);
    if stake >= 0.0 {
      ProfitNonNegative(price, stake);
    }
    if WholeCents(Profit(price, stake)) {
      RoundCentsExact(Profit(price, stake));
    }
  }

  /** The worked examples: a 100 stake won at -110 nets 90.91, at +115 nets 115, at +150 nets 150. */
  lemma PayoutExamples()
    ensures Payout(true, Some(-110), 100.0) == 90.91
    ensures Payout(true, Some(115), 100.0) == 115.0
    ensures Payout(true, Some(150), 100.0) == 150.0
    ensures Payout(false, Some(-110), 100.0) == -100.0
    ensures Payout(true, Some(0), 100.0) == 0.0
  {
    PayoutOfWin(-110, 100.0);
    assert Profit(-110, 100.0) == 10000.0 / 110.0;
    RoundCentsUnique(10000.0 / 110.0, 90.91);
    PayoutOfWin(115, 100.0);
    PayoutOfWin(150, 100.0);
    assert WholeCents(115.0) && WholeCents(150.0);
  }

  // ---- one market ----

  predicate Staked(bet: HomeAway<real>) {
    bet.away > 0.0 || bet.home > 0.0
  }

  /** What one side of a market adds to the market's result: nothing without a positive stake,
      otherwise one win or one loss and its payout. */
  function SideResult(stake: real, won: bool, price: Option<int>): BetResults
    requires stake > 0.0 && won ==> price.Some?
  {
    if stake > 0.0 then BetResults(if won then 1 else 0, if won then 0 else 1, 0, Payout(won, price, stake))
    else BetResults(0, 0, 0, 0.0)
  }

  /** The shape all three markets share: a staked push voids the market; otherwise each side is
      settled on its own and the two sides' results are added. */
  function MarketResult(bet: HomeAway<real>, price: HomeAway<Option<int>>, push: bool, wonAway: bool, wonHome: bool): BetResults
    requires !(Staked(bet) && push) ==> (bet.away > 0.0 && wonAway ==> price.away.Some?)
    requires !(Staked(bet) && push) ==> (bet.home > 0.0 && wonHome ==> price.home.Some?)
  {
    if Staked(bet) && push then BetResults(0, 0, 1, 0.0)
    else
      var a, h := SideResult(bet.away, wonAway, price.away), SideResult(bet.home, wonHome, price.home);
      BetResults(a.wins + h.wins, a.losses + h.losses, 0, a.net + h.net)
  }

  /** The stakes of a market as the comparisons `bet.side > 0` see them. A None stake that the
      source never compares (the second operand of a short-circuited `or` before a push) is
      read as 0; the predicates below rule out every None stake the source does compare. */
  function Stakes(bet: HomeAway<Option<real>>): (r: HomeAway<real>)
    ensures bet.away.Some? ==> r.away == bet.away.value
    ensures bet.home.Some? ==> r.home == bet.home.value
    ensures bet.home.None? ==> r.home == 0.0
  {
    HomeAway(bet.away.GetOr(0.0), bet.home.GetOr(0.0))
  }

  /** What `__calculate_h2h` evaluates without raising. The push test `bet.away > 0 or
      bet.home > 0` always reads the away stake and reads the home stake only when the away
      side is not staked; after a push nothing more is read; otherwise line 72 reads the home
      stake, and a side settled as won needs its price. */
  predicate H2hSettleable(s: HomeAway<int>, m: H2HOdds) {
    var bet := Stakes(m.bet);
    && m.bet.away.Some?
    && (m.bet.home.None? ==> bet.away > 0.0 && s.away == s.home)
    && (bet.away > 0.0 && s.away > s.home ==> m.price.away.Some?)
    && (bet.home > 0.0 && s.home > s.away ==> m.price.home.Some?)
  }

  /** The moneyline rule: a tie pushes; a team's side wins iff that team outscored the other. */
  function H2hResult(s: HomeAway<int>, m: H2HOdds): BetResults
    requires H2hSettleable(s, m)
  {
    MarketResult(Stakes(m.bet), m.price, s.away == s.home, s.away > s.home, s.home > s.away)
  }

  /** Whether a staked spread pushes: the away score plus the away handicap is the home score. */
  predicate SpreadPush(s: HomeAway<int>, m: SpreadOdds)
    requires Staked(Stakes(m.bet)) ==> m.points.away.Some?
  {
    Staked(Stakes(m.bet)) && s.away as real + m.points.away.value == s.home as real
  }

  /** What `__calculate_spread` evaluates without raising. The push test reads the stakes as
      the moneyline does and, when a stake exists, the away handicap; after a push nothing more
      is read; otherwise the home stake is read, each staked side reads its own handicap, and a
      side settled as won needs its price. */
  predicate SpreadSettleable(s: HomeAway<int>, m: SpreadOdds) {
    var bet := Stakes(m.bet);
    && m.bet.away.Some?
    && (Staked(bet) ==> m.points.away.Some?)
    && (m.bet.home.None? ==> SpreadPush(s, m))
    && (!SpreadPush(s, m) && bet.home > 0.0 ==> m.points.home.Some?)
    && (bet.away > 0.0 && s.away as real + m.points.away.value > s.home as real ==> m.price.away.Some?)
    && ((!SpreadPush(s, m) && bet.home > 0.0 && s.home as real + m.points.home.value > s.away as real) ==> m.price.home.Some?)
  }

  /** The spread rule: a push when the away score plus the away handicap equals the home score;
      a side wins iff its score plus its own handicap beats the other score. */
  function SpreadResult(s: HomeAway<int>, m: SpreadOdds): BetResults
    requires SpreadSettleable(s, m)
  {
    var bet := Stakes(m.bet);
    var push := SpreadPush(s, m);
    MarketResult(bet, m.price, push,
                 bet.away > 0.0 && s.away as real + m.points.away.value > s.home as real,
                 !push && bet.home > 0.0 && s.home as real + m.points.home.value > s.away as real)
  }

  /** What `__calculate_total` evaluates without raising. A missing line is harmless in the push
      test (`==` with None is false) but not in the `<` and `>` of a staked side, so a stake
      needs a line; the stakes are read as in the other two markets. */
  predicate TotalSettleable(s: HomeAway<int>, m: TotalOdds) {
    var bet := Stakes(m.bet);
    && m.bet.away.Some?
    && (Staked(bet) ==> m.points.Some?)
    && (m.bet.home.None? ==> Staked(bet) && ((s.away + s.home) as real) == m.points.value)
    && (bet.away > 0.0 && ((s.away + s.home) as real) < m.points.value ==> m.price.away.Some?)
    && (bet.home > 0.0 && ((s.away + s.home) as real) > m.points.value ==> m.price.home.Some?)
  }

  /** The total rule: a push when the combined score equals the line; the under (away slot)
      wins iff the combined score is below the line, the over (home slot) iff it is above. */
  function TotalResult(s: HomeAway<int>, m: TotalOdds): BetResults
    requires TotalSettleable(s, m)
  {
    var bet := Stakes(m.bet);
    var sum := (s.away + s.home) as real;
    MarketResult(bet, m.price, Staked(bet) && sum == m.points.value,
                 Staked(bet) && sum < m.points.value, Staked(bet) && sum > m.points.value)
  }

  /** One side of a market as each of the three methods settles it: a positive stake counts
      one win or one loss and adds its payout to the running net. */
  method SettleSide(stake: real, won: bool, price: Option<int>, wins: int, losses: int, net: real)
    returns (wins': int, losses': int, net': real)
    requires stake > 0.0 && won ==> price.Some?
    ensures var side := SideResult(stake, won, price);
      wins' == wins + side.wins && losses' == losses + side.losses && net' == net + side.net
  {
    wins', losses', net' := wins, losses, net;
    if stake > 0.0 {
      if won { wins' := wins' + 1; } else { losses' := losses' + 1; }
      net' := net' + Payout(won, price, stake);
    }
  }

  /** `__calculate_h2h`: a staked tie pushes; otherwise each staked side is settled in turn. */
  method CalculateH2h(s: HomeAway<int>, m: H2HOdds) returns (r: BetResults)
    requires H2hSettleable(s, m)
    ensures r == H2hResult(s, m)
  {
    var bet := Stakes(m.bet);
    if (bet.away > 0.0 || bet.home > 0.0) && s.away == s.home {
      return BetResults(0, 0, 1, 0.0);
    }
    var wins, losses, net := 0, 0, 0.0;
    wins, losses, net := SettleSide(bet.away, s.away > s.home, m.price.away, wins, losses, net);
    wins, losses, net := SettleSide(bet.home, s.home > s.away, m.price.home, wins, losses, net);
    return BetResults(wins, losses, 0, net);
  }

  /** `__calculate_spread`: a staked push when the away score plus the away handicap equals the
      home score; otherwise each staked side is settled against its own handicap. */
  method CalculateSpread(s: HomeAway<int>, m: SpreadOdds) returns (r: BetResults)
    requires SpreadSettleable(s, m)
    ensures r == SpreadResult(s, m)
  {
    var bet := Stakes(m.bet);
    if (bet.away > 0.0 || bet.home > 0.0) && s.away as real + m.points.away.value == s.home as real {
      return BetResults(0, 0, 1, 0.0);
    }
    var wins, losses, net := 0, 0, 0.0;
    var wonAwayBet := bet.away > 0.0 && s.away as real + m.points.away.value > s.home as real;
    wins, losses, net := SettleSide(bet.away, wonAwayBet, m.price.away, wins, losses, net);
    var wonHomeBet := bet.home > 0.0 && s.home as real + m.points.home.value > s.away as real;
    wins, losses, net := SettleSide(bet.home, wonHomeBet, m.price.home, wins, losses, net);
    return BetResults(wins, losses, 0, net);
  }

  /** `__calculate_total`: a staked push when the combined score equals the line; otherwise the
      under wager (away slot) and the over wager (home slot) are settled in turn. */
  method CalculateTotal(s: HomeAway<int>, m: TotalOdds) returns (r: BetResults)
    requires TotalSettleable(s, m)
    ensures r == TotalResult(s, m)
  {
    var bet := Stakes(m.bet);
    var sum := (s.away + s.home) as real;
    if (bet.away > 0.0 || bet.home > 0.0) && sum == m.points.value {
      return BetResults(0, 0, 1, 0.0);
    }
    var wins, losses, net := 0, 0, 0.0;
    wins, losses, net := SettleSide(bet.away, Staked(bet) && sum < m.points.value, m.price.away, wins, losses, net);
    wins, losses, net := SettleSide(bet.home, Staked(bet) && sum > m.points.value, m.price.home, wins, losses, net);
    return BetResults(wins, losses, 0, net);
  }

  // ---- properties of one market ----

  function Count(b: bool): int {
    if b then 1 else 0
  }

  /** A staked push is exactly one push, whatever the prices and stakes. */
  lemma MarketPush(bet: HomeAway<real>, price: HomeAway<Option<int>>, push: bool, wonAway: bool, wonHome: bool)
    requires Staked(bet) && push
    ensures MarketResult(bet, price, push, wonAway, wonHome) == BetResults(0, 0, 1, 0.0)
  {
  }

  /** Outside a push, each positively staked side is exactly one win (if it won) or one loss,
      unstaked sides count nothing, and the net is the staked sides' payouts. */
  lemma MarketTally(bet: HomeAway<real>, price: HomeAway<Option<int>>, push: bool, wonAway: bool, wonHome: bool)
    requires !(Staked(bet) && push)
    requires bet.away > 0.0 && wonAway ==> price.away.Some?
    requires bet.home > 0.0 && wonHome ==> price.home.Some?
    ensures var r := MarketResult(bet, price, push, wonAway, wonHome);
      && r.pushes == 0
      && r.wins == Count(bet.away > 0.0 && wonAway) + Count(bet.home > 0.0 && wonHome)
      && r.losses == Count(bet.away > 0.0 && !wonAway) + Count(bet.home > 0.0 && !wonHome)
      && r.wins + r.losses == Count(bet.away > 0.0) + Count(bet.home > 0.0) <= 2
      && r.net == (if bet.away > 0.0 then Payout(wonAway, price.away, bet.away) else 0.0)
                + (if bet.home > 0.0 then Payout(wonHome, price.home, bet.home) else 0.0)
  {
  }

  /** Moneyline: a tie with a stake pushes; otherwise the away side wins iff away > home and
      the home side iff home > away, and with both sides staked exactly one of them wins. */
  lemma H2hRules(s: HomeAway<int>, m: H2HOdds)
    requires H2hSettleable(s, m)
    ensures var bet := Stakes(m.bet); var r := H2hResult(s, m);
      && (Staked(bet) && s.away == s.home ==> r == Push)
      && (!(Staked(bet) && s.away == s.home) ==>
            && r.pushes == 0
            && r.wins == Count(bet.away > 0.0 && s.away > s.home) + Count(bet.home > 0.0 && s.home > s.away)
            && r.wins + r.losses == Count(bet.away > 0.0) + Count(bet.home > 0.0))
      && (bet.away > 0.0 && bet.home > 0.0 && s.away != s.home ==> r.wins == 1 && r.losses == 1)
  {
    var bet := Stakes(m.bet);
    if !(Staked(bet) && s.away == s.home) {
      MarketTally(bet, m.price, s.away == s.home, s.away > s.home, s.home > s.away);
    }
  }

  /** Spread: a staked push when away + away handicap == home; otherwise the away side wins iff
      away + its handicap > home, the home side iff home + its handicap > away; on a proper
      two-way line (home handicap = -away handicap) with both sides staked exactly one wins. */
  lemma SpreadRules(s: HomeAway<int>, m: SpreadOdds)
    requires SpreadSettleable(s, m)
    ensures var bet := Stakes(m.bet); var r := SpreadResult(s, m);
      && (Staked(bet) && s.away as real + m.points.away.value == s.home as real ==> r == Push)
      && (Staked(bet) && s.away as real + m.points.away.value != s.home as real ==>
            && r.pushes == 0
            && r.wins == Count(bet.away > 0.0 && s.away as real + m.points.away.value > s.home as real)
                       + Count(bet.home > 0.0 && s.home as real + m.points.home.value > s.away as real)
            && r.wins + r.losses == Count(bet.away > 0.0) + Count(bet.home > 0.0))
      && (!Staked(bet) ==> r == Zero)
      && ((bet.away > 0.0 && bet.home > 0.0 && s.away as real + m.points.away.value != s.home as real &&
           m.points.home.value == -m.points.away.value) ==> r.wins == 1 && r.losses == 1)
  {
    var bet := Stakes(m.bet);
    if Staked(bet) && s.away as real + m.points.away.value != s.home as real {
      MarketTally(bet, m.price, false,
                  bet.away > 0.0 && s.away as real + m.points.away.value > s.home as real,
                  bet.home > 0.0 && s.home as real + m.points.home.value > s.away as real);
    }
  }

  /** Total: a staked push when the combined score equals the line; otherwise the under slot
      wins iff the sum is below the line and the over slot iff above, so with both staked
      exactly one wins. */
  lemma TotalRules(s: HomeAway<int>, m: TotalOdds)
    requires TotalSettleable(s, m)
    ensures var bet := Stakes(m.bet); var r := TotalResult(s, m); var sum := (s.away + s.home) as real;
      && (Staked(bet) && sum == m.points.value ==> r == Push)
      && (Staked(bet) && sum != m.points.value ==>
            && r.pushes == 0
            && r.wins == Count(bet.away > 0.0 && sum < m.points.value) + Count(bet.home > 0.0 && sum > m.points.value)
            && r.wins + r.losses == Count(bet.away > 0.0) + Count(bet.home > 0.0))
      && (!Staked(bet) ==> r == Zero)
      && (bet.away > 0.0 && bet.home > 0.0 && sum != m.points.value ==> r.wins == 1 && r.losses == 1)
  {
    var bet := Stakes(m.bet);
    var sum := (s.away + s.home) as real;
    if Staked(bet) && sum != m.points.value {
      MarketTally(bet, m.price, false, sum < m.points.value, sum > m.points.value);
    }
  }

  /** A staked side whose price is 0 still counts its win or loss, but moves no money. */
  lemma ZeroPriceStillCounts(s: HomeAway<int>, m: H2HOdds)
    requires H2hSettleable(s, m)
    requires m.price.away == Some(0) && Stakes(m.bet).away > 0.0 && Stakes(m.bet).home <= 0.0 && s.away != s.home
    ensures H2hResult(s, m).wins + H2hResult(s, m).losses == 1 && H2hResult(s, m).net == 0.0
  {
  }

  /** Python's `or` and `and` stop early, so a side the evaluation never reaches may be None: a
      tie with only the away stake set settles as a push, as does a spread whose home line is
      missing when the away line already gives a push; without the tie the home stake is read
      and a missing one raises. */
  lemma ShortCircuitSettles()
    ensures var m := H2HOdds(HomeAway(Some(-110), Some(115)), HomeAway(Some(100.0), None), Zero);
      && H2hSettleable(HomeAway(13, 13), m)
      && H2hResult(HomeAway(13, 13), m) == BetResults(0, 0, 1, 0.0)
      && !H2hSettleable(HomeAway(14, 13), m)
    ensures var m := SpreadOdds(HomeAway(Some(-3.0), None), HomeAway(Some(-110), Some(-110)),
                                HomeAway(Some(0.0), Some(100.0)), Zero);
      && SpreadSettleable(HomeAway(13, 10), m)
      && SpreadResult(HomeAway(13, 10), m) == BetResults(0, 0, 1, 0.0)
      && !SpreadSettleable(HomeAway(14, 10), m)
  {
  }

  // ---- the whole game ----

  /** What `calculate` needs of a game's markets to run without raising. */
  predicate Settleable(s: HomeAway<int>, o: NflGameOdds) {
    && (o.h2h.Some? ==> H2hSettleable(s, o.h2h.value))
    && (o.spread.Some? ==> SpreadSettleable(s, o.spread.value))
    && (o.total.Some? ==> TotalSettleable(s, o.total.value))
  }

  /** The markets with their results stored, as `calculate` leaves them. */
  function SettledOdds(s: HomeAway<int>, o: NflGameOdds): NflGameOdds
    requires Settleable(s, o)
  {
    NflGameOdds(
      if o.h2h.Some? then Some(o.h2h.value.(betResults := H2hResult(s, o.h2h.value))) else None,
      if o.spread.Some? then Some(o.spread.value.(betResults := SpreadResult(s, o.spread.value))) else None,
      if o.total.Some? then Some(o.total.value.(betResults := TotalResult(s, o.total.value))) else None)
  }

  /** The results of the present markets, in the order `calculate` adds them: moneyline,
      spread, total. */
  function MarketResults(s: HomeAway<int>, o: NflGameOdds): seq<BetResults>
    requires Settleable(s, o)
  {
    (if o.h2h.Some? then [H2hResult(s, o.h2h.value)] else [])
    + (if o.spread.Some? then [SpreadResult(s, o.spread.value)] else [])
    + (if o.total.Some? then [TotalResult(s, o.total.value)] else [])
  }

  /** The results stored on a game's markets. */
  function StoredResults(o: NflGameOdds): seq<BetResults> {
    (if o.h2h.Some? then [o.h2h.value.betResults] else [])
    + (if o.spread.Some? then [o.spread.value.betResults] else [])
    + (if o.total.Some? then [o.total.value.betResults] else [])
  }

  /** The game's aggregate: a fresh `BetResults()` with each present market's result added to it. */
  function GameTotal(s: HomeAway<int>, o: NflGameOdds): BetResults
    requires Settleable(s, o)
  {
    Sum(MarketResults(s, o))
  }

  /** Settling stores each present market's result on that market, so the aggregate is the sum
      of the stored results; settling the settled markets again changes nothing: results never
      accumulate across runs. */
  lemma SettleIdempotent(s: HomeAway<int>, o: NflGameOdds)
    requires Settleable(s, o)
    ensures Settleable(s, SettledOdds(s, o))
    ensures StoredResults(SettledOdds(s, o)) == MarketResults(s, o)
    ensures SettledOdds(s, SettledOdds(s, o)) == SettledOdds(s, o)
    ensures GameTotal(s, SettledOdds(s, o)) == GameTotal(s, o) == Sum(StoredResults(SettledOdds(s, o)))
  {
  }

  /** How far `calculate` has got: the markets with the results stored so far, those results in
      the order they were added, and whether every market so far was settled without raising. */
  datatype Progress = Progress(odds: NflGameOdds, settled: seq<BetResults>, ok: bool)

  /** The moneyline step of `calculate`: stores the market's result and records it, or raises
      and leaves everything as it is. */
  function StepH2h(s: HomeAway<int>, p: Progress): Progress {
    if !p.ok || p.odds.h2h.None? then p
    else if !H2hSettleable(s, p.odds.h2h.value) then p.(ok := false)
    else
      var r := H2hResult(s, p.odds.h2h.value);
      Progress(p.odds.(h2h := Some(p.odds.h2h.value.(betResults := r))), p.settled + [r], true)
  }

  /** The spread step of `calculate`. */
  function StepSpread(s: HomeAway<int>, p: Progress): Progress {
    if !p.ok || p.odds.spread.None? then p
    else if !SpreadSettleable(s, p.odds.spread.value) then p.(ok := false)
    else
      var r := SpreadResult(s, p.odds.spread.value);
      Progress(p.odds.(spread := Some(p.odds.spread.value.(betResults := r))), p.settled + [r], true)
  }

  /** The total step of `calculate`. */
  function StepTotal(s: HomeAway<int>, p: Progress): Progress {
    if !p.ok || p.odds.total.None? then p
    else if !TotalSettleable(s, p.odds.total.value) then p.(ok := false)
    else
      var r := TotalResult(s, p.odds.total.value);
      Progress(p.odds.(total := Some(p.odds.total.value.(betResults := r))), p.settled + [r], true)
  }

  /** `calculate`'s three steps in order, from the game's markets and nothing settled. */
  function Settle(s: HomeAway<int>, o: NflGameOdds): Progress {
    StepTotal(s, StepSpread(s, StepH2h(s, Progress(o, [], true))))
  }

  /** The steps get through every market exactly when the game is settleable, and then leave
      the settled markets and their results in order. */
  lemma SettleCompletes(s: HomeAway<int>, o: NflGameOdds)
    ensures Settle(s, o).ok <==> Settleable(s, o)
    ensures Settle(s, o).ok ==> Settle(s, o).odds == SettledOdds(s, o) && Settle(s, o).settled == MarketResults(s, o)
  {
  }

  /** A step that raises stops `calculate` where it is: the markets before it keep the results
      just stored on them, the market that raised and those after it are left untouched, and
      only the earlier markets' results have been added. */
  lemma SettleStopsAtRaise(s: HomeAway<int>, o: NflGameOdds)
    ensures o.h2h.Some? && !H2hSettleable(s, o.h2h.value) ==> Settle(s, o) == Progress(o, [], false)
    ensures var before := o.(spread := None, total := None);
      Settleable(s, before) && o.spread.Some? && !SpreadSettleable(s, o.spread.value) ==>
        Settle(s, o) == Progress(o.(h2h := SettledOdds(s, before).h2h), MarketResults(s, before), false)
    ensures var before := o.(total := None);
      Settleable(s, before) && o.total.Some? && !TotalSettleable(s, o.total.value) ==>
        Settle(s, o) == Progress(o.(h2h := SettledOdds(s, before).h2h, spread := SettledOdds(s, before).spread),
                                 MarketResults(s, before), false)
  {
  }

  /** `calculate` as written: BetResults defines no `__add__`, so the first `+=` (line 26, 29 or
      32, after the first present market's result has been stored) raises TypeError; only a game
      without markets completes, with the aggregate `BetResults()`. */
  function GameTotalAsWritten(s: HomeAway<int>, o: NflGameOdds): Fallible<BetResults> {
    if o.h2h.Some? || o.spread.Some? || o.total.Some? then Raises else Ok(Zero)
  }

  /** As written, no game with a market gets an aggregate, although the settlement rules give one;
      where the source completes, it agrees with GameTotal. */
  lemma AsWrittenRaises(s: HomeAway<int>, o: NflGameOdds)
    requires Settleable(s, o)
    ensures GameTotalAsWritten(s, o).Ok? <==> MarketResults(s, o) == []
    ensures GameTotalAsWritten(s, o).Ok? ==> GameTotalAsWritten(s, o).value == GameTotal(s, o)
  {
  }

  /** A 13-13 moneyline tie with 100 staked on the away side settles as one push, but raises
      as written. */
  lemma AsWrittenPushRaises()
    ensures var o := NflGameOdds(Some(H2HOdds(HomeAway(Some(-110), Some(115)), HomeAway(Some(100.0), Some(0.0)), Zero)), None, None);
      && Settleable(HomeAway(13, 13), o)
      && GameTotalAsWritten(HomeAway(13, 13), o) == Raises
      && GameTotal(HomeAway(13, 13), o) == BetResults(0, 0, 1, 0.0)
  {
    var o := NflGameOdds(Some(H2HOdds(HomeAway(Some(-110), Some(115)), HomeAway(Some(100.0), Some(0.0)), Zero)), None, None);
    assert MarketResults(HomeAway(13, 13), o) == [BetResults(0, 0, 1, 0.0)];
  }

  /** The wins, losses and pushes of the aggregate are bounded by the staked sides: at most two
      per market, and a push only where a market pushed. */
  lemma GameTotalBounds(s: HomeAway<int>, o: NflGameOdds)
    requires Settleable(s, o)
    ensures 0 <= GameTotal(s, o).pushes <= 3
    ensures GameTotal(s, o).wins >= 0 && GameTotal(s, o).losses >= 0
    ensures GameTotal(s, o).wins + GameTotal(s, o).losses + GameTotal(s, o).pushes <= 6
  {
    if o.h2h.Some? { H2hRules(s, o.h2h.value); }
    if o.spread.Some? { SpreadRules(s, o.spread.value); }
    if o.total.Some? { TotalRules(s, o.total.value); }
    var rs := MarketResults(s, o);
    assert |rs| <= 3;
    forall i | 0 <= i < |rs|
      ensures 0 <= rs[i].pushes <= 1 && rs[i].wins >= 0 && rs[i].losses >= 0
      ensures rs[i].wins + rs[i].losses + rs[i].pushes <= 2
    {
      assert rs[i] in rs;
    }
    SumBounds(rs);
  }

  /** End-to-end settlements: a moneyline push, a spread win, a total win and a total push. */
  lemma Scenarios()
    ensures H2hResult(HomeAway(13, 13), H2HOdds(HomeAway(Some(-110), Some(115)), HomeAway(Some(100.0), Some(0.0)), Zero))
            == BetResults(0, 0, 1, 0.0)
    ensures SpreadResult(HomeAway(14, 10), SpreadOdds(HomeAway(Some(-3.5), Some(3.5)), HomeAway(Some(-110), Some(115)),
                                                      HomeAway(Some(100.0), Some(0.0)), Zero))
            == BetResults(1, 0, 0, 90.91)
    ensures TotalResult(HomeAway(14, 10), TotalOdds(Some(23.5), HomeAway(Some(115), Some(-110)),
                                                    HomeAway(Some(0.0), Some(100.0)), Zero))
            == BetResults(1, 0, 0, 90.91)
    ensures TotalResult(HomeAway(14, 10), TotalOdds(Some(24.0), HomeAway(Some(115), Some(-110)),
                                                    HomeAway(Some(0.0), Some(100.0)), Zero))
            == BetResults(0, 0, 1, 0.0)
  {
    PayoutExamples();
  }
}
