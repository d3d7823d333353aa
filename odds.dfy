/** The odds records a game carries (H2HOdds, SpreadOdds, TotalOdds, NflGameOdds in
    src/odds/nfl/NflGame.py), as values. Prices and stakes are per side; Python's None is None. */
module Odds {
  import opened Common
  import opened Results

  /** A moneyline market: a price and a stake per team, and the market's settlement. */
  datatype H2HOdds = H2HOdds(price: HomeAway<Option<int>>, bet: HomeAway<Option<real>>, betResults: BetResults)

  /** A point-spread market: a handicap, a price and a stake per team. */
  datatype SpreadOdds = SpreadOdds(points: HomeAway<Option<real>>, price: HomeAway<Option<int>>,
                                   bet: HomeAway<Option<real>>, betResults: BetResults)

  /** An over/under market: one line, and per slot a price and a stake, where the away slot
      holds the UNDER wager and the home slot the OVER wager. */
  datatype TotalOdds = TotalOdds(points: Option<real>, price: HomeAway<Option<int>>,
                                 bet: HomeAway<Option<real>>, betResults: BetResults)

  /** The markets offered for one game; each may be absent. */
  datatype NflGameOdds = NflGameOdds(h2h: Option<H2HOdds>, spread: Option<SpreadOdds>, total: Option<TotalOdds>)

  /** `HomeAway()`, the default stake pair of a new market: both sides None. */
  const NoBets: HomeAway<Option<real>> := HomeAway(None, None)
}
