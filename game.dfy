/** One game of a week (src/odds/nfl/NflGame.py): its schedule facts, its final score, the
    markets offered for it with the stakes placed on them, and its settled results; how each is
    filled in from the feeds and the bet sheet, and how it is flattened back into a sheet row. */
module Game {
  import opened Common
  import opened Results
  import opened Odds
  import opened Feeds
  import opened Calculator

  // ---- the bet sheet ----

  /** A bet-sheet row, as `to_csv` writes it and `set_bets` reads it. Prices and lines are
      always present (`to_csv` writes every key and `__set_odds` reads them with `[...]`); a line
      may be None. A stake key may be missing from a sheet row (None here), and then reads as 0. */
  datatype Row = Row(
    week: int, awayTeam: string, homeTeam: string,
    awayH2hPrice: int, awayH2hBet: Option<real>,
    homeH2hPrice: int, homeH2hBet: Option<real>,
    awaySpread: Option<real>, awaySpreadPrice: int, awaySpreadBet: Option<real>,
    homeSpread: Option<real>, homeSpreadPrice: int, homeSpreadBet: Option<real>,
    overUnder: Option<real>, overPrice: int, overBet: Option<real>,
    underPrice: int, underBet: Option<real>)

  /** `x if x else 0` on a price: a missing price and a price of 0 both export as 0. */
  function PriceOrZero(x: Option<int>): (r: int)
    ensures x.Some? ==> r == x.value
    ensures x.None? ==> r == 0
  {
    if x.Some? && x.value != 0 then x.value else 0
  }

  /** `x if x else 0` on a stake. */
  function StakeOrZero(x: Option<real>): (r: real)
    ensures x.Some? ==> r == x.value
    ensures x.None? ==> r == 0.0
  {
    if x.Some? && x.value != 0.0 then x.value else 0.0
  }

  /** `x if x else None` on a line: a line of 0 (a pick'em) exports as None. */
  function LineOrNone(x: Option<real>): (r: Option<real>)
    ensures r.Some? <==> x.Some? && x.value != 0.0
    ensures r.Some? ==> r == x
  {
    if x.Some? && x.value != 0.0 then x else None
  }

  /** `to_csv`: the game flattened to a sheet row. Every value read through an absent game
      odds or market falls back to 0 (prices, stakes) or None (lines), as does a falsy value. */
  function CsvOf(week: int, teams: HomeAway<string>, odds: Option<NflGameOdds>): Row {
    var h2h := if odds.Some? then odds.value.h2h else None;
    var spread := if odds.Some? then odds.value.spread else None;
    var total := if odds.Some? then odds.value.total else None;
    Row(week, teams.away, teams.home,
        if h2h.Some? then PriceOrZero(h2h.value.price.away) else 0,
        Some(if h2h.Some? then StakeOrZero(h2h.value.bet.away) else 0.0),
        if h2h.Some? then PriceOrZero(h2h.value.price.home) else 0,
        Some(if h2h.Some? then StakeOrZero(h2h.value.bet.home) else 0.0),
        if spread.Some? then LineOrNone(spread.value.points.away) else None,
        if spread.Some? then PriceOrZero(spread.value.price.away) else 0,
        Some(if spread.Some? then StakeOrZero(spread.value.bet.away) else 0.0),
        if spread.Some? then LineOrNone(spread.value.points.home) else None,
        if spread.Some? then PriceOrZero(spread.value.price.home) else 0,
        Some(if spread.Some? then StakeOrZero(spread.value.bet.home) else 0.0),
        if total.Some? then LineOrNone(total.value.points) else None,
        if total.Some? then PriceOrZero(total.value.price.home) else 0,
        Some(if total.Some? then StakeOrZero(total.value.bet.home) else 0.0),
        if total.Some? then PriceOrZero(total.value.price.away) else 0,
        Some(if total.Some? then StakeOrZero(total.value.bet.away) else 0.0))
  }

  /** `__set_odds`: all three markets built from a sheet row, with no stakes yet. The total's
      away slot takes the under price and its home slot the over price. */
  function OddsFromRow(row: Row): (o: NflGameOdds)
    ensures o.h2h.Some? && o.spread.Some? && o.total.Some?
    ensures o.h2h.value.price == HomeAway(Some(row.awayH2hPrice), Some(row.homeH2hPrice))
    ensures o.spread.value.points == HomeAway(row.awaySpread, row.homeSpread)
    ensures o.spread.value.price == HomeAway(Some(row.awaySpreadPrice), Some(row.homeSpreadPrice))
    ensures o.total.value.points == row.overUnder
    ensures o.total.value.price == HomeAway(Some(row.underPrice), Some(row.overPrice))
    ensures o.h2h.value.bet == o.spread.value.bet == o.total.value.bet == NoBets
  {
    NflGameOdds(
      Some(H2HOdds(HomeAway(Some(row.awayH2hPrice), Some(row.homeH2hPrice)), NoBets, Zero)),
      Some(SpreadOdds(HomeAway(row.awaySpread, row.homeSpread),
                      HomeAway(Some(row.awaySpreadPrice), Some(row.homeSpreadPrice)), NoBets, Zero)),
      Some(TotalOdds(row.overUnder, HomeAway(Some(row.underPrice), Some(row.overPrice)), NoBets, Zero)))
  }

  /** The stake pair a market takes from the row: `bet_data.get(key, 0)` for each side. */
  function StakesFrom(away: Option<real>, home: Option<real>): HomeAway<Option<real>> {
    HomeAway(Some(away.GetOr(0.0)), Some(home.GetOr(0.0)))
  }

  /** The stakes of a row placed on each present market; the total's away slot takes the under
      stake and its home slot the over stake. */
  function WithBets(o: NflGameOdds, row: Row): NflGameOdds {
    NflGameOdds(
      if o.h2h.Some? then Some(o.h2h.value.(bet := StakesFrom(row.awayH2hBet, row.homeH2hBet))) else None,
      if o.spread.Some? then Some(o.spread.value.(bet := StakesFrom(row.awaySpreadBet, row.homeSpreadBet))) else None,
      if o.total.Some? then Some(o.total.value.(bet := StakesFrom(row.underBet, row.overBet))) else None)
  }

  /** The game odds after `set_bets(row)`: no row changes nothing; otherwise odds are first
      built from the row if the game has none, then the row's stakes are placed. */
  function BetsAfter(odds: Option<NflGameOdds>, row: Option<Row>): Option<NflGameOdds> {
    if row.None? then odds
    else Some(WithBets(if odds.None? then OddsFromRow(row.value) else odds.value, row.value))
  }

  /** `set_bets` with a row changes only stakes: market presence, prices, lines and stored
      results stay; each present market takes the row's stakes, a missing stake key reading as
      0, and the total's away slot takes the under stake and its home slot the over stake. */
  lemma SetBetsRules(o: NflGameOdds, row: Row)
    ensures var w := WithBets(o, row);
      && (w.h2h.Some? <==> o.h2h.Some?) && (w.spread.Some? <==> o.spread.Some?) && (w.total.Some? <==> o.total.Some?)
      && (o.h2h.Some? ==> w.h2h.value.price == o.h2h.value.price && w.h2h.value.betResults == o.h2h.value.betResults
                          && w.h2h.value.bet == HomeAway(Some(row.awayH2hBet.GetOr(0.0)), Some(row.homeH2hBet.GetOr(0.0))))
      && (o.spread.Some? ==> w.spread.value.price == o.spread.value.price && w.spread.value.points == o.spread.value.points
                             && w.spread.value.betResults == o.spread.value.betResults
                             && w.spread.value.bet == HomeAway(Some(row.awaySpreadBet.GetOr(0.0)), Some(row.homeSpreadBet.GetOr(0.0))))
      && (o.total.Some? ==> w.total.value.price == o.total.value.price && w.total.value.points == o.total.value.points
                            && w.total.value.betResults == o.total.value.betResults
                            && w.total.value.bet == HomeAway(Some(row.underBet.GetOr(0.0)), Some(row.overBet.GetOr(0.0))))
  {
  }

  /** A game without odds exports every price and stake as 0 and every line as None. */
  lemma CsvWithoutOdds(week: int, teams: HomeAway<string>)
    ensures var r := CsvOf(week, teams, None);
      && r.week == week && r.awayTeam == teams.away && r.homeTeam == teams.home
      && r.awayH2hPrice == r.homeH2hPrice == r.awaySpreadPrice == r.homeSpreadPrice == r.overPrice == r.underPrice == 0
      && r.awayH2hBet == r.homeH2hBet == r.awaySpreadBet == r.homeSpreadBet == r.overBet == r.underBet == Some(0.0)
      && r.awaySpread.None? && r.homeSpread.None? && r.overUnder.None?
  {
  }

  /** The export keeps the total's slot convention: the over columns come from the home slot,
      the under columns from the away slot; and a spread of 0 exports as None. */
  lemma CsvTotalSlots(week: int, teams: HomeAway<string>, o: NflGameOdds)
    ensures var r := CsvOf(week, teams, Some(o));
      && (o.total.Some? ==> r.overPrice == o.total.value.price.home.GetOr(0) && r.underPrice == o.total.value.price.away.GetOr(0)
                            && r.overBet == Some(o.total.value.bet.home.GetOr(0.0)) && r.underBet == Some(o.total.value.bet.away.GetOr(0.0)))
      && (o.spread.Some? && o.spread.value.points.away == Some(0.0) ==> r.awaySpread.None?)
      && (o.spread.Some? && o.spread.value.points.home == Some(0.0) ==> r.homeSpread.None?)
  {
  }

  /** Giving a fresh game the row another game exported reconstructs that game's prices,
      lines and stakes wherever they were present and nonzero, and exports the same row again. */
  lemma CsvRoundTrip(week: int, teams: HomeAway<string>, odds: Option<NflGameOdds>)
    ensures var row := CsvOf(week, teams, odds);
      var o := BetsAfter(None, Some(row)).value;
      && CsvOf(week, teams, Some(o)) == row
      && (odds.Some? && odds.value.h2h.Some? ==>
            var m := odds.value.h2h.value;
            && (m.price.away.Some? && m.price.away.value != 0 ==> o.h2h.value.price.away == m.price.away)
            && (m.price.home.Some? && m.price.home.value != 0 ==> o.h2h.value.price.home == m.price.home)
            && (m.bet.away.Some? && m.bet.away.value != 0.0 ==> o.h2h.value.bet.away == m.bet.away)
            && (m.bet.home.Some? && m.bet.home.value != 0.0 ==> o.h2h.value.bet.home == m.bet.home))
      && (odds.Some? && odds.value.spread.Some? ==>
            var m := odds.value.spread.value;
            && (m.points.away.Some? && m.points.away.value != 0.0 ==> o.spread.value.points.away == m.points.away)
            && (m.points.home.Some? && m.points.home.value != 0.0 ==> o.spread.value.points.home == m.points.home)
            && (m.price.away.Some? && m.price.away.value != 0 ==> o.spread.value.price.away == m.price.away)
            && (m.price.home.Some? && m.price.home.value != 0 ==> o.spread.value.price.home == m.price.home)
            && (m.bet.away.Some? && m.bet.away.value != 0.0 ==> o.spread.value.bet.away == m.bet.away)
            && (m.bet.home.Some? && m.bet.home.value != 0.0 ==> o.spread.value.bet.home == m.bet.home))
      && (odds.Some? && odds.value.total.Some? ==>
            var m := odds.value.total.value;
            && (m.points.Some? && m.points.value != 0.0 ==> o.total.value.points == m.points)
            && (m.price.away.Some? && m.price.away.value != 0 ==> o.total.value.price.away == m.price.away)
            && (m.price.home.Some? && m.price.home.value != 0 ==> o.total.value.price.home == m.price.home)
            && (m.bet.away.Some? && m.bet.away.value != 0.0 ==> o.total.value.bet.away == m.bet.away)
            && (m.bet.home.Some? && m.bet.home.value != 0.0 ==> o.total.value.bet.home == m.bet.home))
  {
  }

  // ---- the feeds ----

  /** The final score `set_score` records: none unless the status id is 3 (final); then the
      scores of the first away-tagged and the first home-tagged competitor, raising IndexError
      when either is missing. */
  function FinalScore(c: Competition): Fallible<Option<HomeAway<int>>> {
    if c.statusId != 3 then Ok(None)
    else
      match (FirstOrRaise(c.competitors, IsAway), FirstOrRaise(c.competitors, IsHome))
      case (Ok(a), Ok(h)) => Ok(Some(HomeAway(a.score, h.score)))
      case _ => Raises
  }

  /** `set_score` records nothing before the game is final; a final game records the scores
      of the first away-tagged and the first home-tagged competitor, and reading fails
      exactly when one of the two is missing. */
  lemma FinalScoreReads(c: Competition)
    ensures c.statusId != 3 ==> FinalScore(c) == Ok(None)
    ensures c.statusId == 3 ==>
      var r, a, h := FinalScore(c), First(c.competitors, IsAway), First(c.competitors, IsHome);
      && (r.Ok? <==> a.Some? && h.Some?)
      && (r.Ok? ==> r.value == Some(HomeAway(a.value.score, h.value.score)))
  {
  }

  predicate IsAway(c: Competitor) { c.homeAway == "away" }

  predicate IsHome(c: Competitor) { c.homeAway == "home" }

  /** The first market of a bookmaker with the given key. */
  function MarketNamed(markets: seq<Market>, key: string): (r: Option<Market>)
    ensures r.None? <==> forall i :: 0 <= i < |markets| ==> markets[i].key != key
    ensures r.Some? ==> r.value.key == key && r.value in markets
    ensures r.Some? ==> exists i :: 0 <= i < |markets| && markets[i] == r.value &&
                                    forall j :: 0 <= j < i ==> markets[j].key != key
  {
    FirstFinds(markets, (m: Market) => m.key == key);
    First(markets, (m: Market) => m.key == key)
  }

  /** The first outcome of a market with the given name. */
  function OutcomeNamed(m: Market, name: string): (r: Option<Outcome>)
    ensures r.None? <==> forall i :: 0 <= i < |m.outcomes| ==> m.outcomes[i].name != name
    ensures r.Some? ==> r.value.name == name && r.value in m.outcomes
    ensures r.Some? ==> exists i :: 0 <= i < |m.outcomes| && m.outcomes[i] == r.value &&
                                    forall j :: 0 <= j < i ==> m.outcomes[j].name != name
  {
    FirstFinds(m.outcomes, (x: Outcome) => x.name == name);
    First(m.outcomes, (x: Outcome) => x.name == name)
  }

  /** The price of a team in a moneyline market, None when the team has no outcome. */
  function PriceFor(m: Market, team: string): Option<int> {
    match OutcomeNamed(m, team)
    case Some(x) => Some(x.price)
    case None => None
  }

  /** The moneyline market of `set_odds`: present exactly when the bookmaker lists an "h2h"
      market; each team's price looked up by name in the first such market; no stakes yet. */
  function H2hFrom(ms: seq<Market>, teams: HomeAway<string>): Option<H2HOdds> {
    match MarketNamed(ms, "h2h")
    case Some(m) => Some(H2HOdds(HomeAway(PriceFor(m, teams.away), PriceFor(m, teams.home)), NoBets, Zero))
    case None => None
  }

  /** The moneyline market is present exactly when some market has the key "h2h", and then
      holds the prices the first such market lists for the two teams. */
  lemma H2hFromReads(ms: seq<Market>, teams: HomeAway<string>)
    ensures H2hFrom(ms, teams).None? <==> forall i :: 0 <= i < |ms| ==> ms[i].key != "h2h"
    ensures H2hFrom(ms, teams).Some? ==>
      var m := MarketNamed(ms, "h2h").value;
      H2hFrom(ms, teams).value == H2HOdds(HomeAway(PriceFor(m, teams.away), PriceFor(m, teams.home)), NoBets, Zero)
  {
  }

  /** The spread market of `set_odds`: absent without a "spreads" market; otherwise each team's
      outcome gives its handicap and price, and a missing outcome (None["point"]) or a missing
      point raises. */
  function SpreadFrom(ms: seq<Market>, teams: HomeAway<string>): Fallible<Option<SpreadOdds>> {
    match MarketNamed(ms, "spreads")
    case None => Ok(None)
    case Some(m) =>
      match (OutcomeNamed(m, teams.away), OutcomeNamed(m, teams.home))
      case (Some(a), Some(h)) =>
        if a.point.Some? && h.point.Some? then
          Ok(Some(SpreadOdds(HomeAway(a.point, h.point), HomeAway(Some(a.price), Some(h.price)), NoBets, Zero)))
        else Raises
      case _ => Raises
  }

  /** Reading the spread succeeds with no market when there is no "spreads" market; otherwise
      it succeeds exactly when both teams have an outcome with a point, and then holds those
      points and prices. */
  lemma SpreadFromReads(ms: seq<Market>, teams: HomeAway<string>)
    ensures MarketNamed(ms, "spreads").None? ==> SpreadFrom(ms, teams) == Ok(None)
    ensures MarketNamed(ms, "spreads").Some? ==>
      var r, m := SpreadFrom(ms, teams), MarketNamed(ms, "spreads").value;
      var a, h := OutcomeNamed(m, teams.away), OutcomeNamed(m, teams.home);
      && (r.Ok? <==> a.Some? && h.Some? && a.value.point.Some? && h.value.point.Some?)
      && (r.Ok? ==> r.value == Some(SpreadOdds(HomeAway(a.value.point, h.value.point),
                                               HomeAway(Some(a.value.price), Some(h.value.price)), NoBets, Zero)))
  {
  }

  /** The total market of `set_odds`: absent without a "totals" market; otherwise the line of
      the Under outcome, the under price in the away slot and the over price in the home slot;
      a missing Over or Under outcome or a missing line raises. */
  function TotalFrom(ms: seq<Market>): Fallible<Option<TotalOdds>> {
    match MarketNamed(ms, "totals")
    case None => Ok(None)
    case Some(m) =>
      match (OutcomeNamed(m, "Over"), OutcomeNamed(m, "Under"))
      case (Some(over), Some(under)) =>
        if under.point.Some? then Ok(Some(TotalOdds(under.point, HomeAway(Some(under.price), Some(over.price)), NoBets, Zero)))
        else Raises
      case _ => Raises
  }

  /** Reading the total succeeds with no market when there is no "totals" market; otherwise it
      succeeds exactly when there are Over and Under outcomes and the Under outcome has a
      line, and then holds that line, the under price first and the over price second. */
  lemma TotalFromReads(ms: seq<Market>)
    ensures MarketNamed(ms, "totals").None? ==> TotalFrom(ms) == Ok(None)
    ensures MarketNamed(ms, "totals").Some? ==>
      var r, m := TotalFrom(ms), MarketNamed(ms, "totals").value;
      var over, under := OutcomeNamed(m, "Over"), OutcomeNamed(m, "Under");
      && (r.Ok? <==> over.Some? && under.Some? && under.value.point.Some?)
      && (r.Ok? ==> r.value == Some(TotalOdds(under.value.point,
                                              HomeAway(Some(under.value.price), Some(over.value.price)), NoBets, Zero)))
  {
  }

  /** `set_odds(odds_event)`: the markets of the event's first bookmaker, raising IndexError
      when it has none, or when reading its spread or total market raises. */
  function OddsFromEvent(teams: HomeAway<string>, e: OddsEvent): Fallible<NflGameOdds> {
    if e.bookmakers == [] then Raises
    else
      var ms := e.bookmakers[0].markets;
      match (SpreadFrom(ms, teams), TotalFrom(ms))
      case (Ok(spread), Ok(total)) => Ok(NflGameOdds(H2hFrom(ms, teams), spread, total))
      case _ => Raises
  }

  /** `set_odds` fails exactly when the event has no bookmaker or reading its spread or its
      total raises; otherwise each market is present exactly when the first bookmaker lists
      its key, and is the one its reader builds. */
  lemma SetOddsRules(teams: HomeAway<string>, e: OddsEvent)
    ensures OddsFromEvent(teams, e).Ok? <==>
      e.bookmakers != [] && SpreadFrom(e.bookmakers[0].markets, teams).Ok? && TotalFrom(e.bookmakers[0].markets).Ok?
    ensures OddsFromEvent(teams, e).Ok? ==>
      var ms, o := e.bookmakers[0].markets, OddsFromEvent(teams, e).value;
      && (o.h2h.None? <==> forall i :: 0 <= i < |ms| ==> ms[i].key != "h2h")
      && (o.spread.None? <==> forall i :: 0 <= i < |ms| ==> ms[i].key != "spreads")
      && (o.total.None? <==> forall i :: 0 <= i < |ms| ==> ms[i].key != "totals")
      && o.h2h == H2hFrom(ms, teams) && o.spread == SpreadFrom(ms, teams).value && o.total == TotalFrom(ms).value
  {
    if OddsFromEvent(teams, e).Ok? {
      var ms := e.bookmakers[0].markets;
      H2hFromReads(ms, teams);
      SpreadFromReads(ms, teams);
      TotalFromReads(ms);
    }
  }

  /** The score fixtures of the game tests: a final competition records 31-30, one in
      progress records nothing. */
  lemma ScoreExamples()
    ensures FinalScore(Competition(3, [Competitor("away", "Team A", 31, None), Competitor("home", "Team H", 30, None)],
                                   Address("City", None))) == Ok(Some(HomeAway(31, 30)))
    ensures FinalScore(Competition(1, [Competitor("away", "Team A", 10, None), Competitor("home", "Team H", 24, None)],
                                   Address("City", None))) == Ok(None)
  {
    var final := [Competitor("away", "Team A", 31, None), Competitor("home", "Team H", 30, None)];
    assert IsAway(final[0]) && !IsHome(final[0]) && IsHome(final[1]);
  }

  // The odds fixture of the game tests: one bookmaker listing all three markets.
  const SampleH2h := Market("h2h", [Outcome("Team A", 160, None), Outcome("Team H", -190, None)])
  const SampleSpreads := Market("spreads", [Outcome("Team A", -110, Some(3.5)), Outcome("Team H", -110, Some(-3.5))])
  const SampleTotals := Market("totals", [Outcome("Over", -112, Some(40.5)), Outcome("Under", -108, Some(40.5))])
  const SampleMarkets := [SampleH2h, SampleSpreads, SampleTotals]

  lemma SampleLookups()
    ensures MarketNamed(SampleMarkets, "h2h") == Some(SampleH2h)
    ensures MarketNamed(SampleMarkets, "spreads") == Some(SampleSpreads)
    ensures MarketNamed(SampleMarkets, "totals") == Some(SampleTotals)
  {
    var ms := SampleMarkets;
    assert ms[0].key == "h2h" && ms[1].key == "spreads" && ms[2].key == "totals";
    assert MarketNamed(ms, "spreads").value in ms;
    assert MarketNamed(ms, "totals").value in ms;
  }

  lemma SampleOutcomes()
    ensures OutcomeNamed(SampleH2h, "Team A") == Some(SampleH2h.outcomes[0])
    ensures OutcomeNamed(SampleH2h, "Team H") == Some(SampleH2h.outcomes[1])
    ensures OutcomeNamed(SampleSpreads, "Team A") == Some(SampleSpreads.outcomes[0])
    ensures OutcomeNamed(SampleSpreads, "Team H") == Some(SampleSpreads.outcomes[1])
    ensures OutcomeNamed(SampleTotals, "Over") == Some(SampleTotals.outcomes[0])
    ensures OutcomeNamed(SampleTotals, "Under") == Some(SampleTotals.outcomes[1])
  {
    assert "Team A" != "Team H" && "Over" != "Under";
  }

  lemma SampleH2hRead()
    ensures H2hFrom(SampleMarkets, HomeAway("Team A", "Team H")) == Some(H2HOdds(HomeAway(Some(160), Some(-190)), NoBets, Zero))
  {
    SampleLookups();
    SampleOutcomes();
  }

  lemma SampleSpreadRead()
    ensures SpreadFrom(SampleMarkets, HomeAway("Team A", "Team H"))
         == Ok(Some(SpreadOdds(HomeAway(Some(3.5), Some(-3.5)), HomeAway(Some(-110), Some(-110)), NoBets, Zero)))
  {
    SampleLookups();
    SampleOutcomes();
  }

  lemma SampleTotalRead()
    ensures TotalFrom(SampleMarkets) == Ok(Some(TotalOdds(Some(40.5), HomeAway(Some(-108), Some(-112)), NoBets, Zero)))
  {
    SampleLookups();
    SampleOutcomes();
  }

  /** The odds fixture of the game tests yields the prices and lines the tests expect. */
  lemma OddsExample()
    ensures OddsFromEvent(HomeAway("Team A", "Team H"), OddsEvent("Team A", "Team H", "", [Bookmaker(SampleMarkets)]))
         == Ok(NflGameOdds(
              Some(H2HOdds(HomeAway(Some(160), Some(-190)), NoBets, Zero)),
              Some(SpreadOdds(HomeAway(Some(3.5), Some(-3.5)), HomeAway(Some(-110), Some(-110)), NoBets, Zero)),
              Some(TotalOdds(Some(40.5), HomeAway(Some(-108), Some(-112)), NoBets, Zero))))
  {
    SampleH2hRead();
    SampleSpreadRead();
    SampleTotalRead();
  }

  /** The sample bet row of the game tests places its stakes as the tests expect, with the
      under stake in the total's away slot and the over stake in its home slot. */
  lemma SetBetsExample(o: NflGameOdds)
    requires o.h2h.Some? && o.spread.Some? && o.total.Some?
    ensures var row := Row(12, "Team A", "Team H", 160, Some(100.0), -190, Some(50.0),
                           Some(3.5), -110, Some(150.0), Some(-3.5), -110, Some(200.0),
                           Some(40.5), -112, Some(1000.0), -108, Some(1500.0));
      var w := BetsAfter(Some(o), Some(row)).value;
      && w.h2h.value.bet == HomeAway(Some(100.0), Some(50.0))
      && w.spread.value.bet == HomeAway(Some(150.0), Some(200.0))
      && w.total.value.bet == HomeAway(Some(1500.0), Some(1000.0))
  {
  }

  // ---- the state of a game ----

  /** The fields of a game that its operations update. */
  datatype GameState = GameState(score: Option<HomeAway<int>>, odds: Option<NflGameOdds>,
                                 betResults: Option<BetResults>)

  /** `BetCalculator.calculate` on a game's state, with a flag that says whether it completed.
      Nothing changes without a score or without odds. Otherwise the game's results are reset
      to `BetResults()` and every present market in turn gets its result stored on it and added
      to the game's; a market whose stakes cannot be settled (a stake or a needed price or line
      is None) raises, leaving the markets before it settled and their results added. */
  function Calculated(st: GameState): (GameState, bool) {
    if st.score.None? || st.odds.None? then (st, true)
    else
      var p := Settle(st.score.value, st.odds.value);
      (st.(odds := Some(p.odds), betResults := Some(Sum(p.settled))), p.ok)
  }

  /** `calculate` leaves a game without a score or without odds as it is and always keeps the
      score; it completes exactly when the game is settleable, and then stores the settled
      markets and, as the game's results, the sum of the results stored on them. */
  lemma CalculatedRules(st: GameState)
    ensures st.score.None? || st.odds.None? ==> Calculated(st) == (st, true)
    ensures Calculated(st).0.score == st.score
    ensures st.score.Some? && st.odds.Some? ==>
      (Calculated(st).1 <==> Settleable(st.score.value, st.odds.value))
    ensures st.score.Some? && st.odds.Some? && Calculated(st).1 ==>
      && Calculated(st).0.odds == Some(SettledOdds(st.score.value, st.odds.value))
      && Calculated(st).0.betResults == Some(GameTotal(st.score.value, st.odds.value))
      && Calculated(st).0.betResults == Some(Sum(StoredResults(Calculated(st).0.odds.value)))
  {
    if st.score.Some? && st.odds.Some? {
      SettleCompletes(st.score.value, st.odds.value);
      if Calculated(st).1 {
        SettleIdempotent(st.score.value, st.odds.value);
      }
    }
  }

  /** A `calculate` that raises on the first market resets the game's results and changes
      nothing else; one that raises on a later market leaves the earlier markets settled and
      the game's results their sum. */
  lemma CalculateRaisesPartway(st: GameState)
    requires st.score.Some? && st.odds.Some?
    ensures var (s, o) := (st.score.value, st.odds.value);
      o.h2h.Some? && !H2hSettleable(s, o.h2h.value) ==>
        Calculated(st) == (st.(betResults := Some(Zero)), false)
    ensures var (s, o) := (st.score.value, st.odds.value);
      var before := o.(spread := None, total := None);
      Settleable(s, before) && o.spread.Some? && !SpreadSettleable(s, o.spread.value) ==>
        Calculated(st) == (st.(odds := Some(o.(h2h := SettledOdds(s, before).h2h)),
                               betResults := Some(GameTotal(s, before))), false)
  {
    SettleStopsAtRaise(st.score.value, st.odds.value);
  }

  /** Settling a settled game again changes nothing: results are recomputed from the score and
      the stakes, never accumulated. */
  lemma CalculateIdempotent(st: GameState)
    requires Calculated(st).1
    ensures Calculated(Calculated(st).0) == Calculated(st)
  {
    if st.score.Some? && st.odds.Some? {
      var (s, o) := (st.score.value, st.odds.value);
      SettleCompletes(s, o);
      SettleIdempotent(s, o);
      SettleCompletes(s, SettledOdds(s, o));
    }
  }

  /** `set_bet_results(event)`: the score from the event's first competition, then `calculate`.
      A missing event or competition raises before anything changes; a `calculate` that raises
      leaves the new score in place, along with whatever it had done. The flag says whether the
      call completed. */
  function BetResultsAfter(st: GameState, e: Option<Event>): (GameState, bool) {
    if e.None? || e.value.competitions == [] then (st, false)
    else
      match FinalScore(e.value.competitions[0])
      case Raises => (st, false)
      case Ok(sc) => Calculated(st.(score := if sc.Some? then sc else st.score))
  }

  /** A game of the week. Its schedule facts never change; its score, odds and results are
      filled in by the operations below. */
  class NflGame {
    const week: int
    /** The kickoff time, kept as the feed's text. */
    const date: string
    const location: string
    const teams: HomeAway<string>
    var score: Option<HomeAway<int>>
    var odds: Option<NflGameOdds>
    var betResults: Option<BetResults>

    function State(): GameState
      reads this
    {
      GameState(score, odds, betResults)
    }

    /** A new game: the schedule facts as given, and no score, odds or results yet. */
    constructor (week: int, date: string, location: string, teams: HomeAway<string>)
      ensures this.week == week && this.date == date && this.location == location && this.teams == teams
      ensures State() == GameState(None, None, None)
    {
      this.week := week;
      this.date := date;
      this.location := location;
      this.teams := teams;
      score := None;
      odds := None;
      betResults := None;
    }

    /** `set_score`: records the final score when the competition is final. */
    method SetScore(c: Competition) returns (ok: bool)
      modifies this
      ensures ok == FinalScore(c).Ok?
      ensures score == (if ok && FinalScore(c).value.Some? then FinalScore(c).value else old(score))
      ensures odds == old(odds) && betResults == old(betResults)
    {
      if c.statusId == 3 {
        var away := FirstOrRaise(c.competitors, IsAway);
        var home := FirstOrRaise(c.competitors, IsHome);
        if away.Raises? || home.Raises? {
          return false;
        }
        score := Some(HomeAway(away.value.score, home.value.score));
      }
      return true;
    }

    /** `set_odds`: replaces the odds with those of the odds event, unless reading them raises. */
    method SetOdds(e: OddsEvent) returns (ok: bool)
      modifies this
      ensures ok == OddsFromEvent(teams, e).Ok?
      ensures odds == (if ok then Some(OddsFromEvent(teams, e).value) else old(odds))
      ensures score == old(score) && betResults == old(betResults)
    {
      var r := OddsFromEvent(teams, e);
      if r.Raises? {
        return false;
      }
      odds := Some(r.value);
      return true;
    }

    /** `__set_odds`: odds built from a sheet row. */
    method SetOddsFromRow(row: Row)
      modifies this
      ensures odds == Some(OddsFromRow(row))
      ensures score == old(score) && betResults == old(betResults)
    {
      odds := Some(OddsFromRow(row));
    }

    /** `set_bets`: places the row's stakes on each present market, building the odds from the
      row first when the game has none; no row changes nothing. */
    method SetBets(row: Option<Row>)
      modifies this
      ensures odds == BetsAfter(old(odds), row)
      ensures score == old(score) && betResults == old(betResults)
    {
      if row.None? {
        return;
      }
      var r := row.value;
      if odds.None? {
        SetOddsFromRow(r);
      }
      var o := odds.value;
      if o.h2h.Some? {
        o := o.(h2h := Some(o.h2h.value.(bet := HomeAway(Some(r.awayH2hBet.GetOr(0.0)), Some(r.homeH2hBet.GetOr(0.0))))));
      }
      if o.spread.Some? {
        o := o.(spread := Some(o.spread.value.(bet := HomeAway(Some(r.awaySpreadBet.GetOr(0.0)), Some(r.homeSpreadBet.GetOr(0.0))))));
      }
      if o.total.Some? {
        o := o.(total := Some(o.total.value.(bet := HomeAway(Some(r.underBet.GetOr(0.0)), Some(r.overBet.GetOr(0.0))))));
      }
      odds := Some(o);
    }

    /** `BetCalculator.calculate(self)`: resets the game's results to `BetResults()`, then settles
      each present market in turn, stores its result on the market and adds it to the game's;
      a market that cannot be settled raises and stops it there. */
    method Calculate() returns (ok: bool)
      modifies this
      ensures (State(), ok) == Calculated(old(State()))
    {
      if score.None? || odds.None? {
        return true;
      }
      var s := score.value;
      ghost var p := Progress(odds.value, [], true);
      betResults := Some(Zero);
      var h2h := odds.value.h2h;
      if h2h.Some? {
        if !H2hSettleable(s, h2h.value) {
          return false;
        }
        var r := CalculateH2h(s, h2h.value);
        odds := Some(odds.value.(h2h := Some(h2h.value.(betResults := r))));
        SumAppend(p.settled, r);
        betResults := Some(Add(betResults.value, r));
      }
      p := StepH2h(s, p);
      assert odds == Some(p.odds) && betResults == Some(Sum(p.settled)) && p.ok;
      var spread := odds.value.spread;
      if spread.Some? {
        if !SpreadSettleable(s, spread.value) {
          return false;
        }
        var r := CalculateSpread(s, spread.value);
        odds := Some(odds.value.(spread := Some(spread.value.(betResults := r))));
        SumAppend(p.settled, r);
        betResults := Some(Add(betResults.value, r));
      }
      p := StepSpread(s, p);
      assert odds == Some(p.odds) && betResults == Some(Sum(p.settled)) && p.ok;
      var total := odds.value.total;
      if total.Some? {
        if !TotalSettleable(s, total.value) {
          return false;
        }
        var r := CalculateTotal(s, total.value);
        odds := Some(odds.value.(total := Some(total.value.(betResults := r))));
        SumAppend(p.settled, r);
        betResults := Some(Add(betResults.value, r));
      }
      return true;
    }

    /** `set_bet_results(event)`: records the event's score, then settles the game. */
    method SetBetResults(e: Option<Event>) returns (ok: bool)
      modifies this
      ensures (State(), ok) == BetResultsAfter(old(State()), e)
    {
      if e.None? || e.value.competitions == [] {
        return false;
      }
      ok := SetScore(e.value.competitions[0]);
      if !ok {
        return;
      }
      ok := Calculate();
    }

    /** `to_csv`. */
    function ToCsv(): Row
      reads this
    {
      CsvOf(week, teams, odds)
    }
  }
}
