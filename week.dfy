/** A week of games (src/odds/nfl/NflWeek.py): one game per schedule event, with the odds
    event and the bet-sheet row of the same two teams attached, and the week's settlement
    against the final scores. */
module Week {
  import opened Common
  import opened Feeds
  import opened Odds
  import opened Game

  /** The display names of the first away-tagged and the first home-tagged competitor,
      raising IndexError when either is missing. */
  function EventTeams(c: Competition): Fallible<HomeAway<string>> {
    match (FirstOrRaise(c.competitors, IsAway), FirstOrRaise(c.competitors, IsHome))
    case (Ok(a), Ok(h)) => Ok(HomeAway(a.displayName, h.displayName))
    case _ => Raises
  }

  /** The teams of a competition are read exactly when it has an away-tagged and a
      home-tagged competitor, and are the display names of the first of each. */
  lemma EventTeamsReads(c: Competition)
    ensures EventTeams(c).Ok? <==> First(c.competitors, IsAway).Some? && First(c.competitors, IsHome).Some?
    ensures EventTeams(c).Ok? ==> EventTeams(c).value == HomeAway(First(c.competitors, IsAway).value.displayName,
                                                                   First(c.competitors, IsHome).value.displayName)
  {
  }

  /** Whether an odds event is the one for a game between these two teams. */
  predicate SameTeams(teams: HomeAway<string>, oe: OddsEvent) {
    oe.homeTeam == teams.home && oe.awayTeam == teams.away
  }

  /** A game as `__initialize_games` leaves it: its schedule facts and its state. */
  datatype GameRecord = GameRecord(week: int, date: string, location: string, teams: HomeAway<string>, state: GameState)

  function RecordOf(g: NflGame): GameRecord
    reads g
  {
    GameRecord(g.week, g.date, g.location, g.teams, g.State())
  }

  /** One iteration of `__initialize_games`: the game of an event, its week, date, venue and
      teams taken from the event's first competition, its score set from that competition, and
      its odds from the first odds event of the same two teams, none when there is none. */
  function GameFor(e: Event, odds: seq<OddsEvent>): Fallible<GameRecord>
  {
    if e.competitions == [] then Raises
    else
      var c := e.competitions[0];
      match (EventTeams(c), FinalScore(c))
      case (Ok(teams), Ok(score)) =>
        var found := First(odds, (oe: OddsEvent) => SameTeams(teams, oe));
        if found.None? then Ok(GameRecord(e.week, e.date, Location(c.address), teams, GameState(score, None, None)))
        else
          (match OddsFromEvent(teams, found.value)
           case Ok(o) => Ok(GameRecord(e.week, e.date, Location(c.address), teams, GameState(score, Some(o), None)))
           case Raises => Raises)
      case _ => Raises
  }

  /** The game built for an event: its week and date are the event's, its venue and teams and
      score come from the event's first competition, it has no results yet, and its odds are
      those of the first odds event of the same two teams, none when there is none. Building
      it fails exactly when the competition, either team, or the matched odds cannot be read. */
  lemma GameForRecord(e: Event, odds: seq<OddsEvent>)
    ensures GameFor(e, odds).Ok? <==>
      && e.competitions != []
      && EventTeams(e.competitions[0]).Ok? && FinalScore(e.competitions[0]).Ok?
      && var found := First(odds, (oe: OddsEvent) => SameTeams(EventTeams(e.competitions[0]).value, oe));
         found.Some? ==> OddsFromEvent(EventTeams(e.competitions[0]).value, found.value).Ok?
    ensures GameFor(e, odds).Ok? ==>
      var r, c := GameFor(e, odds).value, e.competitions[0];
      var teams := EventTeams(c).value;
      var found := First(odds, (oe: OddsEvent) => SameTeams(teams, oe));
      && r.week == e.week && r.date == e.date
      && r.location == Location(c.address) && r.teams == teams
      && r.state.score == FinalScore(c).value && r.state.betResults.None?
      && (found.None? ==> r.state.odds.None?)
      && (found.Some? ==> r.state.odds == Some(OddsFromEvent(teams, found.value).value))
  {
  }

  /** No two positions of the list hold the same game object. */
  predicate Distinct(games: seq<NflGame>) {
    forall i, j :: 0 <= i < j < |games| ==> games[i] != games[j]
  }

  /** The body of the loop of `__initialize_games`: a new game for one event, its score set and
      its odds attached; null where reading the event or its odds raises. */
  method NewGame(e: Event, odds: seq<OddsEvent>) returns (g: NflGame?)
    ensures g == null <==> GameFor(e, odds).Raises?
    ensures g != null ==> fresh(g) && RecordOf(g) == GameFor(e, odds).value
  {
    if e.competitions == [] {
      return null;
    }
    var c := e.competitions[0];
    var teams := EventTeams(c);
    if teams.Raises? {
      return null;
    }
    g := new NflGame(e.week, e.date, Location(c.address), teams.value);
    var scored := g.SetScore(c);
    if !scored {
      return null;
    }
    var found := First(odds, (oe: OddsEvent) => SameTeams(teams.value, oe));
    if found.Some? {
      var placed := g.SetOdds(found.value);
      if !placed {
        return null;
      }
    }
  }

  /** `__initialize_games(events, odds)`: a new game per event, in event order; reading an event
      or its odds may raise, and then no list is built. */
  method InitializeGames(events: seq<Event>, odds: seq<OddsEvent>) returns (games: seq<NflGame>, ok: bool)
    ensures ok <==> forall i :: 0 <= i < |events| ==> GameFor(events[i], odds).Ok?
    ensures ok ==> |games| == |events| && Distinct(games)
    ensures ok ==> forall i :: 0 <= i < |games| ==> fresh(games[i]) && RecordOf(games[i]) == GameFor(events[i], odds).value
  {
    games := [];
    var i := 0;
    while i < |events|
      invariant 0 <= i <= |events| && |games| == i && Distinct(games)
      invariant forall j :: 0 <= j < i ==> GameFor(events[j], odds).Ok?
      invariant forall j :: 0 <= j < i ==> fresh(games[j]) && RecordOf(games[j]) == GameFor(events[j], odds).value
    {
      var g := NewGame(events[i], odds);
      if g == null {
        return games, false;
      }
      games := games + [g];
      i := i + 1;
    }
    ok := true;
  }

  /** The bet-sheet row of a game: the first row naming the same away and home team. */
  function RowFor(rows: seq<Row>, teams: HomeAway<string>): (r: Option<Row>)
    ensures r.None? <==> forall i :: 0 <= i < |rows| ==> !(rows[i].awayTeam == teams.away && rows[i].homeTeam == teams.home)
    ensures r.Some? ==> r.value.awayTeam == teams.away && r.value.homeTeam == teams.home && r.value in rows
    ensures r.Some? ==> exists i :: 0 <= i < |rows| && rows[i] == r.value &&
                                    forall j :: 0 <= j < i ==> !(rows[j].awayTeam == teams.away && rows[j].homeTeam == teams.home)
  {
    FirstFinds(rows, (row: Row) => row.awayTeam == teams.away && row.homeTeam == teams.home);
    First(rows, (row: Row) => row.awayTeam == teams.away && row.homeTeam == teams.home)
  }

  /** The schedule event of a game: the first event whose name, split at its first " at ",
      gives the game's away and home team. Every event's name is split, so an event name
      without " at " raises ValueError. */
  function EventFor(events: seq<Event>, teams: HomeAway<string>): Fallible<Option<Event>> {
    if exists i :: 0 <= i < |events| && SplitName(events[i].name).None? then Raises
    else Ok(First(events, (e: Event) => SplitName(e.name) == Some(teams)))
  }

  /** The lookup raises exactly when some event name holds no " at "; otherwise it finds the
      first event whose name splits into the two teams. */
  lemma EventForRules(events: seq<Event>, teams: HomeAway<string>)
    ensures EventFor(events, teams).Raises? <==> exists i :: 0 <= i < |events| && !Contains(events[i].name, Separator)
    ensures EventFor(events, teams).Ok? ==> EventFor(events, teams).value == First(events, (e: Event) => SplitName(e.name) == Some(teams))
  {
  }

  /** One iteration of `NflWeek.set_bet_results`: the game's event looked up, then
      `set_bet_results` on the game; the flag says whether the iteration completed. */
  function SettleStep(st: GameState, teams: HomeAway<string>, events: seq<Event>): (GameState, bool) {
    match EventFor(events, teams)
    case Raises => (st, false)
    case Ok(e) => BetResultsAfter(st, e)
  }

  /** The body of the loop of `set_bet_results`: the game's event looked up, and the game
      settled against it. */
  method SettleGame(g: NflGame, events: seq<Event>) returns (done: bool)
    modifies g
    ensures (g.State(), done) == SettleStep(old(g.State()), g.teams, events)
  {
    var e := EventFor(events, g.teams);
    done := false;
    if e.Ok? {
      done := g.SetBetResults(e.value);
    }
  }

  /** A week: its number and its games. */
  class NflWeek {
    const week: int
    var games: seq<NflGame>

    predicate Valid()
      reads this
    {
      Distinct(games)
    }

    /** The week around the games `__initialize_games` built for it. */
    constructor (week: int, games: seq<NflGame>)
      requires Distinct(games)
      ensures Valid() && this.week == week && this.games == games
    {
      this.week := week;
      this.games := games;
    }

    /** `to_csv`: one sheet row per game, in order. */
    function ToCsv(): (rows: seq<Row>)
      reads this, games
      ensures |rows| == |games|
      ensures forall i :: 0 <= i < |games| ==> rows[i] == CsvOf(games[i].week, games[i].teams, games[i].odds)
    {
      seq(|games|, (i: int) reads this, games requires 0 <= i < |games| => games[i].ToCsv())
    }

    /** `set_bets(rows)`: each game takes the first row naming its teams, and a game without
      one is left as it was. The list keeps its games and their order. */
    method SetBets(rows: seq<Row>)
      requires Valid()
      modifies games
      ensures games == old(games) && Valid()
      ensures forall i :: 0 <= i < |games| ==>
        && games[i].odds == BetsAfter(old(games[i].odds), RowFor(rows, games[i].teams))
        && games[i].score == old(games[i].score) && games[i].betResults == old(games[i].betResults)
    {
      var i := 0;
      while i < |games|
        invariant 0 <= i <= |games|
        invariant forall j :: 0 <= j < i ==>
          && games[j].odds == BetsAfter(old(games[j].odds), RowFor(rows, games[j].teams))
          && games[j].score == old(games[j].score) && games[j].betResults == old(games[j].betResults)
        invariant forall j :: i <= j < |games| ==> games[j].State() == old(games[j].State())
      {
        games[i].SetBets(RowFor(rows, games[i].teams));
        i := i + 1;
      }
    }

    /** `set_bet_results(events)`: each game in turn looks up its event and is settled. The
      first iteration that raises ends the loop: the games before it are settled, the game at
      `stop` keeps what its failed step left, and the games after it are untouched. */
    method SetBetResults(events: seq<Event>) returns (ok: bool, ghost stop: nat)
      requires Valid()
      modifies games
      ensures games == old(games) && Valid()
      ensures stop <= |games| && (ok <==> stop == |games|)
      ensures forall j :: 0 <= j < stop ==>
        SettleStep(old(games[j].State()), games[j].teams, events) == (games[j].State(), true)
      ensures stop < |games| ==>
        SettleStep(old(games[stop].State()), games[stop].teams, events) == (games[stop].State(), false)
      ensures forall j :: stop < j < |games| ==> games[j].State() == old(games[j].State())
    {
      var i := 0;
      while i < |games|
        invariant 0 <= i <= |games|
        invariant forall j :: 0 <= j < i ==>
          SettleStep(old(games[j].State()), games[j].teams, events) == (games[j].State(), true)
        invariant forall j :: i <= j < |games| ==> games[j].State() == old(games[j].State())
      {
        var done := SettleGame(games[i], events);
        if !done {
          return false, i;
        }
        i := i + 1;
      }
      return true, i;
    }
  }
}
