/** The already-parsed records the core reads: ESPN schedule events and the odds API's events.
    Each JSON object becomes a datatype holding the keys the core reads; a key the source reads
    with `[...]` and that may be missing is an Option (None: the key is absent). */
module Feeds {
  import opened Common

  /** A venue address; `state` is absent for venues abroad. */
  datatype Address = Address(city: string, state: Option<string>)

  /** One team of an ESPN competition. `winner` is present only once the game is decided. */
  datatype Competitor = Competitor(homeAway: string, displayName: string, score: int, winner: Option<bool>)

  /** An ESPN competition: `status.type.id` (3 is final), the competitors, `venue.address`. */
  datatype Competition = Competition(statusId: int, competitors: seq<Competitor>, address: Address)

  /** An ESPN event: its "Away at Home" name, its date text, its week number and competitions. */
  datatype Event = Event(name: string, date: string, week: int, competitions: seq<Competition>)

  /** One priced outcome of a market; `point` is absent for moneyline outcomes. */
  datatype Outcome = Outcome(name: string, price: int, point: Option<real>)

  datatype Market = Market(key: string, outcomes: seq<Outcome>)

  datatype Bookmaker = Bookmaker(markets: seq<Market>)

  /** An event of the odds API. */
  datatype OddsEvent = OddsEvent(awayTeam: string, homeTeam: string, commenceTime: string, bookmakers: seq<Bookmaker>)

  /** The displayed location of a venue: the city, followed by ", state" when a state is given. */
  function Location(a: Address): (r: string)
    ensures a.state.None? <==> r == a.city
    ensures a.state.Some? ==> r == a.city + ", " + a.state.value
  {
    match a.state
    case None => a.city
    case Some(st) => a.city + ", " + st
  }
}
