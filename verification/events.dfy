/** The event records the combo builder consumes, and the favourites it derives
    from them. Probabilities are integers in tenths of a percent (75.0 is 750). */
module Events {
  import opened JsObject

  /** A participant record `{ name }`; the name may be missing. */
  datatype Team = Team(name: Option<string>)

  /** One fixture: its status, optional league tag, participants keyed by team
      code, optional outcome probabilities keyed by team code (football also
      has a `draw` key), and the score object whose keys list the teams. */
  datatype Event = Event(
    status: string,
    league: Option<string>,
    teams: Object<Team>,
    winProbability: Option<Object<int>>,
    score: Object<int>)

  /** The best outcome of one event: the event, its probability and the name
      of the team (or the raw key) that owns it. */
  datatype Favourite = Favourite(game: Event, proba: int, team: string)

  predicate Scheduled(e: Event)
  {
    e.status == "scheduled"
  }

  /** `e.teams[k]?.name || k`: the name of the first participant entry
      named `k` when it is present and non-empty, otherwise the key itself. */
  function TeamName(e: Event, k: string): (n: string)
    ensures n != k ==> n != "" && exists i | 0 <= i < |e.teams| :: e.teams[i] == (k, Team(Some(n)))
    ensures (forall i | 0 <= i < |e.teams| :: e.teams[i].0 != k) ==> n == k
    ensures forall i | 0 <= i < |e.teams| && e.teams[i].0 == k && (forall j | 0 <= j < i :: e.teams[j].0 != k) ::
      n == if e.teams[i].1.name.Some? && e.teams[i].1.name.value != "" then e.teams[i].1.name.value else k
  {
    var entry: Option<Team> := Get(e.teams, k);
    match entry
    case Some(Team(Some(name))) => if name == "" then k else name
    case _ => k
  }

  /** `e.teams[Object.keys(e.teams)[i]]?.name` interpolated into a template
      string: past the last key the index reads `undefined`, which JavaScript
      turns into the property name "undefined"; a missing name prints as
      "undefined" too. */
  function Side(e: Event, i: nat): (s: string)
    ensures i < |e.teams| ==>
      forall j | 0 <= j <= i && e.teams[j].0 == e.teams[i].0 && (forall l | 0 <= l < j :: e.teams[l].0 != e.teams[i].0) ::
        s == if e.teams[j].1.name.Some? then e.teams[j].1.name.value else "undefined"
    ensures i >= |e.teams| && (forall j | 0 <= j < |e.teams| :: e.teams[j].0 != "undefined") ==> s == "undefined"
  {
    var key := if i < |e.teams| then e.teams[i].0 else "undefined";
    var entry: Option<Team> := Get(e.teams, key);
    match entry
    case Some(Team(Some(name))) => name
    case _ => "undefined"
  }

  /** The `match` text of a leg: first key's team "vs" second key's team.
      With two distinct keys that is the two listed names; with one team the
      second side prints as "undefined", and with no teams at all (and so no
      `undefined` key) both sides do. */
  function MatchLabel(e: Event): (l: string)
    ensures |e.teams| >= 2 && e.teams[0].0 != e.teams[1].0 ==>
      l == (if e.teams[0].1.name.Some? then e.teams[0].1.name.value else "undefined")
           + " vs " + (if e.teams[1].1.name.Some? then e.teams[1].1.name.value else "undefined")
    ensures |e.teams| == 1 && e.teams[0].0 != "undefined" ==>
      l == (if e.teams[0].1.name.Some? then e.teams[0].1.name.value else "undefined") + " vs undefined"
    ensures e.teams == [] ==> l == "undefined vs undefined"
  {
    Side(e, 0) + " vs " + Side(e, 1)
  }
}
