/** The three favourite selectors of `buildCombos` (football, NBA, Champions
    League) and the list of upcoming hockey games. Each selector keeps the
    scheduled events that have probabilities, takes each event's best
    outcome, drops those under the threshold, sorts by probability (stable,
    highest first) and keeps the first few. */
module Favourites {
  import opened JsObject
  import opened Events
  import opened Scan
  import opened StableSort

  /** Which of the three selectors. */
  datatype Pool = FootPool | NbaPool | UclPool

  /** Minimum best probability, in tenths of a percent. */
  function Threshold(p: Pool): int
  {
    match p
    case FootPool => 550
    case NbaPool => 550
    case UclPool => 600
  }

  /** How many favourites the selector keeps. */
  function Cap(p: Pool): nat
  {
    match p
    case FootPool => 4
    case NbaPool => 3
    case UclPool => 3
  }

  predicate IsChampionsLeague(e: Event)
  {
    e.league == Some("UCL") || e.league == Some("Champions League")
  }

  /** The selector's `filter`: scheduled, with a `win_probability` object
      (an empty one counts), and for the UCL selector a Champions League tag. */
  predicate Eligible(p: Pool, e: Event)
  {
    && Scheduled(e)
    && e.winProbability.Some?
    && (p == UclPool ==> IsChampionsLeague(e))
  }

  /** The keys the selector scans. Football walks the `score` keys, so it
      never looks at `draw`; NBA and UCL walk the keys of `win_probability`
      itself, `draw` included. */
  function ScanKeys(p: Pool, e: Event): seq<string>
    requires e.winProbability.Some?
  {
    if p == FootPool then Keys(e.score) else Keys(e.winProbability.value)
  }

  /** The selector's `map` for one event: its best outcome when that reaches
      the threshold. The favourite carries the largest scanned probability
      and the team of the first scanned key that reaches it. */
  function FavouriteOf(p: Pool, e: Event): (r: Option<Favourite>)
    ensures r.Some? <==>
      && Eligible(p, e)
      && exists i | 0 <= i < |ScanKeys(p, e)| ::
           ProbOf(e.winProbability.value, ScanKeys(p, e)[i]) >= Threshold(p)
    ensures r.Some? ==>
      var probs, ks := e.winProbability.value, ScanKeys(p, e);
      && r.value.game == e
      && r.value.proba >= Threshold(p)
      && (forall i | 0 <= i < |ks| :: ProbOf(probs, ks[i]) <= r.value.proba)
      && exists i | 0 <= i < |ks| ::
           && ProbOf(probs, ks[i]) == r.value.proba
           && r.value.team == TeamName(e, ks[i])
           && forall j | 0 <= j < i :: ProbOf(probs, ks[j]) < r.value.proba
  {
    if !Eligible(p, e) then None
    else
      var b := ScanBest(e, e.winProbability.value, ScanKeys(p, e));
      // football also tests `best`, which is set whenever the threshold is met
      if (p != FootPool || b.found) && b.proba >= Threshold(p) then
        Some(Favourite(e, b.proba, b.team))
      else None
  }

  /** The favourites of all events, in event order (`map` then `filter(Boolean)`). */
  function Candidates(p: Pool, events: seq<Event>): seq<Favourite>
  {
    if events == [] then [] else Own(p, events[0]) + Candidates(p, events[1..])
  }

  /** The candidates are exactly the favourites of the events, at most one
      per event. */
  lemma {:induction false} CandidatesAreFavourites(p: Pool, events: seq<Event>)
    ensures |Candidates(p, events)| <= |events|
    ensures forall f | f in Candidates(p, events) :: f.game in events && FavouriteOf(p, f.game) == Some(f)
    ensures forall e | e in events && FavouriteOf(p, e).Some? :: FavouriteOf(p, e).value in Candidates(p, events)
  {
    if events != [] {
      CandidatesAreFavourites(p, events[1..]);
      assert forall e | e in events :: e == events[0] || e in events[1..];
    }
  }

  /** The favourite of one event as a list of zero or one. */
  function Own(p: Pool, e: Event): seq<Favourite>
  {
    match FavouriteOf(p, e)
    case Some(f) => [f]
    case None => []
  }

  /** Candidates keep input order: those of earlier events come first. */
  lemma {:induction false} CandidatesInOrder(p: Pool, a: seq<Event>, b: seq<Event>)
    ensures Candidates(p, a + b) == Candidates(p, a) + Candidates(p, b)
  {
    if a == [] {
      assert a + b == b;
    } else {
      var ab := a + b;
      assert ab[0] == a[0];
      assert ab[1..] == a[1..] + b;
      calc {
        Candidates(p, ab);
        Own(p, a[0]) + Candidates(p, a[1..] + b);
        { CandidatesInOrder(p, a[1..], b); }
        Own(p, a[0]) + (Candidates(p, a[1..]) + Candidates(p, b));
        Candidates(p, a) + Candidates(p, b);
      }
    }
  }

  /** The selector: stable sort by probability, highest first, then keep
      `Cap(p)`. The list is sorted, as long as allowed, nothing dropped beats
      anything kept, and among equal probabilities the earliest events win. */
  function Select(p: Pool, events: seq<Event>): (r: seq<Favourite>)
    ensures |r| == if |Candidates(p, events)| <= Cap(p) then |Candidates(p, events)| else Cap(p)
    ensures SortedDesc(r)
    ensures forall x, y | x in r && y in multiset(Candidates(p, events)) - multiset(r) :: y.proba <= x.proba
    ensures forall v :: WithProba(r, v) <= WithProba(Candidates(p, events), v)
  {
    TopOfSort(Candidates(p, events), Cap(p));
    Take(Sort(Candidates(p, events)), Cap(p))
  }

  /** Every favourite the selector keeps is its event's best outcome, at or
      above the threshold, from an eligible event (for the Champions League
      selector, a Champions League one). */
  lemma SelectedAreFavourites(p: Pool, events: seq<Event>)
    ensures forall f | f in Select(p, events) ::
      && f.game in events
      && Eligible(p, f.game)
      && f.proba >= Threshold(p)
      && FavouriteOf(p, f.game) == Some(f)
    ensures p == UclPool ==> forall f | f in Select(p, events) :: IsChampionsLeague(f.game)
  {
    var c := Candidates(p, events);
    TopOfSort(c, Cap(p));
    CandidatesAreFavourites(p, events);
    forall f | f in Select(p, events) ensures f in c && FavouriteOf(p, f.game) == Some(f) {
      assert f in Take(Sort(c), Cap(p));
    }
  }

  /** `nhlGames.filter(g => g.status === 'scheduled')`. */
  function ScheduledOnly(events: seq<Event>): (r: seq<Event>)
    ensures |r| <= |events|
    ensures forall e | e in r :: Scheduled(e) && e in events
    ensures forall e | e in events && Scheduled(e) :: e in r
  {
    if events == [] then []
    else
      assert forall e | e in events :: e == events[0] || e in events[1..];
      (if Scheduled(events[0]) then [events[0]] else []) + ScheduledOnly(events[1..])
  }

  /** When every game is scheduled the filter keeps them all, in order. */
  lemma {:induction false} AllScheduledKept(events: seq<Event>)
    requires forall e | e in events :: Scheduled(e)
    ensures ScheduledOnly(events) == events
  {
    if events != [] {
      assert forall e | e in events[1..] :: e in events;
      AllScheduledKept(events[1..]);
      assert events == [events[0]] + events[1..];
    }
  }

  /** The filter distributes over concatenation: it keeps the scheduled
      games of each part, in order and with their repetitions. */
  lemma {:induction false} ScheduledOnlyAppend(a: seq<Event>, b: seq<Event>)
    ensures ScheduledOnly(a + b) == ScheduledOnly(a) + ScheduledOnly(b)
  {
    if a == [] {
      assert a + b == b;
    } else {
      var ab := a + b;
      assert ab[0] == a[0];
      assert ab[1..] == a[1..] + b;
      ScheduledOnlyAppend(a[1..], b);
    }
  }

  /** A scheduled game in front of the list is the first upcoming game. */
  lemma UpcomingLeads(g: Event, rest: seq<Event>)
    requires Scheduled(g)
    ensures Upcoming([g] + rest) != [] && Upcoming([g] + rest)[0] == g
  {
    ScheduledOnlyAppend([g], rest);
    assert ScheduledOnly([g]) == [g] by {
      assert [g][1..] == [];
    }
  }

  /** The first three scheduled hockey games, in input order. */
  function Upcoming(events: seq<Event>): (r: seq<Event>)
    ensures |r| == if |ScheduledOnly(events)| <= 3 then |ScheduledOnly(events)| else 3
    ensures r <= ScheduledOnly(events)
    ensures forall e | e in r :: Scheduled(e) && e in events
  {
    var s := ScheduledOnly(events);
    if |s| <= 3 then s else s[..3]
  }
}
