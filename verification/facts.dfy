/** Consequences of the rules for the combos `buildCombos` can actually
    produce: how leg odds are ordered, how high a favourite's odds can go,
    which tiers a short combo can never reach, and the fixed NHL odds. */
module ComboFacts {
  import opened JsObject
  import opened Events
  import opened Odds
  import opened StableSort
  import opened Favourites
  import opened Combos

  /** The legs are listed from the shortest odds to the longest. */
  predicate OddsAscending(picks: seq<Pick>)
  {
    forall i, j | 0 <= i < j < |picks| :: picks[i].cote <= picks[j].cote
  }

  /** Legs built one for one from favourites sorted by probability, highest
      first, are sorted by odds, shortest first. */
  lemma AscendingFromSorted(favs: seq<Favourite>, picks: seq<Pick>)
    requires SortedDesc(favs) && |picks| <= |favs|
    requires forall f | f in favs :: f.proba > 0
    requires forall i | 0 <= i < |picks| :: LegOf(picks[i], favs[i])
    ensures OddsAscending(picks)
  {
    forall i, j | 0 <= i < j < |picks| ensures picks[i].cote <= picks[j].cote {
      assert favs[j] in favs;
      ProbaToCoteAntitone(favs[j].proba, favs[i].proba);
    }
  }

  /** The favourites handed to a rule: sorted and all at or above the
      threshold, hence positive. */
  lemma SelectedPositive(p: Pool, events: seq<Event>)
    ensures SortedDesc(Select(p, events))
    ensures forall f | f in Select(p, events) :: f.proba >= Threshold(p) > 0
  {
    SelectedAreFavourites(p, events);
  }

  /** The football combo lists its legs from the safest to the riskiest. */
  lemma {:induction false} FootballLegsAscending(games: seq<Event>)
    ensures FootballCombo(Select(FootPool, games)).Some? ==>
      OddsAscending(FootballCombo(Select(FootPool, games)).value.picks)
  {
    var favs := Select(FootPool, games);
    SelectedPositive(FootPool, games);
    var r := FootballCombo(favs);
    if r.Some? {
      AscendingFromSorted(favs, r.value.picks);
    }
  }

  /** So does the NBA combo. */
  lemma {:induction false} NbaLegsAscending(games: seq<Event>)
    ensures NbaCombo(Select(NbaPool, games)).Some? ==>
      OddsAscending(NbaCombo(Select(NbaPool, games)).value.picks)
  {
    var favs := Select(NbaPool, games);
    SelectedPositive(NbaPool, games);
    var r := NbaCombo(favs);
    if r.Some? {
      AscendingFromSorted(favs, r.value.picks);
    }
  }

  /** And the Champions League combo. */
  lemma {:induction false} UclLegsAscending(games: seq<Event>)
    ensures UclCombo(Select(UclPool, games)).Some? ==>
      OddsAscending(UclCombo(Select(UclPool, games)).value.picks)
  {
    var favs := Select(UclPool, games);
    SelectedPositive(UclPool, games);
    var r := UclCombo(favs);
    if r.Some? {
      AscendingFromSorted(favs, r.value.picks);
    }
  }

  /** The longest odds a favourite of each selector can get: 1.82 at the
      55% threshold, 1.67 at the 60% one. */
  function OddsCap(p: Pool): int
  {
    if p == UclPool then 167 else 182
  }

  /** A favourite's leg odds lie between 0 and the selector's cap. */
  lemma {:induction false} FavouriteOddsBound(p: Pool, proba: int)
    requires proba >= Threshold(p)
    ensures 0 <= ProbaToCote(Some(proba)) <= OddsCap(p)
  {
    ProbaToCoteAntitone(Threshold(p), proba);
    var c := ProbaToCote(Some(Threshold(p)));
    if p == UclPool {
      assert 2 * c * 600 - 600 <= 200000 < 2 * c * 600 + 600;
    } else {
      assert 2 * c * 550 - 550 <= 200000 < 2 * c * 550 + 550;
    }
    var d := ProbaToCote(Some(proba));
    assert 200000 < (2 * d + 1) * proba;
  }

  /** A product of `k` odds, each between 0 and `m`, is between 0 and `m^k`. */
  lemma {:induction false} ProductBound(cs: seq<int>, m: int)
    requires forall i | 0 <= i < |cs| :: 0 <= cs[i] <= m
    ensures 0 <= Product(cs) <= Power(m, |cs|)
  {
    if cs != [] {
      var init := cs[..|cs| - 1];
      ProductBound(init, m);
      var p, c := Product(init), cs[|cs| - 1];
      MulLe(c, m, p);
      MulLe(p, Power(m, |init|), m);
      assert 0 <= p * c;
    }
  }

  /** Legs built from favourites of pool `p` all have odds within its cap. */
  lemma LegOddsBound(p: Pool, favs: seq<Favourite>, picks: seq<Pick>)
    requires |picks| <= |favs|
    requires forall f | f in favs :: f.proba >= Threshold(p)
    requires forall i | 0 <= i < |picks| :: LegOf(picks[i], favs[i])
    ensures forall i | 0 <= i < |Cotes(picks)| :: 0 <= Cotes(picks)[i] <= OddsCap(p)
  {
    forall i | 0 <= i < |picks| ensures 0 <= picks[i].cote <= OddsCap(p) {
      assert favs[i] in favs;
      FavouriteOddsBound(p, favs[i].proba);
    }
  }

  /** A tiered rule never says high for legs whose odds are capped so that
      their largest possible product stays under the high threshold. */
  lemma CappedNotHigh(low: int, med: int, cs: seq<int>, m: int)
    requires low <= med
    requires forall i | 0 <= i < |cs| :: 0 <= cs[i] <= m
    requires Power(m, |cs|) < med * Power(100, |cs|)
    ensures RiskOf(Tiered(low, med), cs) != High
  {
    ProductBound(cs, m);
  }

  /** A three-leg football combo is never high risk: three legs of at most
      1.82 multiply to at most 6.03, under the threshold of 7. */
  lemma {:induction false} ThreeLegFootballNotHigh(games: seq<Event>)
    ensures var r := FootballCombo(Select(FootPool, games));
      r.Some? && |r.value.picks| == 3 ==> r.value.risk != High
  {
    var favs := Select(FootPool, games);
    SelectedPositive(FootPool, games);
    var r := FootballCombo(favs);
    if r.Some? && |r.value.picks| == 3 {
      LegOddsBound(FootPool, favs, r.value.picks);
      assert Power(182, 3) == 6028568 && Power(100, 3) == 1000000;
      CappedNotHigh(4, 7, Cotes(r.value.picks), 182);
    }
  }

  /** A two-leg NBA combo is never high risk: two legs of at most 1.82
      multiply to at most 3.32, under the threshold of 5. */
  lemma {:induction false} TwoLegNbaNotHigh(games: seq<Event>)
    ensures var r := NbaCombo(Select(NbaPool, games));
      r.Some? && |r.value.picks| == 2 ==> r.value.risk != High
  {
    var favs := Select(NbaPool, games);
    SelectedPositive(NbaPool, games);
    var r := NbaCombo(favs);
    if r.Some? && |r.value.picks| == 2 {
      LegOddsBound(NbaPool, favs, r.value.picks);
      assert Power(182, 2) == 33124 && Power(100, 2) == 10000;
      CappedNotHigh(3, 5, Cotes(r.value.picks), 182);
    }
  }

  /** Two legs at 1.80 make 3.24. */
  lemma TwoHockeyLegs()
    ensures ComboCote([180, 180]) == 324
  {
    assert [180, 180][..1] == [180] && [180][..0] == [];
    assert Product([180, 180]) == 32400;
    assert Power(100, 2) == 10000;
  }

  /** Three legs at 1.80 make 5.832, shown as 5.83. */
  lemma ThreeHockeyLegs()
    ensures ComboCote([180, 180, 180]) == 583
  {
    assert [180, 180, 180][..2] == [180, 180];
    TwoHockeyLegs();
    assert Product([180, 180, 180]) == 5832000;
    assert Power(100, 3) == 1000000;
  }

  /** The NHL combo's odds depend only on how many games it has: 3.24 for
      two, 5.83 for three, and its tier is always medium. */
  lemma {:induction false} NhlComboOdds(games: seq<Event>)
    requires 2 <= |games| <= 3
    ensures NhlCombo(games).Some?
    ensures NhlCombo(games).value.cote == if |games| == 2 then 324 else 583
    ensures NhlCombo(games).value.risk == Med
  {
    var c := NhlCombo(games).value;
    if |games| == 2 {
      assert Cotes(c.picks) == [180, 180];
      TwoHockeyLegs();
    } else {
      assert Cotes(c.picks) == [180, 180, 180];
      ThreeHockeyLegs();
    }
  }

  /** A list in rule order holding nothing but copies of `c` holds at most
      one. */
  lemma SingleInRuleOrder(r: seq<Combo>, c: Combo)
    requires InRuleOrder(r)
    requires forall x | x in r :: x == c
    ensures |r| <= 1
  {
    if |r| >= 2 {
      FirstTwo(r);
      assert false;
    }
  }

  /** The first two combos of a list in rule order differ and belong to it. */
  lemma FirstTwo(r: seq<Combo>)
    requires InRuleOrder(r) && |r| >= 2
    ensures r[0] in r && r[1] in r && r[0] != r[1]
  {
    assert Rank(r[0].sport) < Rank(r[1].sport);
  }

  /** No events, no favourites. */
  lemma SelectNothing(p: Pool)
    ensures Select(p, []) == []
  {
  }

  /** The rules that have no favourites to work with stay silent, and the
      mixed combo has only its hockey leg. */
  lemma HockeyOnlyRules(nhlGames: seq<Event>)
    requires nhlGames != []
    ensures FootballCombo([]) == None && NbaCombo([]) == None && UclCombo([]) == None
    ensures MixCombo([], [], nhlGames) == None
  {
    assert |MixPicks([], [], nhlGames)| == 1;
  }

  /** With no football or basketball favourites, the only combo two or
      three hockey games can yield is the NHL one. */
  lemma HockeyOnlyCombos(nhl: seq<Event>)
    requires 2 <= |nhl| <= 3
    ensures NhlCombo(nhl).Some?
    ensures Emits(Assemble([], [], [], nhl), Hockey)
    ensures forall c | c in Assemble([], [], [], nhl) :: c == NhlCombo(nhl).value
  {
    HockeyOnlyRules(nhl);
  }

  /** Up to three scheduled hockey games are all upcoming. */
  lemma UpcomingAll(nhlGames: seq<Event>)
    requires |nhlGames| <= 3
    requires forall g | g in nhlGames :: Scheduled(g)
    ensures Upcoming(nhlGames) == nhlGames
  {
    AllScheduledKept(nhlGames);
  }

  /** Three scheduled hockey games and nothing else yield exactly one combo,
      the NHL one at 5.83, medium risk. (The mixed combo needs two of its
      three legs and gets only the hockey one.) */
  lemma {:induction false} HockeyOnlyNight(nhlGames: seq<Event>)
    requires |nhlGames| == 3
    requires forall g | g in nhlGames :: Scheduled(g)
    ensures var r := BuildCombos([], [], nhlGames);
      && |r| == 1
      && r[0].sport == Hockey
      && r[0].cote == 583
      && r[0].risk == Med
  {
    var r := BuildCombos([], [], nhlGames);
    SelectNothing(FootPool);
    SelectNothing(NbaPool);
    SelectNothing(UclPool);
    UpcomingAll(nhlGames);
    assert r == Assemble([], [], [], nhlGames);
    HockeyOnlyCombos(nhlGames);
    var nhl := NhlCombo(nhlGames).value;
    SingleInRuleOrder(r, nhl);
    var i :| 0 <= i < |r| && r[i].sport == Hockey;
    assert r[0] in r;
    NhlComboOdds(nhlGames);
  }
}
