/** `buildCombos`: the five combo rules, appended in the order football, NBA,
    Champions League, NHL, multi-sport. Each rule emits one combo when it has
    enough legs and nothing otherwise. */
module Combos {
  import opened JsObject
  import opened Events
  import opened Odds
  import opened StableSort
  import opened Favourites

  /** The `sport` tag of a leg or a combo (`all` only for the mixed combo). */
  datatype Sport = Football | Basket | Ucl | Hockey | All

  /** One leg: sport, league label, "A vs B", the bet text, its odds in
      hundredths and its rounded percentage (`null` for the mixed hockey leg). */
  datatype Pick = Pick(
    sport: Sport,
    league: string,
    matchup: string,
    pari: string,
    cote: int,
    proba: Option<int>)

  /** A combo: theme, legs, combined odds in hundredths and risk tier. */
  datatype Combo = Combo(sport: Sport, picks: seq<Pick>, cote: int, risk: Risk)

  /** Position of each rule in the output. */
  function Rank(s: Sport): nat
  {
    match s
    case Football => 0
    case Basket => 1
    case Ucl => 2
    case Hockey => 3
    case All => 4
  }

  /** The fewest legs with which each rule emits a combo. */
  function MinLegs(s: Sport): nat
  {
    if s == Football then 3 else 2
  }

  /** The most legs each rule puts in a combo. */
  function MaxLegs(s: Sport): nat
  {
    if s == Football then 4 else 3
  }

  /** The risk table: thresholds on the combined odds for football (4, 7) and
      NBA (3, 5); fixed tiers for UCL (low), NHL (med) and the mix (high). */
  function RiskRuleOf(s: Sport): RiskRule
  {
    match s
    case Football => Tiered(4, 7)
    case Basket => Tiered(3, 5)
    case Ucl => Fixed(Low)
    case Hockey => Fixed(Med)
    case All => Fixed(High)
  }

  function Cotes(picks: seq<Pick>): (cs: seq<int>)
    ensures |cs| == |picks|
    ensures forall i | 0 <= i < |picks| :: cs[i] == picks[i].cote
  {
    seq(|picks|, i requires 0 <= i < |picks| => picks[i].cote)
  }

  /** A combo of rule `s` as the source builds it: odds are the product of
      the legs' odds rounded once, and the tier comes from the rule's table. */
  predicate WellBuilt(c: Combo)
  {
    && MinLegs(c.sport) <= |c.picks| <= MaxLegs(c.sport)
    && c.cote == ComboCote(Cotes(c.picks))
    && c.risk == RiskOf(RiskRuleOf(c.sport), Cotes(c.picks))
  }

  function MakeCombo(s: Sport, picks: seq<Pick>): Combo
  {
    Combo(s, picks, ComboCote(Cotes(picks)), RiskOf(RiskRuleOf(s), Cotes(picks)))
  }

  /** `Math.round(proba)` of a probability in tenths of a percent. */
  function RoundPercent(p: int): (r: int)
    ensures 10 * r - 5 <= p < 10 * r + 5
  {
    (p + 5) / 10
  }

  /** The leg built from a favourite: "<team> Gagne" at its fair odds. */
  function FavouritePick(s: Sport, league: string, f: Favourite): Pick
  {
    Pick(s, league, MatchLabel(f.game), f.team + " Gagne",
         ProbaToCote(Some(f.proba)), Some(RoundPercent(f.proba)))
  }

  /** `f.game.league || 'FOOT'`. */
  function FootLeague(e: Event): (l: string)
    ensures e.league.Some? && e.league.value != "" ==> l == e.league.value
    ensures e.league.None? || e.league.value == "" ==> l == "FOOT"
  {
    match e.league
    case Some(l) => if l == "" then "FOOT" else l
    case None => "FOOT"
  }

  /** A leg of favourite `f` is the bet on its team at the fair odds of its
      probability. */
  predicate LegOf(p: Pick, f: Favourite)
  {
    && p.pari == f.team + " Gagne"
    && p.matchup == MatchLabel(f.game)
    && p.cote == ProbaToCote(Some(f.proba))
    && p.proba == Some(RoundPercent(f.proba))
  }

  /** Combo 1: with at least three football favourites, one leg for each of
      the first four, league label defaulting to FOOT. */
  function FootballCombo(favs: seq<Favourite>): (r: Option<Combo>)
    ensures r.Some? <==> |favs| >= 3
    ensures r.Some? ==> WellBuilt(r.value)
    ensures r.Some? ==>
      && r.value.sport == Football
      && |r.value.picks| == (if |favs| <= 4 then |favs| else 4)
      && forall i | 0 <= i < |r.value.picks| ::
           && LegOf(r.value.picks[i], favs[i])
           && r.value.picks[i].sport == Football
           && r.value.picks[i].league == FootLeague(favs[i].game)
  {
    if |favs| >= 3 then
      var legs := Take(favs, 4);
      Some(MakeCombo(Football, seq(|legs|, i requires 0 <= i < |legs| =>
        FavouritePick(Football, FootLeague(legs[i].game), legs[i]))))
    else None
  }

  /** Combo 2: with at least two NBA favourites, one leg for each of the
      first three. */
  function NbaCombo(favs: seq<Favourite>): (r: Option<Combo>)
    ensures r.Some? <==> |favs| >= 2
    ensures r.Some? ==> WellBuilt(r.value)
    ensures r.Some? ==>
      && r.value.sport == Basket
      && |r.value.picks| == (if |favs| <= 3 then |favs| else 3)
      && forall i | 0 <= i < |r.value.picks| ::
           && LegOf(r.value.picks[i], favs[i])
           && r.value.picks[i].sport == Basket
           && r.value.picks[i].league == "NBA"
  {
    if |favs| >= 2 then
      var legs := Take(favs, 3);
      Some(MakeCombo(Basket, seq(|legs|, i requires 0 <= i < |legs| =>
        FavouritePick(Basket, "NBA", legs[i]))))
    else None
  }

  /** Combo 3: with at least two Champions League favourites, one leg for
      each (the selector already kept at most three). */
  function UclCombo(favs: seq<Favourite>): (r: Option<Combo>)
    ensures r.Some? <==> |favs| >= 2
    ensures r.Some? && |favs| <= Cap(UclPool) ==> WellBuilt(r.value)
    ensures r.Some? ==>
      && r.value.sport == Ucl
      && |r.value.picks| == |favs|
      && forall i | 0 <= i < |favs| ::
           && LegOf(r.value.picks[i], favs[i])
           && r.value.picks[i].sport == Ucl
           && r.value.picks[i].league == "UCL"
  {
    if |favs| >= 2 then
      Some(MakeCombo(Ucl, seq(|favs|, i requires 0 <= i < |favs| =>
        FavouritePick(Ucl, "UCL", favs[i]))))
    else None
  }

  /** The NHL leg: a bet on the first-listed team at the fixed odds 1.80 and
      the fixed 55%, whatever the event says. */
  function HockeyPick(g: Event): Pick
  {
    Pick(Hockey, "NHL", MatchLabel(g), Side(g, 0), 180, Some(55))
  }

  /** Combo 4: with at least two upcoming hockey games, one fixed leg each. */
  function NhlCombo(games: seq<Event>): (r: Option<Combo>)
    ensures r.Some? <==> |games| >= 2
    ensures r.Some? && |games| <= 3 ==> WellBuilt(r.value)
    ensures r.Some? ==>
      && r.value.sport == Hockey
      && |r.value.picks| == |games|
      && forall i | 0 <= i < |games| ::
           && r.value.picks[i].sport == Hockey
           && r.value.picks[i].league == "NHL"
           && r.value.picks[i].cote == 180
           && r.value.picks[i].proba == Some(55)
           && r.value.picks[i].pari == Side(games[i], 0)
           && r.value.picks[i].matchup == MatchLabel(games[i])
  {
    if |games| >= 2 then
      Some(MakeCombo(Hockey, seq(|games|, i requires 0 <= i < |games| => HockeyPick(games[i]))))
    else None
  }

  /** The mixed combo's hockey leg: "Domicile Gagne" at the fixed odds 1.75. */
  function MixHockeyPick(g: Event): Pick
  {
    Pick(Hockey, "NHL", MatchLabel(g), "Domicile Gagne", 175, None)
  }

  /** The mixed combo's legs: the top football favourite, the top NBA
      favourite and the first upcoming hockey game, each when present, in
      that order. */
  function MixPicks(foot: seq<Favourite>, nba: seq<Favourite>, nhl: seq<Event>): (r: seq<Pick>)
    ensures |r| == (if foot != [] then 1 else 0) + (if nba != [] then 1 else 0) + (if nhl != [] then 1 else 0)
    ensures forall i, j | 0 <= i < j < |r| :: Rank(r[i].sport) < Rank(r[j].sport)
  {
    (if foot != [] then [FavouritePick(Football, "FOOT", foot[0])] else [])
    + (if nba != [] then [FavouritePick(Basket, "NBA", nba[0])] else [])
    + (if nhl != [] then [MixHockeyPick(nhl[0])] else [])
  }

  /** What a leg of the mixed combo may be: the football leg bets on the top
      football favourite under the league label FOOT, the NBA leg on the top
      NBA favourite, and the hockey leg is the fixed home-win bet on the
      first upcoming game. */
  predicate MixLeg(p: Pick, foot: seq<Favourite>, nba: seq<Favourite>, nhl: seq<Event>)
  {
    match p.sport
    case Football => foot != [] && LegOf(p, foot[0]) && p.league == "FOOT"
    case Basket => nba != [] && LegOf(p, nba[0]) && p.league == "NBA"
    case Hockey => nhl != [] && p == MixHockeyPick(nhl[0])
    case _ => false
  }

  /** Each leg of the mixed combo is its sport's pick. */
  lemma MixPicksLegs(foot: seq<Favourite>, nba: seq<Favourite>, nhl: seq<Event>)
    ensures forall p | p in MixPicks(foot, nba, nhl) :: MixLeg(p, foot, nba, nhl)
  {
    var f := if foot != [] then [FavouritePick(Football, "FOOT", foot[0])] else [];
    var b := if nba != [] then [FavouritePick(Basket, "NBA", nba[0])] else [];
    var h := if nhl != [] then [MixHockeyPick(nhl[0])] else [];
    assert MixPicks(foot, nba, nhl) == f + b + h;
    forall p | p in f + b + h ensures MixLeg(p, foot, nba, nhl) {
      if p in f {
        assert p == f[0];
      } else if p in b {
        assert p == b[0];
      } else {
        assert p in h && p == h[0];
      }
    }
  }

  /** Combo 5: the mixed combo, when at least two of its three legs exist. */
  function MixCombo(foot: seq<Favourite>, nba: seq<Favourite>, nhl: seq<Event>): (r: Option<Combo>)
    ensures r.Some? <==> |MixPicks(foot, nba, nhl)| >= 2
    ensures r.Some? ==> WellBuilt(r.value)
    ensures r.Some? ==> r.value.sport == All && r.value.picks == MixPicks(foot, nba, nhl)
  {
    var picks := MixPicks(foot, nba, nhl);
    if |picks| >= 2 then Some(MakeCombo(All, picks)) else None
  }

  function Emit(c: Option<Combo>): seq<Combo>
  {
    match c
    case Some(x) => [x]
    case None => []
  }

  predicate Emits(r: seq<Combo>, s: Sport)
  {
    exists i | 0 <= i < |r| :: r[i].sport == s
  }

  predicate InRuleOrder(r: seq<Combo>)
  {
    forall i, j | 0 <= i < j < |r| :: Rank(r[i].sport) < Rank(r[j].sport)
  }

  /** The rules' outcomes, one optional combo per rule, appended in order. */
  function Emitted(os: seq<Option<Combo>>): seq<Combo>
  {
    if os == [] then [] else Emitted(os[..|os| - 1]) + Emit(os[|os| - 1])
  }

  /** Rule `k` of the list may only produce a combo of rank `k`. */
  predicate RanksMatch(os: seq<Option<Combo>>)
  {
    forall k | 0 <= k < |os| :: os[k].Some? ==> Rank(os[k].value.sport) == k
  }

  /** Appending each rule's combo in rule order keeps the output in rule
      order, and every combo comes from one of the rules. */
  lemma {:induction false} EmittedInOrder(os: seq<Option<Combo>>)
    requires RanksMatch(os)
    ensures InRuleOrder(Emitted(os))
    ensures forall c | c in Emitted(os) :: Rank(c.sport) < |os| && os[Rank(c.sport)] == Some(c)
  {
    if os != [] {
      var init, last := os[..|os| - 1], os[|os| - 1];
      EmittedInOrder(init);
      var acc := Emitted(init);
      var r := acc + Emit(last);
      forall i, j | 0 <= i < j < |r| ensures Rank(r[i].sport) < Rank(r[j].sport) {
        assert r[i] in acc;
        if j >= |acc| {
          assert r[j] == last.value;
        }
      }
      forall c | c in r ensures Rank(c.sport) < |os| && os[Rank(c.sport)] == Some(c) {
        if c in acc {
          assert init[Rank(c.sport)] == os[Rank(c.sport)];
        }
      }
    }
  }

  /** A rule's sport appears in the output exactly when that rule fired. */
  lemma {:induction false} EmittedSports(os: seq<Option<Combo>>, s: Sport)
    requires RanksMatch(os)
    ensures Emits(Emitted(os), s) <==> Rank(s) < |os| && os[Rank(s)].Some?
  {
    EmittedInOrder(os);
    var r := Emitted(os);
    if Emits(r, s) {
      var i :| 0 <= i < |r| && r[i].sport == s;
      assert r[i] in r;
    }
    if Rank(s) < |os| && os[Rank(s)].Some? {
      EmittedContains(os, Rank(s));
      var i :| 0 <= i < |r| && r[i] == os[Rank(s)].value;
      assert Rank(r[i].sport) == Rank(s);
    }
  }

  lemma {:induction false} EmittedContains(os: seq<Option<Combo>>, k: nat)
    requires k < |os| && os[k].Some?
    ensures os[k].value in Emitted(os)
    decreases |os|
  {
    if k < |os| - 1 {
      EmittedContains(os[..|os| - 1], k);
    }
  }

  /** Five optional combos, one per rule, each of its rule's sport. */
  predicate RuleShaped(c0: Option<Combo>, c1: Option<Combo>, c2: Option<Combo>, c3: Option<Combo>, c4: Option<Combo>)
  {
    && (c0.Some? ==> c0.value.sport == Football)
    && (c1.Some? ==> c1.value.sport == Basket)
    && (c2.Some? ==> c2.value.sport == Ucl)
    && (c3.Some? ==> c3.value.sport == Hockey)
    && (c4.Some? ==> c4.value.sport == All)
  }

  /** Appending five rule outcomes: the output is in rule order, every combo
      is one of the outcomes, and each sport appears exactly when its rule
      fired. */
  lemma Collect(c0: Option<Combo>, c1: Option<Combo>, c2: Option<Combo>, c3: Option<Combo>, c4: Option<Combo>)
    requires RuleShaped(c0, c1, c2, c3, c4)
    ensures InRuleOrder(Emitted([c0, c1, c2, c3, c4]))
    ensures forall c | c in Emitted([c0, c1, c2, c3, c4]) ::
      Some(c) == c0 || Some(c) == c1 || Some(c) == c2 || Some(c) == c3 || Some(c) == c4
    ensures Emits(Emitted([c0, c1, c2, c3, c4]), Football) <==> c0.Some?
    ensures Emits(Emitted([c0, c1, c2, c3, c4]), Basket) <==> c1.Some?
    ensures Emits(Emitted([c0, c1, c2, c3, c4]), Ucl) <==> c2.Some?
    ensures Emits(Emitted([c0, c1, c2, c3, c4]), Hockey) <==> c3.Some?
    ensures Emits(Emitted([c0, c1, c2, c3, c4]), All) <==> c4.Some?
  {
    var os := [c0, c1, c2, c3, c4];
    assert RanksMatch(os) by {
      forall k | 0 <= k < 5 && os[k].Some? ensures Rank(os[k].value.sport) == k {
        if k == 0 { assert os[k] == c0; }
        else if k == 1 { assert os[k] == c1; }
        else if k == 2 { assert os[k] == c2; }
        else if k == 3 { assert os[k] == c3; }
        else { assert os[k] == c4; }
      }
    }
    EmittedInOrder(os);
    forall s: Sport ensures Emits(Emitted(os), s) <==> os[Rank(s)].Some? {
      EmittedSports(os, s);
    }
  }

  /** Every combo appended from well-built outcomes is well built. */
  lemma CollectWellBuilt(c0: Option<Combo>, c1: Option<Combo>, c2: Option<Combo>, c3: Option<Combo>, c4: Option<Combo>)
    requires RuleShaped(c0, c1, c2, c3, c4)
    requires c0.Some? ==> WellBuilt(c0.value)
    requires c1.Some? ==> WellBuilt(c1.value)
    requires c2.Some? ==> WellBuilt(c2.value)
    requires c3.Some? ==> WellBuilt(c3.value)
    requires c4.Some? ==> WellBuilt(c4.value)
    ensures forall c | c in Emitted([c0, c1, c2, c3, c4]) :: WellBuilt(c)
  {
    Collect(c0, c1, c2, c3, c4);
  }

  /** The five rules applied to the selected favourites and hockey games:
      the combos in rule order, each well built, each rule present exactly
      when its minimum is met. */
  function Assemble(foot: seq<Favourite>, nba: seq<Favourite>, ucl: seq<Favourite>, nhl: seq<Event>): (r: seq<Combo>)
    requires |ucl| <= Cap(UclPool) && |nhl| <= 3
    ensures InRuleOrder(r)
    ensures forall c | c in r :: WellBuilt(c)
    ensures forall c | c in r ::
      || Some(c) == FootballCombo(foot) || Some(c) == NbaCombo(nba) || Some(c) == UclCombo(ucl)
      || Some(c) == NhlCombo(nhl) || Some(c) == MixCombo(foot, nba, nhl)
    ensures Emits(r, Football) <==> |foot| >= 3
    ensures Emits(r, Basket) <==> |nba| >= 2
    ensures Emits(r, Ucl) <==> |ucl| >= 2
    ensures Emits(r, Hockey) <==> |nhl| >= 2
    ensures Emits(r, All) <==>
      (if foot != [] then 1 else 0) + (if nba != [] then 1 else 0) + (if nhl != [] then 1 else 0) >= 2
  {
    var c0, c1, c2 := FootballCombo(foot), NbaCombo(nba), UclCombo(ucl);
    var c3, c4 := NhlCombo(nhl), MixCombo(foot, nba, nhl);
    Collect(c0, c1, c2, c3, c4);
    CollectWellBuilt(c0, c1, c2, c3, c4);
    Emitted([c0, c1, c2, c3, c4])
  }

  /** `buildCombos(footballGames, nbaGames, nhlGames)`. */
  function BuildCombos(footballGames: seq<Event>, nbaGames: seq<Event>, nhlGames: seq<Event>): (r: seq<Combo>)
    ensures InRuleOrder(r)
    ensures forall c | c in r :: WellBuilt(c)
    ensures forall c | c in r ::
      var foot, nba, ucl := Select(FootPool, footballGames), Select(NbaPool, nbaGames), Select(UclPool, footballGames);
      || Some(c) == FootballCombo(foot) || Some(c) == NbaCombo(nba) || Some(c) == UclCombo(ucl)
      || Some(c) == NhlCombo(Upcoming(nhlGames)) || Some(c) == MixCombo(foot, nba, Upcoming(nhlGames))
    ensures Emits(r, Football) <==> |Select(FootPool, footballGames)| >= 3
    ensures Emits(r, Basket) <==> |Select(NbaPool, nbaGames)| >= 2
    ensures Emits(r, Ucl) <==> |Select(UclPool, footballGames)| >= 2
    ensures Emits(r, Hockey) <==> |Upcoming(nhlGames)| >= 2
    ensures Emits(r, All) <==>
      (if Select(FootPool, footballGames) != [] then 1 else 0)
      + (if Select(NbaPool, nbaGames) != [] then 1 else 0)
      + (if Upcoming(nhlGames) != [] then 1 else 0) >= 2
  {
    Assemble(Select(FootPool, footballGames), Select(NbaPool, nbaGames),
             Select(UclPool, footballGames), Upcoming(nhlGames))
  }
}
