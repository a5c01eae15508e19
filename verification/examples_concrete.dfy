/** Concrete instances of the model, taken from the fixture data the
    handler feeds `buildCombos`: fair odds of listed probabilities, the
    favourite of one match, the draw key winning a Champions League scan,
    and a combo whose rounded odds sit on a tier threshold. */
module Examples {
  import opened JsObject
  import opened Events
  import opened Odds
  import opened Scan
  import opened Favourites
  import opened Combos

  /** PSG at 75.0% pays 1.33; 70.1% pays 1.43; 74.2% pays 1.35. Absent or
      zero probabilities pay 2.00. */
  lemma FixtureOdds()
    ensures ProbaToCote(Some(750)) == 133
    ensures ProbaToCote(Some(701)) == 143
    ensures ProbaToCote(Some(742)) == 135
    ensures ProbaToCote(Some(0)) == 200
    ensures ProbaToCote(None) == 200
  {
  }

  /** A scan over three keys whose last one strictly beats the other two. */
  lemma LastOfThreeWins(e: Event, probs: Object<int>, a: string, b: string, c: string)
    requires 0 <= ProbOf(probs, a) < ProbOf(probs, c) && 0 <= ProbOf(probs, b) < ProbOf(probs, c)
    ensures ScanBest(e, probs, [a, b, c]) == Best(true, ProbOf(probs, c), TeamName(e, c))
  {
    var ks := [a, b, c];
    assert ks[0] == a && ks[1] == b && ks[2] == c;
    assert forall j | 0 <= j < 2 :: ProbOf(probs, ks[j]) < ProbOf(probs, ks[2]);
    ScanBestIsFirstMax(e, probs, ks, 2);
  }

  /** A scan over two keys whose first one is positive and not beaten. */
  lemma FirstOfTwoWins(e: Event, probs: Object<int>, a: string, b: string)
    requires 0 < ProbOf(probs, a) && ProbOf(probs, b) <= ProbOf(probs, a)
    ensures ScanBest(e, probs, [a, b]) == Best(true, ProbOf(probs, a), TeamName(e, a))
  {
    var ks := [a, b];
    assert ks[0] == a && ks[1] == b;
    ScanBestIsFirstMax(e, probs, ks, 0);
  }

  /** An eligible event whose scan reaches the threshold has the scan's
      result as its favourite. */
  lemma ScanGivesFavourite(p: Pool, e: Event, ks: seq<string>, b: Best)
    requires Eligible(p, e) && ScanKeys(p, e) == ks
    requires ScanBest(e, e.winProbability.value, ks) == b
    requires b.found && b.proba >= Threshold(p)
    ensures FavouriteOf(p, e) == Some(Favourite(e, b.proba, b.team))
  {
  }

  /** An eligible event whose scan stays under the threshold has none. */
  lemma ScanGivesNoFavourite(p: Pool, e: Event, ks: seq<string>, b: Best)
    requires Eligible(p, e) && ScanKeys(p, e) == ks
    requires ScanBest(e, e.winProbability.value, ks) == b
    requires b.proba < Threshold(p)
    ensures FavouriteOf(p, e) == None
  {
  }

  /** Paris Saint-Germain against Le Havre in Ligue 1. */
  function PsgHavre(): Event
  {
    Event("scheduled", Some("L1"),
      [("PSG", Team(Some("Paris Saint-Germain"))), ("HAC", Team(Some("Le Havre")))],
      Some([("PSG", 750), ("HAC", 99), ("draw", 151)]),
      [("PSG", 0), ("HAC", 0)])
  }

  lemma PsgHavreLookups()
    ensures Keys(PsgHavre().score) == ["PSG", "HAC"]
    ensures ProbOf(PsgHavre().winProbability.value, "PSG") == 750
    ensures ProbOf(PsgHavre().winProbability.value, "HAC") == 99
    ensures TeamName(PsgHavre(), "PSG") == "Paris Saint-Germain"
  {
  }

  /** Scanning the `score` keys finds PSG first and HAC does not beat it. */
  lemma PsgHavreScan()
    ensures ScanBest(PsgHavre(), PsgHavre().winProbability.value, ["PSG", "HAC"])
         == Best(true, 750, "Paris Saint-Germain")
  {
    PsgHavreLookups();
    FirstOfTwoWins(PsgHavre(), PsgHavre().winProbability.value, "PSG", "HAC");
  }

  /** The football selector picks PSG at 75.0%, named by its team entry. */
  lemma PsgIsTheFavourite()
    ensures FavouriteOf(FootPool, PsgHavre()) == Some(Favourite(PsgHavre(), 750, "Paris Saint-Germain"))
  {
    PsgHavreLookups();
    assert Eligible(FootPool, PsgHavre());
    assert ScanKeys(FootPool, PsgHavre()) == ["PSG", "HAC"];
    PsgHavreScan();
    ScanGivesFavourite(FootPool, PsgHavre(), ["PSG", "HAC"], Best(true, 750, "Paris Saint-Germain"));
  }

  /** A Champions League match whose draw is the likeliest outcome. */
  function DrawnTie(): Event
  {
    Event("scheduled", Some("UCL"),
      [("A", Team(Some("Alpha"))), ("B", Team(Some("Beta")))],
      Some([("A", 200), ("B", 150), ("draw", 650)]),
      [("A", 0), ("B", 0)])
  }

  lemma DrawnTieKeys()
    ensures Keys(DrawnTie().winProbability.value) == ["A", "B", "draw"]
    ensures Keys(DrawnTie().score) == ["A", "B"]
  {
  }

  lemma DrawnTieLookups()
    ensures ProbOf(DrawnTie().winProbability.value, "A") == 200
    ensures ProbOf(DrawnTie().winProbability.value, "B") == 150
    ensures ProbOf(DrawnTie().winProbability.value, "draw") == 650
    ensures TeamName(DrawnTie(), "A") == "Alpha"
    ensures TeamName(DrawnTie(), "draw") == "draw"
  {
  }

  /** Walking `win_probability` meets A, B and the draw: the draw wins. */
  lemma DrawnTieFullScan()
    ensures ScanBest(DrawnTie(), DrawnTie().winProbability.value, ["A", "B", "draw"]) == Best(true, 650, "draw")
  {
    DrawnTieLookups();
    LastOfThreeWins(DrawnTie(), DrawnTie().winProbability.value, "A", "B", "draw");
  }

  /** Walking the `score` keys meets only A and B: A wins at 20%. */
  lemma DrawnTieScoreScan()
    ensures ScanBest(DrawnTie(), DrawnTie().winProbability.value, ["A", "B"]) == Best(true, 200, "Alpha")
  {
    DrawnTieLookups();
    FirstOfTwoWins(DrawnTie(), DrawnTie().winProbability.value, "A", "B");
  }

  /** The Champions League scan walks `win_probability`, so the draw wins it
      and, having no team entry, is named by its key. */
  lemma DrawWinsChampionsLeagueScan()
    ensures FavouriteOf(UclPool, DrawnTie()) == Some(Favourite(DrawnTie(), 650, "draw"))
  {
    DrawnTieKeys();
    assert Eligible(UclPool, DrawnTie());
    assert ScanKeys(UclPool, DrawnTie()) == ["A", "B", "draw"];
    DrawnTieFullScan();
  }

  /** The football selector walks the `score` keys only, so the same match
      gives it no favourite: 20% is its best. */
  lemma DrawIgnoredByFootballScan()
    ensures FavouriteOf(FootPool, DrawnTie()) == None
  {
    DrawnTieKeys();
    assert Eligible(FootPool, DrawnTie());
    assert ScanKeys(FootPool, DrawnTie()) == ["A", "B"];
    DrawnTieScoreScan();
    ScanGivesNoFavourite(FootPool, DrawnTie(), ["A", "B"], Best(true, 200, "Alpha"));
  }

  /** PSG, Liverpool and Barcelona at 1.33, 1.43 and 1.35 multiply to
      2.567565: the combo shows 2.57 and is low risk. */
  lemma ThreeFavouritesCombo()
    ensures ComboCote([133, 143, 135]) == 257
    ensures RiskOf(Tiered(4, 7), [133, 143, 135]) == Low
  {
    assert [133, 143, 135][..2] == [133, 143];
    assert [133, 143][..1] == [133];
    assert [133][..0] == [];
    assert Product([133, 143, 135]) == 2567565;
    assert Power(100, 3) == 1000000;
  }

  /** Legs at 1.27, 1.74 and 1.81 multiply to 3.999738: the combo shows
      4.00, yet its tier is low, because the tier reads the unrounded
      product. */
  lemma RoundedOddsOnThreshold()
    ensures ComboCote([127, 174, 181]) == 400
    ensures RiskOf(Tiered(4, 7), [127, 174, 181]) == Low
  {
    assert [127, 174, 181][..2] == [127, 174];
    assert [127, 174][..1] == [127];
    assert [127][..0] == [];
    assert Product([127, 174, 181]) == 3999738;
    assert Power(100, 3) == 1000000;
  }
}
