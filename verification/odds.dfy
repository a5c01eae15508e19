/** Fair odds of a probability, combined odds of a combo and its risk tier.
    Odds are integers in hundredths (1.33 is 133); probabilities are in tenths
    of a percent. Rounding to two decimals is exact round-half-up. */
module Odds {
  import opened JsObject

  /** `n / d` rounded to the nearest integer, halves upwards. */
  function RoundDiv(n: int, d: int): (q: int)
    requires d > 0
    ensures 2 * q * d - d <= 2 * n < 2 * q * d + d
  {
    var q := (2 * n + d) / (2 * d);
    assert 2 * d * q <= 2 * n + d < 2 * d * q + 2 * d;
    q
  }

  /** `probaToCote`: 2.00 when the probability is absent, zero or negative;
      otherwise 100 / p rounded to two decimals, i.e. the hundredths value
      nearest to 100000 / p with halves rounded up. */
  function ProbaToCote(p: Option<int>): (c: int)
    ensures p.None? ==> c == 200
    ensures p.Some? && p.value <= 0 ==> c == 200
    ensures p.Some? && p.value > 0 ==>
      2 * c * p.value - p.value <= 200000 < 2 * c * p.value + p.value
  {
    match p
    case None => 200
    case Some(v) => if v <= 0 then 200 else RoundDiv(100000, v)
  }

  /** Lower probabilities never get shorter odds. */
  lemma {:induction false} ProbaToCoteAntitone(p: int, q: int)
    requires 0 < p <= q
    ensures ProbaToCote(Some(q)) <= ProbaToCote(Some(p))
  {
    var cp, cq := ProbaToCote(Some(p)), ProbaToCote(Some(q));
    var hp, hq := 2 * cp + 1, 2 * cq - 1;
    assert 200000 < hp * p;
    assert hq * q <= 200000;
    if cq > cp {
      assert 0 < hp <= hq;
      MulLe(hp, hq, p);
      MulLe(p, q, hq);
      assert false;
    }
  }

  /** A probability between 0.1% and 100% has odds of at least 1.00. */
  lemma {:induction false} ProbaToCoteAtLeastEven(p: int)
    requires 0 < p <= 1000
    ensures ProbaToCote(Some(p)) >= 100
  {
    ProbaToCoteAntitone(p, 1000);
  }

  /** `m` to the power `k`; `Power(100, k)` is the scale of a product of k
      hundredths values. */
  function Power(m: int, k: nat): (d: int)
    ensures m >= 1 ==> d >= 1
  {
    if k == 0 then 1 else Power(m, k - 1) * m
  }

  /** Product of leg odds, each in hundredths: the reduce starting from 1. */
  function Product(cs: seq<int>): int
  {
    if cs == [] then 1 else Product(cs[..|cs| - 1]) * cs[|cs| - 1]
  }

  /** `parseFloat(totalCote.toFixed(2))` in hundredths: the product of the
      leg odds rounded once, at the end, to two decimals. */
  function ComboCote(cs: seq<int>): (c: int)
    ensures 2 * c * Power(100, |cs|) - Power(100, |cs|) <= 200 * Product(cs) < 2 * c * Power(100, |cs|) + Power(100, |cs|)
  {
    RoundDiv(100 * Product(cs), Power(100, |cs|))
  }

  /** A single leg's odds pass through unchanged. */
  lemma ComboCoteSingle(c: int)
    ensures ComboCote([c]) == c
  {
    assert [c][..0] == [];
    assert Product([c]) == c;
    assert Power(100, 1) == 100;
    var r := ComboCote([c]);
    assert 200 * r - 100 <= 200 * c < 200 * r + 100;
  }

  /** Appending a leg at odds 1.00 changes nothing. */
  lemma {:induction false} ComboCoteEvenLeg(cs: seq<int>)
    ensures ComboCote(cs + [100]) == ComboCote(cs)
  {
    var ds := cs + [100];
    assert ds[..|ds| - 1] == cs;
    var d := Power(100, |cs|);
    var n := 100 * Product(cs);
    assert Product(ds) == Product(cs) * 100;
    assert Power(100, |ds|) == 100 * d;
    assert 100 * Product(ds) == 100 * n;
    DivCancel(2 * n + d, 2 * d, 100);
    assert 100 * (2 * n + d) == 2 * (100 * n) + 100 * d;
    assert 100 * (2 * d) == 2 * (100 * d);
  }

  lemma MulLe(a: int, b: int, k: int)
    requires a <= b && k >= 0
    ensures a * k <= b * k
  {
  }

  lemma DivUnique(a: int, b: int, q: int, r: int)
    requires b > 0 && 0 <= r < b && a == q * b + r
    ensures a / b == q
  {
    var q', r' := a / b, a % b;
    assert a == q' * b + r' && 0 <= r' < b;
    assert (q - q') * b == r' - r;
    if q > q' {
      MulLe(1, q - q', b);
    } else if q < q' {
      MulLe(1, q' - q, b);
    }
  }

  lemma DivCancel(a: int, b: int, k: int)
    requires b > 0 && k > 0
    ensures (k * a) / (k * b) == a / b
  {
    var q, r := a / b, a % b;
    assert a == q * b + r && 0 <= r < b;
    assert k * a == q * (k * b) + k * r;
    MulLe(r, b - 1, k);
    assert k * (b - 1) == k * b - k;
    DivUnique(k * a, k * b, q, k * r);
  }

  datatype Risk = Low | Med | High

  /** How a combo's tier is chosen: from thresholds on its odds, or fixed. */
  datatype RiskRule = Tiered(lowBelow: int, medBelow: int) | Fixed(tier: Risk)

  /** The risk tier of a combo with leg odds `cs`. Tiered rules compare the
      UNROUNDED product of the odds against whole-number thresholds. */
  function RiskOf(rule: RiskRule, cs: seq<int>): (r: Risk)
    ensures rule.Fixed? ==> r == rule.tier
    ensures rule.Tiered? ==>
      (r == Low <==> Product(cs) < rule.lowBelow * Power(100, |cs|))
    ensures rule.Tiered? && rule.lowBelow <= rule.medBelow ==>
      (r == High <==> Product(cs) >= rule.medBelow * Power(100, |cs|))
  {
    match rule
    case Fixed(t) => t
    case Tiered(low, med) =>
      var scale := Power(100, |cs|);
      if Product(cs) < low * scale then Low
      else if Product(cs) < med * scale then Med
      else High
  }

  /** Rounded odds strictly below a whole threshold `t` mean the unrounded
      product of the `|cs|` leg odds is below it too. */
  lemma RoundedBelow(c: int, d: int, p: int, t: int)
    requires d >= 1 && 2 * c * d - d <= 200 * p < 2 * c * d + d
    requires c < 100 * t
    ensures p < t * d
  {
    MulLe(2 * c + 1, 200 * t - 1, d);
    assert (2 * c + 1) * d == 2 * c * d + d;
    assert (200 * t - 1) * d == 200 * (t * d) - d;
  }

  /** Rounded odds strictly above a whole threshold `t` mean the unrounded
      product is at or above it. */
  lemma RoundedAbove(c: int, d: int, p: int, t: int)
    requires d >= 1 && 2 * c * d - d <= 200 * p < 2 * c * d + d
    requires c > 100 * t
    ensures p >= t * d
  {
    MulLe(200 * t + 1, 2 * c - 1, d);
    assert (2 * c - 1) * d == 2 * c * d - d;
    assert (200 * t + 1) * d == 200 * (t * d) + d;
  }

  /** The tier read off the rounded odds agrees with the tier of the unrounded
      product, except when the rounded odds sit exactly on a threshold. */
  lemma {:induction false} TieredRiskMatchesRoundedOdds(low: int, med: int, cs: seq<int>)
    requires low <= med
    ensures ComboCote(cs) < 100 * low ==> RiskOf(Tiered(low, med), cs) == Low
    ensures 100 * low < ComboCote(cs) < 100 * med ==> RiskOf(Tiered(low, med), cs) == Med
    ensures ComboCote(cs) > 100 * med ==> RiskOf(Tiered(low, med), cs) == High
  {
    var c, d, p := ComboCote(cs), Power(100, |cs|), Product(cs);
    if c < 100 * low {
      RoundedBelow(c, d, p, low);
    }
    if c > 100 * low {
      RoundedAbove(c, d, p, low);
    }
    if c < 100 * med {
      RoundedBelow(c, d, p, med);
    }
    if c > 100 * med {
      RoundedAbove(c, d, p, med);
    }
  }
}
