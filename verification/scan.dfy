/** The per-event scan shared by the three favourite selectors: walk a list of
    keys in order and keep the strictly largest probability seen so far,
    starting from 0, together with the name of the team that owns it. */
module Scan {
  import opened JsObject
  import opened Events

  /** The scan's running state: whether any key was taken (`best` in the
      football selector), the best probability and its team name. */
  datatype Best = Best(found: bool, proba: int, team: string)

  /** `probs[k] || 0`: a missing probability counts as zero. */
  function ProbOf(probs: Object<int>, k: string): int
  {
    match Get(probs, k)
    case None => 0
    case Some(v) => v
  }

  /** One step of the scan: a key replaces the best only when its probability
      is strictly larger, so ties stay with the earlier key. */
  function Step(e: Event, probs: Object<int>, b: Best, k: string): Best
  {
    if ProbOf(probs, k) > b.proba then Best(true, ProbOf(probs, k), TeamName(e, k))
    else b
  }

  /** The scan over `ks`, continuing from state `b`. The result is `b` when
      no key beats it; otherwise it holds the largest probability, taken from
      the FIRST key that reaches it. */
  function ScanFrom(e: Event, probs: Object<int>, ks: seq<string>, b: Best): (r: Best)
    ensures r.proba >= b.proba
    ensures forall i | 0 <= i < |ks| :: ProbOf(probs, ks[i]) <= r.proba
    ensures (forall i | 0 <= i < |ks| :: ProbOf(probs, ks[i]) <= b.proba) ==> r == b
    ensures (exists i | 0 <= i < |ks| :: ProbOf(probs, ks[i]) > b.proba) ==>
      r.found &&
      exists i | 0 <= i < |ks| ::
        && ProbOf(probs, ks[i]) == r.proba
        && r.team == TeamName(e, ks[i])
        && forall j | 0 <= j < i :: ProbOf(probs, ks[j]) < r.proba
    decreases |ks|
  {
    if ks == [] then b
    else ScanFrom(e, probs, ks[1..], Step(e, probs, b, ks[0]))
  }

  /** The scan from its initial state `null, 0, ''`. It yields the maximum
      of 0 and the keys' probabilities and, when some key is positive, the
      team of the first key reaching that maximum; otherwise nothing is
      found. So the football selector's `best &&` test adds nothing to its
      threshold test: a positive best probability always comes with `found`. */
  function ScanBest(e: Event, probs: Object<int>, ks: seq<string>): (r: Best)
    ensures r.proba >= 0
    ensures forall i | 0 <= i < |ks| :: ProbOf(probs, ks[i]) <= r.proba
    ensures r.found <==> exists i | 0 <= i < |ks| :: ProbOf(probs, ks[i]) > 0
    ensures r.found <==> r.proba > 0
    ensures !r.found ==> r == Best(false, 0, "")
    ensures r.found ==> exists i | 0 <= i < |ks| ::
      && ProbOf(probs, ks[i]) == r.proba
      && r.team == TeamName(e, ks[i])
      && forall j | 0 <= j < i :: ProbOf(probs, ks[j]) < r.proba
  {
    ScanFrom(e, probs, ks, Best(false, 0, ""))
  }

  /** The scan result is pinned down by the first key with the largest
      positive probability: it is found, with that probability and the
      name of that key's team. */
  lemma ScanBestIsFirstMax(e: Event, probs: Object<int>, ks: seq<string>, i: nat)
    requires i < |ks| && ProbOf(probs, ks[i]) > 0
    requires forall j | 0 <= j < |ks| :: ProbOf(probs, ks[j]) <= ProbOf(probs, ks[i])
    requires forall j | 0 <= j < i :: ProbOf(probs, ks[j]) < ProbOf(probs, ks[i])
    ensures ScanBest(e, probs, ks) == Best(true, ProbOf(probs, ks[i]), TeamName(e, ks[i]))
  {
    var r := ScanBest(e, probs, ks);
    var k :| 0 <= k < |ks|
      && ProbOf(probs, ks[k]) == r.proba
      && r.team == TeamName(e, ks[k])
      && forall j | 0 <= j < k :: ProbOf(probs, ks[j]) < r.proba;
    assert k == i;
  }
}
