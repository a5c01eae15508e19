# probet combo builder, in Dafny

This project models the core of the probet betting-tips API: `buildCombos` and
`probaToCote` in `public/api/data.js`. Given lists of football, NBA and NHL
fixtures, `buildCombos` does three things:

- It picks favourites. Three selectors (football, NBA, Champions League) keep
  the scheduled events that carry win probabilities. Each scans one event for
  its most likely outcome and drops it below a threshold (55%, 55%, 60%). It
  then sorts the survivors by probability, highest first, with a stable sort,
  and keeps the first 4, 3 or 3.
- It builds combos. Five rules (football, NBA, Champions League, NHL and a
  mixed one) each emit one combo when they have enough legs. The combos are
  appended in that order.
- It prices them. A leg's odds are `probaToCote` of its probability, or fixed
  (1.80 and 1.75 for the hockey legs). A combo's odds are the product of the
  leg odds, rounded once to two decimals. Its risk tier comes from a threshold
  table on the unrounded product (football, NBA) or is fixed (UCL low, NHL
  medium, mixed high).

Representation:

- Probabilities are integers in tenths of a percent (75.0% is `750`).
- Odds are integers in hundredths (1.33 is `133`).
- `toFixed(2)` becomes exact round-half-up division (`Odds.RoundDiv`).
- JavaScript objects (`teams`, `score`, `win_probability`) are association
  lists in key order (`JsObject`). `Object.keys` is their order, and `o[k]` is
  the first entry named `k`.

Modules, in pipeline order:

| file | module | contents |
|---|---|---|
| jsobject.dfy | `JsObject` | `Option`, objects as association lists, `Keys`, `Get` |
| events.dfy | `Events` | `Event`, `Team`, `Favourite`, team-name resolution and the "A vs B" label |
| odds.dfy | `Odds` | `probaToCote`, the rounded product of leg odds, the risk table |
| scan.dfy | `Scan` | the per-event strict-maximum scan |
| sorting.dfy | `StableSort` | stable descending insertion sort and `slice` |
| favourites.dfy | `Favourites` | the three selectors and the upcoming hockey games |
| combos.dfy | `Combos` | the five rules and `buildCombos` |
| facts.dfy | `ComboFacts` | consequences: leg order, odds caps, unreachable tiers, NHL odds |
| examples_concrete.dfy | `Examples` | fixture-based instances |

Three behaviours of the code are worth spelling out:

- The NBA and Champions League selectors scan the keys of `win_probability`
  itself (`data.js:68`, `:130`), so a `draw` key can win there. It is then
  named by its raw key, because `teams.draw` does not exist. Only the football
  selector, which scans the `score` keys (`data.js:48`), never sees it. See
  `Examples.DrawWinsChampionsLeagueScan` and
  `Examples.DrawIgnoredByFootballScan`.
- The filters only test `win_probability` for truthiness. An empty object `{}`
  is truthy, so such an event passes the filter and yields no favourite
  (`Favourites.Eligible`).
- A favourite's team is `teams[t]?.name` when that is a non-empty string, so
  the PSG fixture's favourite is "Paris Saint-Germain", not the key `PSG`
  (`Events.TeamName`, `Examples.PsgIsTheFavourite`).

## Model

| member | source | states |
|---|---|---|
| Odds.ProbaToCote | public/api/data.js:22-25 | 2.00 when the probability is absent, zero or negative; otherwise the hundredths value nearest 100/p (in tenths: 100000/p), halves rounded up |
| Odds.RoundDiv | public/api/data.js:24 | two-decimal rounding as exact division: the result is within half a unit of n/d, halves upwards |
| Odds.ProbaToCoteAntitone | public/api/data.js:22-25 | a higher probability never gets longer odds |
| Odds.ProbaToCoteAtLeastEven | public/api/data.js:22-25 | a probability in (0%, 100%] pays at least 1.00 |
| Odds.ComboCote | public/api/data.js:95-100 | combined odds are the product of the leg odds, rounded once, at the end, to two decimals |
| Odds.ComboCoteSingle | public/api/data.js:95-100 | one leg's odds pass through the product-and-round unchanged |
| Odds.ComboCoteEvenLeg | public/api/data.js:95-100 | a leg at 1.00 leaves the combined odds unchanged, whatever the others are |
| Odds.RiskOf | public/api/data.js:100 | tiered rules: low exactly when the unrounded product is under the low threshold, high exactly when it reaches the medium one; fixed rules give their tier |
| Odds.TieredRiskMatchesRoundedOdds | public/api/data.js:121 | the tier read off the rounded odds agrees with the tier of the unrounded product except when the rounded odds sit exactly on a threshold |
| JsObject.Get | public/api/data.js:71 | property access: nothing exactly when no key matches, otherwise the value of the first property with that key |
| Events.TeamName | public/api/data.js:55 | `teams[k]?.name || k`: the name of the first entry named `k` when it is present and non-empty, otherwise the key itself; the key too when there is no entry |
| Events.Side | public/api/data.js:161-163 | one side of the match text (and the NHL bet): the name of the first entry with the i-th key, or "undefined" when it has none; past the last key, "undefined" when no property is named so |
| Events.MatchLabel | public/api/data.js:88 | "A vs B" from the names of two distinct first keys; "A vs undefined" with one team; "undefined vs undefined" for an event without teams |
| Scan.ScanFrom | public/api/data.js:50-57 | the strict-`>` scan from any state: unchanged when no key beats it, otherwise the largest probability from the first key reaching it, with that key's team name |
| Scan.ScanBest | public/api/data.js:68-75 | from `0, ''`: at least every key's probability; found exactly when some key is positive; then the team of the first key reaching the maximum |
| Scan.ScanBestIsFirstMax | public/api/data.js:130-132 | the first key with the largest positive probability determines the scan result completely |
| Favourites.FavouriteOf | public/api/data.js:45-58 | an event has a favourite exactly when it is scheduled, has `win_probability` (UCL: is tagged UCL or Champions League) and a scanned key reaches the threshold; the favourite is the first maximal key with its team name |
| Favourites.CandidatesAreFavourites | public/api/data.js:59-60 | after `filter(Boolean)` the candidates are exactly the favourites of the events, at most one per event |
| Favourites.CandidatesInOrder | public/api/data.js:78 | the candidates of earlier events precede those of later ones |
| Favourites.Select | public/api/data.js:61-62 | sorted by probability, highest first; length min(cap, candidates); nothing cut beats anything kept; within a probability the earliest events are kept |
| Favourites.SelectedAreFavourites | public/api/data.js:127-134 | every selected favourite is its scheduled event's best outcome at or above the threshold, and UCL ones come from Champions League events |
| Favourites.ScheduledOnly | public/api/data.js:157 | keeps exactly the scheduled games |
| Favourites.ScheduledOnlyAppend | public/api/data.js:157 | the filter distributes over concatenation, so it keeps input order and repetitions |
| Favourites.UpcomingLeads | public/api/data.js:157 | a scheduled game at the front of the list is the first upcoming game, the one the mixed combo bets on |
| Favourites.AllScheduledKept | public/api/data.js:157 | when every game is scheduled, the filter keeps all of them in order |
| Favourites.Upcoming | public/api/data.js:157 | the first three scheduled hockey games, in input order |
| StableSort.Insert | public/api/data.js:79 | inserting into a sorted list keeps it sorted and adds exactly one element |
| StableSort.Sort | public/api/data.js:61 | the result is sorted highest first, a permutation of the input, and keeps every equal-probability group in input order |
| StableSort.SortIsUnique | public/api/data.js:134 | any sorted list that keeps each group in input order is the sort's result, so the stable order is fully determined |
| StableSort.TakeKeepsHighest | public/api/data.js:62 | `slice(0, n)` of a sorted list cuts nothing higher than what it keeps |
| StableSort.TakeKeepsEarliest | public/api/data.js:80 | `slice(0, n)` keeps a prefix of each equal-probability group |
| StableSort.TopOfSort | public/api/data.js:134 | the first n of the stable sort: sorted, min(n, size) long, drawn from the input, cutting nothing higher, earliest first in each group |
| Combos.RoundPercent | public/api/data.js:92 | `Math.round` of a percentage given in tenths: within half a percent, halves upwards |
| Combos.FootLeague | public/api/data.js:87 | `league || 'FOOT'`: the league tag when it is a non-empty string, FOOT otherwise |
| Combos.FootballCombo | public/api/data.js:83-103 | emitted exactly with at least 3 favourites; one leg per favourite for the first 4, league defaulting to FOOT; odds and tier per the football table |
| Combos.NbaCombo | public/api/data.js:106-124 | emitted exactly with at least 2 favourites; first 3 legs, league NBA; NBA table |
| Combos.UclCombo | public/api/data.js:136-154 | emitted exactly with at least 2 favourites; one leg each, league UCL; fixed low tier |
| Combos.NhlCombo | public/api/data.js:157-174 | emitted exactly with at least 2 games; each leg is a hockey leg in league NHL betting on the first-listed team at 1.80 and 55%, whatever the event says; fixed medium tier |
| Combos.MixPicks | public/api/data.js:177-180 | one leg per non-empty pool, football then NBA then hockey |
| Combos.MixPicksLegs | public/api/data.js:178-180 | the football and NBA legs bet on the pools' top favourites (league FOOT and NBA); the hockey leg is the fixed 1.75 home-win bet |
| Combos.MixCombo | public/api/data.js:182-191 | emitted exactly when at least two mixed legs exist; fixed high tier |
| Combos.EmittedInOrder | public/api/data.js:96 | appending the rules' combos in rule order keeps the output in rule order, each combo coming from the rule of its sport |
| Combos.EmittedSports | public/api/data.js:193 | a sport appears in the output exactly when its rule fired |
| Combos.Collect | public/api/data.js:83-191 | the five pushes in order: output in rule order, each combo one of the rules' combos, each sport present exactly when its rule fired |
| Combos.Assemble | public/api/data.js:82-193 | the rules over given favourites: rule order, every combo well built and one of the rules' combos, each rule present exactly when its minimum is met |
| Combos.BuildCombos | public/api/data.js:40-194 | the whole pipeline: the same, with the minimums stated on the selected favourites and upcoming games |
| ComboFacts.FootballLegsAscending | public/api/data.js:84-91 | football legs go from the shortest odds to the longest |
| ComboFacts.NbaLegsAscending | public/api/data.js:107-112 | so do NBA legs |
| ComboFacts.UclLegsAscending | public/api/data.js:137-142 | and Champions League legs |
| ComboFacts.FavouriteOddsBound | public/api/data.js:58 | a favourite at or above 55% pays at most 1.82; at or above 60%, at most 1.67 |
| ComboFacts.ProductBound | public/api/data.js:95 | a product of k odds, each between 0 and m, is between 0 and m^k |
| ComboFacts.ThreeLegFootballNotHigh | public/api/data.js:100 | a three-leg football combo is never high risk |
| ComboFacts.TwoLegNbaNotHigh | public/api/data.js:121 | a two-leg NBA combo is never high risk |
| ComboFacts.NhlComboOdds | public/api/data.js:164-171 | the NHL combo pays 3.24 with two games and 5.83 with three, at medium risk |
| ComboFacts.HockeyOnlyNight | public/api/data.js:157-191 | three scheduled hockey games and nothing else yield exactly one combo, the NHL one at 5.83, medium risk |
| Examples.FixtureOdds | public/api/data.js:225-227 | the fixtures' 75.0%, 70.1% and 74.2% pay 1.33, 1.43 and 1.35 |
| Examples.PsgIsTheFavourite | public/api/data.js:225 | PSG–Le Havre yields the favourite "Paris Saint-Germain" at 75.0% |
| Examples.DrawWinsChampionsLeagueScan | public/api/data.js:130-133 | in a Champions League match whose draw is likeliest, the favourite is "draw" |
| Examples.DrawIgnoredByFootballScan | public/api/data.js:48 | the football selector never sees the draw key |
| Examples.ThreeFavouritesCombo | public/api/data.js:95-100 | legs at 1.33, 1.43 and 1.35 make 2.57, low risk |
| Examples.RoundedOddsOnThreshold | public/api/data.js:100 | legs at 1.27, 1.74 and 1.81 show combined odds 4.00 yet are low risk, because the tier reads the unrounded product |

## Left out

- `fetchJSON` (`data.js:8-19`) is network and stream I/O.
- The exported handler (`data.js:197-261`) is left out: CORS and cache headers, `Promise.allSettled`, the JSON envelope and the 500 error path. Its fixture data appears only as example values.
- `formatDate` and every date or description string: `start_time`, `date`, `desc`, `new Date()`, `toLocaleDateString`. They depend on the clock and the locale.
- Display-only fields are left out: `icon`, `label`, `titre`, `nom` and `probaLabel`.
- Floating point is not modelled. Odds and probabilities are exact integers, so IEEE-754 ties in `toFixed(2)` and probabilities finer than a tenth of a percent are outside the model.
- Events always have `teams` and `score`. Without `teams` the code throws a `TypeError` wherever it reads a team name or builds a match text (`data.js:55`, `:88`). Without `score` it throws only in the football selector (`data.js:48`), for a scheduled football game that has probabilities. Both throws end in the handler's 500 path, which is left out. NBA and hockey games never read `score`, so a missing one behaves like the empty `score` of the model.
- `Team(None)` stands for both a missing `name` and `name: null`. A template string prints the first as "undefined" and the second as "null"; `Events.Side` gives "undefined" for both.
- Probabilities are integers. Non-numeric values, `NaN` and strings are not modelled.
- Key order is the association list's order. `Object.keys` puts integer-like keys first, and that reordering is not modelled.
- Combos.UclCombo: well-builtness is promised only for at most three favourites, because the selector never hands it more.
- Combos.NhlCombo: well-builtness is promised only for at most three games, because `slice(0, 3)` never hands it more.
- ComboFacts.NhlComboOdds: stated for two and three games only, the only counts that reach the rule.
