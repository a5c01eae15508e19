/** `.sort((a, b) => b.proba - a.proba).slice(0, cap)` on favourites.
    `Array.prototype.sort` is stable, so the order is by probability, highest
    first, with equal probabilities kept in input order. */
module StableSort {
  import opened Events

  predicate SortedDesc(s: seq<Favourite>)
  {
    forall i, j | 0 <= i < j < |s| :: s[i].proba >= s[j].proba
  }

  /** The favourites of `s` whose probability is `v`, in their order in `s`. */
  function WithProba(s: seq<Favourite>, v: int): seq<Favourite>
  {
    if s == [] then []
    else (if s[0].proba == v then [s[0]] else []) + WithProba(s[1..], v)
  }

  lemma {:induction false} WithProbaMembers(s: seq<Favourite>, v: int, x: Favourite)
    ensures x in WithProba(s, v) <==> x in s && x.proba == v
  {
    if s != [] {
      WithProbaMembers(s[1..], v, x);
    }
  }

  lemma {:induction false} WithProbaAppend(s: seq<Favourite>, t: seq<Favourite>, v: int)
    ensures WithProba(s + t, v) == WithProba(s, v) + WithProba(t, v)
  {
    if s == [] {
      assert s + t == t;
    } else {
      var head := if s[0].proba == v then [s[0]] else [];
      assert (s + t)[0] == s[0] && (s + t)[1..] == s[1..] + t;
      assert WithProba(s + t, v) == head + WithProba(s[1..] + t, v);
      WithProbaAppend(s[1..], t, v);
      assert head + (WithProba(s[1..], v) + WithProba(t, v)) == (head + WithProba(s[1..], v)) + WithProba(t, v);
    }
  }

  lemma WithProbaCons(x: Favourite, s: seq<Favourite>, v: int)
    ensures WithProba([x] + s, v) == (if x.proba == v then [x] else []) + WithProba(s, v)
  {
    assert ([x] + s)[1..] == s;
  }

  /** Everything in `rest` is drawn from the tail of a sorted `s` or is an
      `x` that loses to its head, so the head bounds all of it. */
  lemma HeadBoundsRest(s: seq<Favourite>, x: Favourite, rest: seq<Favourite>)
    requires SortedDesc(s) && s != [] && x.proba < s[0].proba
    requires multiset(rest) == multiset(s[1..]) + multiset{x}
    ensures forall k | 0 <= k < |rest| :: rest[k].proba <= s[0].proba
  {
    forall k | 0 <= k < |rest| ensures rest[k].proba <= s[0].proba {
      assert rest[k] in multiset(rest);
      if rest[k] != x {
        assert rest[k] in s[1..];
        var i :| 0 <= i < |s[1..]| && s[1..][i] == rest[k];
        assert s[i + 1] == rest[k];
      }
    }
  }

  /** Inserts `x` into a sorted list in front of the first element that does
      not beat it: `x` ends up after every element with a higher probability
      and before the ones with an equal or lower one. */
  function Insert(x: Favourite, s: seq<Favourite>): (r: seq<Favourite>)
    requires SortedDesc(s)
    ensures SortedDesc(r)
    ensures multiset(r) == multiset(s) + multiset{x}
  {
    if s == [] || s[0].proba <= x.proba then [x] + s
    else
      var rest := Insert(x, s[1..]);
      HeadBoundsRest(s, x, rest);
      assert s == [s[0]] + s[1..];
      [s[0]] + rest
  }

  /** Insertion puts `x` at the head of its equal-probability group and
      leaves every other group as it was. */
  lemma {:induction false} InsertGroups(x: Favourite, s: seq<Favourite>, v: int)
    requires SortedDesc(s)
    ensures WithProba(Insert(x, s), v) == (if x.proba == v then [x] else []) + WithProba(s, v)
  {
    if s == [] || s[0].proba <= x.proba {
      WithProbaCons(x, s, v);
    } else {
      InsertGroups(x, s[1..], v);
      WithProbaCons(s[0], Insert(x, s[1..]), v);
      WithProbaCons(s[0], s[1..], v);
      assert s == [s[0]] + s[1..];
    }
  }

  /** Stable insertion sort, highest probability first. */
  function Sort(s: seq<Favourite>): (r: seq<Favourite>)
    ensures SortedDesc(r)
    ensures multiset(r) == multiset(s)
    ensures forall v :: WithProba(r, v) == WithProba(s, v)
  {
    if s == [] then []
    else
      var rest := Sort(s[1..]);
      assert s == [s[0]] + s[1..];
      assert forall v :: WithProba(Insert(s[0], rest), v) == WithProba(s, v) by {
        forall v ensures WithProba(Insert(s[0], rest), v) == WithProba(s, v) {
          InsertGroups(s[0], rest, v);
          WithProbaCons(s[0], s[1..], v);
        }
      }
      Insert(s[0], rest)
  }

  /** A list that agrees with `u` on every group and is not empty makes `u`
      non-empty too. */
  lemma NonEmptyGroups(t: seq<Favourite>, u: seq<Favourite>)
    requires t != []
    requires forall v :: WithProba(t, v) == WithProba(u, v)
    ensures u != []
  {
    WithProbaMembers(t, t[0].proba, t[0]);
    WithProbaMembers(u, t[0].proba, t[0]);
  }

  /** The head of a sorted list has the highest probability in it. */
  lemma HeadIsHighest(t: seq<Favourite>, x: Favourite)
    requires SortedDesc(t) && x in t
    ensures x.proba <= t[0].proba
  {
    var i :| 0 <= i < |t| && t[i] == x;
  }

  /** The group of the head's probability starts with the head. */
  lemma HeadLeadsItsGroup(t: seq<Favourite>)
    requires t != []
    ensures WithProba(t, t[0].proba) != [] && WithProba(t, t[0].proba)[0] == t[0]
  {
    assert t == [t[0]] + t[1..];
    WithProbaCons(t[0], t[1..], t[0].proba);
  }

  /** Whatever `t` holds at probability `v`, a list with the same groups
      holds too. */
  lemma SharedMember(t: seq<Favourite>, u: seq<Favourite>, x: Favourite)
    requires forall v :: WithProba(t, v) == WithProba(u, v)
    requires x in t
    ensures x in u
  {
    WithProbaMembers(t, x.proba, x);
    WithProbaMembers(u, x.proba, x);
  }

  /** Sorted lists that agree on every group start with the same element. */
  lemma SameHead(t: seq<Favourite>, u: seq<Favourite>)
    requires SortedDesc(t) && SortedDesc(u) && t != [] && u != []
    requires forall v :: WithProba(t, v) == WithProba(u, v)
    ensures t[0] == u[0]
  {
    assert t[0] in t && u[0] in u;
    SharedMember(t, u, t[0]);
    SharedMember(u, t, u[0]);
    HeadIsHighest(u, t[0]);
    HeadIsHighest(t, u[0]);
    HeadLeadsItsGroup(t);
    HeadLeadsItsGroup(u);
  }

  /** Lists with the same head that agree on every group still agree on
      every group once the head is dropped. */
  lemma SameTailGroups(t: seq<Favourite>, u: seq<Favourite>, v: int)
    requires t != [] && u != [] && t[0] == u[0]
    requires WithProba(t, v) == WithProba(u, v)
    ensures WithProba(t[1..], v) == WithProba(u[1..], v)
  {
    assert t == [t[0]] + t[1..] && u == [u[0]] + u[1..];
    WithProbaCons(t[0], t[1..], v);
    WithProbaCons(u[0], u[1..], v);
    var a := if t[0].proba == v then [t[0]] else [];
    assert WithProba(t[1..], v) == WithProba(t, v)[|a|..];
    assert WithProba(u[1..], v) == WithProba(u, v)[|a|..];
  }

  /** Two sorted lists that agree on every equal-probability group are the
      same list: sortedness plus stability pin the sort's result down. */
  lemma {:induction false} SortedGroupsDetermine(t: seq<Favourite>, u: seq<Favourite>)
    requires SortedDesc(t) && SortedDesc(u)
    requires forall v :: WithProba(t, v) == WithProba(u, v)
    ensures t == u
    decreases |t|
  {
    if t != [] {
      NonEmptyGroups(t, u);
    }
    if u != [] {
      NonEmptyGroups(u, t);
    }
    if t != [] && u != [] {
      SameHead(t, u);
      forall v ensures WithProba(t[1..], v) == WithProba(u[1..], v) {
        SameTailGroups(t, u, v);
      }
      SortedGroupsDetermine(t[1..], u[1..]);
      assert t == [t[0]] + t[1..] && u == [u[0]] + u[1..];
    }
  }

  /** The sort is THE stable descending order: any sorted list that keeps
      each equal-probability group of `s` in input order is `Sort(s)`. */
  lemma SortIsUnique(s: seq<Favourite>, t: seq<Favourite>)
    requires SortedDesc(t)
    requires forall v :: WithProba(t, v) == WithProba(s, v)
    ensures t == Sort(s)
  {
    SortedGroupsDetermine(t, Sort(s));
  }

  /** `.slice(0, n)`. */
  function Take(s: seq<Favourite>, n: nat): seq<Favourite>
  {
    if |s| <= n then s else s[..n]
  }

  lemma TakeSorted(s: seq<Favourite>, n: nat)
    requires SortedDesc(s)
    ensures SortedDesc(Take(s, n))
  {
  }

  /** Whatever truncating a sorted list cuts off is no higher than anything
      it keeps. */
  lemma TakeKeepsHighest(s: seq<Favourite>, n: nat)
    requires SortedDesc(s)
    ensures forall x, y | x in Take(s, n) && y in multiset(s) - multiset(Take(s, n)) :: y.proba <= x.proba
  {
    if |s| > n {
      var kept, cut := s[..n], s[n..];
      assert s == kept + cut;
      assert multiset(s) - multiset(kept) == multiset(cut);
      forall x: Favourite, y: Favourite | x in kept && y in multiset(cut) ensures y.proba <= x.proba {
        CutBelowKept(s, n, x, y);
      }
    }
  }

  lemma CutBelowKept(s: seq<Favourite>, n: nat, x: Favourite, y: Favourite)
    requires SortedDesc(s) && n <= |s|
    requires x in s[..n] && y in s[n..]
    ensures y.proba <= x.proba
  {
    var i :| 0 <= i < n && s[..n][i] == x;
    var j :| 0 <= j < |s| - n && s[n..][j] == y;
    assert s[i] == x && s[n + j] == y;
  }

  /** Within each probability, truncation keeps the earliest favourites. */
  lemma TakeKeepsEarliest(s: seq<Favourite>, n: nat, v: int)
    ensures WithProba(Take(s, n), v) <= WithProba(s, v)
  {
    if |s| > n {
      assert s == s[..n] + s[n..];
      WithProbaAppend(s[..n], s[n..], v);
    }
  }

  /** The first `n` of the stable sort of `c`: sorted, as long as allowed,
      drawn from `c`, never beaten by what was cut, and earliest-first within
      each probability. */
  lemma TopOfSort(c: seq<Favourite>, n: nat)
    ensures SortedDesc(Take(Sort(c), n))
    ensures |Take(Sort(c), n)| == if |c| <= n then |c| else n
    ensures forall f | f in Take(Sort(c), n) :: f in c
    ensures forall x, y | x in Take(Sort(c), n) && y in multiset(c) - multiset(Take(Sort(c), n)) :: y.proba <= x.proba
    ensures forall v :: WithProba(Take(Sort(c), n), v) <= WithProba(c, v)
  {
    var s := Sort(c);
    assert |s| == |c| by {
      assert |multiset(s)| == |multiset(c)|;
    }
    TakeSorted(s, n);
    TakeKeepsHighest(s, n);
    forall v ensures WithProba(Take(s, n), v) <= WithProba(c, v) {
      TakeKeepsEarliest(s, n, v);
    }
    forall f | f in Take(s, n) ensures f in c {
      assert f in s;
      assert f in multiset(s);
    }
  }
}
