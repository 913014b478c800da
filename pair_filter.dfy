/**
 * The `filteredPairs` memo: the active list narrowed by the selected asset
 * class (unless it is `'all'`) and then by the search term, matched
 * case-insensitively as a substring of the symbol (unless it is empty).
 */
module PairFilter {
  import opened Text
  import opened Assets
  import opened ActivePairs

  /** `Array.prototype.filter`: the elements that pass `keep`, in their original order. */
  function Filter(s: seq<Instrument>, keep: Instrument -> bool): (r: seq<Instrument>)
    ensures |r| <= |s|
    ensures forall x :: x in r <==> x in s && keep(x)
    ensures IsSubsequence(r, s)
  {
    if s == [] then []
    else if keep(s[0]) then [s[0]] + Filter(s[1..], keep)
    else Filter(s[1..], keep)
  }

  /** Every element that passes is kept as many times as it occurs; the others not at all. */
  lemma {:induction false} FilterMultiplicity(s: seq<Instrument>, keep: Instrument -> bool)
    ensures forall x :: multiset(Filter(s, keep))[x] == if keep(x) then multiset(s)[x] else 0
  {
    if s != [] {
      FilterMultiplicity(s[1..], keep);
      assert s == [s[0]] + s[1..];
    }
  }

  /** `a` is obtained from `b` by deleting elements, without reordering. */
  predicate IsSubsequence<T(==)>(a: seq<T>, b: seq<T>)
    decreases |b|
  {
    a == [] || (b != [] && ((a[0] == b[0] && IsSubsequence(a[1..], b[1..])) || IsSubsequence(a, b[1..])))
  }

  /** Filtering keeps a list sorted by symbol sorted. */
  lemma {:induction false} FilterSorted(s: seq<Instrument>, keep: Instrument -> bool)
    requires SortedBySymbol(s)
    ensures SortedBySymbol(Filter(s, keep))
  {
    if s != [] {
      assert SortedBySymbol(s[1..]);
      FilterSorted(s[1..], keep);
      var rest := Filter(s[1..], keep);
      forall x | x in rest
        ensures SymbolLe(s[0], x)
      {
        var k :| 0 <= k < |s[1..]| && s[1..][k] == x;
        assert s[k + 1] == x;
      }
    }
  }

  /** Filtering twice is filtering once by both conditions. */
  lemma {:induction false} FilterFilter(s: seq<Instrument>, p: Instrument -> bool, q: Instrument -> bool, both: Instrument -> bool)
    requires forall x :: both(x) == (p(x) && q(x))
    ensures Filter(Filter(s, p), q) == Filter(s, both)
  {
    if s != [] {
      FilterFilter(s[1..], p, q, both);
    }
  }

  /** Filtering depends only on which elements the condition accepts. */
  lemma {:induction false} FilterSameCondition(s: seq<Instrument>, p: Instrument -> bool, q: Instrument -> bool)
    requires forall x :: p(x) == q(x)
    ensures Filter(s, p) == Filter(s, q)
  {
    if s != [] {
      FilterSameCondition(s[1..], p, q);
    }
  }

  /** A condition every element passes keeps the whole sequence. */
  lemma {:induction false} FilterKeepsAll(s: seq<Instrument>, p: Instrument -> bool)
    requires forall x :: p(x)
    ensures Filter(s, p) == s
  {
    if s != [] {
      FilterKeepsAll(s[1..], p);
      assert s == [s[0]] + s[1..];
    }
  }

  predicate MatchesClass(filter: ClassFilter, pair: Instrument) {
    filter.All? || pair.assetClass == filter.assetClass
  }

  predicate MatchesTerm(searchTerm: string, pair: Instrument) {
    searchTerm == [] || Contains(Lower(pair.symbol), Lower(searchTerm))
  }

  /** The condition under which the component shows an active pair. */
  predicate Shown(filter: ClassFilter, searchTerm: string, pair: Instrument) {
    MatchesClass(filter, pair) && MatchesTerm(searchTerm, pair)
  }

  /** `filter((pair) => pair.assetClass === selectedFilter)`. */
  function ByClass(pairs: seq<Instrument>, c: AssetClass): (r: seq<Instrument>)
    ensures IsSubsequence(r, pairs)
    ensures forall x :: x in r <==> x in pairs && x.assetClass == c
    ensures forall x :: multiset(r)[x] == if x.assetClass == c then multiset(pairs)[x] else 0
  {
    FilterMultiplicity(pairs, (pair: Instrument) => pair.assetClass == c);
    Filter(pairs, (pair: Instrument) => pair.assetClass == c)
  }

  /** `filter((pair) => pair.symbol.toLowerCase().includes(term))`, `term` being already lowered. */
  function ByTerm(pairs: seq<Instrument>, term: string): (r: seq<Instrument>)
    ensures IsSubsequence(r, pairs)
    ensures forall x :: x in r <==> x in pairs && Contains(Lower(x.symbol), term)
    ensures forall x :: multiset(r)[x] == if Contains(Lower(x.symbol), term) then multiset(pairs)[x] else 0
  {
    FilterMultiplicity(pairs, (pair: Instrument) => Contains(Lower(pair.symbol), term));
    Filter(pairs, (pair: Instrument) => Contains(Lower(pair.symbol), term))
  }

  /** `filteredPairs`: the class filter unless it is `'all'`, then the term filter unless the term is empty. */
  function FilteredPairs(active: seq<Instrument>, filter: ClassFilter, searchTerm: string): seq<Instrument> {
    var byClass := if filter != All then ByClass(active, filter.assetClass) else active;
    if searchTerm != [] then ByTerm(byClass, Lower(searchTerm)) else byClass
  }

  /**
   * The two-stage `filteredPairs` keeps exactly the active pairs that are
   * shown, in their active-list order: it is one pass of `Filter` with the
   * combined condition.
   */
  lemma FilteredPairsShown(active: seq<Instrument>, filter: ClassFilter, searchTerm: string)
    ensures IsSubsequence(FilteredPairs(active, filter, searchTerm), active)
    ensures forall x :: x in FilteredPairs(active, filter, searchTerm) <==> x in active && Shown(filter, searchTerm, x)
    ensures FilteredPairs(active, filter, searchTerm) == Filter(active, (x: Instrument) => Shown(filter, searchTerm, x))
  {
    var p := (pair: Instrument) => MatchesClass(filter, pair);
    var q := (pair: Instrument) => MatchesTerm(searchTerm, pair);
    var byClass := if filter != All then ByClass(active, filter.assetClass) else active;
    if filter != All {
      FilterSameCondition(active, (pair: Instrument) => pair.assetClass == filter.assetClass, p);
    } else {
      FilterKeepsAll(active, p);
    }
    if searchTerm != [] {
      FilterSameCondition(byClass, (pair: Instrument) => Contains(Lower(pair.symbol), Lower(searchTerm)), q);
    } else {
      FilterKeepsAll(byClass, q);
    }
    FilterFilter(active, p, q, (x: Instrument) => Shown(filter, searchTerm, x));
  }

  /** The two filters commute: the term filter first gives the same list. */
  lemma FiltersCommute(active: seq<Instrument>, c: AssetClass, term: string)
    ensures ByTerm(ByClass(active, c), term) == ByClass(ByTerm(active, term), c)
  {
    var p := (pair: Instrument) => pair.assetClass == c;
    var q := (pair: Instrument) => Contains(Lower(pair.symbol), term);
    FilterFilter(active, p, q, (x: Instrument) => p(x) && q(x));
    FilterFilter(active, q, p, (x: Instrument) => p(x) && q(x));
  }

  /** With `'all'` and an empty term nothing is filtered out. */
  lemma ShowAll(active: seq<Instrument>)
    ensures FilteredPairs(active, All, "") == active
  {
  }

  /** A search for `"btc"`, in any letter case, finds `"BTC/USD"`. */
  lemma SearchIgnoresCase(term: string, c: AssetClass, n: int)
    requires Lower(term) == "btc"
    ensures Shown(All, term, Instrument("BTC/USD", c, n))
  {
    assert Lower("BTC/USD") == "btc/usd";
    assert IsPrefix("btc", "btc/usd");
  }
}
