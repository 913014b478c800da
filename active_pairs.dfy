/**
 * The active instrument list: every `(symbol, assetClass)` entry of the
 * SDK's `pairs` record whose normalised key resolves, through the
 * `PairIndex` enum, to a finite number that is not delisted; sorted by
 * symbol.
 */
module ActivePairs {
  import opened Wrappers
  import opened Text
  import opened Assets
  import opened PairKey

  /** One entry of `Object.entries(pairs)`. */
  datatype Entry = Entry(symbol: string, assetClass: AssetClass)

  /**
   * A value read from the `PairIndex` enum object: a finite number, or
   * anything else (a string from the enum's reverse mapping, `NaN`, an
   * infinity). A key that is missing reads as `undefined`.
   */
  datatype IndexValue = Finite(n: int) | NotFinite

  /** The three structures loaded from the SDK; `pairs` is in `Object.entries` order. */
  datatype Dataset = Dataset(pairs: seq<Entry>, pairIndex: map<string, IndexValue>, delisted: set<int>)

  /** An entry of the active list, and the triple handed to `onSelect`. */
  datatype Instrument = Instrument(symbol: string, assetClass: AssetClass, index: int)

  /** The index a symbol resolves to, or `None` when its entry is dropped. */
  function ResolvedIndex(ds: Dataset, symbol: string): Option<int> {
    var key := NormaliseKey(symbol);
    if key in ds.pairIndex && ds.pairIndex[key].Finite? && ds.pairIndex[key].n !in ds.delisted
    then Some(ds.pairIndex[key].n)
    else None
  }

  /** The instruments the `forEach` loop pushes for `entries`, in push order. */
  function Pushed(ds: Dataset, entries: seq<Entry>): (r: seq<Instrument>)
    ensures |r| <= |entries|
    ensures forall x :: x in r ==> ResolvedIndex(ds, x.symbol) == Some(x.index)
  {
    if entries == [] then []
    else
      var e := entries[|entries| - 1];
      Pushed(ds, entries[..|entries| - 1]) +
        match ResolvedIndex(ds, e.symbol)
        case Some(n) => [Instrument(e.symbol, e.assetClass, n)]
        case None => []
  }

  /** One more iteration of the loop pushes at most the instrument of the next entry. */
  lemma PushedExtend(ds: Dataset, entries: seq<Entry>, i: int)
    requires 0 <= i < |entries|
    ensures Pushed(ds, entries[..i + 1]) == Pushed(ds, entries[..i]) +
      match ResolvedIndex(ds, entries[i].symbol)
      case Some(n) => [Instrument(entries[i].symbol, entries[i].assetClass, n)]
      case None => []
  {
    assert entries[..i + 1][..i] == entries[..i];
  }

  predicate DistinctSymbols(entries: seq<Entry>) {
    forall i, j :: 0 <= i < j < |entries| ==> entries[i].symbol != entries[j].symbol
  }

  predicate DistinctInstrumentSymbols(s: seq<Instrument>) {
    forall i, j :: 0 <= i < j < |s| ==> s[i].symbol != s[j].symbol
  }

  predicate SymbolLe(x: Instrument, y: Instrument) {
    LexLe(x.symbol, y.symbol)
  }

  /** Non-descending by symbol: the order `result.sort` establishes. */
  predicate SortedBySymbol(s: seq<Instrument>) {
    forall i, j :: 0 <= i < j < |s| ==> SymbolLe(s[i], s[j])
  }

  /**
   * Soundness: whatever is pushed comes from an entry of `pairs` with the
   * same symbol and class, and its index is the finite, non-delisted
   * `PairIndex` value of the symbol's normalised key.
   */
  lemma {:induction false} PushedSound(ds: Dataset, entries: seq<Entry>, x: Instrument)
    requires x in Pushed(ds, entries)
    ensures Entry(x.symbol, x.assetClass) in entries
    ensures NormaliseKey(x.symbol) in ds.pairIndex
    ensures ds.pairIndex[NormaliseKey(x.symbol)] == Finite(x.index)
    ensures x.index !in ds.delisted
  {
    var init := entries[..|entries| - 1];
    if x in Pushed(ds, init) {
      PushedSound(ds, init, x);
      assert forall e :: e in init ==> e in entries;
    }
  }

  /**
   * Completeness: every entry whose key resolves to a finite,
   * non-delisted index is pushed with that index.
   */
  lemma {:induction false} PushedComplete(ds: Dataset, entries: seq<Entry>, e: Entry, n: int)
    requires e in entries
    requires NormaliseKey(e.symbol) in ds.pairIndex
    requires ds.pairIndex[NormaliseKey(e.symbol)] == Finite(n)
    requires n !in ds.delisted
    ensures Instrument(e.symbol, e.assetClass, n) in Pushed(ds, entries)
  {
    var init := entries[..|entries| - 1];
    if e != entries[|entries| - 1] {
      assert e in init by {
        var i :| 0 <= i < |entries| && entries[i] == e;
        assert i < |entries| - 1 && init[i] == e;
      }
      PushedComplete(ds, init, e, n);
    }
  }

  /**
   * An entry of `pairs` is pushed with index `n` exactly when its symbol
   * resolves to `n`.
   */
  lemma PushedIff(ds: Dataset, entries: seq<Entry>, e: Entry, n: int)
    requires e in entries
    ensures ResolvedIndex(ds, e.symbol) == Some(n) <==> Instrument(e.symbol, e.assetClass, n) in Pushed(ds, entries)
  {
    if ResolvedIndex(ds, e.symbol) == Some(n) {
      PushedComplete(ds, entries, e, n);
    }
  }

  /**
   * Only the normalised key decides an entry's fate: two entries whose
   * symbols normalise alike (`"BTC/USD"`, `"BTCUSD1"`) are pushed with the
   * same index or both dropped.
   */
  lemma SameKeySameIndex(ds: Dataset, entries: seq<Entry>, e1: Entry, e2: Entry, n: int)
    requires e1 in entries && e2 in entries
    requires NormaliseKey(e1.symbol) == NormaliseKey(e2.symbol)
    ensures Instrument(e1.symbol, e1.assetClass, n) in Pushed(ds, entries)
        <==> Instrument(e2.symbol, e2.assetClass, n) in Pushed(ds, entries)
  {
    PushedIff(ds, entries, e1, n);
    PushedIff(ds, entries, e2, n);
  }

  /** Distinct symbols in `pairs` stay distinct among the pushed instruments. */
  lemma {:induction false} PushedDistinct(ds: Dataset, entries: seq<Entry>)
    requires DistinctSymbols(entries)
    ensures DistinctInstrumentSymbols(Pushed(ds, entries))
  {
    if entries != [] {
      var init := entries[..|entries| - 1];
      var last := entries[|entries| - 1];
      assert DistinctSymbols(init);
      PushedDistinct(ds, init);
      var p := Pushed(ds, init);
      forall x | x in p
        ensures x.symbol != last.symbol
      {
        PushedSound(ds, init, x);
        var i :| 0 <= i < |init| && init[i] == Entry(x.symbol, x.assetClass);
        assert entries[i].symbol != entries[|entries| - 1].symbol;
      }
    }
  }

  /**
   * Exactly once: when the symbols of `pairs` are distinct (as keys of a
   * record are), each resolving entry appears exactly once among the pushed
   * instruments.
   */
  lemma {:induction false} PushedOnce(ds: Dataset, entries: seq<Entry>, e: Entry, n: int)
    requires DistinctSymbols(entries)
    requires e in entries
    requires ResolvedIndex(ds, e.symbol) == Some(n)
    ensures multiset(Pushed(ds, entries))[Instrument(e.symbol, e.assetClass, n)] == 1
  {
    var init := entries[..|entries| - 1];
    var last := entries[|entries| - 1];
    var x := Instrument(e.symbol, e.assetClass, n);
    assert DistinctSymbols(init);
    if e == last {
      if x in Pushed(ds, init) {
        PushedSound(ds, init, x);
        assert false;
      }
      assert multiset(Pushed(ds, init))[x] == 0;
    } else {
      assert e in init by {
        var i :| 0 <= i < |entries| && entries[i] == e;
        assert i < |entries| - 1 && init[i] == e;
      }
      PushedOnce(ds, init, e, n);
      assert last.symbol != e.symbol by {
        var i :| 0 <= i < |entries| && entries[i] == e;
        assert i != |entries| - 1;
      }
    }
  }

  /** Two sorted arrangements of the same instruments, with distinct symbols, start alike. */
  lemma SortedHeadsEqual(a: seq<Instrument>, b: seq<Instrument>)
    requires SortedBySymbol(a) && SortedBySymbol(b)
    requires multiset(a) == multiset(b)
    requires DistinctInstrumentSymbols(a)
    requires a != []
    ensures b != [] && a[0] == b[0]
  {
    assert a[0] in multiset(b);
    assert b != [] && b[0] in multiset(a);
    var k :| 0 <= k < |b| && b[k] == a[0];
    var m :| 0 <= m < |a| && a[m] == b[0];
    assert LexLe(a[0].symbol, a[m].symbol) by {
      if m == 0 { LexLeReflexive(a[0].symbol); }
    }
    assert LexLe(b[0].symbol, b[k].symbol) by {
      if k == 0 { LexLeReflexive(b[0].symbol); }
    }
    LexLeAntisymmetric(a[0].symbol, b[0].symbol);
  }

  lemma MultisetTails(a: seq<Instrument>, b: seq<Instrument>)
    requires a != [] && b != [] && a[0] == b[0]
    requires multiset(a) == multiset(b)
    ensures multiset(a[1..]) == multiset(b[1..])
  {
    assert a == [a[0]] + a[1..] && b == [b[0]] + b[1..];
    assert multiset(a) == multiset{a[0]} + multiset(a[1..]);
    assert multiset(b) == multiset{b[0]} + multiset(b[1..]);
    forall x
      ensures multiset(a[1..])[x] == multiset(b[1..])[x]
    {
      assert multiset(a)[x] == multiset{a[0]}[x] + multiset(a[1..])[x];
      assert multiset(b)[x] == multiset{b[0]}[x] + multiset(b[1..])[x];
    }
  }

  /**
   * The sorted order is fully determined: two lists sorted by symbol that
   * hold the same instruments with distinct symbols are equal, whatever
   * algorithm sorted them.
   */
  lemma {:induction false} SortedPermutationUnique(a: seq<Instrument>, b: seq<Instrument>)
    requires SortedBySymbol(a) && SortedBySymbol(b)
    requires multiset(a) == multiset(b)
    requires DistinctInstrumentSymbols(a)
    ensures a == b
    decreases |a|
  {
    if a == [] {
      assert |b| == |multiset(b)| == 0;
    } else {
      SortedHeadsEqual(a, b);
      MultisetTails(a, b);
      SortedPermutationUnique(a[1..], b[1..]);
      assert a == [a[0]] + a[1..] && b == [b[0]] + b[1..];
    }
  }

  /** Deleting the element at `k` keeps distinct symbols distinct and removes one copy of it. */
  lemma DeleteAt(p: seq<Instrument>, k: int)
    requires 0 <= k < |p|
    requires DistinctInstrumentSymbols(p)
    ensures DistinctInstrumentSymbols(p[..k] + p[k + 1..])
    ensures multiset(p[..k] + p[k + 1..]) == multiset(p) - multiset{p[k]}
    ensures forall y :: y in p[..k] + p[k + 1..] ==> y.symbol != p[k].symbol
  {
    var rest := p[..k] + p[k + 1..];
    assert p == p[..k] + [p[k]] + p[k + 1..];
    forall i, j | 0 <= i < j < |rest|
      ensures rest[i].symbol != rest[j].symbol
    {
      var i' := if i < k then i else i + 1;
      var j' := if j < k then j else j + 1;
      assert rest[i] == p[i'] && rest[j] == p[j'];
    }
    forall l | 0 <= l < |rest|
      ensures rest[l].symbol != p[k].symbol
    {
      var l' := if l < k then l else l + 1;
      assert rest[l] == p[l'];
    }
  }

  lemma MultisetDropHead(a: seq<Instrument>)
    requires a != []
    ensures multiset(a[1..]) == multiset(a) - multiset{a[0]}
  {
    assert a == [a[0]] + a[1..];
  }

  /** Rearranging instruments with distinct symbols keeps the symbols distinct. */
  lemma {:induction false} PermutationKeepsDistinct(p: seq<Instrument>, a: seq<Instrument>)
    requires DistinctInstrumentSymbols(p)
    requires multiset(a) == multiset(p)
    ensures DistinctInstrumentSymbols(a)
    decreases |a|
  {
    if a != [] {
      var x := a[0];
      assert x in multiset(p);
      var k :| 0 <= k < |p| && p[k] == x;
      var rest := p[..k] + p[k + 1..];
      DeleteAt(p, k);
      MultisetDropHead(a);
      PermutationKeepsDistinct(rest, a[1..]);
      forall j | 0 < j < |a|
        ensures a[0].symbol != a[j].symbol
      {
        assert a[j] == a[1..][j - 1];
        assert a[j] in multiset(rest);
      }
      forall i, j | 0 < i < j < |a|
        ensures a[i].symbol != a[j].symbol
      {
        assert a[i] == a[1..][i - 1] && a[j] == a[1..][j - 1];
      }
    }
  }

  /**
   * The active list is determined by the data alone: when the symbols of
   * `pairs` are distinct, every sorted arrangement of the pushed
   * instruments is the same list.
   */
  lemma ActiveListDetermined(ds: Dataset, a: seq<Instrument>, b: seq<Instrument>)
    requires DistinctSymbols(ds.pairs)
    requires SortedBySymbol(a) && multiset(a) == multiset(Pushed(ds, ds.pairs))
    requires SortedBySymbol(b) && multiset(b) == multiset(Pushed(ds, ds.pairs))
    ensures a == b
  {
    PushedDistinct(ds, ds.pairs);
    PermutationKeepsDistinct(Pushed(ds, ds.pairs), a);
    SortedPermutationUnique(a, b);
  }

  /** Exchanges `a[j - 1]` and `a[j]`. */
  method SwapDown(a: array<Instrument>, j: int)
    requires 0 < j < a.Length
    modifies a
    ensures a[..] == old(a[..])[j - 1 := old(a[j])][j := old(a[j - 1])]
    ensures multiset(a[..]) == multiset(old(a[..]))
  {
    a[j - 1], a[j] := a[j], a[j - 1];
  }

  /**
   * One step of the sort: moves `a[i]` left past every larger symbol, so
   * that `a[..i + 1]` is sorted; the rest of the array is untouched.
   */
  method InsertLast(a: array<Instrument>, i: int)
    requires 0 <= i < a.Length
    requires SortedBySymbol(a[..i])
    modifies a
    ensures SortedBySymbol(a[..i + 1])
    ensures multiset(a[..]) == multiset(old(a[..]))
    ensures a[i + 1..] == old(a[i + 1..])
  {
    var j := i;
    while j > 0 && !SymbolLe(a[j - 1], a[j])
      invariant 0 <= j <= i
      invariant forall p, q :: 0 <= p < q <= i && p != j && q != j ==> SymbolLe(a[p], a[q])
      invariant forall q :: j < q <= i ==> SymbolLe(a[j], a[q])
      invariant multiset(a[..]) == multiset(old(a[..]))
      invariant a[i + 1..] == old(a[i + 1..])
    {
      LexLeTotal(a[j - 1].symbol, a[j].symbol);
      SwapDown(a, j);
      j := j - 1;
    }
    forall p, q | 0 <= p < q <= i
      ensures SymbolLe(a[p], a[q])
    {
      if q == j && p < j - 1 {
        LexLeTransitive(a[p].symbol, a[j - 1].symbol, a[j].symbol);
      }
    }
  }

  /** `result.sort((a, b) => a.symbol.localeCompare(b.symbol))`, in place. */
  method SortBySymbol(a: array<Instrument>)
    modifies a
    ensures SortedBySymbol(a[..])
    ensures multiset(a[..]) == multiset(old(a[..]))
  {
    var i := 0;
    while i < a.Length
      invariant 0 <= i <= a.Length
      invariant SortedBySymbol(a[..i])
      invariant multiset(a[..]) == multiset(old(a[..]))
    {
      InsertLast(a, i);
      i := i + 1;
    }
    assert a[..i] == a[..];
  }

  /**
   * The `activePairs` memo: no data gives the empty list; otherwise the
   * pushed instruments, rearranged into symbol order.
   */
  method DeriveActivePairs(data: Option<Dataset>) returns (active: seq<Instrument>)
    ensures data.None? ==> active == []
    ensures data.Some? ==> multiset(active) == multiset(Pushed(data.value, data.value.pairs))
    ensures data.Some? ==> |active| <= |data.value.pairs|
    ensures SortedBySymbol(active)
  {
    if data.None? {
      return [];
    }
    var ds := data.value;
    var result: seq<Instrument> := [];
    var i := 0;
    while i < |ds.pairs|
      invariant 0 <= i <= |ds.pairs|
      invariant result == Pushed(ds, ds.pairs[..i])
    {
      var entry := ds.pairs[i];
      var enumKey := NormaliseKey(entry.symbol);
      PushedExtend(ds, ds.pairs, i);
      if enumKey in ds.pairIndex && ds.pairIndex[enumKey].Finite? && ds.pairIndex[enumKey].n !in ds.delisted {
        result := result + [Instrument(entry.symbol, entry.assetClass, ds.pairIndex[enumKey].n)];
      }
      i := i + 1;
    }
    assert ds.pairs[..i] == ds.pairs;
    var a := new Instrument[|result|](k requires 0 <= k < |result| => result[k]);
    assert a[..] == result;
    SortBySymbol(a);
    active := a[..];
    assert |multiset(active)| == |active|;
  }
}

/** The active list of small concrete datasets. */
module ActivePairsExamples {
  import opened Wrappers
  import opened Assets
  import opened PairKey
  import opened PairKeyExamples
  import opened ActivePairs

  /** One listed pair whose key resolves to index 0 is active with that index. */
  lemma SinglePairActive()
    ensures Pushed(Dataset([Entry("BTC/USD", Crypto)], map["BTCUSD" := Finite(0)], {}), [Entry("BTC/USD", Crypto)])
         == [Instrument("BTC/USD", Crypto, 0)]
  {
    NormaliseSlash();
  }

  /** The same pair with index 0 delisted is dropped. */
  lemma DelistedPairDropped()
    ensures Pushed(Dataset([Entry("BTC/USD", Crypto)], map["BTCUSD" := Finite(0)], {0}), [Entry("BTC/USD", Crypto)])
         == []
  {
    NormaliseSlash();
  }

  /** A key that reads as something other than a finite number drops the pair too. */
  lemma NonFiniteIndexDropped()
    ensures Pushed(Dataset([Entry("BTC/USD", Crypto)], map["BTCUSD" := NotFinite], {}), [Entry("BTC/USD", Crypto)])
         == []
  {
    NormaliseSlash();
  }
}
