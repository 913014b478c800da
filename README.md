# Symbol search: a verified model

This project models the data logic of the instrument search component
`SymbolSearch` in a small trading-showcase web application. The component
loads three structures from a trading SDK:

- `pairs`: symbol to asset class;
- `PairIndex`: normalised key to numeric pair index;
- `delistedPairIxs`: the delisted indices.

From these it derives the *active list*. That is every pair whose
normalised symbol key resolves to a finite index that is not delisted,
sorted by symbol. The active list is then narrowed by an asset-class filter
and a case-insensitive search term. Picking a row hands
`(symbol, assetClass, index)` to the parent.

Modules:

- `Text`: ASCII digits, ASCII lower-casing, substring search (`includes`) and
  the lexicographic order used for sorting, with its order laws.
- `PairKey`: the key normalisation `replace(/\//g,'')`,
  `replace(/_/g,'')`, `replace(/\d+$/,'')`. `PairKeyExamples` holds worked
  symbols.
- `Assets`: asset classes, the filter buttons and `getAssetClassColor`.
- `ActivePairs`: the dataset, the `forEach`/`push` loop, the in-place
  sort of an `array`, and soundness, completeness, exactly-once and
  determinism lemmas. `ActivePairsExamples` holds small datasets.
- `PairFilter`: `Array.prototype.filter` and the two-stage
  `filteredPairs` computation, proved equal to a single-pass reference
  filter.
- `Component`: the class `SymbolSearch`. Its fields are the six `useState`
  hooks, and each handler is a method that makes the same setter calls.

Two details follow the code as written:

- An index is accepted when the value read is a finite number that is
  not delisted. Numbers are modelled as `int`; see "Left out".
- The class filter is applied before the term filter.

## Model

| member | source | states |
|---|---|---|
| Text.LowerChar | src/components/SymbolSearch.tsx:79-80 | lowering maps `A`–`Z` to `a`–`z`, fixes every other character, and never returns an upper-case letter |
| Text.Lower | src/components/SymbolSearch.tsx:79-80 | `toLowerCase` keeps the length and lowers each character in place |
| Text.LowerIdempotent | src/components/SymbolSearch.tsx:79-80 | lowering a lowered string changes nothing |
| Text.ContainsAt | src/components/SymbolSearch.tsx:80 | `Text.Contains`, the model of `includes`, holds exactly when the needle occurs at some position of the haystack |
| Text.LexLeReflexive | src/components/SymbolSearch.tsx:68 | `Text.LexLe`, the code-point order standing in for the `localeCompare` comparator, orders every symbol with itself |
| Text.LexLeTotal | src/components/SymbolSearch.tsx:68 | any two symbols are comparable |
| Text.LexLeAntisymmetric | src/components/SymbolSearch.tsx:68 | two symbols ordered both ways are equal |
| Text.LexLeTransitive | src/components/SymbolSearch.tsx:68 | the comparator is transitive |
| PairKey.Remove | src/components/SymbolSearch.tsx:60 | a global `replace` with `''` leaves no occurrence of the character and never lengthens the string |
| PairKey.RemoveMembers | src/components/SymbolSearch.tsx:60 | removal deletes exactly the given character: every other character survives |
| PairKey.RemoveAbsent | src/components/SymbolSearch.tsx:60 | removing a character that does not occur is the identity |
| PairKey.RemoveSeparators | src/components/SymbolSearch.tsx:60 | the first two replacements leave no `/` and no `_`, and every other character of the symbol survives |
| PairKey.StripTrailingDigits | src/components/SymbolSearch.tsx:60 | `/\d+$/` removal leaves a prefix that is followed only by digits and does not itself end in a digit |
| PairKey.StripTrailingDigitsUnique | src/components/SymbolSearch.tsx:60 | those three properties single out the result: exactly the maximal trailing digit run is removed |
| PairKey.NormaliseKey | src/components/SymbolSearch.tsx:60 | the key has no `/`, no `_`, does not end in a digit, and is the separator-free symbol minus a trailing run of digits |
| PairKey.NormaliseKeyIdempotent | src/components/SymbolSearch.tsx:60 | normalising a normalised key returns it unchanged |
| PairKey.NormaliseKeepsInnerDigits | src/components/SymbolSearch.tsx:60 | once separators are gone, a symbol not ending in a digit keeps all its digits |
| PairKeyExamples.NormaliseSlash | src/components/SymbolSearch.tsx:60 | `"BTC/USD"` and `"BTCUSD"` both give `"BTCUSD"` |
| PairKeyExamples.NormaliseSlashAndDigit | src/components/SymbolSearch.tsx:60 | `"BTC/USD1"` gives `"BTCUSD"` |
| PairKeyExamples.NormaliseUnderscore | src/components/SymbolSearch.tsx:60 | `"ETH_USD"` gives `"ETHUSD"` |
| PairKeyExamples.NormaliseJoinedDigits | src/components/SymbolSearch.tsx:60 | `"A_1/2"` gives `"A"`: digits separated by `_` and `/` become one trailing run |
| PairKeyExamples.NormaliseInnerDigit | src/components/SymbolSearch.tsx:60 | a digit followed by a letter is kept: `"A1B"` gives `"A1B"` |
| PairKeyExamples.SeparatorsGoFirst | src/components/SymbolSearch.tsx:60 | the replacement order matters: stripping digits first would give a different key for `"A_1/2"` |
| Assets.ClassName | src/components/SymbolSearch.tsx:4 | the class string is one of the five declared names exactly for the five declared classes |
| Assets.ClassNameInjective | src/components/SymbolSearch.tsx:75 | two asset classes are equal exactly when their strings are, so `==` on classes is `===` on class strings |
| Assets.AssetClassColor | src/components/SymbolSearch.tsx:186-201 | every class gets a `#rrggbb` colour; the neutral gray `#6b7280` is returned exactly for class strings outside the five declared names |
| Assets.ColorsDistinct | src/components/SymbolSearch.tsx:187-197 | the five declared classes have five different colours |
| ActivePairs.Pushed | src/components/SymbolSearch.tsx:59-66 | the instruments the loop pushes: at most one per entry, each carrying the index its symbol resolves to |
| ActivePairs.PushedExtend | src/components/SymbolSearch.tsx:59-66 | one iteration pushes the next entry with its resolved index, or nothing when it does not resolve |
| ActivePairs.PushedSound | src/components/SymbolSearch.tsx:59-64 | every pushed instrument comes from a `pairs` entry with the same symbol and class, and its index is the finite, non-delisted `PairIndex` value of the normalised key |
| ActivePairs.PushedComplete | src/components/SymbolSearch.tsx:59-66 | every entry whose normalised key resolves to a finite, non-delisted index is pushed with that index |
| ActivePairs.PushedIff | src/components/SymbolSearch.tsx:60-65 | an entry of `pairs` is pushed with index `n` exactly when its normalised key holds the finite, non-delisted number `n` |
| ActivePairs.SameKeySameIndex | src/components/SymbolSearch.tsx:60-65 | two entries whose symbols normalise to the same key are pushed with the same index, or both dropped |
| ActivePairs.PushedDistinct | src/components/SymbolSearch.tsx:59-66 | distinct symbols in `pairs` give distinct symbols among the pushed instruments |
| ActivePairs.PushedOnce | src/components/SymbolSearch.tsx:59-66 | with record keys distinct, each resolving entry is pushed exactly once |
| ActivePairs.SortedPermutationUnique | src/components/SymbolSearch.tsx:68 | two symbol-sorted permutations of instruments with distinct symbols are equal |
| ActivePairs.PermutationKeepsDistinct | src/components/SymbolSearch.tsx:68 | sorting cannot create duplicate symbols |
| ActivePairs.ActiveListDetermined | src/components/SymbolSearch.tsx:54-69 | the active list is determined by the data: any two sorted arrangements of the pushed instruments are the same list |
| ActivePairs.SwapDown | src/components/SymbolSearch.tsx:68 | one exchange of neighbours, keeping the multiset of instruments |
| ActivePairs.InsertLast | src/components/SymbolSearch.tsx:68 | one insertion step: the prefix grows sorted by one element, the multiset is kept and the rest of the array is unchanged |
| ActivePairs.SortBySymbol | src/components/SymbolSearch.tsx:68 | the in-place sort leaves the array sorted non-descending by symbol and a permutation of what it held |
| ActivePairs.DeriveActivePairs | src/components/SymbolSearch.tsx:54-69 | no data gives `[]`; otherwise the result is sorted by symbol, is a permutation of the instruments the loop pushes, and is no longer than `pairs` |
| ActivePairsExamples.SinglePairActive | src/components/SymbolSearch.tsx:59-64 | `{"BTC/USD": crypto}` with `BTCUSD` at 0 gives `[("BTC/USD", crypto, 0)]` |
| ActivePairsExamples.DelistedPairDropped | src/components/SymbolSearch.tsx:63 | the same data with 0 delisted gives `[]` |
| ActivePairsExamples.NonFiniteIndexDropped | src/components/SymbolSearch.tsx:63 | a key whose value is not a finite number drops the pair |
| PairFilter.Filter | src/components/SymbolSearch.tsx:75 | `.filter` returns an order-preserving subsequence holding exactly the elements that pass |
| PairFilter.FilterMultiplicity | src/components/SymbolSearch.tsx:75 | each element that passes is kept as many times as it occurs in the input, and the others not at all |
| PairFilter.FilterSorted | src/components/SymbolSearch.tsx:71-84 | filtering a symbol-sorted list keeps it sorted |
| PairFilter.FilterFilter | src/components/SymbolSearch.tsx:71-84 | two filters in a row equal one filter by the conjunction |
| PairFilter.ByClass | src/components/SymbolSearch.tsx:75 | the class filter keeps, in order and with their multiplicity, exactly the pairs of the selected class |
| PairFilter.ByTerm | src/components/SymbolSearch.tsx:79-80 | the term filter keeps, in order and with their multiplicity, exactly the pairs whose lower-cased symbol contains the lowered term |
| PairFilter.FilteredPairsShown | src/components/SymbolSearch.tsx:71-84 | `PairFilter.FilteredPairs` (the two `if`s) is an order-preserving subsequence of the active list; an entry is kept iff the filter is `'all'` or matches its class, and the term is empty or its lower-cased form occurs in the lower-cased symbol; it equals a single pass with that condition |
| PairFilter.FiltersCommute | src/components/SymbolSearch.tsx:74-81 | class-then-term and term-then-class give the same list |
| PairFilter.ShowAll | src/components/SymbolSearch.tsx:71-84 | with `'all'` and an empty term the filtered list is the active list |
| PairFilter.SearchIgnoresCase | src/components/SymbolSearch.tsx:78-80 | any term that lowers to `"btc"` matches `"BTC/USD"` |
| Component.SymbolSearch.constructor | src/components/SymbolSearch.tsx:14-23 | closed, empty term, filter `'all'`, no data, loading, no error |
| Component.SymbolSearch.LoadSucceeded | src/components/SymbolSearch.tsx:38-48 | the data is stored, loading ends, no error; the UI state is unchanged |
| Component.SymbolSearch.LoadFailed | src/components/SymbolSearch.tsx:43-48 | the fixed error message is set, loading ends, the data stays absent |
| Component.SymbolSearch.Type | src/components/SymbolSearch.tsx:120-123 | the term becomes the input value and the dropdown opens; nothing else changes |
| Component.SymbolSearch.Focus | src/components/SymbolSearch.tsx:124 | the dropdown opens; nothing else changes |
| Component.SymbolSearch.MouseDown | src/components/SymbolSearch.tsx:86-91 | a press outside the component closes the dropdown and a press inside leaves it; nothing else changes |
| Component.SymbolSearch.ClickFilter | src/components/SymbolSearch.tsx:133-145 | on a rendered filter button only the selected filter changes |
| Component.SymbolSearch.Select | src/components/SymbolSearch.tsx:97-101 | the row's exact `(symbol, assetClass, index)` is handed to `onSelect`; the dropdown closes and the term clears; the filter and the data are unchanged |
| Component.SymbolSearch.Rows | src/components/SymbolSearch.tsx:54-84 | for the current state, the active list is the sorted pushed instruments (empty without data); the rendered rows are a sorted, order-preserving subsequence of it holding exactly the pushed instruments that pass the current filter and term |

## Left out

- The asynchronous SDK import with `Promise.all`, and the `Array`-to-`Set` conversion of the delisted indices, are foreign module loading. Only the two outcomes are modelled, as `LoadSucceeded` and `LoadFailed`. The delisted indices are a set of integers.
- Registering and removing the `mousedown` listener, and the DOM `contains` test, are browser plumbing. `MouseDown` takes whether the press was inside the component as a parameter.
- All JSX rendering is left out: CSS classes, placeholder text, the loading and "No symbols found" messages, and the selected-row highlight. The rendering conditions appear only as the preconditions of `ClickFilter` and `Select`.
- The `console.error` diagnostic on load failure is output only and is left out.
- `src/App.tsx` is not part of this model. It stores the selected triple and displays it.
- `vite.config.ts` is not part of this model. It is build configuration.
- ActivePairs.SortBySymbol: `localeCompare` is replaced by plain code-point lexicographic order. Locale collation (for example, ignoring case at the first level) is not modelled. The order laws are proved for the replacement.
- ActivePairs.SortBySymbol: the source sorts with the engine's stable sort. The model uses an insertion sort and proves sortedness and permutation, not stability. Stability only matters when two entries share a symbol, which record keys rule out. `ActiveListDetermined` shows the result is then unique.
- ActivePairs.DeriveActivePairs: the pushed entries are collected in a sequence and then copied into an array that is sorted in place. JavaScript grows and sorts the same array, so the sorted array is not aliased to the pushed one here.
- Text.LexLe: JavaScript strings are sequences of UTF-16 code units, but here they are sequences of Unicode scalar values. Lone surrogates cannot be represented. An astral character is one element here, not two units, so it compares by code point, not by its leading surrogate.
- Text.Lower: `toLowerCase` is ASCII-only. Unicode case mapping is not modelled.
- ActivePairs.ResolvedIndex: `PairIndex` values are either a finite number, modelled as `int`, or something else. Finite non-integer numbers and JavaScript number equality in `Set.has` are not modelled.
- Assets.AssetClass: a filter button can select only `'all'` or one of the five declared classes. An SDK class string equal to `'all'` is the class `Unknown("all")`: it passes the `'all'` filter, fails every class filter and gets the neutral gray, as the source does.
