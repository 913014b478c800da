/**
 * The search component's state and its event handlers. Each field is one
 * `useState` hook; each method is one handler, doing the same setter calls.
 * The SDK load is represented by its two outcomes, `LoadSucceeded` and
 * `LoadFailed`.
 */
module Component {
  import opened Wrappers
  import opened Assets
  import opened ActivePairs
  import opened PairFilter

  const LoadErrorMessage := "Unable to load Gains Network SDK data. Please try again later."

  class SymbolSearch {
    var isOpen: bool
    var searchTerm: string
    var selectedFilter: ClassFilter
    var sdkData: Option<Dataset>
    var isLoading: bool
    var loadError: Option<string>

    /**
     * The load happens once: while it is pending there is neither data nor
     * an error, and once it is over there is exactly one of the two.
     */
    ghost predicate Valid()
      reads this
    {
      && (isLoading ==> sdkData.None? && loadError.None?)
      && (!isLoading ==> sdkData.Some? != loadError.Some?)
    }

    /** The filter buttons and the list are rendered only while open and loaded without error. */
    ghost predicate ListShown()
      reads this
    {
      isOpen && !isLoading && loadError.None?
    }

    /** `pair` is one of the rows of the rendered list. */
    ghost predicate IsRow(pair: Instrument)
      reads this
    {
      && ListShown()
      && sdkData.Some?
      && pair in Pushed(sdkData.value, sdkData.value.pairs)
      && Shown(selectedFilter, searchTerm, pair)
    }

    /** The initial values of the six hooks. */
    constructor ()
      ensures Valid()
      ensures !isOpen && searchTerm == "" && selectedFilter == All
      ensures sdkData == None && isLoading && loadError == None
    {
      isOpen := false;
      searchTerm := "";
      selectedFilter := All;
      sdkData := None;
      isLoading := true;
      loadError := None;
    }

    /** The `try` branch of `loadSdk` followed by its `finally`. */
    method LoadSucceeded(data: Dataset)
      requires Valid() && isLoading
      modifies this
      ensures Valid()
      ensures sdkData == Some(data) && !isLoading && loadError == None
      ensures isOpen == old(isOpen) && searchTerm == old(searchTerm) && selectedFilter == old(selectedFilter)
    {
      sdkData := Some(data);
      isLoading := false;
    }

    /** The `catch` branch of `loadSdk` followed by its `finally`; the data stays absent. */
    method LoadFailed()
      requires Valid() && isLoading
      modifies this
      ensures Valid()
      ensures loadError == Some(LoadErrorMessage) && !isLoading && sdkData == None
      ensures isOpen == old(isOpen) && searchTerm == old(searchTerm) && selectedFilter == old(selectedFilter)
    {
      loadError := Some(LoadErrorMessage);
      isLoading := false;
    }

    /** The input's `onChange`: the term becomes the input's value and the dropdown opens. */
    method Type(value: string)
      requires Valid()
      modifies this
      ensures Valid()
      ensures searchTerm == value && isOpen
      ensures selectedFilter == old(selectedFilter)
      ensures sdkData == old(sdkData) && isLoading == old(isLoading) && loadError == old(loadError)
    {
      searchTerm := value;
      isOpen := true;
    }

    /** The input's `onFocus`: the dropdown opens. */
    method Focus()
      requires Valid()
      modifies this
      ensures Valid()
      ensures isOpen
      ensures searchTerm == old(searchTerm) && selectedFilter == old(selectedFilter)
      ensures sdkData == old(sdkData) && isLoading == old(isLoading) && loadError == old(loadError)
    {
      isOpen := true;
    }

    /** The document's `mousedown` listener: a press outside the component closes the dropdown. */
    method MouseDown(insideComponent: bool)
      requires Valid()
      modifies this
      ensures Valid()
      ensures isOpen == (old(isOpen) && insideComponent)
      ensures searchTerm == old(searchTerm) && selectedFilter == old(selectedFilter)
      ensures sdkData == old(sdkData) && isLoading == old(isLoading) && loadError == old(loadError)
    {
      if !insideComponent {
        isOpen := false;
      }
    }

    /** A filter button's `onClick`: only the selected filter changes. */
    method ClickFilter(filter: ClassFilter)
      requires Valid() && ListShown() && filter in FilterButtons
      modifies this
      ensures Valid()
      ensures selectedFilter == filter
      ensures isOpen == old(isOpen) && searchTerm == old(searchTerm)
      ensures sdkData == old(sdkData) && isLoading == old(isLoading) && loadError == old(loadError)
    {
      selectedFilter := filter;
    }

    /**
     * `handleSelect` on a clicked row: hands the row's triple to `onSelect`
     * (returned here), closes the dropdown and clears the term; the
     * selected filter stays.
     */
    method Select(symbol: string, assetClass: AssetClass, pairIndex: int) returns (selected: Instrument)
      requires Valid() && IsRow(Instrument(symbol, assetClass, pairIndex))
      modifies this
      ensures Valid()
      ensures selected.symbol == symbol && selected.assetClass == assetClass && selected.index == pairIndex
      ensures !isOpen && searchTerm == ""
      ensures selectedFilter == old(selectedFilter)
      ensures sdkData == old(sdkData) && isLoading == old(isLoading) && loadError == old(loadError)
    {
      selected := Instrument(symbol, assetClass, pairIndex);
      isOpen := false;
      searchTerm := "";
    }

    /**
     * The two memos as the current state determines them: `active` is the
     * loaded data's active list, `filtered` the rows the list renders, in
     * the same order.
     */
    method Rows() returns (active: seq<Instrument>, filtered: seq<Instrument>)
      ensures sdkData.None? ==> active == [] && filtered == []
      ensures sdkData.Some? ==> multiset(active) == multiset(Pushed(sdkData.value, sdkData.value.pairs))
      ensures SortedBySymbol(active) && SortedBySymbol(filtered)
      ensures IsSubsequence(filtered, active)
      ensures forall x :: x in filtered <==>
        sdkData.Some? && x in Pushed(sdkData.value, sdkData.value.pairs) && Shown(selectedFilter, searchTerm, x)
    {
      active := DeriveActivePairs(sdkData);
      filtered := FilteredPairs(active, selectedFilter, searchTerm);
      var filter, term := selectedFilter, searchTerm;
      FilteredPairsShown(active, filter, term);
      FilterSorted(active, (x: Instrument) => Shown(filter, term, x));
      if sdkData.Some? {
        forall x
          ensures x in active <==> x in Pushed(sdkData.value, sdkData.value.pairs)
        {
          assert x in active <==> x in multiset(active);
        }
      }
    }
  }
}
