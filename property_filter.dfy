/** The filter panel (src/components/properties/PropertyFilter.tsx): four
    text inputs, the active/sheet flags, and the two handlers that emit a
    sparse `PropertyFilter` to the page. */
module PropertyFilterComponent {
  import opened Wrappers
  import opened Numerals
  import opened Types

  /** The filter `handleApplyFilter` emits for the current inputs: a key is
      present exactly when its input is non-empty, budgets parsed as numbers,
      and no check that the minimum is at most the maximum. */
  function SparseFilter(location: string, minBudget: string, maxBudget: string, preferredGender: string): (f: PropertyFilter)
    ensures f.location.Some? <==> location != ""
    ensures f.location.Some? ==> f.location.value == location
    ensures f.preferredGender.Some? <==> preferredGender != ""
    ensures f.preferredGender.Some? ==> f.preferredGender.value == preferredGender
    ensures f.minBudget.Some? <==> minBudget != ""
    ensures f.minBudget.Some? ==> f.minBudget.value == Parse(minBudget)
    ensures f.maxBudget.Some? <==> maxBudget != ""
    ensures f.maxBudget.Some? ==> f.maxBudget.value == Parse(maxBudget)
    ensures KeyCount(f) == 0 <==> location == "" && minBudget == "" && maxBudget == "" && preferredGender == ""
  {
    PropertyFilter(
      if location != "" then Some(location) else None,
      if minBudget != "" then Some(Parse(minBudget)) else None,
      if maxBudget != "" then Some(Parse(maxBudget)) else None,
      if preferredGender != "" then Some(preferredGender) else None)
  }

  /** An inverted range is passed through as typed. */
  lemma {:induction false} InvertedRangeKept(lo: int, hi: int)
    requires hi < lo
    ensures SparseFilter("", IntToString(lo), IntToString(hi), "").minBudget == Some(Num(lo))
    ensures SparseFilter("", IntToString(lo), IntToString(hi), "").maxBudget == Some(Num(hi))
  {
  }

  class FilterPanel {
    var location: string
    var minBudget: string
    var maxBudget: string
    var preferredGender: string
    var isFilterActive: bool
    var isSheetOpen: bool

    constructor ()
      ensures location == "" && minBudget == "" && maxBudget == "" && preferredGender == ""
      ensures !isFilterActive && !isSheetOpen
    {
      location, minBudget, maxBudget, preferredGender := "", "", "", "";
      isFilterActive, isSheetOpen := false, false;
    }

    method SetLocation(value: string)
      modifies this`location
      ensures location == value
    {
      location := value;
    }

    method SetMinBudget(value: string)
      modifies this`minBudget
      ensures minBudget == value
    {
      minBudget := value;
    }

    method SetMaxBudget(value: string)
      modifies this`maxBudget
      ensures maxBudget == value
    {
      maxBudget := value;
    }

    method SetPreferredGender(value: string)
      modifies this`preferredGender
      ensures preferredGender == value
    {
      preferredGender := value;
    }

    method SetSheetOpen(open: bool)
      modifies this`isSheetOpen
      ensures isSheetOpen == open
    {
      isSheetOpen := open;
    }

    /** Build the filter key by key, emit it, mark the filter active and close the sheet. */
    method ApplyFilter() returns (emitted: PropertyFilter)
      modifies this`isFilterActive, this`isSheetOpen
      ensures emitted == SparseFilter(location, minBudget, maxBudget, preferredGender)
      ensures isFilterActive && !isSheetOpen
    {
      var filters := NoFilter;
      if location != "" {
        filters := filters.(location := Some(location));
      }
      if minBudget != "" {
        filters := filters.(minBudget := Some(Parse(minBudget)));
      }
      if maxBudget != "" {
        filters := filters.(maxBudget := Some(Parse(maxBudget)));
      }
      if preferredGender != "" {
        filters := filters.(preferredGender := Some(preferredGender));
      }
      emitted := filters;
      isFilterActive := true;
      isSheetOpen := false;
    }

    /** Clear the four inputs, emit the empty filter and mark the filter inactive;
        the sheet is left as it was. */
    method ResetFilter() returns (emitted: PropertyFilter)
      modifies this`location, this`minBudget, this`maxBudget, this`preferredGender, this`isFilterActive
      ensures location == "" && minBudget == "" && maxBudget == "" && preferredGender == ""
      ensures emitted == NoFilter && KeyCount(emitted) == 0
      ensures !isFilterActive
    {
      location, minBudget, maxBudget, preferredGender := "", "", "", "";
      emitted := NoFilter;
      isFilterActive := false;
    }
  }

  /** Reset followed by apply emits the empty filter, yet leaves the filter marked active. */
  method ResetThenApply(panel: FilterPanel) returns (emitted: PropertyFilter)
    modifies panel
    ensures emitted == NoFilter && panel.isFilterActive && !panel.isSheetOpen
  {
    var _ := panel.ResetFilter();
    emitted := panel.ApplyFilter();
  }
}
