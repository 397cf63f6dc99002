/**
 * The product listing (`src/pages/Products.tsx`): the filters applied through the URL query
 * string, the filter inputs that are applied only on request, which product query feeds the
 * list, and the badge counting active filters.
 */
module Products {
  import opened Wrappers
  import opened Text

  /** A URL query string as its ordered name/value pairs. */
  type Params = seq<(string, string)>

  /** `URLSearchParams.get`: the first value under the name, if any. */
  function Get(params: Params, name: string): (r: Option<string>)
    ensures r.None? <==> forall j :: 0 <= j < |params| ==> params[j].0 != name
    ensures r.Some? ==> (name, r.value) in params
  {
    if |params| == 0 then None
    else if params[0].0 == name then Some(params[0].1)
    else Get(params[1..], name)
  }

  /** Every pair except those under `name`. */
  function Without(params: Params, name: string): (r: Params)
    ensures forall j :: 0 <= j < |r| ==> r[j].0 != name
  {
    if |params| == 0 then []
    else if params[0].0 == name then Without(params[1..], name)
    else [params[0]] + Without(params[1..], name)
  }

  /** `URLSearchParams.set`: the first pair under the name takes the value and the others under
      it go; with none, the pair is appended. */
  function Set(params: Params, name: string, value: string): Params {
    if |params| == 0 then [(name, value)]
    else if params[0].0 == name then [(name, value)] + Without(params[1..], name)
    else [params[0]] + Set(params[1..], name, value)
  }

  lemma {:induction false} GetWithout(params: Params, name: string, other: string)
    requires other != name
    ensures Get(Without(params, name), other) == Get(params, other)
  {
    if |params| > 0 {
      GetWithout(params[1..], name, other);
    }
  }

  /** After `set`, `get` answers the new value under that name and what it answered before under
      every other name. */
  lemma {:induction false} GetAfterSet(params: Params, name: string, value: string, other: string)
    ensures Get(Set(params, name, value), name) == Some(value)
    ensures other != name ==> Get(Set(params, name, value), other) == Get(params, other)
  {
    if |params| > 0 {
      if params[0].0 == name {
        if other != name {
          GetWithout(params[1..], name, other);
        }
      } else {
        GetAfterSet(params[1..], name, value, other);
      }
    }
  }

  // ---------------------------------------------------------------------------------------

  /** The applied filters, read from the query string; the price and stock filters keep the
      difference between absent and empty. */
  datatype Applied = Applied(category: string, search: string, minPrice: Option<string>,
                             maxPrice: Option<string>, inStock: Option<string>, sort: string)

  function AppliedOf(params: Params): Applied {
    Applied(Get(params, "category").GetOr(""),
            Get(params, "search").GetOr(""),
            Get(params, "minPrice"),
            Get(params, "maxPrice"),
            Get(params, "inStock"),
            Or(Get(params, "sort").GetOr(""), "newest"))
  }

  /** The filter inputs, edited freely and applied on request. */
  datatype Inputs = Inputs(category: string, minPrice: string, maxPrice: string, inStock: string, sort: string)

  /** The inputs as first shown, and after the URL changes: copies of the applied filters. */
  function InputsOf(a: Applied): Inputs {
    Inputs(a.category, a.minPrice.GetOr(""), a.maxPrice.GetOr(""), a.inStock.GetOr(""), a.sort)
  }

  predicate HasSearch(a: Applied) {
    !Blank(a.search)
  }

  predicate HasCategory(a: Applied) {
    !Blank(a.category)
  }

  /** `"true"` and `"false"` are the only stock filters passed on. */
  function InStockFilter(inStock: Option<string>): Option<bool> {
    if inStock == Some("true") then Some(true)
    else if inStock == Some("false") then Some(false)
    else None
  }

  datatype Source = SearchResults | CategoryListing | AllProducts

  /** A search wins over a category, and a category over the full listing. */
  function SourceOf(a: Applied): Source {
    if HasSearch(a) then SearchResults else if HasCategory(a) then CategoryListing else AllProducts
  }

  /** The skeleton shows only while loading with nothing to show. */
  predicate ShowSkeleton(isLoading: bool, productCount: nat) {
    isLoading && productCount == 0
  }

  /** Whether the inputs differ from what is applied. */
  predicate HasFilterChanges(i: Inputs, a: Applied) {
    i.category != a.category || i.minPrice != a.minPrice.GetOr("") || i.maxPrice != a.maxPrice.GetOr("")
    || i.inStock != a.inStock.GetOr("") || i.sort != a.sort
  }

  /** The badge: how many of category, minimum, maximum and stock are set to something. */
  function ActiveFiltersCount(a: Applied): (n: nat)
    ensures n <= 4
  {
    (if a.category != "" then 1 else 0) + (if a.minPrice.GetOr("") != "" then 1 else 0)
    + (if a.maxPrice.GetOr("") != "" then 1 else 0) + (if a.inStock.GetOr("") != "" then 1 else 0)
  }

  /** Inputs whose every field is empty or has a visible character, and whose sort is set. */
  predicate Tidy(i: Inputs) {
    (i.category == "" || !Blank(i.category)) && (i.minPrice == "" || !Blank(i.minPrice))
    && (i.maxPrice == "" || !Blank(i.maxPrice)) && (i.inStock == "" || !Blank(i.inStock)) && i.sort != ""
  }

  // ---------------------------------------------------------------------------------------

  /** Whether two readings agree on what the URL sync watches: every filter and the sort, but
      not the search. */
  predicate SameWatched(a: Applied, b: Applied) {
    a.category == b.category && a.minPrice == b.minPrice && a.maxPrice == b.maxPrice
    && a.inStock == b.inStock && a.sort == b.sort
  }

  class ProductsView {
    var params: Params
    var inputs: Inputs
    /** The applied filters as the URL sync last recorded them (`prevAppliedRef`). */
    var lastSynced: Applied

    constructor (params: Params)
      ensures this.params == params && inputs == InputsOf(AppliedOf(params)) && lastSynced == AppliedOf(params)
    {
      this.params := params;
      inputs := InputsOf(AppliedOf(params));
      lastSynced := AppliedOf(params);
    }

    function Filters(): Applied
      reads this
    {
      AppliedOf(params)
    }

    /** `applyFilters`: a fresh query string with the search kept, every input that is not
        blank, and the sort (`newest` when empty); the inputs stay as typed. */
    method ApplyFilters()
      modifies this
      ensures inputs == old(inputs) && lastSynced == old(lastSynced)
      ensures params == ApplyParams(old(Filters()).search, inputs)
    {
      var search := Filters().search;
      var next: Params := [];
      if !Blank(search) {
        next := Set(next, "search", search);
      }
      if !Blank(inputs.category) {
        next := Set(next, "category", inputs.category);
      }
      if !Blank(inputs.minPrice) {
        next := Set(next, "minPrice", inputs.minPrice);
      }
      if !Blank(inputs.maxPrice) {
        next := Set(next, "maxPrice", inputs.maxPrice);
      }
      if !Blank(inputs.inStock) {
        next := Set(next, "inStock", inputs.inStock);
      }
      params := Set(next, "sort", Or(inputs.sort, "newest"));
    }

    /** `clearFilters`: empty inputs with the default sort, and a query string holding only the
        search (when there is one) and the default sort. */
    method ClearFilters()
      modifies this
      ensures inputs == Inputs("", "", "", "", "newest") && lastSynced == old(lastSynced)
      ensures params == ClearParams(old(Filters()).search)
    {
      var search := Filters().search;
      inputs := Inputs("", "", "", "", "newest");
      var next: Params := [];
      if !Blank(search) {
        next := Set(next, "search", search);
      }
      params := Set(next, "sort", "newest");
    }

    /** The effect that copies the applied filters into the inputs when a watched value differs
        from what it last recorded, and then records them; otherwise it does nothing. */
    method SyncInputs()
      modifies this
      ensures params == old(params)
      ensures !SameWatched(old(lastSynced), Filters()) ==> inputs == InputsOf(Filters()) && lastSynced == Filters()
      ensures SameWatched(old(lastSynced), Filters()) ==> inputs == old(inputs) && lastSynced == old(lastSynced)
    {
      var applied := Filters();
      if !SameWatched(lastSynced, applied) {
        inputs := InputsOf(applied);
        lastSynced := applied;
      }
    }
  }

  /** `if (keep) params.set(name, value)`. */
  function SetIf(params: Params, keep: bool, name: string, value: string): Params {
    if keep then Set(params, name, value) else params
  }

  /** The query string `applyFilters` builds from the applied search and the inputs. */
  function ApplyParams(search: string, i: Inputs): Params {
    var withSearch := SetIf([], !Blank(search), "search", search);
    var withCategory := SetIf(withSearch, !Blank(i.category), "category", i.category);
    var withMin := SetIf(withCategory, !Blank(i.minPrice), "minPrice", i.minPrice);
    var withMax := SetIf(withMin, !Blank(i.maxPrice), "maxPrice", i.maxPrice);
    var withStock := SetIf(withMax, !Blank(i.inStock), "inStock", i.inStock);
    Set(withStock, "sort", Or(i.sort, "newest"))
  }

  /** The query string `clearFilters` builds. */
  function ClearParams(search: string): Params {
    Set(SetIf([], !Blank(search), "search", search), "sort", "newest")
  }

  lemma GetAfterSetIf(params: Params, keep: bool, name: string, value: string, other: string)
    ensures Get(SetIf(params, keep, name, value), other) ==
      if keep && other == name then Some(value) else Get(params, other)
  {
    if keep {
      GetAfterSet(params, name, value, other);
    }
  }

  /** What `get` answers, name by name, on the query string `applyFilters` builds. */
  function ReadBack(search: string, i: Inputs, name: string): Option<string> {
    if name == "search" then (if Blank(search) then None else Some(search))
    else if name == "category" then (if Blank(i.category) then None else Some(i.category))
    else if name == "minPrice" then (if Blank(i.minPrice) then None else Some(i.minPrice))
    else if name == "maxPrice" then (if Blank(i.maxPrice) then None else Some(i.maxPrice))
    else if name == "inStock" then (if Blank(i.inStock) then None else Some(i.inStock))
    else if name == "sort" then Some(Or(i.sort, "newest"))
    else None
  }

  /** `get` on the built query string answers `ReadBack` for every name. */
  lemma GetApplyParams(search: string, i: Inputs, name: string)
    ensures Get(ApplyParams(search, i), name) == ReadBack(search, i, name)
  {
    var withSearch := SetIf([], !Blank(search), "search", search);
    var withCategory := SetIf(withSearch, !Blank(i.category), "category", i.category);
    var withMin := SetIf(withCategory, !Blank(i.minPrice), "minPrice", i.minPrice);
    var withMax := SetIf(withMin, !Blank(i.maxPrice), "maxPrice", i.maxPrice);
    var withStock := SetIf(withMax, !Blank(i.inStock), "inStock", i.inStock);
    GetAfterSetIf([], !Blank(search), "search", search, name);
    GetAfterSetIf(withSearch, !Blank(i.category), "category", i.category, name);
    GetAfterSetIf(withCategory, !Blank(i.minPrice), "minPrice", i.minPrice, name);
    GetAfterSetIf(withMin, !Blank(i.maxPrice), "maxPrice", i.maxPrice, name);
    GetAfterSetIf(withMax, !Blank(i.inStock), "inStock", i.inStock, name);
    GetAfterSet(withStock, "sort", Or(i.sort, "newest"), name);
  }

  /** What the page reads back from the query string `applyFilters` builds: the search when it
      is not blank, each input that is not blank, and the sort or `newest`. */
  lemma AppliedAfterApply(search: string, i: Inputs)
    ensures AppliedOf(ApplyParams(search, i)) ==
      Applied(if Blank(i.category) then "" else i.category,
              if Blank(search) then "" else search,
              if Blank(i.minPrice) then None else Some(i.minPrice),
              if Blank(i.maxPrice) then None else Some(i.maxPrice),
              if Blank(i.inStock) then None else Some(i.inStock),
              Or(i.sort, "newest"))
  {
    GetApplyParams(search, i, "search");
    GetApplyParams(search, i, "category");
    GetApplyParams(search, i, "minPrice");
    GetApplyParams(search, i, "maxPrice");
    GetApplyParams(search, i, "inStock");
    GetApplyParams(search, i, "sort");
  }

  /** What the page reads back after `clearFilters`: no filter, the search when it is not blank,
      and the default sort; the badge shows 0. */
  lemma AppliedAfterClear(search: string)
    ensures AppliedOf(ClearParams(search)) ==
      Applied("", if Blank(search) then "" else search, None, None, None, "newest")
    ensures ActiveFiltersCount(AppliedOf(ClearParams(search))) == 0
  {
    var withSearch := SetIf([], !Blank(search), "search", search);
    forall name | name in ["search", "category", "minPrice", "maxPrice", "inStock", "sort"]
      ensures Get(ClearParams(search), name) ==
        if name == "sort" then Some("newest") else if name == "search" && !Blank(search) then Some(search) else None
    {
      GetAfterSetIf([], !Blank(search), "search", search, name);
      GetAfterSet(withSearch, "sort", "newest", name);
    }
  }

  /** Applying tidy inputs and copying the result back leaves nothing pending: the Apply button's
      "changes" flag goes off and the inputs are shown as typed. */
  lemma ApplyThenNoChanges(search: string, i: Inputs)
    requires Tidy(i)
    ensures !HasFilterChanges(i, AppliedOf(ApplyParams(search, i)))
    ensures InputsOf(AppliedOf(ApplyParams(search, i))) == i
  {
    AppliedAfterApply(search, i);
  }

  /** A blank but non-empty input is dropped on Apply and so still shows as a pending change;
      the URL it produces is read exactly as if the input were empty, so when that was already
      applied the URL sync does not fire and the input keeps its blank. */
  lemma BlankInputStaysPending(search: string, i: Inputs)
    requires i.category == " "
    ensures HasFilterChanges(i, AppliedOf(ApplyParams(search, i)))
    ensures AppliedOf(ApplyParams(search, i)) == AppliedOf(ApplyParams(search, i.(category := "")))
  {
    AppliedAfterApply(search, i);
    AppliedAfterApply(search, i.(category := ""));
    assert Blank(i.category);
  }

  /** Inputs copied from the applied filters never show as changed. */
  lemma CopiedInputsUnchanged(a: Applied)
    ensures !HasFilterChanges(InputsOf(a), a)
  {
  }

  /** The badge ignores the sort and the search, and is 0 after clearing. */
  lemma BadgeIgnoresSortAndSearch(a: Applied, sort: string, search: string)
    ensures ActiveFiltersCount(a.(sort := sort, search := search)) == ActiveFiltersCount(a)
    ensures ActiveFiltersCount(Applied("", search, None, None, None, sort)) == 0
  {
  }

  /** Clearing keeps showing search results while there is a search, and otherwise shows the
      full listing, whatever category was chosen. */
  lemma ClearedSource(search: string)
    ensures SourceOf(AppliedOf(ClearParams(search))) == if Blank(search) then AllProducts else SearchResults
  {
    AppliedAfterClear(search);
  }
}
