/** The listing page (app/page.tsx): search and phosphorus filters are
    edited as drafts and committed by explicit actions; an effect keyed on
    the committed query and the page either resets the page or fetches one
    page of records, and a fetch its cleanup aborted never touches the page
    again.

    React's effect is the method `Reconcile`, which the renderer calls after
    every render: it runs the effect body when the dependency values differ
    from those of its last run. Each fetch is given a token, the identity of
    its AbortController; `live` is the one controller not yet aborted. */
module HomePage {
  import opened Wrappers
  import opened Http
  import opened FoodTypes
  import opened JsStrings
  import Api

  /** `limit`: records per page. */
  const PageLimit := 12

  /** The committed query identity that `prevQueryRef` remembers. */
  datatype QueryKey = QueryKey(searchQuery: string, minPhosphorus: Option<real>, maxPhosphorus: Option<real>)

  /** The effect's dependency values. */
  datatype Deps = Deps(key: QueryKey, page: int)

  /** A list request: its parameters and the token of its controller. */
  datatype FetchRequest = FetchRequest(params: Api.QueryParams, token: nat)

  /** The parameters the effect passes to `getCannedFoods`. */
  function RequestParams(key: QueryKey, page: int, token: nat): (q: Api.QueryParams)
    ensures q.search == Some(key.searchQuery) && q.brandName.None?
    ensures q.minPhosphorusPer100kcal == key.minPhosphorus && q.maxPhosphorusPer100kcal == key.maxPhosphorus
    ensures q.page == Some(page) && q.limit == Some(PageLimit) && q.signal == Some(token)
  {
    Api.QueryParams(
      search := Some(key.searchQuery),
      brandName := None,
      minPhosphorusPer100kcal := key.minPhosphorus,
      maxPhosphorusPer100kcal := key.maxPhosphorus,
      page := Some(page),
      limit := Some(PageLimit),
      signal := Some(token))
  }

  /** What the listing request puts on the wire: the search text only when
      non-empty, each committed bound exactly when defined, always the page
      and the limit 12, never a brand. */
  lemma RequestQuery(key: QueryKey, page: int, token: nat)
    requires page >= 1
    ensures var ps := Api.ExpectedParams(RequestParams(key, page, token));
            && Api.Lookup(ps, Api.Search) == (if key.searchQuery != "" then Some(Api.Str(key.searchQuery)) else None)
            && Api.Lookup(ps, Api.BrandName) == None
            && Api.Lookup(ps, Api.MinPhosphorus)
               == (if key.minPhosphorus.Some? then Some(Api.Num(key.minPhosphorus.value)) else None)
            && Api.Lookup(ps, Api.MaxPhosphorus)
               == (if key.maxPhosphorus.Some? then Some(Api.Num(key.maxPhosphorus.value)) else None)
            && Api.Lookup(ps, Api.Page) == Some(Api.Num(page as real))
            && Api.Lookup(ps, Api.Limit) == Some(Api.Num(PageLimit as real))
  {
    Api.ExpectedParamsLookup(RequestParams(key, page, token));
  }

  /** One phosphorus draft committed: an empty draft gives no bound, any
      other the number `parse` reads from it (`parseFloat`), where `None`
      stands for NaN and also gives no bound. */
  function ParseBound(draft: string, parse: string -> Option<real>): (bound: Option<real>)
    ensures draft == "" ==> bound.None?
    ensures draft != "" ==> bound == parse(draft)
  {
    if draft != "" then parse(draft) else None
  }

  function Max(a: int, b: int): int {
    if a >= b then a else b
  }

  function Min(a: int, b: int): int {
    if a <= b then a else b
  }

  class HomePage {
    var data: Option<PaginatedResponse>
    var loading: bool
    var searchInput: string
    var searchQuery: string
    var page: int
    var showFilter: bool
    var minPInput: string
    var maxPInput: string
    var minPhosphorus: Option<real>
    var maxPhosphorus: Option<real>
    /** `prevQueryRef.current` */
    var prevQuery: QueryKey
    /** The dependency values of the effect's last run; `None` before mount. */
    var effectDeps: Option<Deps>
    /** The token of the one controller not yet aborted, if any. */
    var live: Option<nat>
    /** The token the next fetch takes. */
    var nextToken: nat

    /** The page number is at least 1; a live controller belongs to the
        latest fetch; the effect's `prevQueryRef` holds the query identity of
        its last run. */
    ghost predicate Valid()
      reads this
    {
      && page >= 1
      && (live.Some? ==> live.value + 1 == nextToken)
      && (effectDeps.Some? ==> effectDeps.value.key == prevQuery)
    }

    constructor()
      ensures Valid()
      ensures data.None? && loading && searchInput == "" && searchQuery == "" && page == 1
      ensures !showFilter && minPInput == "" && maxPInput == ""
      ensures minPhosphorus.None? && maxPhosphorus.None?
      ensures prevQuery == QueryKey("", None, None)
      ensures effectDeps.None? && live.None? && nextToken == 0
    {
      data := None;
      loading := true;
      searchInput := "";
      searchQuery := "";
      page := 1;
      showFilter := false;
      minPInput := "";
      maxPInput := "";
      minPhosphorus := None;
      maxPhosphorus := None;
      prevQuery := QueryKey("", None, None);
      effectDeps := None;
      live := None;
      nextToken := 0;
    }

    /** The committed query identity. */
    function Key(): QueryKey
      reads this
    {
      QueryKey(searchQuery, minPhosphorus, maxPhosphorus)
    }

    function CurrentDeps(): Deps
      reads this
    {
      Deps(Key(), page)
    }

    /** `isFilterActive` */
    predicate IsFilterActive()
      reads this
    {
      minPhosphorus.Some? || maxPhosphorus.Some?
    }

    /** The effect. Unchanged dependencies: nothing runs. Otherwise the
        previous run's controller is aborted, and:
        - a new query identity on a page other than 1 is remembered and the
          page reset to 1, with no fetch in this run;
        - else exactly one fetch starts, for the current identity and page
          with limit 12, under a fresh live controller, and loading begins. */
    method Reconcile() returns (req: Option<FetchRequest>)
      requires Valid()
      modifies this`prevQuery, this`page, this`effectDeps, this`live, this`nextToken, this`loading
      ensures Valid()
      ensures old(effectDeps) == Some(old(CurrentDeps())) ==>
                req.None? && prevQuery == old(prevQuery) && page == old(page) && effectDeps == old(effectDeps)
                && live == old(live) && nextToken == old(nextToken) && loading == old(loading)
      ensures old(effectDeps) != Some(old(CurrentDeps())) ==>
                effectDeps == Some(old(CurrentDeps())) && prevQuery == old(Key())
      ensures old(effectDeps) != Some(old(CurrentDeps())) && old(Key()) != old(prevQuery) && old(page) != 1 ==>
                req.None? && page == 1 && live.None? && nextToken == old(nextToken) && loading == old(loading)
      ensures old(effectDeps) != Some(old(CurrentDeps())) && (old(Key()) == old(prevQuery) || old(page) == 1) ==>
                req == Some(FetchRequest(RequestParams(old(Key()), old(page), old(nextToken)), old(nextToken)))
                && page == old(page) && live == Some(old(nextToken)) && nextToken == old(nextToken) + 1 && loading
    {
      if effectDeps == Some(CurrentDeps()) {
        return None;
      }
      // the previous run's cleanup
      live := None;
      effectDeps := Some(CurrentDeps());
      var key := Key();
      if prevQuery != key {
        prevQuery := key;
        if page != 1 {
          page := 1;
          return None;
        }
      }
      var token := nextToken;
      nextToken := nextToken + 1;
      live := Some(token);
      loading := true;
      req := Some(FetchRequest(RequestParams(key, page, token), token));
    }

    /** The fetch with `token` settles with the list endpoint's answer. If
        its controller has been aborted nothing changes: no data is set, and
        the AbortError is swallowed with loading left as it is. Otherwise
        an ok answer becomes the data, any failure is only logged, and
        loading ends either way. */
    method Resolve(token: nat, resp: Response<PaginatedResponse>)
      requires Valid()
      modifies this`data, this`loading
      ensures Valid()
      ensures live != Some(token) ==> data == old(data) && loading == old(loading)
      ensures live == Some(token) ==> !loading
      ensures live == Some(token) && resp.Ok? ==> data == Some(resp.body)
      ensures live == Some(token) && !resp.Ok? ==> data == old(data)
      ensures token + 1 < nextToken ==> data == old(data) && loading == old(loading)
    {
      var aborted := live != Some(token);
      match Api.GetCannedFoods(resp) {
        case Return(result) =>
          if !aborted {
            data := Some(result);
          }
        case Throw(_) =>
          // an AbortError returns at once, anything else is logged; the
          // `finally` below runs in both cases
      }
      if !aborted {
        loading := false;
      }
    }

    /** Unmounting runs the cleanup: the live controller is aborted. */
    method Unmount()
      requires Valid()
      modifies this`live
      ensures Valid() && live.None?
    {
      live := None;
    }

    /** Typing in the search box edits only the draft. */
    method EditSearchInput(text: string)
      requires Valid()
      modifies this`searchInput
      ensures Valid() && searchInput == text
    {
      searchInput := text;
    }

    /** `handleSearch()`: the trimmed draft is committed. */
    method HandleSearch()
      requires Valid()
      modifies this`searchQuery
      ensures Valid()
      ensures searchQuery == Trim(searchInput)
      ensures searchQuery == "" <==> forall i :: 0 <= i < |searchInput| ==> IsWhitespace(searchInput[i])
    {
      var input := searchInput;
      TrimEmptyIffAllWhitespace(input);
      searchQuery := Trim(input);
    }

    /** `handleKeyDown(e)`: Enter commits the search, any other key does
        nothing. */
    method HandleKeyDown(key: string)
      requires Valid()
      modifies this`searchQuery
      ensures Valid()
      ensures key == "Enter" ==> searchQuery == Trim(searchInput)
      ensures key != "Enter" ==> searchQuery == old(searchQuery)
    {
      if key == "Enter" {
        HandleSearch();
      }
    }

    /** The filter button shows or hides the filter inputs. */
    method ToggleFilter()
      requires Valid()
      modifies this`showFilter
      ensures Valid() && showFilter == !old(showFilter)
    {
      showFilter := !showFilter;
    }

    /** Typing in the lower-bound box edits only its draft. */
    method EditMinInput(text: string)
      requires Valid()
      modifies this`minPInput
      ensures Valid() && minPInput == text
    {
      minPInput := text;
    }

    /** Typing in the upper-bound box edits only its draft. */
    method EditMaxInput(text: string)
      requires Valid()
      modifies this`maxPInput
      ensures Valid() && maxPInput == text
    {
      maxPInput := text;
    }

    /** `handleApplyFilter()`: both drafts are committed. An empty or
        unparseable draft gives no bound, never 0; the filter is active
        exactly when one of them parsed. */
    method HandleApplyFilter(parse: string -> Option<real>)
      requires Valid()
      modifies this`minPhosphorus, this`maxPhosphorus
      ensures Valid()
      ensures minPhosphorus == ParseBound(minPInput, parse) && maxPhosphorus == ParseBound(maxPInput, parse)
      ensures IsFilterActive() <==>
                (minPInput != "" && parse(minPInput).Some?) || (maxPInput != "" && parse(maxPInput).Some?)
    {
      minPhosphorus := ParseBound(minPInput, parse);
      maxPhosphorus := ParseBound(maxPInput, parse);
    }

    /** `handleFilterKeyDown(e)`: Enter in a bound box applies the filter. */
    method HandleFilterKeyDown(key: string, parse: string -> Option<real>)
      requires Valid()
      modifies this`minPhosphorus, this`maxPhosphorus
      ensures Valid()
      ensures key == "Enter" ==>
                minPhosphorus == ParseBound(minPInput, parse) && maxPhosphorus == ParseBound(maxPInput, parse)
      ensures key != "Enter" ==> minPhosphorus == old(minPhosphorus) && maxPhosphorus == old(maxPhosphorus)
    {
      if key == "Enter" {
        HandleApplyFilter(parse);
      }
    }

    /** `handleClearFilter()`: both drafts emptied, both bounds removed. */
    method HandleClearFilter()
      requires Valid()
      modifies this`minPInput, this`maxPInput, this`minPhosphorus, this`maxPhosphorus
      ensures Valid()
      ensures minPInput == "" && maxPInput == "" && minPhosphorus.None? && maxPhosphorus.None?
      ensures !IsFilterActive()
    {
      minPInput := "";
      maxPInput := "";
      minPhosphorus := None;
      maxPhosphorus := None;
    }

    /** The pager is rendered: loaded, with items, over more than one page. */
    predicate PaginationShown()
      reads this
    {
      !loading && data.Some? && |data.value.items| > 0 && data.value.meta.totalPages > 1
    }

    /** The previous-page button: one page back, never below 1. */
    method PrevPage()
      requires Valid() && PaginationShown()
      modifies this`page
      ensures Valid()
      ensures page == Max(1, old(page) - 1)
      ensures 1 <= page <= old(page)
    {
      page := Max(1, page - 1);
    }

    /** The next-page button: one page on, never past the last page. */
    method NextPage()
      requires Valid() && PaginationShown()
      modifies this`page
      ensures Valid()
      ensures page == Min(data.value.meta.totalPages, old(page) + 1)
      ensures 1 <= page <= data.value.meta.totalPages
    {
      page := Min(data.value.meta.totalPages, page + 1);
    }

    /** The effect, run for two successive renders. A new query committed on
        a later page resets the page without fetching, and the re-render this
        causes fetches page 1 of the new query. */
    method ReconcileAfterNewQuery() returns (first: Option<FetchRequest>, second: Option<FetchRequest>)
      requires Valid()
      requires effectDeps.Some? && Key() != prevQuery && page != 1
      modifies this`prevQuery, this`page, this`effectDeps, this`live, this`nextToken, this`loading
      ensures Valid()
      ensures first.None? && page == 1 && prevQuery == old(Key()) && loading
      ensures second == Some(FetchRequest(RequestParams(old(Key()), 1, old(nextToken)), old(nextToken)))
      ensures live == Some(old(nextToken))
    {
      first := Reconcile();
      second := Reconcile();
    }

    /** A fetch superseded by a later effect run can never overwrite the
        page: whatever it answers, data and loading stay as they are. */
    method SupersededFetchIgnored(resp: Response<PaginatedResponse>)
      requires Valid() && live.Some? && effectDeps.Some?
      requires effectDeps != Some(CurrentDeps())
      modifies this`prevQuery, this`page, this`effectDeps, this`live, this`nextToken, this`loading, this`data
      ensures Valid()
      ensures data == old(data)
    {
      var stale := live.value;
      var req := Reconcile();
      ghost var loadingAfter := loading;
      Resolve(stale, resp);
      assert loading == loadingAfter;
    }
  }
}
