/**
 * The income filter bar: four filter values held as component state, a mobile
 * sheet flag, and the router the bar pushes its query to.
 */
module IncomeFilters {
  import opened Wrappers
  import opened JsString
  import opened Finance
  import opened SearchParams

  /** A navigation: a path and its query parameters. */
  datatype Location = Location(path: string, query: seq<Entry>)

  /** Dates count as set whenever present: a `Date` object is always truthy. */
  function DateValue(d: Option<Timestamp>, toIso: Timestamp -> string): Option<string> {
    if d.Some? then Some(toIso(d.value)) else None
  }

  /** A text filter counts as set when non-empty. */
  function TextValue(v: string): Option<string> {
    if v != "" then Some(v) else None
  }

  function DateParam(name: string, d: Option<Timestamp>, toIso: Timestamp -> string): seq<Entry> {
    EntryIf(name, DateValue(d, toIso))
  }

  function TextParam(name: string, v: string): seq<Entry> {
    EntryIf(name, TextValue(v))
  }

  /** `[search, categoryId, startDate, endDate].filter(Boolean).length`. */
  function CountSet(search: string, categoryId: string, startDate: Option<Timestamp>, endDate: Option<Timestamp>): (n: nat)
    ensures n <= 4
  {
    (if search != "" then 1 else 0) + (if categoryId != "" then 1 else 0)
    + (if startDate.Some? then 1 else 0) + (if endDate.Some? then 1 else 0)
  }

  /** The query the bar pushes for these values, in the order it sets them. */
  function FilterQuery(search: string, categoryId: string, startDate: Option<Timestamp>, endDate: Option<Timestamp>,
                       toIso: Timestamp -> string): (r: seq<Entry>)
    ensures |r| == CountSet(search, categoryId, startDate, endDate)
  {
    TextParam("search", search) + TextParam("categoryId", categoryId)
    + DateParam("startDate", startDate, toIso) + DateParam("endDate", endDate, toIso)
  }

  /** Read back, the query holds exactly the set filters, the dates as ISO strings, and nothing else. */
  lemma FilterQueryGet(search: string, categoryId: string, startDate: Option<Timestamp>, endDate: Option<Timestamp>,
                       toIso: Timestamp -> string, name: string)
    ensures Get(FilterQuery(search, categoryId, startDate, endDate, toIso), name) ==
      if name == "search" then TextValue(search)
      else if name == "categoryId" then TextValue(categoryId)
      else if name == "startDate" then DateValue(startDate, toIso)
      else if name == "endDate" then DateValue(endDate, toIso)
      else None
  {
    var a, b := TextParam("search", search), TextParam("categoryId", categoryId);
    var c, d := DateParam("startDate", startDate, toIso), DateParam("endDate", endDate, toIso);
    GetEntryIf("search", TextValue(search), name);
    GetEntryIf("categoryId", TextValue(categoryId), name);
    GetEntryIf("startDate", DateValue(startDate, toIso), name);
    GetEntryIf("endDate", DateValue(endDate, toIso), name);
    GetConcat(a + b + c, d, name);
    GetConcat(a + b, c, name);
    GetConcat(a, b, name);
  }

  class FilterBar {
    var search: string
    var categoryId: string
    var startDate: Option<Timestamp>
    var endDate: Option<Timestamp>
    var mobileFiltersOpen: bool
    /** The locations pushed to the router, oldest first. */
    var pushed: seq<Location>

    /** The initial state, read from the page's query; `newDate` stands for `new Date(s)`. */
    constructor(sp: seq<Entry>, newDate: string -> Timestamp)
      ensures search == Get(sp, "search").GetOr("") && categoryId == Get(sp, "categoryId").GetOr("")
      ensures startDate == (if Truthy(Get(sp, "startDate")) then Some(newDate(Get(sp, "startDate").value)) else None)
      ensures endDate == (if Truthy(Get(sp, "endDate")) then Some(newDate(Get(sp, "endDate").value)) else None)
      ensures !mobileFiltersOpen && pushed == []
    {
      var start, end := Get(sp, "startDate"), Get(sp, "endDate");
      search := Get(sp, "search").GetOr("");
      categoryId := Get(sp, "categoryId").GetOr("");
      startDate := if Truthy(start) then Some(newDate(start.value)) else None;
      endDate := if Truthy(end) then Some(newDate(end.value)) else None;
      mobileFiltersOpen := false;
      pushed := [];
    }

    function ActiveFilterCount(): (n: nat)
      reads this
      ensures n <= 4
      ensures categoryId == "all" ==> n >= 1
    {
      CountSet(search, categoryId, startDate, endDate)
    }

    /** `hasFilters`: some filter value is set. */
    predicate HasFilters()
      reads this
      ensures HasFilters() <==> ActiveFilterCount() > 0
    {
      search != "" || categoryId != "" || startDate.Some? || endDate.Some?
    }

    /** `applyFilters`: push "/incomes" with exactly the set filters, then close the sheet. */
    method ApplyFilters(toIso: Timestamp -> string)
      modifies this
      ensures pushed == old(pushed) + [Location("/incomes", FilterQuery(search, categoryId, startDate, endDate, toIso))]
      ensures !mobileFiltersOpen
      ensures search == old(search) && categoryId == old(categoryId)
      ensures startDate == old(startDate) && endDate == old(endDate)
    {
      var params: seq<Entry> := [];
      if search != "" {
        params := Set(params, "search", search);
      }
      assert params == TextParam("search", search);
      if categoryId != "" {
        assert Set(params, "categoryId", categoryId) == params + [Entry("categoryId", categoryId)] by {
          SetNewAppends(params, "categoryId", categoryId);
        }
        params := Set(params, "categoryId", categoryId);
      }
      ghost var sofar := TextParam("search", search) + TextParam("categoryId", categoryId);
      assert params == sofar;
      if startDate.Some? {
        assert Set(params, "startDate", toIso(startDate.value)) == params + [Entry("startDate", toIso(startDate.value))] by {
          SetNewAppends(params, "startDate", toIso(startDate.value));
        }
        params := Set(params, "startDate", toIso(startDate.value));
      }
      sofar := sofar + DateParam("startDate", startDate, toIso);
      assert params == sofar;
      if endDate.Some? {
        assert Set(params, "endDate", toIso(endDate.value)) == params + [Entry("endDate", toIso(endDate.value))] by {
          SetNewAppends(params, "endDate", toIso(endDate.value));
        }
        params := Set(params, "endDate", toIso(endDate.value));
      }
      assert params == sofar + DateParam("endDate", endDate, toIso);
      pushed := pushed + [Location("/incomes", params)];
      mobileFiltersOpen := false;
    }

    /** `clearFilters`: every value emptied, "/incomes" pushed with no query, the sheet closed. */
    method ClearFilters()
      modifies this
      ensures search == "" && categoryId == "" && startDate.None? && endDate.None?
      ensures !HasFilters() && ActiveFilterCount() == 0
      ensures pushed == old(pushed) + [Location("/incomes", [])]
      ensures !mobileFiltersOpen
    {
      search := "";
      categoryId := "";
      startDate := None;
      endDate := None;
      pushed := pushed + [Location("/incomes", [])];
      mobileFiltersOpen := false;
    }

    /** The mobile search box: the new text is kept and pushed with the other filters at once. */
    method OnMobileSearch(text: string, toIso: Timestamp -> string)
      modifies this
      ensures search == text
      ensures pushed == old(pushed) + [Location("/incomes", FilterQuery(text, categoryId, startDate, endDate, toIso))]
      ensures categoryId == old(categoryId) && startDate == old(startDate) && endDate == old(endDate)
      ensures mobileFiltersOpen == old(mobileFiltersOpen)
    {
      search := text;
      var params: seq<Entry> := [];
      if text != "" {
        params := Set(params, "search", text);
      }
      assert params == TextParam("search", text);
      if categoryId != "" {
        assert Set(params, "categoryId", categoryId) == params + [Entry("categoryId", categoryId)] by {
          SetNewAppends(params, "categoryId", categoryId);
        }
        params := Set(params, "categoryId", categoryId);
      }
      ghost var sofar := TextParam("search", text) + TextParam("categoryId", categoryId);
      assert params == sofar;
      if startDate.Some? {
        assert Set(params, "startDate", toIso(startDate.value)) == params + [Entry("startDate", toIso(startDate.value))] by {
          SetNewAppends(params, "startDate", toIso(startDate.value));
        }
        params := Set(params, "startDate", toIso(startDate.value));
      }
      sofar := sofar + DateParam("startDate", startDate, toIso);
      assert params == sofar;
      if endDate.Some? {
        assert Set(params, "endDate", toIso(endDate.value)) == params + [Entry("endDate", toIso(endDate.value))] by {
          SetNewAppends(params, "endDate", toIso(endDate.value));
        }
        params := Set(params, "endDate", toIso(endDate.value));
      }
      assert params == sofar + DateParam("endDate", endDate, toIso);
      pushed := pushed + [Location("/incomes", params)];
    }
  }
}
