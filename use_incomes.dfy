/**
 * `useIncomes`: the income list query forwards category, dates and search to
 * /api/incomes; it has no payee filter.
 */
module UseIncomes {
  import opened Wrappers
  import opened JsString
  import opened Finance
  import opened SearchParams
  import opened UseExpenses
  import IncomesRoute

  /** The parameters the hook sends, in the order it sets them. */
  function Forwarded(sp: seq<Entry>): seq<Entry> {
    EntryIf("categoryId", WithoutAll(Get(sp, "categoryId")))
    + EntryIf("startDate", NonEmpty(Get(sp, "startDate")))
    + EntryIf("endDate", NonEmpty(Get(sp, "endDate")))
    + EntryIf("search", NonEmpty(Get(sp, "search")))
  }

  /** `params`, filled by conditional `set` calls on an empty `URLSearchParams`. */
  method BuildParams(categoryId: Option<string>, startDate: Option<string>, endDate: Option<string>,
                     search: Option<string>) returns (params: seq<Entry>)
    ensures params == EntryIf("categoryId", WithoutAll(categoryId)) + EntryIf("startDate", NonEmpty(startDate))
      + EntryIf("endDate", NonEmpty(endDate)) + EntryIf("search", NonEmpty(search))
  {
    params := SetWhen([], "categoryId", WithoutAll(categoryId));
    assert params == EntryIf("categoryId", WithoutAll(categoryId));
    params := SetWhen(params, "startDate", NonEmpty(startDate));
    params := SetWhen(params, "endDate", NonEmpty(endDate));
    params := SetWhen(params, "search", NonEmpty(search));
  }

  /** The hook's `params`: the four filters read from the page's query, then set conditionally. */
  method QueryParams(sp: seq<Entry>) returns (params: seq<Entry>)
    ensures params == Forwarded(sp)
  {
    params := BuildParams(Get(sp, "categoryId"), Get(sp, "startDate"), Get(sp, "endDate"), Get(sp, "search"));
  }

  /** Reading one name back from the four optional entries. */
  lemma GetForwarded(sp: seq<Entry>, name: string)
    ensures Get(Forwarded(sp), name) ==
      (if name == "categoryId" then WithoutAll(Get(sp, "categoryId")) else None)
      .Or(if name == "startDate" then NonEmpty(Get(sp, "startDate")) else None)
      .Or(if name == "endDate" then NonEmpty(Get(sp, "endDate")) else None)
      .Or(if name == "search" then NonEmpty(Get(sp, "search")) else None)
  {
    var c := EntryIf("categoryId", WithoutAll(Get(sp, "categoryId")));
    var s := EntryIf("startDate", NonEmpty(Get(sp, "startDate")));
    var e := EntryIf("endDate", NonEmpty(Get(sp, "endDate")));
    var q := EntryIf("search", NonEmpty(Get(sp, "search")));
    GetEntryIf("categoryId", WithoutAll(Get(sp, "categoryId")), name);
    GetEntryIf("startDate", NonEmpty(Get(sp, "startDate")), name);
    GetEntryIf("endDate", NonEmpty(Get(sp, "endDate")), name);
    GetEntryIf("search", NonEmpty(Get(sp, "search")), name);
    GetConcat(c + s + e, q, name);
    GetConcat(c + s, e, name);
    GetConcat(c, s, name);
  }

  /**
   * What the endpoint reads back: the category only when set and not "all", the
   * dates and search only when non-empty; never a payee, a page or a limit.
   */
  lemma ForwardedGet(sp: seq<Entry>)
    ensures Get(Forwarded(sp), "categoryId") == WithoutAll(Get(sp, "categoryId"))
    ensures Get(Forwarded(sp), "startDate") == NonEmpty(Get(sp, "startDate"))
    ensures Get(Forwarded(sp), "endDate") == NonEmpty(Get(sp, "endDate"))
    ensures Get(Forwarded(sp), "search") == NonEmpty(Get(sp, "search"))
    ensures Get(Forwarded(sp), "payee") == None
    ensures Get(Forwarded(sp), "page") == None && Get(Forwarded(sp), "limit") == None
  {
    GetForwarded(sp, "categoryId");
    GetForwarded(sp, "startDate");
    GetForwarded(sp, "endDate");
    GetForwarded(sp, "search");
    GetForwarded(sp, "payee");
    GetForwarded(sp, "page");
    GetForwarded(sp, "limit");
  }

  /** The route's parameters as read from the forwarded query (page and limit absent). */
  function RouteParams(sent: seq<Entry>): IncomesRoute.ListParams {
    IncomesRoute.ListParams(Get(sent, "categoryId"), Get(sent, "startDate"), Get(sent, "endDate"),
                            Get(sent, "search"), None, None)
  }

  /** A start date on the page alone reaches the route as a lower bound. */
  lemma StartDateReachesRoute(sp: seq<Entry>, userId: string, newDate: string -> Timestamp)
    requires Truthy(Get(sp, "startDate")) && !Truthy(Get(sp, "endDate"))
    ensures IncomesRoute.WhereFor(userId, RouteParams(Forwarded(sp)), newDate).date ==
      Some(IncomesRoute.DateBounds(Some(newDate(Get(sp, "startDate").value)), None))
  {
    ForwardedGet(sp);
  }

  /**
   * Values that are already non-empty, as the income filter bar pushes them, reach
   * the route unchanged; only the "All Categories" choice is dropped.
   */
  lemma NonEmptyValuesForwarded(q: seq<Entry>)
    requires Get(q, "search") != Some("") && Get(q, "categoryId") != Some("")
    requires Get(q, "startDate") != Some("") && Get(q, "endDate") != Some("")
    ensures Get(Forwarded(q), "search") == Get(q, "search")
    ensures Get(Forwarded(q), "categoryId") == (if Get(q, "categoryId") == Some("all") then None else Get(q, "categoryId"))
    ensures Get(Forwarded(q), "startDate") == Get(q, "startDate")
    ensures Get(Forwarded(q), "endDate") == Get(q, "endDate")
  {
    ForwardedGet(q);
  }

  /** The query function: the body of an OK response, an error otherwise. */
  method FetchIncomes<B>(sp: seq<Entry>, server: seq<Entry> -> Response<B>) returns (sent: seq<Entry>, r: Result<B, string>)
    ensures sent == Forwarded(sp)
    ensures !server(sent).ok <==> r == Failure("Failed to fetch incomes")
    ensures server(sent).ok ==> r == Success(server(sent).body)
  {
    sent := QueryParams(sp);
    var response := server(sent);
    if !response.ok {
      return sent, Failure("Failed to fetch incomes");
    }
    return sent, Success(response.body);
  }
}
