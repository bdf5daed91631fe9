/**
 * `useExpenses`: the expense list query forwards the page's search parameters to
 * /api/expenses, dropping the "all" sentinels and empty values.
 */
module UseExpenses {
  import opened Wrappers
  import opened JsString
  import opened SearchParams
  import opened Finance
  import ExpensesRoute

  /** A filter value the hook forwards: present, non-empty and not the "all" sentinel. */
  function WithoutAll(v: Option<string>): (r: Option<string>)
    ensures r.Some? <==> Truthy(v) && v.value != "all"
    ensures r.Some? ==> r == v
  {
    if Truthy(v) && v.value != "all" then v else None
  }

  /** A value the hook forwards unchanged when non-empty. */
  function NonEmpty(v: Option<string>): (r: Option<string>)
    ensures r.Some? <==> Truthy(v)
    ensures r.Some? ==> r == v
  {
    if Truthy(v) then v else None
  }

  /** The parameters the hook sends, in the order it sets them. */
  function Forwarded(sp: seq<Entry>): seq<Entry> {
    EntryIf("categoryId", WithoutAll(Get(sp, "categoryId")))
    + EntryIf("payee", WithoutAll(Get(sp, "payee")))
    + EntryIf("startDate", NonEmpty(Get(sp, "startDate")))
    + EntryIf("endDate", NonEmpty(Get(sp, "endDate")))
    + EntryIf("search", NonEmpty(Get(sp, "search")))
  }

  /** `params` from the five values read: conditional `set` calls on an empty `URLSearchParams`. */
  method BuildParams(categoryId: Option<string>, payee: Option<string>, startDate: Option<string>,
                     endDate: Option<string>, search: Option<string>) returns (params: seq<Entry>)
    ensures params == EntryIf("categoryId", WithoutAll(categoryId)) + EntryIf("payee", WithoutAll(payee))
      + EntryIf("startDate", NonEmpty(startDate)) + EntryIf("endDate", NonEmpty(endDate)) + EntryIf("search", NonEmpty(search))
  {
    params := SetWhen([], "categoryId", WithoutAll(categoryId));
    assert params == EntryIf("categoryId", WithoutAll(categoryId));
    params := SetWhen(params, "payee", WithoutAll(payee));
    params := SetWhen(params, "startDate", NonEmpty(startDate));
    params := SetWhen(params, "endDate", NonEmpty(endDate));
    params := SetWhen(params, "search", NonEmpty(search));
  }

  /** The hook's `params`: the five filters read from the page's query, then set conditionally. */
  method QueryParams(sp: seq<Entry>) returns (params: seq<Entry>)
    ensures params == Forwarded(sp)
  {
    params := BuildParams(Get(sp, "categoryId"), Get(sp, "payee"), Get(sp, "startDate"), Get(sp, "endDate"), Get(sp, "search"));
  }

  /** Reading one name back from the five optional entries. */
  lemma GetForwarded(sp: seq<Entry>, name: string)
    ensures Get(Forwarded(sp), name) ==
      (if name == "categoryId" then WithoutAll(Get(sp, "categoryId")) else None)
      .Or(if name == "payee" then WithoutAll(Get(sp, "payee")) else None)
      .Or(if name == "startDate" then NonEmpty(Get(sp, "startDate")) else None)
      .Or(if name == "endDate" then NonEmpty(Get(sp, "endDate")) else None)
      .Or(if name == "search" then NonEmpty(Get(sp, "search")) else None)
  {
    var c := EntryIf("categoryId", WithoutAll(Get(sp, "categoryId")));
    var p := EntryIf("payee", WithoutAll(Get(sp, "payee")));
    var s := EntryIf("startDate", NonEmpty(Get(sp, "startDate")));
    var e := EntryIf("endDate", NonEmpty(Get(sp, "endDate")));
    var q := EntryIf("search", NonEmpty(Get(sp, "search")));
    GetEntryIf("categoryId", WithoutAll(Get(sp, "categoryId")), name);
    GetEntryIf("payee", WithoutAll(Get(sp, "payee")), name);
    GetEntryIf("startDate", NonEmpty(Get(sp, "startDate")), name);
    GetEntryIf("endDate", NonEmpty(Get(sp, "endDate")), name);
    GetEntryIf("search", NonEmpty(Get(sp, "search")), name);
    GetConcat(c + p + s + e, q, name);
    GetConcat(c + p + s, e, name);
    GetConcat(c + p, s, name);
    GetConcat(c, p, name);
  }

  /**
   * What the endpoint reads back: the two sentinel filters only when set and not
   * "all", the dates and search only when non-empty, and never a page or a limit.
   */
  lemma ForwardedGet(sp: seq<Entry>)
    ensures Get(Forwarded(sp), "categoryId") == WithoutAll(Get(sp, "categoryId"))
    ensures Get(Forwarded(sp), "payee") == WithoutAll(Get(sp, "payee"))
    ensures Get(Forwarded(sp), "startDate") == NonEmpty(Get(sp, "startDate"))
    ensures Get(Forwarded(sp), "endDate") == NonEmpty(Get(sp, "endDate"))
    ensures Get(Forwarded(sp), "search") == NonEmpty(Get(sp, "search"))
    ensures Get(Forwarded(sp), "page") == None && Get(Forwarded(sp), "limit") == None
  {
    GetForwarded(sp, "categoryId");
    GetForwarded(sp, "payee");
    GetForwarded(sp, "startDate");
    GetForwarded(sp, "endDate");
    GetForwarded(sp, "search");
    GetForwarded(sp, "page");
    GetForwarded(sp, "limit");
  }

  /** The route's parameters as read from the forwarded query (page and limit absent). */
  function RouteParams(sent: seq<Entry>): ExpensesRoute.ListParams {
    ExpensesRoute.ListParams(Get(sent, "categoryId"), Get(sent, "payee"), Get(sent, "startDate"),
                             Get(sent, "endDate"), Get(sent, "search"), None, None)
  }

  /** A page filtered on category "all" lists every category: the route gets no category filter. */
  lemma AllCategoryNotFiltered(sp: seq<Entry>, userId: string, newDate: string -> Timestamp)
    requires Get(sp, "categoryId") == Some("all")
    ensures ExpensesRoute.WhereFor(userId, RouteParams(Forwarded(sp)), newDate).categoryId.None?
  {
    ForwardedGet(sp);
  }

  /** The server's reply: `response.ok` and the decoded body. */
  datatype Response<B> = Response(ok: bool, body: B)

  /** The query function: the body of an OK response, an error otherwise. */
  method FetchExpenses<B>(sp: seq<Entry>, server: seq<Entry> -> Response<B>) returns (sent: seq<Entry>, r: Result<B, string>)
    ensures sent == Forwarded(sp)
    ensures !server(sent).ok <==> r == Failure("Failed to fetch expenses")
    ensures server(sent).ok ==> r == Success(server(sent).body)
  {
    sent := QueryParams(sp);
    var response := server(sent);
    if !response.ok {
      return sent, Failure("Failed to fetch expenses");
    }
    return sent, Success(response.body);
  }
}
