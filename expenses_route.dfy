/**
 * /api/expenses: GET builds the list query (filters, order, page) for the
 * caller; POST validates `createExpenseSchema` and creates one expense with
 * its label links.
 */
module ExpensesRoute {
  import opened Wrappers
  import opened JsString
  import opened Finance
  import opened Identity
  import opened Paging
  import DashboardRecent

  // ---------------------------------------------------------------------------
  // GET: the where-filter
  // ---------------------------------------------------------------------------

  /** The list endpoint's search parameters (None when absent); page and limit already parsed. */
  datatype ListParams = ListParams(
    categoryId: Option<string>, payee: Option<string>, startDate: Option<string>, endDate: Option<string>,
    search: Option<string>, page: Option<int>, limit: Option<int>)

  /** The `where` record; each None is a field the handler did not set. */
  datatype ExpenseWhere = ExpenseWhere(
    userId: string, categoryId: Option<string>, payee: Option<string>, date: Option<Window>, search: Option<string>)

  /** The filter the handler builds; `newDate` stands for `new Date(s)`. */
  function WhereFor(userId: string, q: ListParams, newDate: string -> Timestamp): ExpenseWhere {
    ExpenseWhere(
      userId,
      if Truthy(q.categoryId) then q.categoryId else None,
      if Truthy(q.payee) && q.payee.value != "all" then q.payee else None,
      if Truthy(q.startDate) && Truthy(q.endDate) then Some(Window(newDate(q.startDate.value), newDate(q.endDate.value))) else None,
      if Truthy(q.search) then q.search else None)
  }

  /** `where`, built by conditional field assignments. */
  method BuildWhere(userId: string, q: ListParams, newDate: string -> Timestamp) returns (w: ExpenseWhere)
    ensures w == WhereFor(userId, q, newDate)
  {
    w := ExpenseWhere(userId, None, None, None, None);
    if Truthy(q.categoryId) {
      w := w.(categoryId := q.categoryId);
    }
    if Truthy(q.payee) && q.payee.value != "all" {
      w := w.(payee := q.payee);
    }
    if Truthy(q.startDate) && Truthy(q.endDate) {
      w := w.(date := Some(Window(newDate(q.startDate.value), newDate(q.endDate.value))));
    }
    if Truthy(q.search) {
      w := w.(search := q.search);
    }
  }

  /** An expense's payee, or "" for an income row. */
  function PayeeOf(t: Transaction): string {
    if t.detail.ExpenseDetail? then t.detail.payee else ""
  }

  /** `{ description: { contains } }` or `{ payee: { contains } }`, case-insensitively; a null description never contains. */
  predicate SearchHits(t: Transaction, s: string) {
    (t.detail.description.Some? && ContainsInsensitive(t.detail.description.value, s))
    || ContainsInsensitive(PayeeOf(t), s)
  }

  /** Whether the database selects row `t` for this `where`. */
  predicate MatchesWhere(w: ExpenseWhere, t: Transaction) {
    && t.userId == w.userId
    && (w.categoryId.Some? ==> t.categoryId == w.categoryId.value)
    && (w.payee.Some? ==> PayeeOf(t) == w.payee.value)
    && (w.date.Some? ==> w.date.value.Contains(t.date))
    && (w.search.Some? ==> SearchHits(t, w.search.value))
  }

  /**
   * What the built filter selects: always only the caller's rows; the category when
   * given; the payee unless absent or "all"; the date window only when both bounds
   * are given, inclusive at both ends; the search text in description or payee.
   */
  lemma WhereSelects(userId: string, q: ListParams, newDate: string -> Timestamp, t: Transaction)
    ensures MatchesWhere(WhereFor(userId, q, newDate), t) <==>
      && t.userId == userId
      && (Truthy(q.categoryId) ==> t.categoryId == q.categoryId.value)
      && (Truthy(q.payee) && q.payee.value != "all" ==> PayeeOf(t) == q.payee.value)
      && (Truthy(q.startDate) && Truthy(q.endDate) ==>
            newDate(q.startDate.value) <= t.date <= newDate(q.endDate.value))
      && (Truthy(q.search) ==> SearchHits(t, q.search.value))
  {
  }

  /** A payee of "all" filters exactly as no payee does. */
  lemma AllPayeeIsNoFilter(userId: string, q: ListParams, newDate: string -> Timestamp)
    ensures WhereFor(userId, q.(payee := Some("all")), newDate) == WhereFor(userId, q.(payee := None), newDate)
  {
  }

  /** One date bound alone does not restrict the dates at all. */
  lemma OneDateBoundIgnored(userId: string, q: ListParams, newDate: string -> Timestamp, t: Transaction, d: Timestamp)
    requires !Truthy(q.startDate) || !Truthy(q.endDate)
    ensures MatchesWhere(WhereFor(userId, q, newDate), t) == MatchesWhere(WhereFor(userId, q, newDate), t.(date := d))
  {
  }

  // ---------------------------------------------------------------------------
  // GET: the query and its pagination
  // ---------------------------------------------------------------------------

  /** `findMany({ where, orderBy: { date: "desc" }, skip, take })` plus the page and limit echoed back. */
  datatype ListQuery = ListQuery(where: ExpenseWhere, skip: int, take: int, page: int, limit: int)

  /** The handler's part of GET: 401 without a user, otherwise the query it sends. */
  method Get(userId: Option<string>, q: ListParams, newDate: string -> Timestamp) returns (r: Result<ListQuery, int>)
    ensures userId.None? <==> r == Failure(401)
    ensures userId.Some? ==> r.Success?
    ensures r.Success? ==>
      var page, limit := ParamOr(q.page, 1), ParamOr(q.limit, 20);
      r.value == ListQuery(WhereFor(userId.value, q, newDate), Skip(page, limit), limit, page, limit)
  {
    if userId.None? {
      return Failure(401);
    }
    var page := ParamOr(q.page, 1);
    var limit := ParamOr(q.limit, 20);
    var where := BuildWhere(userId.value, q, newDate);
    return Success(ListQuery(where, (page - 1) * limit, limit, page, limit));
  }

  /** Without page and limit parameters the first twenty rows are asked for. */
  lemma DefaultPage(userId: string, q: ListParams, newDate: string -> Timestamp)
    requires q.page.None? && q.limit.None?
    ensures ParamOr(q.page, 1) == 1 && ParamOr(q.limit, 20) == 20
    ensures Skip(ParamOr(q.page, 1), ParamOr(q.limit, 20)) == 0
  {
  }

  /** The rows the database selects, in store order. */
  function Selected(store: seq<Transaction>, w: ExpenseWhere): seq<Transaction> {
    if store == [] then []
    else Selected(store[..|store| - 1], w) + (if MatchesWhere(w, store[|store| - 1]) then [store[|store| - 1]] else [])
  }

  lemma {:induction false} SelectedMembers(store: seq<Transaction>, w: ExpenseWhere)
    ensures forall t :: t in Selected(store, w) <==> t in store && MatchesWhere(w, t)
  {
    if store != [] {
      var init := store[..|store| - 1];
      SelectedMembers(init, w);
      assert store == init + [store[|store| - 1]];
    }
  }

  /** The page of rows a query returns for a non-negative skip and take: newest first. */
  function Execute(store: seq<Transaction>, query: ListQuery): seq<Transaction>
    requires query.skip >= 0 && query.take >= 0
  {
    var rows := Selected(store, query.where);
    PageOf(DashboardRecent.TakeLatest(rows, |rows|), query.skip, query.take)
  }

  /** A returned page holds at most `take` rows, all the caller's and all matching, newest first. */
  lemma ExecuteSpec(store: seq<Transaction>, query: ListQuery)
    requires query.skip >= 0 && query.take >= 0
    ensures var page := Execute(store, query);
      && |page| <= query.take
      && (forall t :: t in page ==> t in store && MatchesWhere(query.where, t) && t.userId == query.where.userId)
      && DashboardRecent.NewestFirst(page)
  {
    var rows := Selected(store, query.where);
    var sorted := DashboardRecent.TakeLatest(rows, |rows|);
    var page := Execute(store, query);
    SelectedMembers(store, query.where);
    DashboardRecent.TakeLatestNewestFirst(rows, |rows|);
    forall t | t in page ensures t in store && MatchesWhere(query.where, t) {
      var k :| 0 <= k < |page| && page[k] == t;
      assert t == sorted[query.skip + k];
      DashboardRecent.TakeLatestMembers(rows, |rows|, t);
    }
  }

  /** The `pagination` object of the response. */
  datatype Pagination = Pagination(page: int, limit: int, total: nat, totalPages: PageCount)

  function PaginationFor(query: ListQuery, total: nat): (p: Pagination)
    ensures p.totalPages == TotalPages(total, query.limit)
    ensures p.page == query.page && p.limit == query.limit && p.total == total
  {
    Pagination(query.page, query.limit, total, TotalPages(total, query.limit))
  }

  // ---------------------------------------------------------------------------
  // POST
  // ---------------------------------------------------------------------------

  /** `PARTNERS` in the constants module. */
  const Partners: seq<string> := ["Nihad Karulai", "Muhammed Rashad", "Softnova Digital"]

  /** The POST body; a field is None when missing or of the wrong JSON type. */
  datatype ExpenseBody = ExpenseBody(
    amount: Option<real>, description: Option<string>, date: Option<string>, payee: Option<string>,
    categoryId: Option<string>, labelIds: Option<seq<string>>, receiptUrl: Option<string>,
    receiptPublicId: Option<string>)

  /** `createExpenseSchema.parse` succeeds. */
  predicate ValidBody(b: ExpenseBody) {
    && b.amount.Some? && b.amount.value > 0.0
    && b.description.Some? && |b.description.value| >= 1
    && b.date.Some?
    && b.payee.Some? && b.payee.value in Partners
    && b.categoryId.Some? && |b.categoryId.value| >= 1
  }

  /** userName: the trimmed full name, else the first email address, else "Unknown". */
  function ExpenseUserName(u: ClerkUser): (r: string)
    ensures r != ""
    ensures FullName(u) != "" ==> r == FullName(u)
    ensures FullName(u) == "" && |u.emailAddresses| > 0 && u.emailAddresses[0] != "" ==> r == u.emailAddresses[0]
    ensures FullName(u) == "" && (|u.emailAddresses| == 0 || u.emailAddresses[0] == "") ==> r == "Unknown"
  {
    OrElse(FullName(u), OrElse(if |u.emailAddresses| > 0 then u.emailAddresses[0] else "", "Unknown"))
  }

  /** The label ids to link: none unless the list is present and non-empty. */
  function LabelLinks(labelIds: Option<seq<string>>): (r: seq<string>)
    ensures labelIds.None? ==> r == []
    ensures labelIds.Some? ==> r == labelIds.value
  {
    if labelIds.Some? && |labelIds.value| > 0 then labelIds.value else []
  }

  /** Why a create was refused: 401 without a user, 400 for a body the schema refuses. */
  function Refusal(userId: Option<string>, user: Option<ClerkUser>, body: ExpenseBody): (r: Option<int>)
    ensures r == Some(401) <==> userId.None? || user.None?
    ensures r == Some(400) <==> userId.Some? && user.Some? && !ValidBody(body)
    ensures r.None? <==> userId.Some? && user.Some? && ValidBody(body)
  {
    if userId.None? || user.None? then Some(401)
    else if !ValidBody(body) then Some(400)
    else None
  }

  /** The create handler as written: the schema has no `receiptPublicId`, so it is never stored. */
  function CreateAsWritten(userId: Option<string>, user: Option<ClerkUser>, body: ExpenseBody,
                           freshId: string, newDate: string -> Timestamp): (r: Result<Transaction, int>)
    ensures r.Failure? <==> Refusal(userId, user, body).Some?
    ensures r.Failure? ==> r.error == Refusal(userId, user, body).value
    ensures r.Success? ==> r.value.detail.ExpenseDetail? && r.value.detail.receiptPublicId.None?
  {
    var refusal := Refusal(userId, user, body);
    if refusal.Some? then Failure(refusal.value)
    else Success(Transaction(
      freshId, userId.value, ExpenseUserName(user.value), body.amount.value, newDate(body.date.value),
      body.categoryId.value,
      ExpenseDetail(body.payee.value, body.description, LabelLinks(body.labelIds), body.receiptUrl, None)))
  }

  /** A receipt uploaded with a new expense loses its public id: the stored row cannot name the asset. */
  lemma CreateDropsReceiptPublicId(newDate: string -> Timestamp)
    ensures var body := ExpenseBody(Some(12.0), Some("Paper"), Some("2024-05-01"), Some("Softnova Digital"),
                                    Some("office-supplies"), None, Some("https://host/r.png"), Some("receipts/r"));
      var r := CreateAsWritten(Some("u"), Some(ClerkUser(Some("Ann"), None, [])), body, "e1", newDate);
      r.Success? && r.value.detail.receiptUrl == Some("https://host/r.png") && r.value.detail.receiptPublicId == None
  {
  }

  /**
   * POST /api/expenses with the receipt's public id kept, as the update handler
   * (src/app/api/expenses/[id]/route.ts) stores it.
   */
  function Create(userId: Option<string>, user: Option<ClerkUser>, body: ExpenseBody,
                  freshId: string, newDate: string -> Timestamp): (r: Result<Transaction, int>)
    ensures r.Failure? <==> Refusal(userId, user, body).Some?
    ensures r.Failure? ==> r.error == Refusal(userId, user, body).value
    ensures r.Success? ==>
      var e := r.value;
      && e.id == freshId && e.userId == userId.value && e.userName == ExpenseUserName(user.value)
      && e.amount == body.amount.value && e.amount > 0.0 && e.date == newDate(body.date.value)
      && e.categoryId == body.categoryId.value
      && e.detail == ExpenseDetail(body.payee.value, body.description, LabelLinks(body.labelIds),
                                   body.receiptUrl, body.receiptPublicId)
      && PayeeOf(e) in Partners
  {
    var refusal := Refusal(userId, user, body);
    if refusal.Some? then Failure(refusal.value)
    else Success(Transaction(
      freshId, userId.value, ExpenseUserName(user.value), body.amount.value, newDate(body.date.value),
      body.categoryId.value,
      ExpenseDetail(body.payee.value, body.description, LabelLinks(body.labelIds), body.receiptUrl, body.receiptPublicId)))
  }

  /** The corrected create differs from the handler as written only in the receipt's public id. */
  lemma CreateDiffersOnlyInPublicId(userId: Option<string>, user: Option<ClerkUser>, body: ExpenseBody,
                                    freshId: string, newDate: string -> Timestamp)
    ensures Create(userId, user, body, freshId, newDate).Success? == CreateAsWritten(userId, user, body, freshId, newDate).Success?
    ensures Create(userId, user, body, freshId, newDate).Success? ==>
      var e := Create(userId, user, body, freshId, newDate).value;
      CreateAsWritten(userId, user, body, freshId, newDate).value == e.(detail := e.detail.(receiptPublicId := None))
  {
  }
}
