/**
 * /api/incomes: GET builds the list query with independent date bounds; POST
 * checks the required fields by truthiness alone and creates one income.
 */
module IncomesRoute {
  import opened Wrappers
  import opened JsString
  import opened Finance
  import opened Identity
  import opened Paging

  // ---------------------------------------------------------------------------
  // GET
  // ---------------------------------------------------------------------------

  datatype ListParams = ListParams(
    categoryId: Option<string>, startDate: Option<string>, endDate: Option<string>,
    search: Option<string>, page: Option<int>, limit: Option<int>)

  /** `where.date`: each bound present only when its parameter was given. */
  datatype DateBounds = DateBounds(gte: Option<Timestamp>, lte: Option<Timestamp>)

  datatype IncomeWhere = IncomeWhere(
    userId: string, categoryId: Option<string>, date: Option<DateBounds>, search: Option<string>)

  /** The filter the handler builds; `newDate` stands for `new Date(s)`. */
  function WhereFor(userId: string, q: ListParams, newDate: string -> Timestamp): IncomeWhere {
    IncomeWhere(
      userId,
      if Truthy(q.categoryId) then q.categoryId else None,
      if Truthy(q.startDate) || Truthy(q.endDate) then
        Some(DateBounds(
          if Truthy(q.startDate) then Some(newDate(q.startDate.value)) else None,
          if Truthy(q.endDate) then Some(newDate(q.endDate.value)) else None))
      else None,
      if Truthy(q.search) then q.search else None)
  }

  /** `where`, and `where.date` inside it, built up by successive assignments. */
  method BuildWhere(userId: string, q: ListParams, newDate: string -> Timestamp) returns (w: IncomeWhere)
    ensures w == WhereFor(userId, q, newDate)
  {
    w := IncomeWhere(userId, None, None, None);
    if Truthy(q.categoryId) {
      w := w.(categoryId := q.categoryId);
    }
    if Truthy(q.startDate) || Truthy(q.endDate) {
      var date := DateBounds(None, None);
      if Truthy(q.startDate) {
        date := date.(gte := Some(newDate(q.startDate.value)));
      }
      if Truthy(q.endDate) {
        date := date.(lte := Some(newDate(q.endDate.value)));
      }
      w := w.(date := Some(date));
    }
    if Truthy(q.search) {
      w := w.(search := q.search);
    }
  }

  function SourceOf(t: Transaction): string {
    if t.detail.IncomeDetail? then t.detail.source else ""
  }

  predicate SearchHits(t: Transaction, s: string) {
    (t.detail.description.Some? && ContainsInsensitive(t.detail.description.value, s))
    || ContainsInsensitive(SourceOf(t), s)
  }

  predicate MatchesWhere(w: IncomeWhere, t: Transaction) {
    && t.userId == w.userId
    && (w.categoryId.Some? ==> t.categoryId == w.categoryId.value)
    && (w.date.Some? && w.date.value.gte.Some? ==> w.date.value.gte.value <= t.date)
    && (w.date.Some? && w.date.value.lte.Some? ==> t.date <= w.date.value.lte.value)
    && (w.search.Some? ==> SearchHits(t, w.search.value))
  }

  /**
   * What the built filter selects: only the caller's rows; the category when given;
   * a start date bounds from below and an end date from above, each on its own;
   * the search text in description or source.
   */
  lemma WhereSelects(userId: string, q: ListParams, newDate: string -> Timestamp, t: Transaction)
    ensures MatchesWhere(WhereFor(userId, q, newDate), t) <==>
      && t.userId == userId
      && (Truthy(q.categoryId) ==> t.categoryId == q.categoryId.value)
      && (Truthy(q.startDate) ==> newDate(q.startDate.value) <= t.date)
      && (Truthy(q.endDate) ==> t.date <= newDate(q.endDate.value))
      && (Truthy(q.search) ==> SearchHits(t, q.search.value))
  {
  }

  /** Unlike the expense list, a start date alone already filters. */
  lemma StartDateAloneFilters(userId: string, newDate: string -> Timestamp, t: Transaction)
    requires t.userId == userId && t.date < newDate("2024-01-01")
    ensures !MatchesWhere(WhereFor(userId, ListParams(None, Some("2024-01-01"), None, None, None, None), newDate), t)
  {
  }

  datatype ListQuery = ListQuery(where: IncomeWhere, skip: int, take: int, page: int, limit: int)

  /** The handler's part of GET: 401 without a user, otherwise the query it sends (limit defaults to 50). */
  method Get(userId: Option<string>, q: ListParams, newDate: string -> Timestamp) returns (r: Result<ListQuery, int>)
    ensures userId.None? <==> r == Failure(401)
    ensures userId.Some? ==> r.Success?
    ensures r.Success? ==>
      var page, limit := ParamOr(q.page, 1), ParamOr(q.limit, 50);
      r.value == ListQuery(WhereFor(userId.value, q, newDate), Skip(page, limit), limit, page, limit)
  {
    if userId.None? {
      return Failure(401);
    }
    var page := ParamOr(q.page, 1);
    var limit := ParamOr(q.limit, 50);
    var where := BuildWhere(userId.value, q, newDate);
    return Success(ListQuery(where, (page - 1) * limit, limit, page, limit));
  }

  /** The rows the database selects and counts, in store order. */
  function Selected(store: seq<Transaction>, w: IncomeWhere): seq<Transaction> {
    if store == [] then []
    else Selected(store[..|store| - 1], w) + (if MatchesWhere(w, store[|store| - 1]) then [store[|store| - 1]] else [])
  }

  /** `count({ where })` counts exactly the store rows the filter matches. */
  lemma {:induction false} SelectedMembers(store: seq<Transaction>, w: IncomeWhere)
    ensures forall t :: t in Selected(store, w) <==> t in store && MatchesWhere(w, t)
    ensures |Selected(store, w)| <= |store|
  {
    if store != [] {
      var init := store[..|store| - 1];
      SelectedMembers(init, w);
      assert store == init + [store[|store| - 1]];
    }
  }

  /** The `pagination` object of the response. */
  datatype Pagination = Pagination(page: int, limit: int, total: nat, totalPages: PageCount)

  /** `pagination`: page and limit echoed, `total` the count, `totalPages` `Math.ceil(total / limit)`. */
  function PaginationFor(query: ListQuery, total: nat): (p: Pagination)
    ensures p.totalPages == TotalPages(total, query.limit)
    ensures p.page == query.page && p.limit == query.limit && p.total == total
  {
    Pagination(query.page, query.limit, total, TotalPages(total, query.limit))
  }

  /** Without page and limit parameters, pages hold fifty incomes and the count covers every matching row. */
  lemma DefaultPagination(userId: string, q: ListParams, newDate: string -> Timestamp, store: seq<Transaction>)
    requires q.page.None? && q.limit.None?
    ensures var query := ListQuery(WhereFor(userId, q, newDate), Skip(ParamOr(q.page, 1), ParamOr(q.limit, 50)),
                                   ParamOr(q.limit, 50), ParamOr(q.page, 1), ParamOr(q.limit, 50));
      var total := |Selected(store, query.where)|;
      var p := PaginationFor(query, total);
      && p.page == 1 && p.limit == 50 && query.skip == 0
      && p.totalPages.Pages? && (p.totalPages.n - 1) * 50 < total <= p.totalPages.n * 50
  {
  }

  // ---------------------------------------------------------------------------
  // POST
  // ---------------------------------------------------------------------------

  /** A JSON value of the body; objects and arrays are `JOther`. */
  datatype Json = JNull | JBool(b: bool) | JNumber(n: real) | JString(s: string) | JOther

  /** JavaScript truthiness of a body field; None is `undefined`. */
  predicate TruthyJson(v: Option<Json>) {
    v.Some? &&
    match v.value
    case JNull => false
    case JBool(b) => b
    case JNumber(n) => n != 0.0
    case JString(s) => s != ""
    case JOther => true
  }

  datatype IncomeBody = IncomeBody(
    amount: Option<Json>, description: Option<Json>, date: Option<Json>, source: Option<Json>, categoryId: Option<Json>)

  /** `!amount || !description || !date || !source || !categoryId`. */
  predicate MissingRequired(b: IncomeBody) {
    !TruthyJson(b.amount) || !TruthyJson(b.description) || !TruthyJson(b.date)
    || !TruthyJson(b.source) || !TruthyJson(b.categoryId)
  }

  /** userName: the trimmed full name, or "User". */
  function IncomeUserName(u: ClerkUser): (r: string)
    ensures r != ""
    ensures FullName(u) != "" ==> r == FullName(u)
    ensures FullName(u) == "" ==> r == "User"
  {
    OrElse(FullName(u), "User")
  }

  /** A string field as stored; a non-string value of a string column is refused by the database. */
  function StringField(v: Option<Json>): Option<string> {
    if v.Some? && v.value.JString? then Some(v.value.s) else None
  }

  /**
   * POST /api/incomes. `parseFloat` and `newDate` stand for the JavaScript
   * conversions. 401 without a user, 400 for a falsy required field, 500 when the
   * database refuses a value of the wrong type.
   */
  function Create(userId: Option<string>, user: Option<ClerkUser>, body: IncomeBody, freshId: string,
                  parseFloat: Json -> real, newDate: Json -> Timestamp): (r: Result<Transaction, int>)
    ensures userId.None? || user.None? <==> r == Failure(401)
    ensures userId.Some? && user.Some? && MissingRequired(body) ==> r == Failure(400)
    ensures userId.Some? && user.Some? && !MissingRequired(body) ==>
      (r.Success? <==> StringField(body.description).Some? && StringField(body.source).Some? && StringField(body.categoryId).Some?)
    ensures r.Failure? ==> r.error in {401, 400, 500}
    ensures userId.Some? && user.Some? && !MissingRequired(body) && r.Failure? ==> r.error == 500
    ensures r.Success? ==>
      && !MissingRequired(body)
      && r.value.id == freshId && r.value.userId == userId.value && r.value.userName == IncomeUserName(user.value)
      && r.value.amount == parseFloat(body.amount.value) && r.value.date == newDate(body.date.value)
      && Some(r.value.categoryId) == StringField(body.categoryId)
      && r.value.detail == IncomeDetail(SourceOf(r.value), StringField(body.description))
      && Some(SourceOf(r.value)) == StringField(body.source)
  {
    if userId.None? || user.None? then Failure(401)
    else if MissingRequired(body) then Failure(400)
    else
      var description, source, categoryId := StringField(body.description), StringField(body.source), StringField(body.categoryId);
      if description.None? || source.None? || categoryId.None? then Failure(500)
      else Success(Transaction(
        freshId, userId.value, IncomeUserName(user.value), parseFloat(body.amount.value), newDate(body.date.value),
        categoryId.value, IncomeDetail(source.value, description)))
  }

  /** The check is truthiness only: 0 is refused, a negative number and the string "0" pass. */
  lemma TruthinessOnly(rest: IncomeBody)
    requires TruthyJson(rest.description) && TruthyJson(rest.date) && TruthyJson(rest.source) && TruthyJson(rest.categoryId)
    ensures MissingRequired(rest.(amount := Some(JNumber(0.0))))
    ensures MissingRequired(rest.(amount := Some(JString(""))))
    ensures MissingRequired(rest.(amount := None))
    ensures !MissingRequired(rest.(amount := Some(JNumber(-5.0))))
    ensures !MissingRequired(rest.(amount := Some(JString("0"))))
  {
  }
}
