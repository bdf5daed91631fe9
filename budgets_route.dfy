/**
 * /api/budgets: GET lists the caller's budgets; POST validates the body against
 * `createBudgetSchema`, refuses a second budget for the same period and
 * category, and otherwise inserts one. The budget table is a sequence field the
 * store's methods reassign.
 */
module BudgetsRoute {
  import opened Wrappers
  import opened Finance

  /** A JSON field that may be absent, null, a string, or of another type. */
  datatype NullableString = Undefined | Null | Str(s: string) | NotAString

  /** The POST body: `amount` is None when missing or not a number, `period` when missing or not a string. */
  datatype CreateBudgetBody = CreateBudgetBody(amount: Option<real>, period: Option<string>, categoryId: NullableString)

  /** A body that passed the schema. */
  datatype CreateBudgetInput = CreateBudgetInput(amount: real, period: string, categoryId: NullableString)

  /** `createBudgetSchema.parse`: a positive number, one of the three periods, an optional nullable string. */
  function ParseBody(body: CreateBudgetBody): (r: Option<CreateBudgetInput>)
    ensures r.Some? <==>
      body.amount.Some? && body.amount.value > 0.0 && body.period.Some? && IsPeriod(body.period.value)
      && !body.categoryId.NotAString?
    ensures r.Some? ==> r.value.amount > 0.0 && IsPeriod(r.value.period)
    ensures r.Some? ==> r.value == CreateBudgetInput(body.amount.value, body.period.value, body.categoryId)
  {
    if body.amount.Some? && body.amount.value > 0.0 && body.period.Some? && IsPeriod(body.period.value)
       && !body.categoryId.NotAString?
    then Some(CreateBudgetInput(body.amount.value, body.period.value, body.categoryId))
    else None
  }

  /** `validatedData.categoryId || null`: undefined, null and "" all become null. */
  function NormalizedCategory(c: NullableString): (r: Option<string>)
    ensures r.None? <==> c.Undefined? || c.Null? || c == Str("") || c.NotAString?
    ensures r.Some? ==> r.value != "" && c == Str(r.value)
  {
    match c
    case Str(s) => if s != "" then Some(s) else None
    case _ => None
  }

  /** Undefined, null and the empty string are the same slot as the overall budget. */
  lemma EmptyCategoriesCollide()
    ensures NormalizedCategory(Undefined) == NormalizedCategory(Null) == NormalizedCategory(Str("")) == None
  {
  }

  /** The (userId, period, categoryId) a budget occupies. */
  datatype Slot = Slot(userId: string, period: string, categoryId: Option<string>)

  function SlotOf(b: Budget): Slot {
    Slot(b.userId, b.period, b.categoryId)
  }

  /** `findFirst({ where: { userId, period, categoryId } })`. */
  function FindFirst(bs: seq<Budget>, slot: Slot): (r: Option<Budget>)
    ensures r.Some? ==> r.value in bs && SlotOf(r.value) == slot
    ensures r.None? <==> forall b :: b in bs ==> SlotOf(b) != slot
  {
    if bs == [] then None
    else if SlotOf(bs[0]) == slot then Some(bs[0])
    else
      var r := FindFirst(bs[1..], slot);
      assert forall b :: b in bs <==> b == bs[0] || b in bs[1..];
      r
  }

  /** Why a create was refused. */
  datatype CreateError = Unauthorized | InvalidData | AlreadyExists | ServerError

  /** The response status of each refusal. */
  function Status(e: CreateError): int {
    match e
    case Unauthorized => 401
    case InvalidData => 400
    case AlreadyExists => 400
    case ServerError => 500
  }

  class BudgetStore {
    var budgets: seq<Budget>

    /** At most one budget per slot, ids unique, and no empty-string category stored. */
    predicate Valid()
      reads this
    {
      && (forall i, j :: 0 <= i < j < |budgets| ==> SlotOf(budgets[i]) != SlotOf(budgets[j]))
      && (forall i, j :: 0 <= i < j < |budgets| ==> budgets[i].id != budgets[j].id)
      && (forall b :: b in budgets ==> b.categoryId != Some(""))
    }

    constructor ()
      ensures Valid() && budgets == []
    {
      budgets := [];
    }

    /** GET /api/budgets: 401 without a user, otherwise the caller's budgets and no one else's. */
    method List(userId: Option<string>) returns (r: Result<seq<Budget>, int>)
      ensures userId.None? <==> r == Failure(401)
      ensures userId.Some? ==> r.Success?
      ensures r.Success? ==> r.value == BudgetsOf(budgets, userId.value)
      ensures r.Success? ==> forall b :: b in r.value <==> b in budgets && b.userId == userId.value
    {
      if userId.None? {
        return Failure(401);
      }
      BudgetsOfMembers(budgets, userId.value);
      return Success(BudgetsOf(budgets, userId.value));
    }

    /**
     * POST /api/budgets. `freshId` is the id the database generates for the new
     * row and `categoryIds` the ids in the category table. Refusals leave the
     * table unchanged; success appends exactly one budget owned by the caller.
     * A category id that names no category makes the insert throw: 500.
     */
    method Create(userId: Option<string>, body: CreateBudgetBody, freshId: string, categoryIds: set<string>)
      returns (r: Result<Budget, CreateError>)
      requires Valid()
      requires forall b :: b in budgets ==> b.id != freshId
      modifies this
      ensures Valid()
      ensures userId.None? ==> r == Failure(Unauthorized)
      ensures userId.Some? && ParseBody(body).None? ==> r == Failure(InvalidData)
      ensures userId.Some? && ParseBody(body).Some? ==>
        var input := ParseBody(body).value;
        var slot := Slot(userId.value, input.period, NormalizedCategory(input.categoryId));
        if exists b :: b in old(budgets) && SlotOf(b) == slot then r == Failure(AlreadyExists)
        else if slot.categoryId.Some? && slot.categoryId.value !in categoryIds then r == Failure(ServerError)
        else r == Success(Budget(freshId, userId.value, input.amount, input.period, slot.categoryId))
      ensures r.Failure? ==> budgets == old(budgets)
      ensures r.Success? ==> budgets == old(budgets) + [r.value]
    {
      if userId.None? {
        return Failure(Unauthorized);
      }
      var parsed := ParseBody(body);
      if parsed.None? {
        return Failure(InvalidData);
      }
      var input := parsed.value;
      var categoryId := NormalizedCategory(input.categoryId);
      var existing := FindFirst(budgets, Slot(userId.value, input.period, categoryId));
      if existing.Some? {
        return Failure(AlreadyExists);
      }
      if categoryId.Some? && categoryId.value !in categoryIds {
        return Failure(ServerError);
      }
      var budget := Budget(freshId, userId.value, input.amount, input.period, categoryId);
      budgets := budgets + [budget];
      r := Success(budget);
    }
  }

  /** After any sequence of creates, no two budgets of a user share a period and category. */
  method CreateTwice(store: BudgetStore, userId: string, body: CreateBudgetBody, id1: string, id2: string,
                     categoryIds: set<string>)
    returns (first: Result<Budget, CreateError>, second: Result<Budget, CreateError>)
    requires store.Valid() && id1 != id2
    requires forall b :: b in store.budgets ==> b.id != id1 && b.id != id2
    modifies store
    ensures store.Valid()
    ensures first.Success? ==> second == Failure(AlreadyExists)
    ensures |store.budgets| <= |old(store.budgets)| + 1
  {
    first := store.Create(Some(userId), body, id1, categoryIds);
    second := store.Create(Some(userId), body, id2, categoryIds);
    if first.Success? {
      assert first.value in old(store.budgets) + [first.value];
    }
  }
}
