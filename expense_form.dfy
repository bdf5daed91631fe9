/**
 * The expense form's submission logic: the label toggle, the receipt decision
 * made before submitting, the normalisation of the submitted data and the
 * choice between create and update.
 */
module ExpenseForm {
  import opened Wrappers
  import opened JsString
  import opened Finance
  import ExpensesRoute
  import Identity

  // ---------------------------------------------------------------------------
  // toggleLabel
  // ---------------------------------------------------------------------------

  /** `ids.filter(x => x !== id)`. */
  function RemoveAll(ids: seq<string>, id: string): (r: seq<string>)
    ensures id !in r
    ensures forall x :: x in r <==> x in ids && x != id
    ensures |r| <= |ids|
  {
    if ids == [] then []
    else (if ids[0] == id then [] else [ids[0]]) + RemoveAll(ids[1..], id)
  }

  /** Filtering out an id that is not there changes nothing. */
  lemma {:induction false} RemoveAllAbsent(ids: seq<string>, id: string)
    requires id !in ids
    ensures RemoveAll(ids, id) == ids
  {
    if ids != [] {
      assert ids[0] != id;
      RemoveAllAbsent(ids[1..], id);
    }
  }

  /** Filtering works piecewise, so the ids kept stay in their order. */
  lemma {:induction false} RemoveAllConcat(a: seq<string>, b: seq<string>, id: string)
    ensures RemoveAll(a + b, id) == RemoveAll(a, id) + RemoveAll(b, id)
  {
    if a == [] {
      assert a + b == b;
    } else {
      assert (a + b)[0] == a[0];
      assert (a + b)[1..] == a[1..] + b;
      RemoveAllConcat(a[1..], b, id);
    }
  }

  /** Every other id keeps its number of occurrences. */
  lemma {:induction false} RemoveAllCounts(ids: seq<string>, id: string)
    ensures multiset(RemoveAll(ids, id))[id] == 0
    ensures forall x :: x != id ==> multiset(RemoveAll(ids, id))[x] == multiset(ids)[x]
  {
    if ids != [] {
      RemoveAllCounts(ids[1..], id);
      var head := if ids[0] == id then [] else [ids[0]];
      assert ids == [ids[0]] + ids[1..];
      assert multiset(ids) == multiset([ids[0]]) + multiset(ids[1..]);
      assert multiset(RemoveAll(ids, id)) == multiset(head) + multiset(RemoveAll(ids[1..], id));
    }
  }

  /** `toggleLabel`: remove every occurrence of a selected id, append an unselected one. */
  function ToggleLabel(current: seq<string>, id: string): seq<string> {
    if id in current then RemoveAll(current, id) else current + [id]
  }

  /** The toggled id changes membership; no other id does. */
  lemma ToggleFlipsMembership(current: seq<string>, id: string)
    ensures id in ToggleLabel(current, id) <==> id !in current
    ensures forall x :: x != id ==> (x in ToggleLabel(current, id) <==> x in current)
  {
  }

  /** A present id leaves with all its copies, and the others keep their order and counts. */
  lemma TogglePresent(current: seq<string>, id: string, a: seq<string>, b: seq<string>)
    requires id in current
    requires current == a + [id] + b
    ensures ToggleLabel(current, id) == RemoveAll(a, id) + RemoveAll(b, id)
    ensures multiset(ToggleLabel(current, id))[id] == 0
    ensures forall x :: x != id ==> multiset(ToggleLabel(current, id))[x] == multiset(current)[x]
  {
    assert RemoveAll(a + [id], id) == RemoveAll(a, id) by {
      RemoveAllConcat(a, [id], id);
      assert RemoveAll([id], id) == [];
    }
    assert RemoveAll(current, id) == RemoveAll(a, id) + RemoveAll(b, id) by {
      RemoveAllConcat(a + [id], b, id);
    }
    RemoveAllCounts(current, id);
  }

  /** An absent id is appended at the end. */
  lemma ToggleAbsent(current: seq<string>, id: string)
    requires id !in current
    ensures ToggleLabel(current, id) == current + [id]
    ensures |ToggleLabel(current, id)| == |current| + 1
  {
  }

  /** Toggling an absent id twice gives back the original list. */
  lemma ToggleTwiceRestores(current: seq<string>, id: string)
    requires id !in current
    ensures ToggleLabel(ToggleLabel(current, id), id) == current
  {
    assert id in current + [id];
    RemoveAllConcat(current, [id], id);
    RemoveAllAbsent(current, id);
    assert RemoveAll([id], id) == [];
  }

  // ---------------------------------------------------------------------------
  // Receipt
  // ---------------------------------------------------------------------------

  /** `x || undefined` on an optional string: the empty string becomes undefined. */
  function Normalize(v: Option<string>): (r: Option<string>)
    ensures r.Some? <==> Truthy(v)
    ensures r.Some? ==> r == v
  {
    if Truthy(v) then v else None
  }

  /** The receipt fields sent with the expense. */
  datatype Receipt = Receipt(url: Option<string>, publicId: Option<string>)

  /** What `/api/upload` answered, as the form reads it. */
  datatype Upload = UploadOk(url: Option<string>, publicId: Option<string>) | UploadFailed

  /** The form's starting receipt: the edited expense's fields with "" read as undefined. */
  function ExistingReceipt(expense: Option<Transaction>): (r: Receipt)
    ensures r.url.Some? ==> r.url.value != ""
    ensures r.publicId.Some? ==> r.publicId.value != ""
    ensures expense.None? ==> r == Receipt(None, None)
  {
    if expense.Some? && expense.value.detail.ExpenseDetail? then
      Receipt(Normalize(expense.value.detail.receiptUrl), Normalize(expense.value.detail.receiptPublicId))
    else Receipt(None, None)
  }

  /**
   * The first half of `onSubmit`: upload a selected file, or keep or clear the
   * existing receipt. None means the submission is abandoned.
   */
  method ResolveReceipt(existing: Receipt, hasFile: bool, upload: Upload) returns (r: Option<Receipt>)
    ensures r.None? <==> hasFile && upload.UploadFailed?
    ensures hasFile && upload.UploadOk? ==> r == Some(Receipt(upload.url, upload.publicId))
    ensures !hasFile && Truthy(existing.url) ==> r == Some(existing)
    ensures !hasFile && !Truthy(existing.url) ==> r == Some(Receipt(None, None))
  {
    var receiptUrl := existing.url;
    var receiptPublicId := existing.publicId;
    if hasFile {
      if upload.UploadFailed? {
        return None;
      }
      receiptUrl := upload.url;
      receiptPublicId := upload.publicId;
    } else if !Truthy(existing.url) {
      receiptUrl := None;
      receiptPublicId := None;
    }
    r := Some(Receipt(receiptUrl, receiptPublicId));
  }

  // ---------------------------------------------------------------------------
  // expenseData and the mutation
  // ---------------------------------------------------------------------------

  /** `data.description?.trim() || undefined`. */
  function NormalizeDescription(d: Option<string>): (r: Option<string>)
    ensures r.None? <==> d.None? || AllWhitespace(d.value)
    ensures r.Some? ==> r.value == Trim(d.value) && r.value != ""
    ensures r.Some? ==> !IsWhitespace(r.value[0]) && !IsWhitespace(r.value[|r.value| - 1])
  {
    if d.Some? && Trim(d.value) != "" then Some(Trim(d.value)) else None
  }

  /** The form's values once its schema accepts them. */
  datatype FormValues = FormValues(
    amount: string, description: Option<string>, date: Timestamp, payee: string,
    categoryId: string, labelIds: seq<string>)

  /** The body handed to the create or update mutation. */
  datatype ExpenseData = ExpenseData(
    amount: real, date: string, description: Option<string>, payee: string,
    categoryId: string, labelIds: seq<string>, receiptUrl: Option<string>, receiptPublicId: Option<string>)

  datatype Mutation = CreateExpense(data: ExpenseData) | UpdateExpense(id: string, data: ExpenseData)

  /** `expenseData`: amount parsed, date as an ISO string, description normalised, the resolved receipt. */
  function ExpenseDataFor(v: FormValues, receipt: Receipt, parseFloat: string -> real, toIso: Timestamp -> string): (d: ExpenseData)
    ensures d.receiptUrl == receipt.url && d.receiptPublicId == receipt.publicId
    ensures d.description == NormalizeDescription(v.description)
    ensures d.payee == v.payee && d.categoryId == v.categoryId && d.labelIds == v.labelIds
    ensures d.amount == parseFloat(v.amount) && d.date == toIso(v.date)
  {
    ExpenseData(parseFloat(v.amount), toIso(v.date), NormalizeDescription(v.description), v.payee,
                v.categoryId, v.labelIds, receipt.url, receipt.publicId)
  }

  /** The remove-receipt button: both existing-receipt state values become undefined. */
  function RemoveReceipt(existing: Receipt): (r: Receipt)
    ensures !Truthy(r.url) && !Truthy(r.publicId)
  {
    Receipt(None, None)
  }

  /**
   * `onSubmit`: resolve the receipt, then update the edited expense by its id or
   * create a new one. None when the upload failed and nothing is submitted.
   * `existing` is the form's existing-receipt state: ExistingReceipt of the
   * edited expense when the form opens, and RemoveReceipt of it once the
   * remove button was pressed.
   */
  method OnSubmit(v: FormValues, editing: Option<Transaction>, existing: Receipt, hasFile: bool, upload: Upload,
                  parseFloat: string -> real, toIso: Timestamp -> string) returns (m: Option<Mutation>)
    ensures m.None? <==> hasFile && upload.UploadFailed?
    ensures m.Some? ==> (m.value.UpdateExpense? <==> editing.Some?)
    ensures m.Some? && editing.Some? ==> m.value.id == editing.value.id
    ensures hasFile && upload.UploadOk? ==>
      m.Some? && m.value.data == ExpenseDataFor(v, Receipt(upload.url, upload.publicId), parseFloat, toIso)
    ensures !hasFile && Truthy(existing.url) ==>
      m.Some? && m.value.data == ExpenseDataFor(v, existing, parseFloat, toIso)
    ensures !hasFile && !Truthy(existing.url) ==>
      m.Some? && m.value.data == ExpenseDataFor(v, Receipt(None, None), parseFloat, toIso)
  {
    var receipt := ResolveReceipt(existing, hasFile, upload);
    if receipt.None? {
      return None;
    }
    var data := ExpenseDataFor(v, receipt.value, parseFloat, toIso);
    if editing.Some? {
      m := Some(UpdateExpense(editing.value.id, data));
    } else {
      m := Some(CreateExpense(data));
    }
  }

  /** The POST body the create mutation sends. */
  function PostBody(d: ExpenseData): ExpensesRoute.ExpenseBody {
    ExpensesRoute.ExpenseBody(Some(d.amount), d.description, Some(d.date), Some(d.payee),
                              Some(d.categoryId), Some(d.labelIds), d.receiptUrl, d.receiptPublicId)
  }

  /**
   * A receipt uploaded while creating an expense: the handler as written stores
   * its url but not its public id; the corrected handler stores both.
   */
  lemma UploadedReceiptOnCreate(v: FormValues, url: string, publicId: string, userId: string,
                                user: Identity.ClerkUser, freshId: string, parseFloat: string -> real,
                                toIso: Timestamp -> string, newDate: string -> Timestamp)
    requires ExpensesRoute.ValidBody(PostBody(ExpenseDataFor(v, Receipt(Some(url), Some(publicId)), parseFloat, toIso)))
    ensures var body := PostBody(ExpenseDataFor(v, Receipt(Some(url), Some(publicId)), parseFloat, toIso));
      var written := ExpensesRoute.CreateAsWritten(Some(userId), Some(user), body, freshId, newDate);
      var fixed := ExpensesRoute.Create(Some(userId), Some(user), body, freshId, newDate);
      && written.Success? && written.value.detail.receiptUrl == Some(url) && written.value.detail.receiptPublicId.None?
      && fixed.Success? && fixed.value.detail.receiptUrl == Some(url) && fixed.value.detail.receiptPublicId == Some(publicId)
  {
    var body := PostBody(ExpenseDataFor(v, Receipt(Some(url), Some(publicId)), parseFloat, toIso));
    ExpensesRoute.CreateDiffersOnlyInPublicId(Some(userId), Some(user), body, freshId, newDate);
  }

  /**
   * The form leaves the description optional and sends a blank one as `undefined`,
   * but the create schema requires a non-empty description: such a new expense is
   * refused with 400 by either create handler.
   */
  lemma BlankDescriptionRefusedOnCreate(v: FormValues, receipt: Receipt, userId: string,
                                        user: Identity.ClerkUser, freshId: string, parseFloat: string -> real,
                                        toIso: Timestamp -> string, newDate: string -> Timestamp)
    requires v.description.None? || AllWhitespace(v.description.value)
    ensures var body := PostBody(ExpenseDataFor(v, receipt, parseFloat, toIso));
      && ExpensesRoute.CreateAsWritten(Some(userId), Some(user), body, freshId, newDate) == Failure(400)
      && ExpensesRoute.Create(Some(userId), Some(user), body, freshId, newDate) == Failure(400)
  {
  }
}
