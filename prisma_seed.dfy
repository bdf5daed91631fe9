/**
 * The database seed script: the same upsert loop as `seedCategories`, except
 * that the rows it creates carry no category type.
 */
module PrismaSeed {
  import opened Wrappers
  import opened Finance
  import opened CategoryStore

  /** The rows the seed script asks to create: no `type` field, so no kind. */
  function UntypedDefaults(): seq<Category> {
    SeedRows(Defaults, None)
  }

  /** `main`: one upsert per default category, in list order; the log lines are not modelled. */
  method Seed(table: Table)
    modifies table
    ensures table.rows == Seeded(old(table.rows), UntypedDefaults())
  {
    var cats := UntypedDefaults();
    for i := 0 to |Defaults|
      invariant table.rows == Seeded(old(table.rows), cats[..i])
    {
      var category := Defaults[i];
      var id := Slug(category.name);
      assert cats[..i + 1][..i] == cats[..i];
      assert cats[..i + 1][i] == cats[i] == SeedRow(category, None);
      table.Upsert(Category(id, category.name, None, category.icon, category.color, true));
    }
    assert cats[..|Defaults|] == cats;
  }

  /** Both seeds use the same ids, so after either one the other creates nothing. */
  lemma SeedsShareIds(rows: seq<Category>)
    ensures Seeded(Seeded(rows, UntypedDefaults()), SeedRows(Defaults, Some(ExpenseCategory)))
         == Seeded(rows, UntypedDefaults())
    ensures Seeded(Seeded(rows, SeedRows(Defaults, Some(ExpenseCategory))), UntypedDefaults())
         == Seeded(rows, SeedRows(Defaults, Some(ExpenseCategory)))
  {
    SameIdsSeedNothing(rows, Defaults, None, Some(ExpenseCategory));
    SameIdsSeedNothing(rows, Defaults, Some(ExpenseCategory), None);
  }
}
