/**
 * `seedCategories`: upsert the eight default categories as EXPENSE categories,
 * leaving any row whose id already exists as it is.
 */
module SeedCategories {
  import opened Wrappers
  import opened Finance
  import opened CategoryStore

  /** The rows `seedCategories` asks to create, in list order. */
  function ExpenseDefaults(): seq<Category> {
    SeedRows(Defaults, Some(ExpenseCategory))
  }

  /** One upsert per default category, in list order. */
  method SeedCategories(table: Table)
    modifies table
    ensures table.rows == Seeded(old(table.rows), ExpenseDefaults())
  {
    var cats := ExpenseDefaults();
    for i := 0 to |Defaults|
      invariant table.rows == Seeded(old(table.rows), cats[..i])
    {
      var category := Defaults[i];
      assert cats[..i + 1][..i] == cats[..i];
      assert cats[..i + 1][i] == cats[i] == SeedRow(category, Some(ExpenseCategory));
      table.Upsert(Category(Slug(category.name), category.name, Some(ExpenseCategory), category.icon, category.color, true));
    }
    assert cats[..|Defaults|] == cats;
  }

  /** Running the seed again changes nothing. */
  lemma SeedCategoriesIdempotent(rows: seq<Category>)
    ensures Seeded(Seeded(rows, ExpenseDefaults()), ExpenseDefaults()) == Seeded(rows, ExpenseDefaults())
  {
    SeedTwiceIsOnce(rows, ExpenseDefaults());
  }

  /** On an empty table the seed creates exactly the eight defaults, in order, with distinct ids. */
  lemma SeedEmptyCategories()
    ensures Seeded([], ExpenseDefaults()) == ExpenseDefaults()
    ensures |ExpenseDefaults()| == 8
    ensures UniqueIds(ExpenseDefaults())
  {
    DefaultRowsUnique(Defaults, Some(ExpenseCategory));
    SeedEmptyTable(ExpenseDefaults());
  }
}
