/**
 * The category table as the two seed scripts see it: the default categories,
 * the slug that becomes a default category's id, and `upsert` with an empty
 * `update`, which creates a missing row and leaves an existing one alone.
 */
module CategoryStore {
  import opened Wrappers
  import opened JsString
  import opened Finance

  /** An entry of `defaultCategories`. */
  datatype DefaultCategory = DefaultCategory(name: string, icon: string, color: string)

  /** `defaultCategories`; both seed scripts declare this same list. */
  const Defaults: seq<DefaultCategory> := [
    DefaultCategory("Office Supplies", "package", "#2ECC71"),
    DefaultCategory("Travel", "plane", "#3498DB"),
    DefaultCategory("Software/Subscriptions", "monitor", "#9B59B6"),
    DefaultCategory("Marketing", "megaphone", "#E74C3C"),
    DefaultCategory("Utilities", "zap", "#F39C12"),
    DefaultCategory("Meals", "utensils", "#1ABC9C"),
    DefaultCategory("Equipment", "laptop", "#34495E"),
    DefaultCategory("Other", "folder", "#95A5A6")
  ]

  // ---------------------------------------------------------------------------
  // Slug
  // ---------------------------------------------------------------------------

  /** `.replace(/\//g, "-")`. */
  function ReplaceSlashes(s: string): (r: string)
    ensures |r| == |s| && '/' !in r
    ensures forall i :: 0 <= i < |s| && s[i] != '/' ==> r[i] == s[i]
  {
    seq(|s|, i requires 0 <= i < |s| => if s[i] == '/' then '-' else s[i])
  }

  /** `.replace(/\s+/g, "-")`: every maximal run of white space becomes one "-". */
  function CollapseWhitespace(s: string): (r: string)
    ensures forall i :: 0 <= i < |r| ==> !IsWhitespace(r[i])
    ensures forall c :: c in r ==> c in s || c == '-'
    decreases |s|
  {
    if s == [] then []
    else if IsWhitespace(s[0]) then
      var rest := TrimStart(s);
      assert forall c :: c in rest ==> c in s;
      "-" + CollapseWhitespace(rest)
    else [s[0]] + CollapseWhitespace(s[1..])
  }

  /** A string without white space comes back unchanged. */
  lemma {:induction false} CollapseWithoutWhitespace(s: string)
    requires forall i :: 0 <= i < |s| ==> !IsWhitespace(s[i])
    ensures CollapseWhitespace(s) == s
  {
    if s != [] {
      assert !IsWhitespace(s[0]);
      CollapseWithoutWhitespace(s[1..]);
    }
  }

  /** Text, one run of white space, text: the run becomes a single "-". */
  lemma {:induction false} CollapseOneRun(a: string, w: string, b: string)
    requires forall i :: 0 <= i < |a| ==> !IsWhitespace(a[i])
    requires w != [] && AllWhitespace(w)
    requires b != [] ==> !IsWhitespace(b[0])
    ensures CollapseWhitespace(a + w + b) == CollapseWhitespace(a) + "-" + CollapseWhitespace(b)
  {
    var s := a + w + b;
    if a == [] {
      assert s == w + b;
      CollapseLeadingRun(w, b);
    } else {
      assert s[0] == a[0] && !IsWhitespace(a[0]);
      assert s[1..] == a[1..] + w + b;
      assert CollapseWhitespace(s) == [a[0]] + CollapseWhitespace(s[1..]);
      assert CollapseWhitespace(a) == [a[0]] + CollapseWhitespace(a[1..]);
      assert CollapseWhitespace(s[1..]) == CollapseWhitespace(a[1..]) + "-" + CollapseWhitespace(b) by {
        CollapseOneRun(a[1..], w, b);
      }
    }
  }

  /** A leading run of white space becomes one "-" before the rest. */
  lemma CollapseLeadingRun(w: string, b: string)
    requires w != [] && AllWhitespace(w)
    requires b != [] ==> !IsWhitespace(b[0])
    ensures CollapseWhitespace(w + b) == "-" + CollapseWhitespace(b)
  {
    var s := w + b;
    assert s[0] == w[0];
    assert TrimStart(s) == b by { TrimStartRun(w, b); }
  }

  /** `trimStart` of a run of white space followed by text is the text. */
  lemma {:induction false} TrimStartRun(w: string, b: string)
    requires AllWhitespace(w)
    requires b != [] ==> !IsWhitespace(b[0])
    ensures TrimStart(w + b) == b
  {
    if w != [] {
      assert (w + b)[0] == w[0];
      assert (w + b)[1..] == w[1..] + b;
      TrimStartRun(w[1..], b);
    } else {
      assert w + b == b;
    }
  }

  /** The id of a default category: lower-cased, "/" to "-", white-space runs to "-". */
  function Slug(name: string): (r: string)
    ensures '/' !in r
    ensures forall i :: 0 <= i < |r| ==> !IsWhitespace(r[i])
    ensures forall i :: 0 <= i < |r| ==> !('A' <= r[i] <= 'Z')
  {
    var lowered := Lower(name);
    var slashed := ReplaceSlashes(lowered);
    assert forall c :: c in slashed ==> !('A' <= c <= 'Z');
    var r := CollapseWhitespace(slashed);
    assert forall i :: 0 <= i < |r| ==> r[i] in r;
    r
  }

  /** The characters of the default ids: lower-case ASCII letters and "-". */
  predicate SlugChars(s: string) {
    forall i :: 0 <= i < |s| ==> 'a' <= s[i] <= 'z' || s[i] == '-'
  }

  /** A name made of slug characters once lower-cased and "/"-replaced is that text. */
  lemma SlugOneWord(name: string, id: string)
    requires ReplaceSlashes(Lower(name)) == id
    requires SlugChars(id)
    ensures Slug(name) == id
  {
    CollapseWithoutWhitespace(id);
  }

  /** Two words around one space: the space becomes "-". */
  lemma SlugTwoWords(name: string, a: string, b: string)
    requires ReplaceSlashes(Lower(name)) == a + " " + b
    requires SlugChars(a) && SlugChars(b) && b != []
    ensures Slug(name) == a + "-" + b
  {
    CollapseOneRun(a, " ", b);
    CollapseWithoutWhitespace(a);
    CollapseWithoutWhitespace(b);
  }

  /** "Office Supplies" becomes "office-supplies". */
  lemma SlugOfficeSupplies(name: string)
    requires name == "Office Supplies"
    ensures Slug(name) == "office-supplies"
  {
    assert ReplaceSlashes(Lower(name)) == "office" + " " + "supplies";
    var a, b := "office", "supplies";
    assert SlugChars(a) && SlugChars(b);
    SlugTwoWords(name, a, b);
  }

  /** "Software/Subscriptions" becomes "software-subscriptions". */
  lemma SlugSoftwareSubscriptions(name: string)
    requires name == "Software/Subscriptions"
    ensures Slug(name) == "software-subscriptions"
  {
    var id := "software-subscriptions";
    assert ReplaceSlashes(Lower(name)) == id;
    assert SlugChars(id) by { SlugCharsLong(id); }
    SlugOneWord(name, id);
  }

  lemma SlugCharsLong(id: string)
    requires id == "software-subscriptions"
    ensures SlugChars(id)
  {
  }

  /** The ids the seed scripts derive, in list order. */
  function DefaultIds(ds: seq<DefaultCategory>): (r: seq<string>)
    ensures |r| == |ds| && forall i :: 0 <= i < |ds| ==> r[i] == Slug(ds[i].name)
  {
    seq(|ds|, i requires 0 <= i < |ds| => Slug(ds[i].name))
  }

  /** A capitalised word: only its first letter changes. */
  lemma SlugCapitalised(name: string)
    requires name != [] && 'A' <= name[0] <= 'Z'
    requires forall i :: 1 <= i < |name| ==> 'a' <= name[i] <= 'z'
    ensures Slug(name) == [LowerChar(name[0])] + name[1..]
  {
    var id := [LowerChar(name[0])] + name[1..];
    assert ReplaceSlashes(Lower(name)) == id;
    SlugOneWord(name, id);
  }

  // The six one-word default names.
  lemma SlugTravel(n: string) requires n == "Travel" ensures Slug(n) == "travel" { SlugCapitalised(n); }
  lemma SlugMarketing(n: string) requires n == "Marketing" ensures Slug(n) == "marketing" { SlugCapitalised(n); }
  lemma SlugUtilities(n: string) requires n == "Utilities" ensures Slug(n) == "utilities" { SlugCapitalised(n); }
  lemma SlugMeals(n: string) requires n == "Meals" ensures Slug(n) == "meals" { SlugCapitalised(n); }
  lemma SlugEquipment(n: string) requires n == "Equipment" ensures Slug(n) == "equipment" { SlugCapitalised(n); }
  lemma SlugOther(n: string) requires n == "Other" ensures Slug(n) == "other" { SlugCapitalised(n); }

  const DefaultIdList: seq<string> := ["office-supplies", "travel", "software-subscriptions", "marketing",
                                        "utilities", "meals", "equipment", "other"]

  /** The names of `defaultCategories`, in order. */
  lemma DefaultNames(ds: seq<DefaultCategory>)
    requires ds == Defaults
    ensures |ds| == 8
    ensures ds[0].name == "Office Supplies" && ds[1].name == "Travel" && ds[2].name == "Software/Subscriptions"
    ensures ds[3].name == "Marketing" && ds[4].name == "Utilities" && ds[5].name == "Meals"
    ensures ds[6].name == "Equipment" && ds[7].name == "Other"
  {
  }

  /** The eight default categories get eight distinct ids. */
  lemma DefaultSlugs(ds: seq<DefaultCategory>)
    requires ds == Defaults
    ensures DefaultIds(ds) == DefaultIdList
    ensures NoDuplicates(DefaultIds(ds))
  {
    DefaultNames(ds);
    var ids := DefaultIds(ds);
    assert ids[0] == "office-supplies" by { SlugOfficeSupplies(ds[0].name); }
    assert ids[1] == "travel" by { SlugTravel(ds[1].name); }
    assert ids[2] == "software-subscriptions" by { SlugSoftwareSubscriptions(ds[2].name); }
    assert ids[3] == "marketing" by { SlugMarketing(ds[3].name); }
    assert ids[4] == "utilities" by { SlugUtilities(ds[4].name); }
    assert ids[5] == "meals" by { SlugMeals(ds[5].name); }
    assert ids[6] == "equipment" by { SlugEquipment(ds[6].name); }
    assert ids[7] == "other" by { SlugOther(ds[7].name); }
    DefaultIdListIs(ids);
    DefaultIdListDistinct();
  }

  lemma DefaultIdListIs(ids: seq<string>)
    requires |ids| == 8
    requires ids[0] == "office-supplies" && ids[1] == "travel" && ids[2] == "software-subscriptions"
    requires ids[3] == "marketing" && ids[4] == "utilities" && ids[5] == "meals"
    requires ids[6] == "equipment" && ids[7] == "other"
    ensures ids == DefaultIdList
  {
  }

  lemma DefaultIdListDistinct()
    ensures NoDuplicates(DefaultIdList)
  {
  }

  // ---------------------------------------------------------------------------
  // upsert with `update: {}`
  // ---------------------------------------------------------------------------

  /** The row a seed script creates for a default category. */
  function SeedRow(d: DefaultCategory, kind: Option<CategoryType>): (c: Category)
    ensures c.id == Slug(d.name) && c.name == d.name && c.kind == kind && c.isDefault
  {
    Category(Slug(d.name), d.name, kind, d.icon, d.color, true)
  }

  /** The rows for a list of default categories, in list order. */
  function SeedRows(ds: seq<DefaultCategory>, kind: Option<CategoryType>): (r: seq<Category>)
    ensures |r| == |ds| && forall i :: 0 <= i < |ds| ==> r[i] == SeedRow(ds[i], kind)
  {
    seq(|ds|, i requires 0 <= i < |ds| => SeedRow(ds[i], kind))
  }

  predicate HasId(rows: seq<Category>, id: string) {
    exists c :: c in rows && c.id == id
  }

  /** Category ids are primary keys. */
  predicate UniqueIds(rows: seq<Category>) {
    forall i, j :: 0 <= i < j < |rows| ==> rows[i].id != rows[j].id
  }

  /** `upsert({ where: { id }, update: {}, create: c })`: create when the id is missing, otherwise change nothing. */
  function Upserted(rows: seq<Category>, c: Category): seq<Category> {
    if HasId(rows, c.id) then rows else rows + [c]
  }

  /** The table after one upsert per row of `cs`, in order. */
  function Seeded(rows: seq<Category>, cs: seq<Category>): seq<Category> {
    if cs == [] then rows else Upserted(Seeded(rows, cs[..|cs| - 1]), cs[|cs| - 1])
  }

  /** Seeding only appends: every existing row stays as it was, where it was. */
  lemma {:induction false} SeededKeepsRows(rows: seq<Category>, cs: seq<Category>)
    ensures |rows| <= |Seeded(rows, cs)| <= |rows| + |cs|
    ensures Seeded(rows, cs)[..|rows|] == rows
  {
    if cs != [] {
      var prev := Seeded(rows, cs[..|cs| - 1]);
      SeededKeepsRows(rows, cs[..|cs| - 1]);
      if !HasId(prev, cs[|cs| - 1].id) {
        assert (prev + [cs[|cs| - 1]])[..|rows|] == prev[..|rows|];
      }
    }
  }

  /** After seeding, every id of `cs` is in the table. */
  lemma {:induction false} SeededHasAll(rows: seq<Category>, cs: seq<Category>)
    ensures forall c :: c in cs ==> HasId(Seeded(rows, cs), c.id)
  {
    if cs != [] {
      var init, last := cs[..|cs| - 1], cs[|cs| - 1];
      var prev := Seeded(rows, init);
      SeededHasAll(rows, init);
      forall c | c in cs ensures HasId(Seeded(rows, cs), c.id) {
        if c == last {
          if !HasId(prev, last.id) {
            assert last in prev + [last];
          }
        } else {
          assert c in init by {
            var k :| 0 <= k < |cs| && cs[k] == c;
            assert k < |cs| - 1 && init[k] == c;
          }
          var x :| x in prev && x.id == c.id;
          assert x in Seeded(rows, cs);
        }
      }
    }
  }

  /** Upserting ids that are all present changes nothing. */
  lemma {:induction false} SeededPresent(rows: seq<Category>, cs: seq<Category>)
    requires forall c :: c in cs ==> HasId(rows, c.id)
    ensures Seeded(rows, cs) == rows
  {
    if cs != [] {
      var init := cs[..|cs| - 1];
      assert forall c :: c in init ==> c in cs;
      SeededPresent(rows, init);
      assert cs[|cs| - 1] in cs;
    }
  }

  /** Seeding twice leaves the table as seeding once does. */
  lemma SeedTwiceIsOnce(rows: seq<Category>, cs: seq<Category>)
    ensures Seeded(Seeded(rows, cs), cs) == Seeded(rows, cs)
  {
    SeededHasAll(rows, cs);
    SeededPresent(Seeded(rows, cs), cs);
  }

  /** Every row seeding adds is one of `cs`. */
  lemma {:induction false} SeededAddsOnly(rows: seq<Category>, cs: seq<Category>)
    ensures forall x :: x in Seeded(rows, cs) ==> x in rows || x in cs
  {
    if cs != [] {
      var init := cs[..|cs| - 1];
      SeededAddsOnly(rows, init);
      assert forall c :: c in init ==> c in cs;
      assert cs[|cs| - 1] in cs;
    }
  }

  /** Seeding keeps ids unique. */
  lemma {:induction false} SeededUniqueIds(rows: seq<Category>, cs: seq<Category>)
    requires UniqueIds(rows)
    ensures UniqueIds(Seeded(rows, cs))
  {
    if cs != [] {
      var prev := Seeded(rows, cs[..|cs| - 1]);
      var c := cs[|cs| - 1];
      SeededUniqueIds(rows, cs[..|cs| - 1]);
      if !HasId(prev, c.id) {
        var next := prev + [c];
        forall i, j | 0 <= i < j < |next| ensures next[i].id != next[j].id {
          if j == |prev| {
            assert next[i] in prev;
          }
        }
      }
    }
  }

  /** On an empty table with distinct ids, seeding creates exactly `cs`, in order. */
  lemma {:induction false} SeedEmptyTable(cs: seq<Category>)
    requires UniqueIds(cs)
    ensures Seeded([], cs) == cs
  {
    if cs != [] {
      var init, last := cs[..|cs| - 1], cs[|cs| - 1];
      assert UniqueIds(init);
      SeedEmptyTable(init);
      assert !HasId(init, last.id) by { LastIdIsNew(cs); }
      assert init + [last] == cs;
    }
  }

  /** With unique ids, the last row's id is not among the earlier ones. */
  lemma LastIdIsNew(cs: seq<Category>)
    requires cs != [] && UniqueIds(cs)
    ensures !HasId(cs[..|cs| - 1], cs[|cs| - 1].id)
  {
    var init := cs[..|cs| - 1];
    forall x | x in init ensures x.id != cs[|cs| - 1].id {
      var k :| 0 <= k < |init| && init[k] == x;
      assert cs[k] == x;
    }
  }

  /** The rows built from the default list have distinct ids. */
  lemma DefaultRowsUnique(ds: seq<DefaultCategory>, kind: Option<CategoryType>)
    requires ds == Defaults
    ensures UniqueIds(SeedRows(ds, kind))
  {
    DefaultSlugs(ds);
    var rows, ids := SeedRows(ds, kind), DefaultIds(ds);
    forall i, j | 0 <= i < j < |rows| ensures rows[i].id != rows[j].id {
      assert rows[i].id == ids[i] && rows[j].id == ids[j];
    }
  }

  /**
   * Seeding with rows built from `ds`: every slug of `ds` is then an id, the
   * existing rows are untouched, and every new row is a default of the given kind.
   */
  lemma SeedRowsSpec(rows: seq<Category>, ds: seq<DefaultCategory>, kind: Option<CategoryType>)
    ensures var after := Seeded(rows, SeedRows(ds, kind));
      && (forall d :: d in ds ==> HasId(after, Slug(d.name)))
      && |rows| <= |after| && after[..|rows|] == rows
      && (forall x :: x in after ==> x in rows || (x.kind == kind && x.isDefault))
  {
    var cs := SeedRows(ds, kind);
    SeededHasAll(rows, cs);
    SeededKeepsRows(rows, cs);
    SeededAddsOnly(rows, cs);
    forall d | d in ds ensures HasId(Seeded(rows, cs), Slug(d.name)) {
      var k :| 0 <= k < |ds| && ds[k] == d;
      assert cs[k] in cs;
    }
  }

  /** Once rows built from `ds` are seeded, seeding rows built from `ds` with any kind creates nothing. */
  lemma SameIdsSeedNothing(rows: seq<Category>, ds: seq<DefaultCategory>, k1: Option<CategoryType>, k2: Option<CategoryType>)
    ensures Seeded(Seeded(rows, SeedRows(ds, k1)), SeedRows(ds, k2)) == Seeded(rows, SeedRows(ds, k1))
  {
    var after := Seeded(rows, SeedRows(ds, k1));
    SeedRowsSpec(rows, ds, k1);
    forall c | c in SeedRows(ds, k2) ensures HasId(after, c.id) {
      var k :| 0 <= k < |ds| && SeedRows(ds, k2)[k] == c;
      assert ds[k] in ds;
    }
    SeededPresent(after, SeedRows(ds, k2));
  }

  /** The category table, which the seed scripts update one upsert at a time. */
  class Table {
    var rows: seq<Category>

    constructor (initial: seq<Category>)
      ensures rows == initial
    {
      rows := initial;
    }

    method Upsert(c: Category)
      modifies this
      ensures rows == Upserted(old(rows), c)
    {
      if !HasId(rows, c.id) {
        rows := rows + [c];
      }
    }
  }
}
