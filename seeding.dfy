/**
 The bootstrap step that loads the baseline rows into a fully migrated store.

 The store is a `Store` object: the number of migrations not yet applied, the
 committed rows of the Products and Categories tables, the buffer of inserts
 staged since the last save, whether the context is the shop context (the one
 that has those two tables), and how many times a save has been requested.
 Counting a table counts its committed rows; staged inserts are not counted.
 A save commits the whole buffer at once, or nothing when a staged Category
 breaks a declared column rule.

 `AfterStaging`, `AfterSave` and `AfterSeed` say on values what the methods of
 `Store` do; the lemmas below are proved about those functions.
 */
module Seeding {
  import opened Schema

  /** One insert waiting in the buffer. */
  datatype StagedRow = AddProduct(product: Product) | AddCategory(category: Category)

  datatype StoreState = StoreState(
    pendingMigrations: nat,
    products: seq<Product>,
    categories: seq<Category>,
    staged: seq<StagedRow>,
    isShopContext: bool,
    saveCalls: nat)

  /**
   How a seed run ends: skipped for pending migrations, saved, or its save
   refused. `Rejected` stands for the exception the save throws, which the
   seed does not catch and so passes to its caller.
   */
  datatype SeedOutcome = Deferred | Saved | Rejected

  const BaselineProducts: seq<Product> := [
    Product(Some("Samsung S6"), 2000.0),
    Product(Some("Samsung S7"), 3000.0),
    Product(Some("Samsung S8"), 4000.0),
    Product(Some("Samsung S9"), 5000.0)
  ]

  const BaselineCategories: seq<Category> := [
    Category(Some("Telefon")),
    Category(Some("Elektronik")),
    Category(Some("Bilgisayar"))
  ]

  // ---------------------------------------------------------------------------
  // The staged buffer
  // ---------------------------------------------------------------------------

  /** The inserts that staging `ps` as a range adds, in order. */
  function StageProducts(ps: seq<Product>): (rows: seq<StagedRow>)
  {
    if ps == [] then [] else [AddProduct(ps[0])] + StageProducts(ps[1..])
  }

  function StageCategories(cs: seq<Category>): (rows: seq<StagedRow>)
  {
    if cs == [] then [] else [AddCategory(cs[0])] + StageCategories(cs[1..])
  }

  /** The products staged in `rows`, in staging order. */
  function ProductsIn(rows: seq<StagedRow>): (ps: seq<Product>)
  {
    if rows == [] then []
    else (if rows[0].AddProduct? then [rows[0].product] else []) + ProductsIn(rows[1..])
  }

  /** The categories staged in `rows`, in staging order. */
  function CategoriesIn(rows: seq<StagedRow>): (cs: seq<Category>)
  {
    if rows == [] then []
    else (if rows[0].AddCategory? then [rows[0].category] else []) + CategoriesIn(rows[1..])
  }

  lemma {:induction false} StagedConcat(a: seq<StagedRow>, b: seq<StagedRow>)
    ensures ProductsIn(a + b) == ProductsIn(a) + ProductsIn(b)
    ensures CategoriesIn(a + b) == CategoriesIn(a) + CategoriesIn(b)
  {
    ProductsInConcat(a, b);
    CategoriesInConcat(a, b);
  }

  lemma {:induction false} ProductsInConcat(a: seq<StagedRow>, b: seq<StagedRow>)
    ensures ProductsIn(a + b) == ProductsIn(a) + ProductsIn(b)
  {
    if a == [] {
      assert a + b == b;
    } else {
      var ab := a + b;
      assert ab[0] == a[0] && ab[1..] == a[1..] + b;
      ProductsInConcat(a[1..], b);
      var head := if a[0].AddProduct? then [a[0].product] else [];
      assert ProductsIn(ab) == head + ProductsIn(a[1..] + b);
      assert ProductsIn(a) == head + ProductsIn(a[1..]);
    }
  }

  lemma {:induction false} CategoriesInConcat(a: seq<StagedRow>, b: seq<StagedRow>)
    ensures CategoriesIn(a + b) == CategoriesIn(a) + CategoriesIn(b)
  {
    if a == [] {
      assert a + b == b;
    } else {
      var ab := a + b;
      assert ab[0] == a[0] && ab[1..] == a[1..] + b;
      CategoriesInConcat(a[1..], b);
      var head := if a[0].AddCategory? then [a[0].category] else [];
      assert CategoriesIn(ab) == head + CategoriesIn(a[1..] + b);
      assert CategoriesIn(a) == head + CategoriesIn(a[1..]);
    }
  }

  /** Staging a range of products stages exactly those products and no category. */
  lemma {:induction false} StageProductsContents(ps: seq<Product>)
    ensures ProductsIn(StageProducts(ps)) == ps
    ensures CategoriesIn(StageProducts(ps)) == []
  {
    if ps != [] {
      var rows := StageProducts(ps);
      assert rows[0] == AddProduct(ps[0]) && rows[1..] == StageProducts(ps[1..]);
      StageProductsContents(ps[1..]);
    }
  }

  /** Staging a range of categories stages exactly those categories and no product. */
  lemma {:induction false} StageCategoriesContents(cs: seq<Category>)
    ensures CategoriesIn(StageCategories(cs)) == cs
    ensures ProductsIn(StageCategories(cs)) == []
  {
    if cs != [] {
      var rows := StageCategories(cs);
      assert rows[0] == AddCategory(cs[0]) && rows[1..] == StageCategories(cs[1..]);
      StageCategoriesContents(cs[1..]);
    }
  }

  // ---------------------------------------------------------------------------
  // The steps of a seed run, on values
  // ---------------------------------------------------------------------------

  /** Whether a save of `s` is accepted: every staged Category meets its column rules. */
  predicate SaveSucceeds(s: StoreState)
  {
    CategoriesTable(CategoriesIn(s.staged))
  }

  /** A save: commit the whole buffer or, if refused, keep the tables and the buffer as they are. */
  function AfterSave(s: StoreState): (t: StoreState)
  {
    if SaveSucceeds(s) then
      s.(products := s.products + ProductsIn(s.staged),
         categories := s.categories + CategoriesIn(s.staged),
         staged := [],
         saveCalls := s.saveCalls + 1)
    else
      s.(saveCalls := s.saveCalls + 1)
  }

  /** The staging part of a seed run: each empty table of the shop context gets its baseline range. */
  function AfterStaging(s: StoreState): (t: StoreState)
  {
    if !s.isShopContext then s
    else
      var s1 := if |s.products| == 0 then s.(staged := s.staged + StageProducts(BaselineProducts)) else s;
      if |s1.categories| == 0 then s1.(staged := s1.staged + StageCategories(BaselineCategories)) else s1
  }

  /** A whole seed run: nothing at all while migrations are pending, else staging and one save. */
  function AfterSeed(s: StoreState): (t: StoreState)
  {
    if s.pendingMigrations == 0 then AfterSave(AfterStaging(s)) else s
  }

  function SeedOutcomeOf(s: StoreState): (outcome: SeedOutcome)
  {
    if s.pendingMigrations != 0 then Deferred
    else if SaveSucceeds(AfterStaging(s)) then Saved
    else Rejected
  }

  /** The rows the tables hold and the buffer, without the save counter. */
  function Rows(s: StoreState): (rows: (seq<Product>, seq<Category>, seq<StagedRow>))
  {
    (s.products, s.categories, s.staged)
  }

  // ---------------------------------------------------------------------------
  // Properties of a seed run
  // ---------------------------------------------------------------------------

  lemma BaselineCategoriesValid()
    ensures CategoriesTable(BaselineCategories)
  {
  }

  /** What staging adds to the buffer, table by table. */
  lemma {:induction false} StagingContents(s: StoreState)
    ensures AfterStaging(s).products == s.products && AfterStaging(s).categories == s.categories
    ensures AfterStaging(s).pendingMigrations == s.pendingMigrations
    ensures AfterStaging(s).isShopContext == s.isShopContext && AfterStaging(s).saveCalls == s.saveCalls
    ensures ProductsIn(AfterStaging(s).staged) ==
              ProductsIn(s.staged) + (if s.isShopContext && |s.products| == 0 then BaselineProducts else [])
    ensures CategoriesIn(AfterStaging(s).staged) ==
              CategoriesIn(s.staged) + (if s.isShopContext && |s.categories| == 0 then BaselineCategories else [])
  {
    StageProductsContents(BaselineProducts);
    StageCategoriesContents(BaselineCategories);
    if s.isShopContext {
      var s1 := if |s.products| == 0 then s.(staged := s.staged + StageProducts(BaselineProducts)) else s;
      StagedConcat(s.staged, StageProducts(BaselineProducts));
      StagedConcat(s1.staged, StageCategories(BaselineCategories));
      assert ProductsIn(s1.staged) ==
             ProductsIn(s.staged) + (if |s.products| == 0 then BaselineProducts else []);
      assert CategoriesIn(s1.staged) == CategoriesIn(s.staged);
    } else {
      assert ProductsIn(s.staged) + [] == ProductsIn(s.staged);
      assert CategoriesIn(s.staged) + [] == CategoriesIn(s.staged);
    }
  }

  /** Appending valid categories keeps a sequence valid or invalid as it was. */
  lemma ValidCategoriesAppend(cs: seq<Category>, extra: seq<Category>)
    requires CategoriesTable(extra)
    ensures CategoriesTable(cs + extra) <==> CategoriesTable(cs)
  {
    assert forall i :: 0 <= i < |cs| ==> (cs + extra)[i] == cs[i];
    assert forall i :: |cs| <= i < |cs + extra| ==> (cs + extra)[i] == extra[i - |cs|];
  }

  /** The gate: with migrations pending a seed run changes nothing and requests no save. */
  lemma SeedDeferredWhilePending(s: StoreState)
    requires s.pendingMigrations != 0
    ensures AfterSeed(s) == s && SeedOutcomeOf(s) == Deferred
  {
  }

  /**
   On a migrated store a seed run requests exactly one save; it is refused
   exactly when a Category staged before the run breaks a column rule; when it
   is accepted, each table ends with its old rows, the rows staged before the
   run and, if it was an empty table of the shop context, its baseline rows.
   */
  lemma SeedOnMigratedStore(s: StoreState)
    requires s.pendingMigrations == 0
    ensures AfterSeed(s).saveCalls == s.saveCalls + 1
    ensures SeedOutcomeOf(s) == Saved <==> CategoriesTable(CategoriesIn(s.staged))
    ensures SeedOutcomeOf(s) == Rejected <==> !CategoriesTable(CategoriesIn(s.staged))
    ensures SeedOutcomeOf(s) == Saved ==>
              AfterSeed(s).products ==
                s.products + ProductsIn(s.staged) + (if s.isShopContext && |s.products| == 0 then BaselineProducts else []) &&
              AfterSeed(s).categories ==
                s.categories + CategoriesIn(s.staged) + (if s.isShopContext && |s.categories| == 0 then BaselineCategories else []) &&
              AfterSeed(s).staged == []
    ensures SeedOutcomeOf(s) == Rejected ==>
              AfterSeed(s).products == s.products && AfterSeed(s).categories == s.categories
    ensures AfterSeed(s).pendingMigrations == 0 && AfterSeed(s).isShopContext == s.isShopContext
  {
    StagingContents(s);
    BaselineCategoriesValid();
    var t := AfterStaging(s);
    var baseline := if s.isShopContext && |s.categories| == 0 then BaselineCategories else [];
    assert CategoriesIn(t.staged) == CategoriesIn(s.staged) + baseline;
    assert CategoriesTable(baseline);
    ValidCategoriesAppend(CategoriesIn(s.staged), baseline);
  }

  /** Scenario: a migrated, empty shop store ends with exactly the baseline rows. */
  lemma SeedEmptyStore(s: StoreState)
    requires s.pendingMigrations == 0 && s.isShopContext
    requires s.products == [] && s.categories == [] && s.staged == []
    ensures SeedOutcomeOf(s) == Saved
    ensures AfterSeed(s).products == BaselineProducts
    ensures AfterSeed(s).categories == BaselineCategories
    ensures AfterSeed(s).products == [
              Product(Some("Samsung S6"), 2000.0), Product(Some("Samsung S7"), 3000.0),
              Product(Some("Samsung S8"), 4000.0), Product(Some("Samsung S9"), 5000.0)]
    ensures AfterSeed(s).categories == [
              Category(Some("Telefon")), Category(Some("Elektronik")), Category(Some("Bilgisayar"))]
  {
    SeedOnMigratedStore(s);
  }

  /** A table that already holds rows gets nothing from its baseline range. */
  lemma SeedLeavesPopulatedTables(s: StoreState)
    requires s.pendingMigrations == 0 && s.staged == []
    ensures SeedOutcomeOf(s) == Saved
    ensures |s.products| > 0 ==> AfterSeed(s).products == s.products
    ensures |s.categories| > 0 ==> AfterSeed(s).categories == s.categories
  {
    SeedOnMigratedStore(s);
  }

  /**
   The Products decision does not depend on the Categories table, nor the
   Categories decision on the Products table.
   */
  lemma SeedTablesIndependent(s: StoreState, t: StoreState)
    requires s.pendingMigrations == t.pendingMigrations && s.isShopContext == t.isShopContext
    requires s.staged == t.staged
    ensures s.products == t.products ==>
              AfterSeed(s).products == AfterSeed(t).products && SeedOutcomeOf(s) == SeedOutcomeOf(t)
    ensures s.categories == t.categories ==>
              AfterSeed(s).categories == AfterSeed(t).categories && SeedOutcomeOf(s) == SeedOutcomeOf(t)
  {
    if s.pendingMigrations == 0 {
      SeedOnMigratedStore(s);
      SeedOnMigratedStore(t);
    }
  }

  /** A context that is not the shop context stages nothing; its save commits only what was already staged. */
  lemma SeedOutsideShopContext(s: StoreState)
    requires !s.isShopContext
    ensures AfterStaging(s) == s
    ensures s.pendingMigrations == 0 ==> AfterSeed(s) == AfterSave(s)
    ensures s.pendingMigrations == 0 && s.staged == [] ==>
              Rows(AfterSeed(s)) == Rows(s) && AfterSeed(s).saveCalls == s.saveCalls + 1
  {
    if s.pendingMigrations == 0 && s.staged == [] {
      assert s.products + ProductsIn([]) == s.products;
      assert s.categories + CategoriesIn([]) == s.categories;
    }
  }

  /**
   Idempotence of the committed rows: whatever the first run's outcome, a
   second run leaves the Products and Categories rows as the first left them.
   */
  lemma SeedCommittedRowsIdempotent(s: StoreState)
    ensures AfterSeed(AfterSeed(s)).products == AfterSeed(s).products
    ensures AfterSeed(AfterSeed(s)).categories == AfterSeed(s).categories
  {
    if s.pendingMigrations == 0 {
      var s1 := AfterSeed(s);
      SeedOnMigratedStore(s);
      SeedOnMigratedStore(s1);
      if SeedOutcomeOf(s) == Saved {
        assert s1.staged == [];
        assert s1.isShopContext ==> |s1.products| > 0 && |s1.categories| > 0;
        assert s1.products + ProductsIn([]) == s1.products;
        assert s1.categories + CategoriesIn([]) == s1.categories;
      } else {
        // The refused save kept the buffer, so the invalid category is still staged.
        StagingContents(s);
        var cs := CategoriesIn(s.staged);
        var k :| 0 <= k < |cs| && !ValidCategory(cs[k]);
        var extra := if s.isShopContext && |s.categories| == 0 then BaselineCategories else [];
        assert CategoriesIn(s1.staged) == cs + extra;
        assert (cs + extra)[k] == cs[k];
        assert !CategoriesTable(CategoriesIn(s1.staged));
      }
    }
  }

  /**
   Idempotence: after a run whose save was not refused, a second run leaves
   every row and the buffer as the first run left them; only another save is
   requested, and only on a migrated store.
   */
  lemma SeedIdempotent(s: StoreState)
    requires SeedOutcomeOf(s) != Rejected
    ensures Rows(AfterSeed(AfterSeed(s))) == Rows(AfterSeed(s))
    ensures SeedOutcomeOf(AfterSeed(s)) == SeedOutcomeOf(s)
    ensures AfterSeed(AfterSeed(s)).saveCalls ==
              AfterSeed(s).saveCalls + (if s.pendingMigrations == 0 then 1 else 0)
  {
    if s.pendingMigrations == 0 {
      SeedOnMigratedStore(s);
      var s1 := AfterSeed(s);
      assert s1.staged == [];
      assert s1.isShopContext ==> |s1.products| > 0 && |s1.categories| > 0;
      SeedOnMigratedStore(s1);
      assert s1.products + ProductsIn([]) == s1.products;
      assert s1.categories + CategoriesIn([]) == s1.categories;
    }
  }

  // ---------------------------------------------------------------------------
  // The store
  // ---------------------------------------------------------------------------

  class Store {
    var pendingMigrations: nat
    var products: seq<Product>
    var categories: seq<Category>
    var staged: seq<StagedRow>
    var isShopContext: bool
    var saveCalls: nat

    function State(): (s: StoreState)
      reads this
    {
      StoreState(pendingMigrations, products, categories, staged, isShopContext, saveCalls)
    }

    /** Committed categories meet their column rules: the store never accepted one that does not. */
    predicate Valid()
      reads this
    {
      CategoriesTable(categories)
    }

    constructor (pendingMigrations: nat, products: seq<Product>, categories: seq<Category>, isShopContext: bool)
      requires CategoriesTable(categories)
      ensures Valid()
      ensures State() == StoreState(pendingMigrations, products, categories, [], isShopContext, 0)
    {
      this.pendingMigrations := pendingMigrations;
      this.products := products;
      this.categories := categories;
      this.staged := [];
      this.isShopContext := isShopContext;
      this.saveCalls := 0;
    }

    /** Stages the products `ps`, in order; nothing is committed. */
    method AddProducts(ps: seq<Product>)
      modifies this
      ensures State() == old(State()).(staged := old(staged) + StageProducts(ps))
      ensures ProductsIn(staged) == ProductsIn(old(staged)) + ps
      ensures CategoriesIn(staged) == CategoriesIn(old(staged))
    {
      StagedConcat(staged, StageProducts(ps));
      StageProductsContents(ps);
      staged := staged + StageProducts(ps);
    }

    /** Stages the categories `cs`, in order; nothing is committed. */
    method AddCategories(cs: seq<Category>)
      modifies this
      ensures State() == old(State()).(staged := old(staged) + StageCategories(cs))
      ensures CategoriesIn(staged) == CategoriesIn(old(staged)) + cs
      ensures ProductsIn(staged) == ProductsIn(old(staged))
    {
      StagedConcat(staged, StageCategories(cs));
      StageCategoriesContents(cs);
      staged := staged + StageCategories(cs);
    }

    /** Commits the whole buffer at once, or nothing if a staged Category breaks a column rule. */
    method SaveChanges() returns (ok: bool)
      requires Valid()
      modifies this
      ensures Valid()
      ensures ok <==> CategoriesTable(CategoriesIn(old(staged)))
      ensures State() == AfterSave(old(State()))
      ensures ok ==> products == old(products) + ProductsIn(old(staged)) &&
                     categories == old(categories) + CategoriesIn(old(staged)) && staged == []
      ensures !ok ==> Rows(State()) == Rows(old(State()))
      ensures saveCalls == old(saveCalls) + 1
    {
      var inserted := CategoriesIn(staged);
      ok := CategoriesTable(inserted);
      if ok {
        products := products + ProductsIn(staged);
        categories := categories + inserted;
        staged := [];
      }
      saveCalls := saveCalls + 1;
    }

    /**
     Loads the baseline rows: only when no migration is pending, each table of
     the shop context only while it is empty, then one save.
     */
    method Seed() returns (outcome: SeedOutcome)
      requires Valid()
      modifies this
      ensures Valid()
      ensures State() == AfterSeed(old(State())) && outcome == SeedOutcomeOf(old(State()))
      ensures old(pendingMigrations) != 0 ==> outcome == Deferred && State() == old(State())
      ensures old(pendingMigrations) == 0 ==> saveCalls == old(saveCalls) + 1
      ensures old(pendingMigrations) == 0 && old(isShopContext) && old(products) == [] && old(staged) == [] ==>
                outcome == Saved && products == BaselineProducts
      ensures old(pendingMigrations) == 0 && old(isShopContext) && old(categories) == [] && old(staged) == [] ==>
                outcome == Saved && categories == BaselineCategories
      ensures old(pendingMigrations) == 0 && old(staged) == [] ==>
                outcome == Saved &&
                (|old(products)| > 0 ==> products == old(products)) &&
                (|old(categories)| > 0 ==> categories == old(categories))
    {
      ghost var s := State();
      if pendingMigrations == 0 {
        SeedOnMigratedStore(s);
        if isShopContext {
          if |products| == 0 {
            AddProducts(BaselineProducts);
          }
          if |categories| == 0 {
            AddCategories(BaselineCategories);
          }
        }
        assert State() == AfterStaging(s);
        var ok := SaveChanges();
        outcome := if ok then Saved else Rejected;
      } else {
        outcome := Deferred;
      }
    }
  }
}
