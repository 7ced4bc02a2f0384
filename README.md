# DataSeeding: the shop schema and its bootstrap seed

This project is a Dafny model of the core of the DataSeeding shop program. It has two parts.

- **Schema** (`schema.dfy`). These are the entity rows Product, Category, User, Customer and ProductCategory, with the column constraints the shop context declares:
  - a username is required, 8 to 15 characters, and unique;
  - an email is at most 20 characters (`varchar(20)`);
  - a customer's identity number is required and at most 11 characters;
  - a customer's first and last names are required;
  - a category name is required and at most 100 characters;
  - a product-category row is keyed by the pair (ProductId, CategoryId), and each of the two ids is a foreign key.

  Each constrained table has an insert-with-check operation. It returns the table with the new row appended, or the `Violation` that rejects the row. A lemma per table shows that the insert keeps the table invariant.
- **Seeding** (`seeding.dfy`). `SeedingData.Seed` is modelled as `Store.Seed`, a method on a `Store` class. The class has these fields:
  - the number of pending migrations;
  - the committed Products and Categories rows;
  - the staged-insert buffer;
  - whether the context is a `ShopContext`;
  - a count of `SaveChanges` calls.

  `Seed` does nothing while a migration is pending. Otherwise it stages the four baseline products only if Products is empty, and the three baseline categories only if Categories is empty, then saves once. Its `ensures` ties the new state to the pure function `AfterSeed` of the old state. The lemmas about `AfterSeed` state:
  - the gate;
  - the exact contents after a run;
  - per-table independence;
  - what happens outside a `ShopContext`;
  - idempotence.

Modelling decisions:
- Counting a table (`Products.Count()`) counts committed rows only. Rows staged but not yet saved are not counted.
- `SaveChanges` stands for the store's commit. It commits the whole buffer, or nothing at all when a staged Category breaks its declared column rule (Product declares none). A refused save keeps the buffer. The constraint enforcement happens in the store and is not in the repository's code.
- "Required" means NOT NULL: a missing value is `None`, and the empty string is accepted. Lengths count characters of `seq<char>`.
- The length bounds, including `MinLength(8)` on the username, are modelled as declared on the entity. A `TooShort` violation reports that declared rule.
- `decimal` prices are `real`s (exact).
- A refused save makes `context.SaveChanges()` throw, and `Seed` does not catch the exception, so it reaches the caller. The model returns this as the value `Rejected` where the source throws.

## Model

| member | source | states |
|---|---|---|
| Schema.CheckText | DataSeeding/Program.cs:118-120 | a column value passes exactly when it meets its rule's required/min/max; otherwise it reports Missing, TooShort or TooLong with the bound broken |
| Schema.CheckUser | DataSeeding/Program.cs:118-123 | no violation exactly when the username is present with 8..15 characters and any email has at most 20; any violation is one of those four |
| Schema.CheckCustomer | DataSeeding/Program.cs:47-50 | no violation exactly when the identity number is present with at most 11 characters (`HasMaxLength(11)`, lines 47-50) and both names are present (`[Required]` on IdentityNumber, FirstName and LastName, lines 133-138) |
| Schema.CheckCategory | DataSeeding/Program.cs:194-196 | no violation exactly when the name is present with at most 100 characters |
| Schema.InsertUser | DataSeeding/Program.cs:39-41 | accepted exactly when the user is valid and no existing user has that username; then the row is appended; a taken username is rejected as DuplicateKey |
| Schema.InsertCustomer | DataSeeding/Program.cs:47-50 | accepted exactly when the identity number is present, at most 11 characters, and the names are present; otherwise Missing/TooLong |
| Schema.InsertCategory | DataSeeding/Program.cs:194-196 | accepted exactly when the name is present and at most 100 characters; otherwise Missing/TooLong |
| Schema.InsertProductCategory | DataSeeding/Program.cs:53-65 | accepted exactly when both foreign keys name existing rows and the (ProductId, CategoryId) pair is new; an existing pair is DuplicateKey |
| Schema.InsertUserKeepsTable | DataSeeding/Program.cs:39-41 | an accepted insert keeps every user valid and usernames unique |
| Schema.InsertCustomerKeepsTable | DataSeeding/Program.cs:47-50 | an accepted insert keeps every customer valid |
| Schema.InsertCategoryKeepsTable | DataSeeding/Program.cs:194-196 | an accepted insert keeps every category valid |
| Schema.InsertProductCategoryKeepsTable | DataSeeding/Program.cs:53-65 | an accepted insert keeps the composite keys unique and every reference resolved |
| Schema.CompositeKeyIsThePair | DataSeeding/Program.cs:53-54 | for any table holding the pair (p, c) but neither (p, c') nor (p', c), inserting (p, c) is DuplicateKey while (p, c') and (p', c) are accepted: neither ProductId nor CategoryId alone is the key, the pair is |
| Seeding.StagedConcat | DataSeeding/Program.cs:86-90 | the products and categories staged by two ranges are those of the first followed by those of the second |
| Seeding.StageProductsContents | DataSeeding/Program.cs:86 | staging a range of products stages exactly those products, in order, and no category |
| Seeding.StageCategoriesContents | DataSeeding/Program.cs:90 | staging a range of categories stages exactly those categories, in order, and no product |
| Seeding.StagingContents | DataSeeding/Program.cs:80-92 | staging adds the baseline products only for an empty Products table of a shop context, and likewise for Categories, and changes no committed row |
| Seeding.BaselineCategoriesValid | DataSeeding/Program.cs:107-112 | the three baseline categories meet the declared name rule |
| Seeding.SeedDeferredWhilePending | DataSeeding/Program.cs:78-96 | with migrations pending a run changes nothing, requests no save, and is Deferred |
| Seeding.SeedOnMigratedStore | DataSeeding/Program.cs:78-96 | on a migrated store one save is requested; it is refused exactly when an earlier staged category is invalid; on success each table is old rows + earlier staged rows + its baseline if it was empty |
| Seeding.SeedEmptyStore | DataSeeding/Program.cs:99-112 | an empty migrated shop store ends with exactly Samsung S6..S9 priced 2000..5000 and Telefon, Elektronik, Bilgisayar, in that order |
| Seeding.SeedLeavesPopulatedTables | DataSeeding/Program.cs:84-91 | with nothing staged before the run, a table that already holds rows ends with the same rows |
| Seeding.SeedTablesIndependent | DataSeeding/Program.cs:84-91 | the resulting Products rows do not depend on the Categories table, and vice versa |
| Seeding.SeedOutsideShopContext | DataSeeding/Program.cs:80-94 | outside a shop context nothing is staged, yet the save is still requested and commits only what was already staged |
| Seeding.SeedIdempotent | DataSeeding/Program.cs:84-112 | after a run that was not refused, a second run leaves all rows and the buffer unchanged and ends the same way |
| Seeding.SeedCommittedRowsIdempotent | DataSeeding/Program.cs:84-112 | whatever the first run's outcome, a second run leaves the committed Products and Categories rows exactly as the first left them |
| Seeding.Store.AddProducts | DataSeeding/Program.cs:86 | the buffer grows by the given products in order; nothing is committed |
| Seeding.Store.AddCategories | DataSeeding/Program.cs:90 | the buffer grows by the given categories in order; nothing is committed |
| Seeding.Store.SaveChanges | DataSeeding/Program.cs:94 | all staged rows are committed and the buffer emptied, or, if a staged category is invalid, no row changes; committed categories stay valid |
| Seeding.Store.Seed | DataSeeding/Program.cs:76-97 | the new state is AfterSeed of the old one; pending migrations leave everything unchanged; with nothing staged before the run, empty tables of a shop context get exactly the baseline rows and populated tables are untouched |

## Left out

- `Program.Main` is left out: it queries a Northwind context and prints to the console. That is I/O, and the Northwind context is not part of this model.
- `OnConfiguring` and `MyLoggerFactory` are left out: they are the connection string, the MySQL provider and console logging.
- The library behind `GetPendingMigrations`, `Count`, `AddRange` and `SaveChanges` appears only as operations on the modelled store. SQL generation, transactions and connection handling, including an unreachable store, are not modelled.
- The `DateTime.Now` defaults and the `DatabaseGenerated` identity/computed columns of Product are left out. They depend on the clock and on store-side behaviour. Generated ids are not columns in the model.
- `Customer.FullName` is left out: it is not mapped and never computed.
- The foreign key from Customer to User is left out, and so is the uniqueness of `Customer.UserId` mentioned in a comment. Neither is declared in `OnModelCreating`, and the foreign key exists only by naming convention.
- Address and Supplier are left out. Neither declares attributes or fluent constraints. The foreign key from Address to User is left out as well: it exists only by naming convention, from the `User` navigation and the non-nullable `UserId` (Program.cs:160-161), which makes it required.
- The physical table names (`Urunler`, `UrunKategorileri`) and the column name `customer_id` are left out. They do not affect behaviour.
- Username comparison is exact character equality. The unique index is compared under the MySQL column's collation, which may fold case and accents; that folding is not modelled, so `InsertUser` accepts two usernames differing only in case where such a store would refuse the second.
- `MinLength(8)` on the username is the declared rule only. No column constraint enforces it, and the save does not validate data annotations; `TooShort` is therefore not a refusal the store itself makes.
- Running several seeds at once against one store is left out. The code defines no concurrency.
- Seeding.SeedIdempotent: its equality of the staged buffer assumes the first run's save was not refused. The model's buffer holds row values, not tracked object instances, so after a refused save it stages the baseline again, where the change tracker would find the same static instances already added and stage nothing new. The committed rows are idempotent without that assumption (`Seeding.SeedCommittedRowsIdempotent`).
