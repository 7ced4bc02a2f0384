/**
 The shop schema: the entity rows, the column constraints the model declares on
 them (required, minimum and maximum length, unique index, composite key,
 foreign keys), and an insert-with-check operation per constrained table.

 A table is a sequence of rows in insertion order. A nullable string column is
 an `Option<string>`; "required" means the column is NOT NULL, so `None` is
 rejected and the empty string is not. Lengths are counted in characters.
 */
module Schema {

  datatype Option<T> = None | Some(value: T)

  /** The columns that carry a declared constraint. */
  datatype Column = Username | Email | IdentityNumber | FirstName | LastName | CategoryName

  /**
   Why an insert is refused: a broken declared rule (TooShort is the declared
   minimum length, which the store's columns do not enforce) or a key or
   reference the store's indexes reject.
   */
  datatype Violation =
    | Missing(column: Column)               // a required column holds null
    | TooShort(column: Column, min: nat)    // below the declared minimum length
    | TooLong(column: Column, max: nat)     // above the declared maximum length
    | DuplicateKey                          // primary key or unique index already taken
    | DanglingReference                     // a foreign key names no existing row

  datatype Result<T> = Ok(value: T) | Err(violation: Violation)

  // ---------------------------------------------------------------------------
  // Entity rows (navigation properties and store-generated ids are not columns here)
  // ---------------------------------------------------------------------------

  datatype Product = Product(name: Option<string>, price: real)

  datatype Category = Category(name: Option<string>)

  datatype User = User(username: Option<string>, email: Option<string>)

  datatype Customer = Customer(identityNumber: Option<string>, firstName: Option<string>,
                               lastName: Option<string>, userId: int)

  /** The association row of the Product/Category many-to-many relation. */
  datatype ProductCategory = ProductCategory(productId: int, categoryId: int)

  // ---------------------------------------------------------------------------
  // Declared column rules
  // ---------------------------------------------------------------------------

  /** A declared constraint on one text column. `maxLength == None` means unbounded. */
  datatype TextRule = TextRule(column: Column, required: bool, minLength: nat, maxLength: Option<nat>)

  const UsernameRule := TextRule(Username, true, 8, Some(15))
  const EmailRule := TextRule(Email, false, 0, Some(20))
  const IdentityNumberRule := TextRule(IdentityNumber, true, 0, Some(11))
  const FirstNameRule := TextRule(FirstName, true, 0, None)
  const LastNameRule := TextRule(LastName, true, 0, None)
  const CategoryNameRule := TextRule(CategoryName, true, 0, Some(100))

  /** Whether value `v` of a column meets `rule`. */
  predicate Satisfies(rule: TextRule, v: Option<string>)
  {
    (v.None? ==> !rule.required) &&
    (v.Some? ==> rule.minLength <= |v.value| &&
                 (rule.maxLength.Some? ==> |v.value| <= rule.maxLength.value))
  }

  /** The violation of `rule` that `v` commits, if any. */
  function CheckText(rule: TextRule, v: Option<string>): (r: Option<Violation>)
    ensures r.None? <==> Satisfies(rule, v)
    ensures r == Some(Missing(rule.column)) <==> rule.required && v.None?
    ensures r.Some? && r.value.TooShort? ==>
              r.value == TooShort(rule.column, rule.minLength) && v.Some? && |v.value| < rule.minLength
    ensures r.Some? && r.value.TooLong? ==>
              rule.maxLength.Some? && r.value == TooLong(rule.column, rule.maxLength.value) &&
              v.Some? && |v.value| > rule.maxLength.value
    ensures r.Some? ==> r.value.Missing? || r.value.TooShort? || r.value.TooLong?
  {
    match v
    case None => if rule.required then Some(Missing(rule.column)) else None
    case Some(s) =>
      if |s| < rule.minLength then Some(TooShort(rule.column, rule.minLength))
      else if rule.maxLength.Some? && |s| > rule.maxLength.value then Some(TooLong(rule.column, rule.maxLength.value))
      else None
  }

  /** The first violation among `checks`, taken in column declaration order. */
  function FirstViolation(checks: seq<Option<Violation>>): (r: Option<Violation>)
    ensures r.None? <==> forall i :: 0 <= i < |checks| ==> checks[i].None?
    ensures r.Some? ==> exists i :: 0 <= i < |checks| && checks[i] == r &&
                                    forall j :: 0 <= j < i ==> checks[j].None?
  {
    if checks == [] then None
    else if checks[0].Some? then checks[0]
    else
      var r := FirstViolation(checks[1..]);
      assert r.Some? ==> exists i :: 0 <= i < |checks| && checks[i] == r &&
                                     forall j :: 0 <= j < i ==> checks[j].None? by {
        if r.Some? {
          var k :| 0 <= k < |checks[1..]| && checks[1..][k] == r && forall j :: 0 <= j < k ==> checks[1..][j].None?;
          assert checks[k + 1] == r;
          assert forall j :: 0 <= j < k + 1 ==> checks[j].None? by {
            forall j | 0 <= j < k + 1 ensures checks[j].None? {
              if j > 0 { assert checks[j] == checks[1..][j - 1]; }
            }
          }
        }
      }
      r
  }

  // ---------------------------------------------------------------------------
  // Row validity, stated directly, and the checks that report the reason
  // ---------------------------------------------------------------------------

  /** A user has a username of 8 to 15 characters and, if any, an email of at most 20. */
  predicate ValidUser(u: User)
  {
    u.username.Some? && 8 <= |u.username.value| <= 15 &&
    (u.email.Some? ==> |u.email.value| <= 20)
  }

  /** A customer has an identity number of at most 11 characters and both names. */
  predicate ValidCustomer(c: Customer)
  {
    c.identityNumber.Some? && |c.identityNumber.value| <= 11 &&
    c.firstName.Some? && c.lastName.Some?
  }

  /** A category has a name of at most 100 characters. */
  predicate ValidCategory(c: Category)
  {
    c.name.Some? && |c.name.value| <= 100
  }

  function CheckUser(u: User): (r: Option<Violation>)
    ensures r.None? <==> ValidUser(u)
    ensures r.Some? ==> r.value in {Missing(Username), TooShort(Username, 8), TooLong(Username, 15), TooLong(Email, 20)}
  {
    var checks := [CheckText(UsernameRule, u.username), CheckText(EmailRule, u.email)];
    assert (forall i :: 0 <= i < |checks| ==> checks[i].None?) <==> checks[0].None? && checks[1].None?;
    FirstViolation(checks)
  }

  function CheckCustomer(c: Customer): (r: Option<Violation>)
    ensures r.None? <==> ValidCustomer(c)
    ensures r.Some? ==> r.value in {Missing(IdentityNumber), TooLong(IdentityNumber, 11), Missing(FirstName), Missing(LastName)}
  {
    var checks := [CheckText(IdentityNumberRule, c.identityNumber),
                   CheckText(FirstNameRule, c.firstName),
                   CheckText(LastNameRule, c.lastName)];
    assert (forall i :: 0 <= i < |checks| ==> checks[i].None?) <==>
           checks[0].None? && checks[1].None? && checks[2].None?;
    FirstViolation(checks)
  }

  function CheckCategory(c: Category): (r: Option<Violation>)
    ensures r.None? <==> ValidCategory(c)
    ensures r.Some? ==> r.value in {Missing(CategoryName), TooLong(CategoryName, 100)}
  {
    FirstViolation([CheckText(CategoryNameRule, c.name)])
  }

  // ---------------------------------------------------------------------------
  // Table invariants
  // ---------------------------------------------------------------------------

  predicate UsernameTaken(users: seq<User>, name: Option<string>)
  {
    exists i :: 0 <= i < |users| && users[i].username == name
  }

  /** Every user is valid and no two users share a username (the unique index). */
  predicate UsersTable(users: seq<User>)
  {
    (forall i :: 0 <= i < |users| ==> ValidUser(users[i])) &&
    (forall i, j :: 0 <= i < j < |users| ==> users[i].username != users[j].username)
  }

  predicate CustomersTable(customers: seq<Customer>)
  {
    forall i :: 0 <= i < |customers| ==> ValidCustomer(customers[i])
  }

  predicate CategoriesTable(categories: seq<Category>)
  {
    forall i :: 0 <= i < |categories| ==> ValidCategory(categories[i])
  }

  /** The row holds the key pair (productId, categoryId). */
  predicate HasKey(pc: ProductCategory, productId: int, categoryId: int)
  {
    pc.productId == productId && pc.categoryId == categoryId
  }

  predicate KeyTaken(rows: seq<ProductCategory>, productId: int, categoryId: int)
  {
    exists i :: 0 <= i < |rows| && HasKey(rows[i], productId, categoryId)
  }

  /**
   No two association rows share the pair (productId, categoryId), and every row
   refers to an existing product and an existing category.
   */
  predicate ProductCategoriesTable(rows: seq<ProductCategory>, productIds: set<int>, categoryIds: set<int>)
  {
    (forall i :: 0 <= i < |rows| ==> rows[i].productId in productIds && rows[i].categoryId in categoryIds) &&
    (forall i, j :: 0 <= i < j < |rows| ==> !HasKey(rows[j], rows[i].productId, rows[i].categoryId))
  }

  // ---------------------------------------------------------------------------
  // Insert with check
  // ---------------------------------------------------------------------------

  /** Appends `u` unless it breaks a column rule or its username is taken. */
  function InsertUser(users: seq<User>, u: User): (r: Result<seq<User>>)
    ensures r.Ok? <==> ValidUser(u) && forall i :: 0 <= i < |users| ==> users[i].username != u.username
    ensures r.Ok? ==> r.value == users + [u]
    ensures !ValidUser(u) ==> r == Err(CheckUser(u).value)
    ensures ValidUser(u) && UsernameTaken(users, u.username) ==> r == Err(DuplicateKey)
  {
    match CheckUser(u)
    case Some(v) => Err(v)
    case None => if UsernameTaken(users, u.username) then Err(DuplicateKey) else Ok(users + [u])
  }

  /** Appends `c` unless it breaks a column rule (the key is generated by the store). */
  function InsertCustomer(customers: seq<Customer>, c: Customer): (r: Result<seq<Customer>>)
    ensures r.Ok? <==> ValidCustomer(c)
    ensures r.Ok? ==> r.value == customers + [c]
    ensures r.Err? ==> r.violation in {Missing(IdentityNumber), TooLong(IdentityNumber, 11), Missing(FirstName), Missing(LastName)}
  {
    match CheckCustomer(c)
    case Some(v) => Err(v)
    case None => Ok(customers + [c])
  }

  /** Appends `c` unless its name is missing or longer than 100 characters. */
  function InsertCategory(categories: seq<Category>, c: Category): (r: Result<seq<Category>>)
    ensures r.Ok? <==> ValidCategory(c)
    ensures r.Ok? ==> r.value == categories + [c]
    ensures r.Err? ==> r.violation in {Missing(CategoryName), TooLong(CategoryName, 100)}
  {
    match CheckCategory(c)
    case Some(v) => Err(v)
    case None => Ok(categories + [c])
  }

  /**
   Appends `pc` unless one of its foreign keys names no existing row or its
   composite key (productId, categoryId) is already present.
   */
  function InsertProductCategory(rows: seq<ProductCategory>, productIds: set<int>, categoryIds: set<int>,
                                 pc: ProductCategory): (r: Result<seq<ProductCategory>>)
    ensures r.Ok? <==> pc.productId in productIds && pc.categoryId in categoryIds &&
                       !KeyTaken(rows, pc.productId, pc.categoryId)
    ensures r.Ok? ==> r.value == rows + [pc]
    ensures r.Err? ==> r.violation in {DanglingReference, DuplicateKey}
    ensures (pc.productId in productIds && pc.categoryId in categoryIds &&
             exists i :: 0 <= i < |rows| && rows[i] == pc) ==> r == Err(DuplicateKey)
  {
    if pc.productId !in productIds || pc.categoryId !in categoryIds then Err(DanglingReference)
    else if KeyTaken(rows, pc.productId, pc.categoryId) then Err(DuplicateKey)
    else Ok(rows + [pc])
  }

  // ---------------------------------------------------------------------------
  // Inserts keep the table invariants
  // ---------------------------------------------------------------------------

  lemma InsertUserKeepsTable(users: seq<User>, u: User)
    requires UsersTable(users)
    ensures InsertUser(users, u).Ok? ==> UsersTable(InsertUser(users, u).value)
  {
  }

  lemma InsertCustomerKeepsTable(customers: seq<Customer>, c: Customer)
    requires CustomersTable(customers)
    ensures InsertCustomer(customers, c).Ok? ==> CustomersTable(InsertCustomer(customers, c).value)
  {
  }

  lemma InsertCategoryKeepsTable(categories: seq<Category>, c: Category)
    requires CategoriesTable(categories)
    ensures InsertCategory(categories, c).Ok? ==> CategoriesTable(InsertCategory(categories, c).value)
  {
  }

  lemma InsertProductCategoryKeepsTable(rows: seq<ProductCategory>, productIds: set<int>, categoryIds: set<int>,
                                        pc: ProductCategory)
    requires ProductCategoriesTable(rows, productIds, categoryIds)
    ensures InsertProductCategory(rows, productIds, categoryIds, pc).Ok? ==>
              ProductCategoriesTable(InsertProductCategory(rows, productIds, categoryIds, pc).value, productIds, categoryIds)
  {
  }

  /**
   The key is the pair, not each column on its own: a product already linked to
   one category can be linked to another, and a category to another product.
   */
  lemma CompositeKeyIsThePair(rows: seq<ProductCategory>, productIds: set<int>, categoryIds: set<int>,
                              p: int, c: int, c': int, p': int)
    requires p in productIds && c in categoryIds && c' in categoryIds && p' in productIds
    requires KeyTaken(rows, p, c) && !KeyTaken(rows, p, c') && !KeyTaken(rows, p', c)
    ensures InsertProductCategory(rows, productIds, categoryIds, ProductCategory(p, c)) == Err(DuplicateKey)
    ensures InsertProductCategory(rows, productIds, categoryIds, ProductCategory(p, c')) == Ok(rows + [ProductCategory(p, c')])
    ensures InsertProductCategory(rows, productIds, categoryIds, ProductCategory(p', c)) == Ok(rows + [ProductCategory(p', c)])
  {
  }
}
