/** The relational schema of the delivery marketplace: the four enumerations,
    one record per table (the non-key, non-timestamp columns), the column
    defaults, and the whole database as a value with its two invariants
    (unique usernames, foreign keys that resolve) and the ORM's cascading
    deletes along the declared relationships. */
module Models {
  import opened Optional

  // ---------------------------------------------------------------------
  // Enumerations: each member stores the string value the source gives it.
  // ---------------------------------------------------------------------

  /** Account kind: client, courier, store owner. */
  datatype UserRole = Client | Cour | Owner
  {
    function Value(): string {
      match this
      case Client => "клиент"
      case Cour => "курьер"
      case Owner => "владелец"
    }
  }

  /** Order progress: awaiting processing, in delivery, delivered, cancelled. */
  datatype OrderStatus = Tim1 | Tim2 | Tim3 | Tim4
  {
    function Value(): string {
      match this
      case Tim1 => "Ожидает обработки"
      case Tim2 => "В процессе доставки"
      case Tim3 => "Доставлкн"
      case Tim4 => "Отменен"
    }
  }

  /** Courier availability: available, busy. */
  datatype CourierStatus = Cour1 | Cour2
  {
    function Value(): string {
      match this
      case Cour1 => "доступен"
      case Cour2 => "занят"
    }
  }

  /** A review's star rating. */
  datatype RatingStatus = Rating1 | Rating2 | Rating3 | Rating4 | Rating5
  {
    function Value(): string {
      match this
      case Rating1 => "1"
      case Rating2 => "2"
      case Rating3 => "3"
      case Rating4 => "4"
      case Rating5 => "5"
    }
  }

  /** Lookup of an enumeration member by its stored value (`UserRole(s)`). */
  function ParseUserRole(s: string): (r: Option<UserRole>)
    ensures r.Some? ==> r.value.Value() == s
  {
    if s == Client.Value() then Some(Client)
    else if s == Cour.Value() then Some(Cour)
    else if s == Owner.Value() then Some(Owner)
    else None
  }

  function ParseOrderStatus(s: string): (r: Option<OrderStatus>)
    ensures r.Some? ==> r.value.Value() == s
  {
    if s == Tim1.Value() then Some(Tim1)
    else if s == Tim2.Value() then Some(Tim2)
    else if s == Tim3.Value() then Some(Tim3)
    else if s == Tim4.Value() then Some(Tim4)
    else None
  }

  function ParseCourierStatus(s: string): (r: Option<CourierStatus>)
    ensures r.Some? ==> r.value.Value() == s
  {
    if s == Cour1.Value() then Some(Cour1)
    else if s == Cour2.Value() then Some(Cour2)
    else None
  }

  function ParseRatingStatus(s: string): (r: Option<RatingStatus>)
    ensures r.Some? ==> r.value.Value() == s
  {
    if s == "1" then Some(Rating1)
    else if s == "2" then Some(Rating2)
    else if s == "3" then Some(Rating3)
    else if s == "4" then Some(Rating4)
    else if s == "5" then Some(Rating5)
    else None
  }

  /** Every role is found again from its value, and the three values differ. */
  lemma UserRoleValues()
    ensures forall r: UserRole :: ParseUserRole(r.Value()) == Some(r)
    ensures forall s :: ParseUserRole(s).Some? <==> s in {"клиент", "курьер", "владелец"}
    ensures |{Client.Value(), Cour.Value(), Owner.Value()}| == 3
  {
  }

  /** Exactly four order statuses, each found again from its value. */
  lemma OrderStatusValues()
    ensures forall o: OrderStatus :: ParseOrderStatus(o.Value()) == Some(o)
    ensures forall s :: ParseOrderStatus(s).Some? <==>
      s in {"Ожидает обработки", "В процессе доставки", "Доставлкн", "Отменен"}
    ensures |{Tim1.Value(), Tim2.Value(), Tim3.Value(), Tim4.Value()}| == 4
  {
  }

  /** Exactly two courier statuses, each found again from its value. */
  lemma CourierStatusValues()
    ensures forall c: CourierStatus :: ParseCourierStatus(c.Value()) == Some(c)
    ensures forall s :: ParseCourierStatus(s).Some? <==> s in {"доступен", "занят"}
    ensures Cour1.Value() != Cour2.Value()
  {
  }

  /** Exactly the five ratings "1" to "5", each found again from its value. */
  lemma RatingStatusValues()
    ensures forall r: RatingStatus :: ParseRatingStatus(r.Value()) == Some(r)
    ensures forall s :: ParseRatingStatus(s).Some? <==> s in {"1", "2", "3", "4", "5"}
    ensures |{Rating1.Value(), Rating2.Value(), Rating3.Value(), Rating4.Value(), Rating5.Value()}| == 5
  {
  }

  // ---------------------------------------------------------------------
  // Column defaults.
  // ---------------------------------------------------------------------

  const DefaultUserRole: UserRole := Client
  const DefaultOrderStatus: OrderStatus := Tim1
  const DefaultCourierStatus: CourierStatus := Cour1
  const DefaultRating: RatingStatus := Rating5

  // ---------------------------------------------------------------------
  // Records: one per table, the primary key being the table's map key.
  // Creation and update timestamps are clock effects and are not columns here;
  // prices are integer cents.
  // ---------------------------------------------------------------------

  datatype UserProfile = UserProfile(
    firstName: string,
    lastName: string,
    username: string,
    hashedPassword: string,
    phoneNumber: Option<string>,
    age: Option<int>,
    role: UserRole)

  /** A user row as the ORM constructor builds it: `age` is null, the hash
      is always present, and an omitted role takes the default, client. */
  function NewUser(firstName: string, lastName: string, username: string, hashedPassword: string,
                   phoneNumber: Option<string>, role: Option<UserRole>): (u: UserProfile)
    ensures u.firstName == firstName && u.lastName == lastName && u.username == username
    ensures u.hashedPassword == hashedPassword && u.phoneNumber == phoneNumber && u.age == None
    ensures role.None? ==> u.role == Client
    ensures role.Some? ==> u.role == role.value
  {
    UserProfile(firstName, lastName, username, hashedPassword, phoneNumber, None,
                if role.Some? then role.value else DefaultUserRole)
  }

  datatype RefreshToken = RefreshToken(token: string, userId: int)

  datatype Category = Category(categoryName: string)

  datatype Store = Store(
    storeName: string,
    storeImage: Option<string>,
    description: string,
    address: string,
    userId: int,
    categoryId: int)

  datatype ContactInfo = ContactInfo(contactNumber: Option<string>, storeId: int)

  datatype Product = Product(
    productName: string,
    productImage: Option<string>,
    price: int,
    description: string,
    storeId: int)

  datatype ProductCombo = ProductCombo(
    comboName: string,
    comboImage: Option<string>,
    price: int,
    description: string,
    storeId: int)

  /** An order; its status column is called `role`. */
  datatype Order = Order(role: OrderStatus, deliveryAddress: string)

  datatype Courier = Courier(statusCourier: CourierStatus, courierId: int)

  datatype StoreReview = StoreReview(rating: RatingStatus, commend: string, clientId: int, storeId: int)

  datatype CourierReview = CourierReview(rating: RatingStatus, commend: string)

  // The foreign-key columns, as functions so that tables can be filtered by them.
  function StoreOwner(s: Store): int { s.userId }
  function StoreCategory(s: Store): int { s.categoryId }
  function ContactStore(c: ContactInfo): int { c.storeId }
  function ProductStore(p: Product): int { p.storeId }
  function ComboStore(p: ProductCombo): int { p.storeId }
  function CourierUser(c: Courier): int { c.courierId }
  function ReviewClient(r: StoreReview): int { r.clientId }
  function ReviewStore(r: StoreReview): int { r.storeId }

  // ---------------------------------------------------------------------
  // The database as a value.
  // ---------------------------------------------------------------------

  /** All tables. The refresh-token table is kept in storage order, because a
      lookup by token takes the first match. */
  datatype Db = Db(
    users: map<int, UserProfile>,
    tokens: seq<RefreshToken>,
    categories: map<int, Category>,
    stores: map<int, Store>,
    contacts: map<int, ContactInfo>,
    products: map<int, Product>,
    combos: map<int, ProductCombo>,
    orders: map<int, Order>,
    couriers: map<int, Courier>,
    storeReviews: map<int, StoreReview>,
    courierReviews: map<int, CourierReview>)

  /** The unique constraint on `username`. */
  ghost predicate UniqueUsernames(users: map<int, UserProfile>) {
    forall a, b :: a in users && b in users && users[a].username == users[b].username ==> a == b
  }

  /** Every foreign key names an existing row. */
  ghost predicate ForeignKeysResolve(db: Db) {
    && (forall i :: 0 <= i < |db.tokens| ==> db.tokens[i].userId in db.users)
    && (forall s :: s in db.stores ==> db.stores[s].userId in db.users && db.stores[s].categoryId in db.categories)
    && (forall c :: c in db.contacts ==> db.contacts[c].storeId in db.stores)
    && (forall p :: p in db.products ==> db.products[p].storeId in db.stores)
    && (forall p :: p in db.combos ==> db.combos[p].storeId in db.stores)
    && (forall c :: c in db.couriers ==> db.couriers[c].courierId in db.users)
    && (forall r :: r in db.storeReviews ==> db.storeReviews[r].clientId in db.users && db.storeReviews[r].storeId in db.stores)
  }

  ghost predicate Consistent(db: Db) {
    UniqueUsernames(db.users) && ForeignKeysResolve(db)
  }

  /** The ids of the rows whose foreign key `fk` names one of `parents`. */
  function Referencing<R>(rows: map<int, R>, fk: R -> int, parents: set<int>): (ids: set<int>)
    ensures forall id :: id in ids <==> id in rows && fk(rows[id]) in parents
  {
    set id | id in rows && fk(rows[id]) in parents
  }

  /** When every foreign key of `rows` resolves in `parentRows`, the rows
      that reference `parents` are exactly those whose key would dangle once
      `parents` are removed from the parent table. */
  lemma ReferencingOrphans<P, R>(rows: map<int, R>, fk: R -> int, parentRows: map<int, P>, parents: set<int>)
    requires forall id :: id in rows ==> fk(rows[id]) in parentRows
    ensures forall id :: id in Referencing(rows, fk, parents) <==>
      id in rows && fk(rows[id]) !in parentRows - parents
  {
  }

  /** `a` is `b` with some elements left out, the rest in their order. */
  ghost predicate Subsequence<T>(a: seq<T>, b: seq<T>)
    decreases |b|
  {
    if a == [] then true
    else if b == [] then false
    else (a[0] == b[0] && Subsequence(a[1..], b[1..])) || Subsequence(a, b[1..])
  }

  /** The refresh tokens that do not belong to `user`, in their order. */
  function TokensNotOf(tokens: seq<RefreshToken>, user: int): (kept: seq<RefreshToken>)
    ensures |kept| <= |tokens|
    ensures Subsequence(kept, tokens)
    ensures forall t :: t in kept <==> t in tokens && t.userId != user
    ensures forall t :: multiset(kept)[t] == if t.userId == user then 0 else multiset(tokens)[t]
  {
    if tokens == [] then []
    else
      assert tokens == [tokens[0]] + tokens[1..];
      if tokens[0].userId == user then TokensNotOf(tokens[1..], user)
      else [tokens[0]] + TokensNotOf(tokens[1..], user)
  }

  /** Removes the stores `ids` and, by cascade, their contacts, products,
      combos and reviews. */
  function DropStores(db: Db, ids: set<int>): Db {
    db.(stores := db.stores - ids,
        contacts := db.contacts - Referencing(db.contacts, ContactStore, ids),
        products := db.products - Referencing(db.products, ProductStore, ids),
        combos := db.combos - Referencing(db.combos, ComboStore, ids),
        storeReviews := db.storeReviews - Referencing(db.storeReviews, ReviewStore, ids))
  }

  /** Deleting a store row. */
  function DeleteStore(db: Db, id: int): Db {
    DropStores(db, {id})
  }

  /** Deleting a category row: its stores go, and theirs dependents with them. */
  function DeleteCategory(db: Db, id: int): Db {
    DropStores(db.(categories := db.categories - {id}), Referencing(db.stores, StoreCategory, {id}))
  }

  /** Deleting a user row: its stores go first (with their dependents), then
      its refresh tokens, courier rows and authored store reviews. */
  function DeleteUser(db: Db, id: int): Db {
    var dropped := DropStores(db, Referencing(db.stores, StoreOwner, {id}));
    dropped.(users := dropped.users - {id},
             tokens := TokensNotOf(dropped.tokens, id),
             couriers := dropped.couriers - Referencing(dropped.couriers, CourierUser, {id}),
             storeReviews := dropped.storeReviews - Referencing(dropped.storeReviews, ReviewClient, {id}))
  }

  /** Dropping stores removes exactly those stores and the contacts,
      products, combos and reviews that name one of them; every surviving
      row keeps its contents, and the tables outside the store subtree are
      untouched. */
  lemma DropStoresExact(db: Db, ids: set<int>)
    ensures var r := DropStores(db, ids);
      && r.stores == db.stores - ids
      && (forall c :: c in r.contacts <==> c in db.contacts && db.contacts[c].storeId !in ids)
      && (forall c :: c in r.contacts ==> r.contacts[c] == db.contacts[c])
      && (forall p :: p in r.products <==> p in db.products && db.products[p].storeId !in ids)
      && (forall p :: p in r.products ==> r.products[p] == db.products[p])
      && (forall p :: p in r.combos <==> p in db.combos && db.combos[p].storeId !in ids)
      && (forall p :: p in r.combos ==> r.combos[p] == db.combos[p])
      && (forall v :: v in r.storeReviews <==> v in db.storeReviews && db.storeReviews[v].storeId !in ids)
      && (forall v :: v in r.storeReviews ==> r.storeReviews[v] == db.storeReviews[v])
      && r.users == db.users && r.tokens == db.tokens && r.categories == db.categories
      && r.orders == db.orders && r.couriers == db.couriers && r.courierReviews == db.courierReviews
  {
  }

  /** Dropping stores together with their contacts, products, combos and
      reviews keeps every foreign key resolving. */
  lemma DropStoresConsistent(db: Db, ids: set<int>)
    requires Consistent(db)
    ensures Consistent(DropStores(db, ids))
  {
    var r := DropStores(db, ids);
    forall c | c in r.contacts ensures r.contacts[c].storeId in r.stores {
      assert c !in Referencing(db.contacts, ContactStore, ids);
    }
    forall p | p in r.products ensures r.products[p].storeId in r.stores {
      assert p !in Referencing(db.products, ProductStore, ids);
    }
    forall p | p in r.combos ensures r.combos[p].storeId in r.stores {
      assert p !in Referencing(db.combos, ComboStore, ids);
    }
    forall v | v in r.storeReviews ensures r.storeReviews[v].storeId in r.stores {
      assert v !in Referencing(db.storeReviews, ReviewStore, ids);
    }
  }

  /** Deleting a store removes that row and exactly the contacts, products,
      combos and reviews that name it; every surviving row keeps its
      contents, the database stays consistent and the other tables are as
      they were. */
  lemma DeleteStoreCascades(db: Db, id: int)
    requires Consistent(db)
    ensures var r := DeleteStore(db, id);
      && Consistent(r)
      && r.stores == db.stores - {id}
      && (forall c :: c in r.contacts <==> c in db.contacts && db.contacts[c].storeId != id)
      && (forall c :: c in r.contacts ==> r.contacts[c] == db.contacts[c])
      && (forall p :: p in r.products <==> p in db.products && db.products[p].storeId != id)
      && (forall p :: p in r.products ==> r.products[p] == db.products[p])
      && (forall p :: p in r.combos <==> p in db.combos && db.combos[p].storeId != id)
      && (forall p :: p in r.combos ==> r.combos[p] == db.combos[p])
      && (forall v :: v in r.storeReviews <==> v in db.storeReviews && db.storeReviews[v].storeId != id)
      && (forall v :: v in r.storeReviews ==> r.storeReviews[v] == db.storeReviews[v])
      && r.users == db.users && r.tokens == db.tokens && r.categories == db.categories
      && r.orders == db.orders && r.couriers == db.couriers && r.courierReviews == db.courierReviews
  {
    DropStoresConsistent(db, {id});
    DropStoresExact(db, {id});
  }

  /** Deleting a category removes the category and exactly its stores;
      surviving stores keep their contents, the result is consistent and the
      tables outside the category subtree are untouched. */
  lemma DeleteCategoryCascades(db: Db, id: int)
    requires Consistent(db)
    ensures var r := DeleteCategory(db, id);
      && Consistent(r)
      && r.categories == db.categories - {id}
      && (forall s :: s in r.stores <==> s in db.stores && db.stores[s].categoryId != id)
      && (forall s :: s in r.stores ==> r.stores[s] == db.stores[s])
      && r.users == db.users && r.tokens == db.tokens
      && r.orders == db.orders && r.couriers == db.couriers && r.courierReviews == db.courierReviews
  {
    var gone := Referencing(db.stores, StoreCategory, {id});
    var d := DropStores(db, gone);
    var r := DeleteCategory(db, id);
    DropStoresConsistent(db, gone);
    assert r == d.(categories := db.categories - {id});
    forall s | s in r.stores ensures r.stores[s].categoryId in r.categories {
      assert s !in gone;
    }
  }

  /** Deleting a category removes exactly the contacts, products, combos and
      reviews of its stores; the rows of stores in other categories keep
      their contents. */
  lemma DeleteCategoryStoreRows(db: Db, id: int)
    requires Consistent(db)
    ensures var r := DeleteCategory(db, id);
      && (forall p :: p in r.products <==> p in db.products && db.stores[db.products[p].storeId].categoryId != id)
      && (forall p :: p in r.products ==> r.products[p] == db.products[p])
      && (forall p :: p in r.combos <==> p in db.combos && db.stores[db.combos[p].storeId].categoryId != id)
      && (forall p :: p in r.combos ==> r.combos[p] == db.combos[p])
      && (forall c :: c in r.contacts <==> c in db.contacts && db.stores[db.contacts[c].storeId].categoryId != id)
      && (forall c :: c in r.contacts ==> r.contacts[c] == db.contacts[c])
      && (forall v :: v in r.storeReviews <==>
            v in db.storeReviews && db.stores[db.storeReviews[v].storeId].categoryId != id)
      && (forall v :: v in r.storeReviews ==> r.storeReviews[v] == db.storeReviews[v])
  {
    var gone := Referencing(db.stores, StoreCategory, {id});
    var db1 := db.(categories := db.categories - {id});
    assert DeleteCategory(db, id) == DropStores(db1, gone);
    DropStoresExact(db1, gone);
    assert forall s :: s in db.stores ==> (s in gone <==> db.stores[s].categoryId == id);
  }

  /** Deleting a user keeps the database consistent. */
  lemma DeleteUserConsistent(db: Db, id: int)
    requires Consistent(db)
    ensures Consistent(DeleteUser(db, id))
  {
    var gone := Referencing(db.stores, StoreOwner, {id});
    var d := DropStores(db, gone);
    DropStoresConsistent(db, gone);
    var r := DeleteUser(db, id);
    forall i | 0 <= i < |r.tokens| ensures r.tokens[i].userId in r.users {
      assert r.tokens[i] in d.tokens;
    }
    forall s | s in r.stores ensures r.stores[s].userId in r.users {
      assert s !in gone;
    }
    forall c | c in r.couriers ensures r.couriers[c].courierId in r.users {
      assert c !in Referencing(d.couriers, CourierUser, {id});
    }
    forall v | v in r.storeReviews ensures r.storeReviews[v].clientId in r.users {
      assert v !in Referencing(d.storeReviews, ReviewClient, {id});
    }
  }

  /** Deleting a user removes the user, every copy of its refresh tokens and
      no other ledger row, exactly its stores and courier rows, exactly the
      contacts, products and combos of its stores, and exactly the store
      reviews that it wrote or that are about one of its stores. Every
      surviving row keeps its contents, the result is consistent, and the
      tables with no path to users are untouched. */
  lemma DeleteUserCascades(db: Db, id: int)
    requires Consistent(db)
    ensures var r := DeleteUser(db, id);
      && Consistent(r)
      && r.users == db.users - {id}
      && (forall t :: multiset(r.tokens)[t] == if t.userId == id then 0 else multiset(db.tokens)[t])
      && (forall s :: s in r.stores <==> s in db.stores && db.stores[s].userId != id)
      && (forall s :: s in r.stores ==> r.stores[s] == db.stores[s])
      && (forall c :: c in r.couriers <==> c in db.couriers && db.couriers[c].courierId != id)
      && (forall c :: c in r.couriers ==> r.couriers[c] == db.couriers[c])
      && (forall v :: v in r.storeReviews <==>
            && v in db.storeReviews && db.storeReviews[v].clientId != id
            && db.stores[db.storeReviews[v].storeId].userId != id)
      && (forall v :: v in r.storeReviews ==> r.storeReviews[v] == db.storeReviews[v])
      && r.categories == db.categories && r.orders == db.orders && r.courierReviews == db.courierReviews
  {
    DeleteUserConsistent(db, id);
    DropStoresExact(db, Referencing(db.stores, StoreOwner, {id}));
  }

  /** Deleting a user removes exactly the contacts, products and combos of
      the user's stores; the rows of other users' stores keep their contents. */
  lemma DeleteUserStoreRows(db: Db, id: int)
    requires Consistent(db)
    ensures var r := DeleteUser(db, id);
      && (forall p :: p in r.products <==> p in db.products && db.stores[db.products[p].storeId].userId != id)
      && (forall p :: p in r.products ==> r.products[p] == db.products[p])
      && (forall p :: p in r.combos <==> p in db.combos && db.stores[db.combos[p].storeId].userId != id)
      && (forall p :: p in r.combos ==> r.combos[p] == db.combos[p])
      && (forall c :: c in r.contacts <==> c in db.contacts && db.stores[db.contacts[c].storeId].userId != id)
      && (forall c :: c in r.contacts ==> r.contacts[c] == db.contacts[c])
  {
    DropStoresExact(db, Referencing(db.stores, StoreOwner, {id}));
  }

  /** Neither category names nor refresh-token strings are unique: a
      consistent database can hold two categories of one name and the same
      token string twice. */
  lemma DuplicateNamesAndTokensAllowed(name: string, token: string)
    ensures exists db: Db ::
      && Consistent(db)
      && 1 in db.categories && 2 in db.categories
      && db.categories[1].categoryName == db.categories[2].categoryName == name
      && |db.tokens| == 2 && db.tokens[0].token == db.tokens[1].token == token
  {
    var user := UserProfile("", "", "", "", None, None, Client);
    var db := Db(map[1 := user], [RefreshToken(token, 1), RefreshToken(token, 1)],
                 map[1 := Category(name), 2 := Category(name)],
                 map[], map[], map[], map[], map[], map[], map[], map[]);
    assert Consistent(db);
  }
}
