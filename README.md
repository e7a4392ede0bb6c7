# Delivery marketplace backend: a Dafny model

The repository is a small FastAPI + SQLAlchemy backend for a food-delivery
marketplace. It has users with roles (client, courier, store owner),
categories, stores, contact rows, products, product combos, orders, couriers,
store reviews and courier reviews. This project models three parts of it:

- **Accounts** (`auth.py`). Registration, login and logout act on the users
  table and on the refresh-token ledger. The ledger is a sequence of
  `(token, user_id)` rows, and its token column is not unique. Token expiry
  is integer arithmetic on a clock value `now` in seconds. bcrypt hashing,
  bcrypt verification and JWT encoding are supplied as function values
  (`Auth.Crypto`). The only law assumed of them is `Auth.Sound`: a password
  verifies against its own hash.
- **Schema** (`models.py`). The four enumerations keep their stored string
  values. There is one record per table and the column defaults are
  constants. The whole database is one value, `Models.Db`, with two
  invariants: usernames are unique, and every foreign key resolves. The
  ORM's cascading deletes along the declared relationships are functions on
  it (`DeleteStore`, `DeleteCategory`, `DeleteUser`). Lemmas prove three
  things about each cascade: it keeps the database consistent, it removes
  exactly the dependent rows, and every surviving row keeps its contents.
- **Resource handlers** (the eight endpoint files). Each one is the same
  create / list / detail / update / delete pattern, run against one generic
  class `Tables.Table<R, F>`:
  - `rows` maps primary keys to records, and `nextId` is the autoincrement
    sequence.
  - An update is a loop that assigns each payload item onto the row in
    place, as the source's `setattr` loop does. `Attributes.SetAttrs`
    specifies that loop, and `Attributes.SetAttrsOverwrites` proves it
    overwrites every column the payload names and no other. Every
    `Fields.*ItemsRebuild` lemma derives from that theorem that a full
    payload becomes the row.
  - `Database.Database` holds the accounts and the nine tables.
    `Snapshot()` reads all of them as a `Models.Db`, so the cascading
    deletes of stores and categories are stated against the schema's
    cascade functions.

Each handler is one atomic step: query, change, commit. A handler error is
`Http.Err(HttpError(status, detail))`, carrying the status code and the
detail text the source raises.

In the source, `set_password` and `check_password` are module-level
functions taking `self`. Here they are members of the accounts class and
take a user id.

## Model

| member | source | states |
|---|---|---|
| Models.ParseUserRole | glovo_app/db/models.py:9-12 | A stored value maps back only to the role that has that value |
| Models.ParseOrderStatus | glovo_app/db/models.py:15-19 | A stored value maps back only to the status that has that value |
| Models.ParseCourierStatus | glovo_app/db/models.py:22-24 | A stored value maps back only to the status that has that value |
| Models.ParseRatingStatus | glovo_app/db/models.py:27-32 | A stored value maps back only to the rating that has that value |
| Models.UserRoleValues | glovo_app/db/models.py:9-12 | Roles and their three values are in one-to-one correspondence, and exactly "клиент", "курьер", "владелец" are valid |
| Models.OrderStatusValues | glovo_app/db/models.py:15-19 | There are exactly four order statuses with distinct values, each found again from its value |
| Models.CourierStatusValues | glovo_app/db/models.py:22-24 | There are exactly two courier statuses, "доступен" and "занят", each found again from its value |
| Models.RatingStatusValues | glovo_app/db/models.py:27-32 | The valid ratings are exactly "1" to "5", five distinct values, each found again from its value |
| Models.NewUser | glovo_app/db/models.py:36-49 | A new user row has the given name fields, hash and phone, a null age, and role client when none is given |
| Models.ReferencingOrphans | glovo_app/db/models.py:46-108 | When all foreign keys resolve, the rows a cascade selects are exactly those whose key would dangle once the parents are removed |
| Models.TokensNotOf | glovo_app/db/models.py:46-47 | Keeps every ledger row of other users exactly as many times as it occurred and in its original order (a subsequence of the ledger), drops every row of the user, and never grows the ledger |
| Models.DropStoresExact | glovo_app/db/models.py:101-108 | Dropping stores removes exactly them and the contacts, products, combos and reviews that name one of them; surviving rows keep their contents and other tables are untouched |
| Models.DropStoresConsistent | glovo_app/db/models.py:101-108 | Removing stores together with their contacts, products, combos and reviews keeps every foreign key resolving |
| Models.DeleteStoreCascades | glovo_app/db/models.py:101-108 | Deleting a store removes exactly that row and the contacts, products, combos and reviews naming it; surviving rows keep their contents, the result is consistent and other tables are unchanged |
| Models.DeleteCategoryCascades | glovo_app/db/models.py:84-85 | Deleting a category removes it and exactly its stores; surviving stores keep their contents, the result is consistent and the tables outside the category subtree are unchanged |
| Models.DeleteCategoryStoreRows | glovo_app/db/models.py:84-108 | Deleting a category removes exactly the contacts, products, combos and reviews of its stores; those of other stores keep their contents |
| Models.DeleteUserConsistent | glovo_app/db/models.py:46-59 | Deleting a user with all its cascades leaves a consistent database |
| Models.DeleteUserCascades | glovo_app/db/models.py:46-59 | Deleting a user removes it and every copy of its tokens, keeping every other ledger row as often as before; it removes exactly its stores, its courier rows, and the reviews it wrote or that are about its stores. Surviving rows keep their contents, the result is consistent, and tables with no path to users are untouched |
| Models.DeleteUserStoreRows | glovo_app/db/models.py:50-51 | Deleting a user removes exactly the contacts, products and combos of its stores; those of other users' stores keep their contents |
| Models.DuplicateNamesAndTokensAllowed | glovo_app/db/models.py:72-83 | A consistent database can hold two categories of one name and one token string twice |
| Attributes.LastFor | glovo_app/api/endpoints/products.py:49-50 | An item naming the column with no later item naming it (the last such item), or none exactly when no item names it |
| Attributes.SetAttrsGet | glovo_app/api/endpoints/products.py:49-50 | After the assignments, each column holds the last item naming it, or its old value |
| Attributes.LastForDistinct | glovo_app/api/endpoints/products.py:49-50 | In a dict (each column named once), the last item naming an item's column is that item |
| Attributes.SetAttrsOverwrites | glovo_app/api/endpoints/products.py:49-50 | Assigning a dict overwrites every column it names with its value and leaves every other column as it was |
| Fields.CategoryLawful | glovo_app/api/endpoints/categories.py:43 | Assigning the name writes that column only |
| Fields.StoreLawful | glovo_app/api/endpoints/stores.py:49-50 | Assigning a store item writes its column and leaves the others |
| Fields.ProductLawful | glovo_app/api/endpoints/products.py:49-50 | Assigning a product item writes its column and leaves the others |
| Fields.ComboLawful | glovo_app/api/endpoints/product_comdos.py:49-50 | Assigning a combo item writes its column and leaves the others |
| Fields.OrderLawful | glovo_app/api/endpoints/orders.py:49-50 | Assigning an order item writes its column and leaves the others |
| Fields.CourierLawful | glovo_app/api/endpoints/couriers.py:49-50 | Assigning a courier item writes its column and leaves the others |
| Fields.StoreReviewLawful | glovo_app/api/endpoints/store_reviews.py:49-50 | Assigning a review item writes its column and leaves the others |
| Fields.CourierReviewLawful | glovo_app/api/endpoints/courier_reviews.py:50-51 | Assigning a review item writes its column and leaves the others |
| Fields.CategoryItemsRebuild | glovo_app/api/endpoints/categories.py:24-43 | Assigning the name item of a category payload onto any row yields the payload, by the general overwrite theorem |
| Fields.StoreItemsRebuild | glovo_app/api/endpoints/stores.py:49-50 | Assigning every item of a store payload onto any row yields the payload |
| Fields.ProductItemsRebuild | glovo_app/api/endpoints/products.py:49-50 | Assigning every item of a product payload onto any row yields the payload |
| Fields.ComboItemsRebuild | glovo_app/api/endpoints/product_comdos.py:49-50 | Assigning every item of a combo payload onto any row yields the payload |
| Fields.OrderItemsRebuild | glovo_app/api/endpoints/orders.py:49-50 | Assigning every item of an order payload, status included, onto any row yields the payload |
| Fields.CourierItemsRebuild | glovo_app/api/endpoints/couriers.py:49-50 | Assigning every item of a courier payload onto any row yields the payload |
| Fields.StoreReviewItemsRebuild | glovo_app/api/endpoints/store_reviews.py:49-50 | Assigning every item of a review payload onto any row yields the payload |
| Fields.CourierReviewItemsRebuild | glovo_app/api/endpoints/courier_reviews.py:50-51 | Assigning every item of a review payload onto any row yields the payload |
| Fields.OrderStatusDefaults | glovo_app/db/models.py:148 | An order built from items that do not set the status is awaiting processing (tim1) |
| Fields.CourierStatusDefaults | glovo_app/db/models.py:161-162 | A courier built from items that do not set the status is available (cour1) |
| Fields.StoreReviewRatingDefaults | glovo_app/db/models.py:171 | A store review built without a rating has rating "5" |
| Fields.CourierReviewRatingDefaults | glovo_app/db/models.py:188 | A courier review built without a rating has rating "5" |
| Tables.Table.constructor | glovo_app/db/models.py:39 | A table starts empty, with the key sequence at 1 |
| Tables.Table.Create | glovo_app/api/endpoints/products.py:24-28 | Inserts exactly one row, under an unused key, built from the column defaults and the items, and returns it |
| Tables.Table.List | glovo_app/api/endpoints/products.py:33 | Returns every row |
| Tables.Table.Find | glovo_app/api/endpoints/products.py:38-41 | Returns the row with its key, or 404 with the given detail when the key is absent |
| Tables.Table.Update | glovo_app/api/endpoints/products.py:46-53 | 404 with the table unchanged on a missing key; otherwise the items are assigned in order on that row only, and it is returned |
| Tables.Table.Delete | glovo_app/api/endpoints/products.py:58-62 | 404 with the table unchanged on a missing key; otherwise exactly that row is removed and returned |
| Tables.Table.Purge | glovo_app/db/models.py:101-108 | Removes exactly the given rows |
| Auth.Expiry | glovo_app/api/endpoints/auth.py:33 | The expiry is now plus the delta when one is given and non-zero, otherwise now plus 30 minutes |
| Auth.WithExpiry | glovo_app/api/endpoints/auth.py:32-34 | The encoded claims are the caller's claims plus `exp`, which replaces any `exp` given; other claims are kept |
| Auth.ExpiryDefaults | glovo_app/api/endpoints/auth.py:33-39 | A zero delta gives the default; a refresh token expires at now plus 2 days, strictly after the default access expiry |
| Auth.TokenClaims | glovo_app/api/endpoints/auth.py:31-39 | A subject-only access token encodes the subject and expiry now + 1800; a refresh token encodes the subject and now + 172800 |
| Auth.FirstMatch | glovo_app/api/endpoints/auth.py:95 | The first ledger row holding the token, or none exactly when no row holds it |
| Auth.IssuedAppend | glovo_app/api/endpoints/auth.py:86-88 | The count of a token over two ledger segments is the sum of their counts |
| Auth.IssuedZero | glovo_app/api/endpoints/auth.py:95-97 | A token is counted zero times exactly when no ledger row holds it |
| Auth.IssueCounts | glovo_app/api/endpoints/auth.py:86-88 | Appending a ledger row adds one to its token's count and leaves every other token's count |
| Auth.RevokeCounts | glovo_app/api/endpoints/auth.py:95-99 | Removing the first row holding a token takes one from its count and leaves every other token's count |
| Auth.SingleUse | glovo_app/api/endpoints/auth.py:95-100 | A token held once is found, and after its row is removed it is no longer found |
| Auth.Accounts.constructor | glovo_app/db/models.py:36-75 | No users, an empty ledger, and the key sequence at 1 |
| Auth.Accounts.SetPassword | glovo_app/api/endpoints/auth.py:21-22 | Only that user's hash changes, to the hash of the password |
| Auth.Accounts.CheckPassword | glovo_app/api/endpoints/auth.py:27-28 | A password checks against a hash made from it |
| Auth.Accounts.Register | glovo_app/api/endpoints/auth.py:58-75 | 400 "username бар экен" with users and the key sequence unchanged on a taken name; otherwise exactly one new user with the hash of the password and the given role, and "Saved"; the ledger never changes and usernames stay unique |
| Auth.Accounts.Login | glovo_app/api/endpoints/auth.py:78-90 | Unknown user and wrong password both give 401 "Маалымат туура эмес" with the ledger unchanged; success appends exactly one row (refresh token, user id) and returns the two tokens with subject the username and type "bearer" |
| Auth.Accounts.Logout | glovo_app/api/endpoints/auth.py:93-100 | 401 with the ledger unchanged when no row holds the token; otherwise exactly the first such row is removed and "Сайттан чыктыныз" returned |
| Auth.SignInAndOut | glovo_app/api/endpoints/auth.py:58-100 | Register, login, logout on a fresh service succeed, and a second logout with the same refresh token is refused with 401 |
| Auth.RepeatedLogin | glovo_app/api/endpoints/auth.py:83-99 | Two logins in the same second mint the same refresh token; it can then be revoked twice and is refused the third time |
| Database.Database.constructor | glovo_app/db/models.py:36-190 | Every table starts empty |
| Database.Database.PurgeStores | glovo_app/db/models.py:101-108 | The new state is the old one with the stores dropped and their dependents cascaded, as `Models.DropStores` says |
| ProductsApi.ProductCreate | glovo_app/api/endpoints/products.py:22-28 | Inserts exactly one row equal to the payload under a fresh key and returns it |
| ProductsApi.ProductList | glovo_app/api/endpoints/products.py:31-33 | Returns every row |
| ProductsApi.ProductDetail | glovo_app/api/endpoints/products.py:36-41 | The row, or 404 "product not found" |
| ProductsApi.ProductUpdate | glovo_app/api/endpoints/products.py:44-53 | 404 "product not found" with nothing changed; otherwise that row becomes the payload and no other row changes |
| ProductsApi.ProductDelete | glovo_app/api/endpoints/products.py:56-63 | 404 with nothing changed; otherwise exactly that row is removed and "this product is deleted" returned |
| ProductCombosApi.ProductComboCreate | glovo_app/api/endpoints/product_comdos.py:22-28 | Inserts exactly one row equal to the payload under a fresh key and returns it |
| ProductCombosApi.ProductComboList | glovo_app/api/endpoints/product_comdos.py:31-33 | Returns every row |
| ProductCombosApi.ProductComboDetail | glovo_app/api/endpoints/product_comdos.py:36-41 | The row, or 404 "product_combo not found" |
| ProductCombosApi.ProductComboUpdate | glovo_app/api/endpoints/product_comdos.py:44-53 | 404 with nothing changed; otherwise that row becomes the payload and no other row changes |
| ProductCombosApi.ProductComboDelete | glovo_app/api/endpoints/product_comdos.py:56-63 | 404 with nothing changed; otherwise exactly that row is removed and "this product_combo is deleted" returned |
| OrdersApi.OrderCreate | glovo_app/api/endpoints/orders.py:22-28 | Inserts exactly one row equal to the payload under a fresh key and returns it |
| OrdersApi.OrderList | glovo_app/api/endpoints/orders.py:31-33 | Returns every row |
| OrdersApi.OrderDetail | glovo_app/api/endpoints/orders.py:36-41 | The row, or 404 "order not found" |
| OrdersApi.OrderUpdate | glovo_app/api/endpoints/orders.py:44-53 | 404 with nothing changed; otherwise that row, status included, becomes the payload and no other row changes |
| OrdersApi.OrderDelete | glovo_app/api/endpoints/orders.py:56-63 | 404 with nothing changed; otherwise exactly that row is removed and "this order is deleted" returned |
| CouriersApi.CourierCreate | glovo_app/api/endpoints/couriers.py:22-28 | Inserts exactly one row equal to the payload under a fresh key and returns it |
| CouriersApi.CourierList | glovo_app/api/endpoints/couriers.py:31-33 | Returns every row |
| CouriersApi.CourierDetail | glovo_app/api/endpoints/couriers.py:36-41 | The row, or 404 "courier not found" |
| CouriersApi.CourierUpdate | glovo_app/api/endpoints/couriers.py:44-53 | 404 with nothing changed; otherwise that row becomes the payload and no other row changes |
| CouriersApi.CourierDelete | glovo_app/api/endpoints/couriers.py:56-63 | 404 with nothing changed; otherwise exactly that row is removed and "this courier is deleted" returned |
| StoreReviewsApi.StoreReviewCreate | glovo_app/api/endpoints/store_reviews.py:22-28 | Inserts exactly one row equal to the payload under a fresh key and returns it |
| StoreReviewsApi.StoreReviewList | glovo_app/api/endpoints/store_reviews.py:31-33 | Returns every row |
| StoreReviewsApi.StoreReviewDetail | glovo_app/api/endpoints/store_reviews.py:36-41 | The row, or 404 "store_review not found" |
| StoreReviewsApi.StoreReviewUpdate | glovo_app/api/endpoints/store_reviews.py:44-53 | 404 with nothing changed; otherwise that row becomes the payload and no other row changes |
| StoreReviewsApi.StoreReviewDelete | glovo_app/api/endpoints/store_reviews.py:56-63 | 404 with nothing changed; otherwise exactly that row is removed and "this store_review is deleted" returned |
| CourierReviewsApi.CourierReviewCreate | glovo_app/api/endpoints/courier_reviews.py:22-28 | Inserts exactly one row equal to the payload under a fresh key and returns it |
| CourierReviewsApi.CourierReviewList | glovo_app/api/endpoints/courier_reviews.py:31-33 | Returns every row |
| CourierReviewsApi.CourierReviewDetail | glovo_app/api/endpoints/courier_reviews.py:36-41 | The row, or 404 "courier_review not found" |
| CourierReviewsApi.CourierReviewUpdate | glovo_app/api/endpoints/courier_reviews.py:44-54 | 404 with nothing changed; otherwise that row becomes the payload and no other row changes |
| CourierReviewsApi.CourierReviewDelete | glovo_app/api/endpoints/courier_reviews.py:57-64 | 404 with nothing changed; otherwise exactly that row is removed and "this courier_review is deleted" returned |
| CourierReviewsApi.DeleteThenDetail | glovo_app/api/endpoints/courier_reviews.py:36-64 | The delete succeeds exactly when the key was present, and a detail on the same key afterwards is a 404 |
| StoresApi.StoreCreate | glovo_app/api/endpoints/stores.py:22-28 | Inserts exactly one row equal to the payload under a fresh key and returns it |
| StoresApi.StoreList | glovo_app/api/endpoints/stores.py:31-33 | Returns every row |
| StoresApi.StoreDetail | glovo_app/api/endpoints/stores.py:36-41 | The row, or 404 "store not found" |
| StoresApi.StoreUpdate | glovo_app/api/endpoints/stores.py:44-53 | 404 "Course not found" with nothing changed; otherwise that row becomes the payload and no other row changes |
| StoresApi.StoreDelete | glovo_app/api/endpoints/stores.py:56-63 | 404 "store not found" with nothing changed; otherwise the whole database becomes `Models.DeleteStore` of the old one, and "this store is deleted" is returned |
| CategoriesApi.CreateCategory | glovo_app/api/endpoints/categories.py:22-28 | Inserts exactly one row holding only the given name under a fresh key, with no duplicate-name check |
| CategoriesApi.ListCategory | glovo_app/api/endpoints/categories.py:31-33 | Returns every row |
| CategoriesApi.UpdateCategory | glovo_app/api/endpoints/categories.py:36-46 | 404 "Category not found" with nothing changed; otherwise only that row's name changes, and the row is returned |
| CategoriesApi.DeleteCategory | glovo_app/api/endpoints/categories.py:49-56 | 404 with nothing changed; otherwise the whole database becomes `Models.DeleteCategory` of the old one, and the deleted row is returned |

## Left out

- bcrypt and JWT internals. Hashing, verification and encoding are opaque function values, and only `Auth.Sound` is assumed of them. No collision resistance and no signature security is claimed.
- Auth.Accounts.SetPassword: the hash is a function of the password. The salt that makes bcrypt's hash differ on every call is not modelled, and it does not matter to any stated property, because only verification is relied on.
- The login rate limiter (3 calls per 200 seconds) is left out. It is middleware backed by Redis, outside the handlers.
- Session lifecycle (`get_db`, `commit`, `refresh`, `close`) is left out. Each handler is one atomic step, and the async handlers are treated as running one at a time.
- The clock is left out. `datetime.utcnow()` is the integer parameter `now`, in seconds. The `created_date` columns and their on-update stamps are not modelled.
- The pydantic schemas in `glovo_app/db/schema.py` are left out. They refer to enums that are not defined, and their field names do not match the table columns. Payloads are modelled as records of the table's own non-key columns. So an `id` in a payload is not modelled. On update, the source would `setattr` it onto the row. On create, `Model(**payload.dict())` would insert the row under the client's key and fail on a clash. The model always inserts under a fresh autoincrement key instead.
- A field-name mismatch between a schema and its model, which would fail at run time, is also not modelled.
- Registration takes the password as its own parameter, because the registration schema has no password field.
- GitHub OAuth (`social_auth.py`), app wiring (`main.py`), the admin views and environment loading (`config.py`) are left out. The two expiry constants, 30 minutes and 2 days, are inlined.
- Route paths and response-model serialisation are left out. List handlers return the table as a key-to-row map, not as an ordered list.
- `DECIMAL(8, 2)` prices are integer cents. String length limits such as `String(40)` are not enforced.
- Some NOT NULL columns have no default. A fresh row holds a placeholder value in them (empty string, 0), which every modelled payload overwrites.
- Creates and updates do not check that a referenced user, category or store exists, since the source does not. So `Database.Database.Valid` does not include `Models.Consistent`. Consistency is proved for the cascading deletes, in `Models`.
- Database errors such as a unique-constraint violation from two concurrent registrations are not modelled.
- Contact rows have no handler. They appear only as rows removed by the store and category cascades.
- No handler deletes a user. The user cascade is modelled only as the function `Models.DeleteUser` with its lemmas.
- The ORM issues the deletes of a cascade in some order, and the model removes the same rows in one step.
