/** The database the handlers share: the users table with its refresh-token
    ledger, and one table per resource. Every resource table is built from
    its column defaults and its attribute assignment. */
module Database {
  import opened Models
  import opened Fields
  import opened Tables
  import Auth

  class Database {
    const accounts: Auth.Accounts
    const categories: Table<Category, CategoryItem>
    const stores: Table<Store, StoreItem>
    /** Contact rows have no handler of their own; only cascades remove them. */
    var contacts: map<int, ContactInfo>
    const products: Table<Product, ProductItem>
    const combos: Table<ProductCombo, ComboItem>
    const orders: Table<Order, OrderItem>
    const couriers: Table<Courier, CourierItem>
    const storeReviews: Table<StoreReview, StoreReviewItem>
    const courierReviews: Table<CourierReview, CourierReviewItem>

    ghost predicate Valid()
      reads this, accounts, categories, stores, products, combos, orders, couriers, storeReviews, courierReviews
    {
      && accounts.Valid()
      && categories.Valid() && categories.blank == CategoryBlank && categories.assign == AssignCategory
      && stores.Valid() && stores.blank == StoreBlank && stores.assign == AssignStore
      && products.Valid() && products.blank == ProductBlank && products.assign == AssignProduct
      && combos.Valid() && combos.blank == ComboBlank && combos.assign == AssignCombo
      && orders.Valid() && orders.blank == OrderBlank && orders.assign == AssignOrder
      && couriers.Valid() && couriers.blank == CourierBlank && couriers.assign == AssignCourier
      && storeReviews.Valid() && storeReviews.blank == StoreReviewBlank && storeReviews.assign == AssignStoreReview
      && courierReviews.Valid() && courierReviews.blank == CourierReviewBlank
      && courierReviews.assign == AssignCourierReview
    }

    /** The whole state as one value, the form the cascade rules are stated on. */
    ghost function Snapshot(): Db
      reads this, accounts, categories, stores, products, combos, orders, couriers, storeReviews, courierReviews
    {
      Db(accounts.users, accounts.ledger, categories.rows, stores.rows, contacts, products.rows,
         combos.rows, orders.rows, couriers.rows, storeReviews.rows, courierReviews.rows)
    }

    constructor (crypto: Auth.Crypto)
      requires Auth.Sound(crypto)
      ensures Valid() && accounts.crypto == crypto
      ensures Snapshot() == Db(map[], [], map[], map[], map[], map[], map[], map[], map[], map[], map[])
    {
      accounts := new Auth.Accounts(crypto);
      categories := new Table(CategoryBlank, AssignCategory);
      stores := new Table(StoreBlank, AssignStore);
      contacts := map[];
      products := new Table(ProductBlank, AssignProduct);
      combos := new Table(ComboBlank, AssignCombo);
      orders := new Table(OrderBlank, AssignOrder);
      couriers := new Table(CourierBlank, AssignCourier);
      storeReviews := new Table(StoreReviewBlank, AssignStoreReview);
      courierReviews := new Table(CourierReviewBlank, AssignCourierReview);
    }

    /** The cascade of deleting the stores `ids`: those stores, and the
        contacts, products, combos and reviews of any of them. */
    method PurgeStores(ids: set<int>)
      requires Valid()
      modifies this, stores, products, combos, storeReviews
      ensures Valid()
      ensures Snapshot() == DropStores(old(Snapshot()), ids)
    {
      contacts := contacts - Referencing(contacts, ContactStore, ids);
      products.Purge(Referencing(products.rows, ProductStore, ids));
      combos.Purge(Referencing(combos.rows, ComboStore, ids));
      storeReviews.Purge(Referencing(storeReviews.rows, ReviewStore, ids));
      stores.Purge(ids);
    }
  }
}
