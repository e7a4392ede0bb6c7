/** The payload items of each resource: for every table edited through the
    API, its columns, one item kind per column, the attribute assignment of an
    item onto a row, the row a constructor starts from (its column defaults)
    and the items of a whole payload, in column order (`payload.dict().items()`). */
module Fields {
  import opened Optional
  import opened Models
  import opened Attributes

  // ---------------------------------------------------------------------
  // Category
  // ---------------------------------------------------------------------

  datatype CategoryColumn = CategoryNameColumn
  datatype CategoryItem = CategoryName(categoryName: string)

  function CategoryColumnOf(f: CategoryItem): CategoryColumn { CategoryNameColumn }

  function AssignCategory(r: Category, f: CategoryItem): Category {
    r.(categoryName := f.categoryName)
  }

  function GetCategory(r: Category, k: CategoryColumn): CategoryItem {
    CategoryName(r.categoryName)
  }

  const CategoryBlank := Category("")

  lemma CategoryLawful()
    ensures Lawful(AssignCategory, GetCategory, CategoryColumnOf)
  {
  }

  function CategoryItems(p: Category): seq<CategoryItem> {
    [CategoryName(p.categoryName)]
  }

  /** Assigning the item of a category payload onto any row yields the payload. */
  lemma CategoryItemsRebuild(r: Category, p: Category)
    ensures SetAttrs(AssignCategory, r, CategoryItems(p), |CategoryItems(p)|) == p
  {
    var items := CategoryItems(p);
    CategoryLawful();
    SetAttrsOverwrites(AssignCategory, GetCategory, CategoryColumnOf, r, items);
    var q := SetAttrs(AssignCategory, r, items, |items|);
    assert GetCategory(q, CategoryColumnOf(items[0])) == items[0];
  }

  // ---------------------------------------------------------------------
  // Store
  // ---------------------------------------------------------------------

  datatype StoreColumn =
    StoreNameColumn | StoreImageColumn | StoreDescriptionColumn | StoreAddressColumn
    | StoreUserColumn | StoreCategoryColumn

  datatype StoreItem =
    | StoreName(storeName: string)
    | StoreImage(storeImage: Option<string>)
    | StoreDescription(description: string)
    | StoreAddress(address: string)
    | StoreUser(userId: int)
    | StoreCategoryId(categoryId: int)

  function StoreColumnOf(f: StoreItem): StoreColumn {
    match f
    case StoreName(_) => StoreNameColumn
    case StoreImage(_) => StoreImageColumn
    case StoreDescription(_) => StoreDescriptionColumn
    case StoreAddress(_) => StoreAddressColumn
    case StoreUser(_) => StoreUserColumn
    case StoreCategoryId(_) => StoreCategoryColumn
  }

  function AssignStore(r: Store, f: StoreItem): Store {
    match f
    case StoreName(v) => r.(storeName := v)
    case StoreImage(v) => r.(storeImage := v)
    case StoreDescription(v) => r.(description := v)
    case StoreAddress(v) => r.(address := v)
    case StoreUser(v) => r.(userId := v)
    case StoreCategoryId(v) => r.(categoryId := v)
  }

  function GetStore(r: Store, k: StoreColumn): StoreItem {
    match k
    case StoreNameColumn => StoreName(r.storeName)
    case StoreImageColumn => StoreImage(r.storeImage)
    case StoreDescriptionColumn => StoreDescription(r.description)
    case StoreAddressColumn => StoreAddress(r.address)
    case StoreUserColumn => StoreUser(r.userId)
    case StoreCategoryColumn => StoreCategoryId(r.categoryId)
  }

  /** No column of a store has a default; the image is nullable. */
  const StoreBlank := Store("", None, "", "", 0, 0)

  function StoreItems(p: Store): seq<StoreItem> {
    [StoreName(p.storeName), StoreImage(p.storeImage), StoreDescription(p.description),
     StoreAddress(p.address), StoreUser(p.userId), StoreCategoryId(p.categoryId)]
  }

  lemma StoreLawful()
    ensures Lawful(AssignStore, GetStore, StoreColumnOf)
  {
  }

  /** Assigning every item of a payload onto any row yields the payload. */
  lemma StoreItemsRebuild(r: Store, p: Store)
    ensures SetAttrs(AssignStore, r, StoreItems(p), |StoreItems(p)|) == p
  {
    var items := StoreItems(p);
    StoreLawful();
    SetAttrsOverwrites(AssignStore, GetStore, StoreColumnOf, r, items);
    var q := SetAttrs(AssignStore, r, items, |items|);
    assert GetStore(q, StoreColumnOf(items[0])) == items[0];
    assert GetStore(q, StoreColumnOf(items[1])) == items[1];
    assert GetStore(q, StoreColumnOf(items[2])) == items[2];
    assert GetStore(q, StoreColumnOf(items[3])) == items[3];
    assert GetStore(q, StoreColumnOf(items[4])) == items[4];
    assert GetStore(q, StoreColumnOf(items[5])) == items[5];
  }

  // ---------------------------------------------------------------------
  // Product
  // ---------------------------------------------------------------------

  datatype ProductColumn =
    ProductNameColumn | ProductImageColumn | ProductPriceColumn | ProductDescriptionColumn
    | ProductStoreColumn

  datatype ProductItem =
    | ProductName(productName: string)
    | ProductImage(productImage: Option<string>)
    | ProductPrice(price: int)
    | ProductDescription(description: string)
    | ProductStoreId(storeId: int)

  function ProductColumnOf(f: ProductItem): ProductColumn {
    match f
    case ProductName(_) => ProductNameColumn
    case ProductImage(_) => ProductImageColumn
    case ProductPrice(_) => ProductPriceColumn
    case ProductDescription(_) => ProductDescriptionColumn
    case ProductStoreId(_) => ProductStoreColumn
  }

  function AssignProduct(r: Product, f: ProductItem): Product {
    match f
    case ProductName(v) => r.(productName := v)
    case ProductImage(v) => r.(productImage := v)
    case ProductPrice(v) => r.(price := v)
    case ProductDescription(v) => r.(description := v)
    case ProductStoreId(v) => r.(storeId := v)
  }

  function GetProduct(r: Product, k: ProductColumn): ProductItem {
    match k
    case ProductNameColumn => ProductName(r.productName)
    case ProductImageColumn => ProductImage(r.productImage)
    case ProductPriceColumn => ProductPrice(r.price)
    case ProductDescriptionColumn => ProductDescription(r.description)
    case ProductStoreColumn => ProductStoreId(r.storeId)
  }

  const ProductBlank := Product("", None, 0, "", 0)

  function ProductItems(p: Product): seq<ProductItem> {
    [ProductName(p.productName), ProductImage(p.productImage), ProductPrice(p.price),
     ProductDescription(p.description), ProductStoreId(p.storeId)]
  }

  lemma ProductLawful()
    ensures Lawful(AssignProduct, GetProduct, ProductColumnOf)
  {
  }

  lemma ProductItemsRebuild(r: Product, p: Product)
    ensures SetAttrs(AssignProduct, r, ProductItems(p), |ProductItems(p)|) == p
  {
    var items := ProductItems(p);
    ProductLawful();
    SetAttrsOverwrites(AssignProduct, GetProduct, ProductColumnOf, r, items);
    var q := SetAttrs(AssignProduct, r, items, |items|);
    assert GetProduct(q, ProductColumnOf(items[0])) == items[0];
    assert GetProduct(q, ProductColumnOf(items[1])) == items[1];
    assert GetProduct(q, ProductColumnOf(items[2])) == items[2];
    assert GetProduct(q, ProductColumnOf(items[3])) == items[3];
    assert GetProduct(q, ProductColumnOf(items[4])) == items[4];
  }


  // ---------------------------------------------------------------------
  // ProductCombo
  // ---------------------------------------------------------------------

  datatype ComboColumn =
    ComboNameColumn | ComboImageColumn | ComboPriceColumn | ComboDescriptionColumn | ComboStoreColumn

  datatype ComboItem =
    | ComboName(comboName: string)
    | ComboImage(comboImage: Option<string>)
    | ComboPrice(price: int)
    | ComboDescription(description: string)
    | ComboStoreId(storeId: int)

  function ComboColumnOf(f: ComboItem): ComboColumn {
    match f
    case ComboName(_) => ComboNameColumn
    case ComboImage(_) => ComboImageColumn
    case ComboPrice(_) => ComboPriceColumn
    case ComboDescription(_) => ComboDescriptionColumn
    case ComboStoreId(_) => ComboStoreColumn
  }

  function AssignCombo(r: ProductCombo, f: ComboItem): ProductCombo {
    match f
    case ComboName(v) => r.(comboName := v)
    case ComboImage(v) => r.(comboImage := v)
    case ComboPrice(v) => r.(price := v)
    case ComboDescription(v) => r.(description := v)
    case ComboStoreId(v) => r.(storeId := v)
  }

  function GetCombo(r: ProductCombo, k: ComboColumn): ComboItem {
    match k
    case ComboNameColumn => ComboName(r.comboName)
    case ComboImageColumn => ComboImage(r.comboImage)
    case ComboPriceColumn => ComboPrice(r.price)
    case ComboDescriptionColumn => ComboDescription(r.description)
    case ComboStoreColumn => ComboStoreId(r.storeId)
  }

  const ComboBlank := ProductCombo("", None, 0, "", 0)

  function ComboItems(p: ProductCombo): seq<ComboItem> {
    [ComboName(p.comboName), ComboImage(p.comboImage), ComboPrice(p.price),
     ComboDescription(p.description), ComboStoreId(p.storeId)]
  }

  lemma ComboLawful()
    ensures Lawful(AssignCombo, GetCombo, ComboColumnOf)
  {
  }

  lemma ComboItemsRebuild(r: ProductCombo, p: ProductCombo)
    ensures SetAttrs(AssignCombo, r, ComboItems(p), |ComboItems(p)|) == p
  {
    var items := ComboItems(p);
    ComboLawful();
    SetAttrsOverwrites(AssignCombo, GetCombo, ComboColumnOf, r, items);
    var q := SetAttrs(AssignCombo, r, items, |items|);
    assert GetCombo(q, ComboColumnOf(items[0])) == items[0];
    assert GetCombo(q, ComboColumnOf(items[1])) == items[1];
    assert GetCombo(q, ComboColumnOf(items[2])) == items[2];
    assert GetCombo(q, ComboColumnOf(items[3])) == items[3];
    assert GetCombo(q, ComboColumnOf(items[4])) == items[4];
  }


  // ---------------------------------------------------------------------
  // Order
  // ---------------------------------------------------------------------

  datatype OrderColumn = OrderRoleColumn | OrderAddressColumn

  datatype OrderItem =
    | OrderRole(role: OrderStatus)
    | OrderAddress(deliveryAddress: string)

  function OrderColumnOf(f: OrderItem): OrderColumn {
    match f
    case OrderRole(_) => OrderRoleColumn
    case OrderAddress(_) => OrderAddressColumn
  }

  function AssignOrder(r: Order, f: OrderItem): Order {
    match f
    case OrderRole(v) => r.(role := v)
    case OrderAddress(v) => r.(deliveryAddress := v)
  }

  function GetOrder(r: Order, k: OrderColumn): OrderItem {
    match k
    case OrderRoleColumn => OrderRole(r.role)
    case OrderAddressColumn => OrderAddress(r.deliveryAddress)
  }

  /** The status column defaults to "awaiting processing". */
  const OrderBlank := Order(DefaultOrderStatus, "")

  function OrderItems(p: Order): seq<OrderItem> {
    [OrderRole(p.role), OrderAddress(p.deliveryAddress)]
  }

  lemma OrderLawful()
    ensures Lawful(AssignOrder, GetOrder, OrderColumnOf)
  {
  }

  lemma OrderItemsRebuild(r: Order, p: Order)
    ensures SetAttrs(AssignOrder, r, OrderItems(p), |OrderItems(p)|) == p
  {
    var items := OrderItems(p);
    OrderLawful();
    SetAttrsOverwrites(AssignOrder, GetOrder, OrderColumnOf, r, items);
    var q := SetAttrs(AssignOrder, r, items, |items|);
    assert GetOrder(q, OrderColumnOf(items[0])) == items[0];
    assert GetOrder(q, OrderColumnOf(items[1])) == items[1];
  }


  /** An order built from items that do not name the status is awaiting processing. */
  lemma OrderStatusDefaults(items: seq<OrderItem>)
    requires forall i :: 0 <= i < |items| ==> OrderColumnOf(items[i]) != OrderRoleColumn
    ensures SetAttrs(AssignOrder, OrderBlank, items, |items|).role == Tim1
  {
    OrderLawful();
    SetAttrsGet(AssignOrder, GetOrder, OrderColumnOf, OrderBlank, items, |items|, OrderRoleColumn);
  }

  // ---------------------------------------------------------------------
  // Courier
  // ---------------------------------------------------------------------

  datatype CourierColumn = CourierStatusColumn | CourierUserColumn

  datatype CourierItem =
    | CourierStatusItem(statusCourier: CourierStatus)
    | CourierUserId(courierId: int)

  function CourierColumnOf(f: CourierItem): CourierColumn {
    match f
    case CourierStatusItem(_) => CourierStatusColumn
    case CourierUserId(_) => CourierUserColumn
  }

  function AssignCourier(r: Courier, f: CourierItem): Courier {
    match f
    case CourierStatusItem(v) => r.(statusCourier := v)
    case CourierUserId(v) => r.(courierId := v)
  }

  function GetCourier(r: Courier, k: CourierColumn): CourierItem {
    match k
    case CourierStatusColumn => CourierStatusItem(r.statusCourier)
    case CourierUserColumn => CourierUserId(r.courierId)
  }

  /** The status column defaults to "available". */
  const CourierBlank := Courier(DefaultCourierStatus, 0)

  function CourierItems(p: Courier): seq<CourierItem> {
    [CourierStatusItem(p.statusCourier), CourierUserId(p.courierId)]
  }

  lemma CourierLawful()
    ensures Lawful(AssignCourier, GetCourier, CourierColumnOf)
  {
  }

  lemma CourierItemsRebuild(r: Courier, p: Courier)
    ensures SetAttrs(AssignCourier, r, CourierItems(p), |CourierItems(p)|) == p
  {
    var items := CourierItems(p);
    CourierLawful();
    SetAttrsOverwrites(AssignCourier, GetCourier, CourierColumnOf, r, items);
    var q := SetAttrs(AssignCourier, r, items, |items|);
    assert GetCourier(q, CourierColumnOf(items[0])) == items[0];
    assert GetCourier(q, CourierColumnOf(items[1])) == items[1];
  }


  /** A courier built from items that do not name the status is available. */
  lemma CourierStatusDefaults(items: seq<CourierItem>)
    requires forall i :: 0 <= i < |items| ==> CourierColumnOf(items[i]) != CourierStatusColumn
    ensures SetAttrs(AssignCourier, CourierBlank, items, |items|).statusCourier == Cour1
  {
    CourierLawful();
    SetAttrsGet(AssignCourier, GetCourier, CourierColumnOf, CourierBlank, items, |items|, CourierStatusColumn);
  }

  // ---------------------------------------------------------------------
  // StoreReview
  // ---------------------------------------------------------------------

  datatype StoreReviewColumn =
    StoreReviewRatingColumn | StoreReviewCommendColumn | StoreReviewClientColumn | StoreReviewStoreColumn

  datatype StoreReviewItem =
    | StoreReviewRating(rating: RatingStatus)
    | StoreReviewCommend(commend: string)
    | StoreReviewClient(clientId: int)
    | StoreReviewStore(storeId: int)

  function StoreReviewColumnOf(f: StoreReviewItem): StoreReviewColumn {
    match f
    case StoreReviewRating(_) => StoreReviewRatingColumn
    case StoreReviewCommend(_) => StoreReviewCommendColumn
    case StoreReviewClient(_) => StoreReviewClientColumn
    case StoreReviewStore(_) => StoreReviewStoreColumn
  }

  function AssignStoreReview(r: StoreReview, f: StoreReviewItem): StoreReview {
    match f
    case StoreReviewRating(v) => r.(rating := v)
    case StoreReviewCommend(v) => r.(commend := v)
    case StoreReviewClient(v) => r.(clientId := v)
    case StoreReviewStore(v) => r.(storeId := v)
  }

  function GetStoreReview(r: StoreReview, k: StoreReviewColumn): StoreReviewItem {
    match k
    case StoreReviewRatingColumn => StoreReviewRating(r.rating)
    case StoreReviewCommendColumn => StoreReviewCommend(r.commend)
    case StoreReviewClientColumn => StoreReviewClient(r.clientId)
    case StoreReviewStoreColumn => StoreReviewStore(r.storeId)
  }

  /** The rating column defaults to five. */
  const StoreReviewBlank := StoreReview(DefaultRating, "", 0, 0)

  function StoreReviewItems(p: StoreReview): seq<StoreReviewItem> {
    [StoreReviewRating(p.rating), StoreReviewCommend(p.commend),
     StoreReviewClient(p.clientId), StoreReviewStore(p.storeId)]
  }

  lemma StoreReviewLawful()
    ensures Lawful(AssignStoreReview, GetStoreReview, StoreReviewColumnOf)
  {
  }

  lemma StoreReviewItemsRebuild(r: StoreReview, p: StoreReview)
    ensures SetAttrs(AssignStoreReview, r, StoreReviewItems(p), |StoreReviewItems(p)|) == p
  {
    var items := StoreReviewItems(p);
    StoreReviewLawful();
    SetAttrsOverwrites(AssignStoreReview, GetStoreReview, StoreReviewColumnOf, r, items);
    var q := SetAttrs(AssignStoreReview, r, items, |items|);
    assert GetStoreReview(q, StoreReviewColumnOf(items[0])) == items[0];
    assert GetStoreReview(q, StoreReviewColumnOf(items[1])) == items[1];
    assert GetStoreReview(q, StoreReviewColumnOf(items[2])) == items[2];
    assert GetStoreReview(q, StoreReviewColumnOf(items[3])) == items[3];
  }


  /** A store review built from items that do not name the rating rates five. */
  lemma StoreReviewRatingDefaults(items: seq<StoreReviewItem>)
    requires forall i :: 0 <= i < |items| ==> StoreReviewColumnOf(items[i]) != StoreReviewRatingColumn
    ensures SetAttrs(AssignStoreReview, StoreReviewBlank, items, |items|).rating == Rating5
  {
    StoreReviewLawful();
    SetAttrsGet(AssignStoreReview, GetStoreReview, StoreReviewColumnOf, StoreReviewBlank, items, |items|,
                StoreReviewRatingColumn);
  }

  // ---------------------------------------------------------------------
  // CourierReview
  // ---------------------------------------------------------------------

  datatype CourierReviewColumn = CourierReviewRatingColumn | CourierReviewCommendColumn

  datatype CourierReviewItem =
    | CourierReviewRating(rating: RatingStatus)
    | CourierReviewCommend(commend: string)

  function CourierReviewColumnOf(f: CourierReviewItem): CourierReviewColumn {
    match f
    case CourierReviewRating(_) => CourierReviewRatingColumn
    case CourierReviewCommend(_) => CourierReviewCommendColumn
  }

  function AssignCourierReview(r: CourierReview, f: CourierReviewItem): CourierReview {
    match f
    case CourierReviewRating(v) => r.(rating := v)
    case CourierReviewCommend(v) => r.(commend := v)
  }

  function GetCourierReview(r: CourierReview, k: CourierReviewColumn): CourierReviewItem {
    match k
    case CourierReviewRatingColumn => CourierReviewRating(r.rating)
    case CourierReviewCommendColumn => CourierReviewCommend(r.commend)
  }

  /** The rating column defaults to five. */
  const CourierReviewBlank := CourierReview(DefaultRating, "")

  function CourierReviewItems(p: CourierReview): seq<CourierReviewItem> {
    [CourierReviewRating(p.rating), CourierReviewCommend(p.commend)]
  }

  lemma CourierReviewLawful()
    ensures Lawful(AssignCourierReview, GetCourierReview, CourierReviewColumnOf)
  {
  }

  lemma CourierReviewItemsRebuild(r: CourierReview, p: CourierReview)
    ensures SetAttrs(AssignCourierReview, r, CourierReviewItems(p), |CourierReviewItems(p)|) == p
  {
    var items := CourierReviewItems(p);
    CourierReviewLawful();
    SetAttrsOverwrites(AssignCourierReview, GetCourierReview, CourierReviewColumnOf, r, items);
    var q := SetAttrs(AssignCourierReview, r, items, |items|);
    assert GetCourierReview(q, CourierReviewColumnOf(items[0])) == items[0];
    assert GetCourierReview(q, CourierReviewColumnOf(items[1])) == items[1];
  }


  /** A courier review built from items that do not name the rating rates five. */
  lemma CourierReviewRatingDefaults(items: seq<CourierReviewItem>)
    requires forall i :: 0 <= i < |items| ==> CourierReviewColumnOf(items[i]) != CourierReviewRatingColumn
    ensures SetAttrs(AssignCourierReview, CourierReviewBlank, items, |items|).rating == Rating5
  {
    CourierReviewLawful();
    SetAttrsGet(AssignCourierReview, GetCourierReview, CourierReviewColumnOf, CourierReviewBlank, items, |items|,
                CourierReviewRatingColumn);
  }
}
