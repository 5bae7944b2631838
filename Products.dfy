/** Catalogue rules: a merchant creates, revises, deletes and switches its
    own products; stock is adjusted with Java `int` arithmetic; reading a
    product counts a view. Each call runs in one transaction: a call that
    throws leaves the database as it was. */
module ProductService {
  import opened Common
  import opened Entities
  import opened Database

  datatype CreateProductRequest = CreateProductRequest(
    name: string,
    description: Option<string>,
    price: Money,
    stock: Option<Int32>,
    category: Option<string>,
    imageUrl: Option<string>,
    imageUrls: Option<string>,
    status: Option<ProductStatus>,
    originalPrice: Option<Money>,
    sku: Option<string>,
    brand: Option<string>,
    unit: Option<string>,
    specifications: Option<string>)

  /** Every field may be null, which keeps the stored value. */
  datatype UpdateProductRequest = UpdateProductRequest(
    name: Option<string>,
    description: Option<string>,
    price: Option<Money>,
    stock: Option<Int32>,
    category: Option<string>,
    imageUrl: Option<string>,
    imageUrls: Option<string>,
    status: Option<ProductStatus>,
    enabled: Option<bool>,
    originalPrice: Option<Money>,
    sku: Option<string>,
    brand: Option<string>,
    unit: Option<string>,
    specifications: Option<string>)

  /** `findByIdAndMerchantId` finds the product. */
  predicate Owned(products: map<int, Product>, productId: int, merchantId: int)
  {
    productId in products && products[productId].merchantId == merchantId
  }

  function KeepStored<T>(update: Option<T>, stored: T): T
  {
    if update.Some? then update.value else stored
  }

  /** The product `createProduct` stores for a merchant. */
  function NewProduct(merchantId: int, request: CreateProductRequest): Product
  {
    Product(
      name := request.name,
      description := request.description,
      price := request.price,
      stock := if request.stock.Some? then request.stock.value else 0,
      category := request.category,
      imageUrl := request.imageUrl,
      imageUrls := request.imageUrls,
      status := if request.status.Some? then request.status.value else Active,
      enabled := true,
      originalPrice := request.originalPrice,
      sku := request.sku,
      brand := request.brand,
      unit := request.unit,
      specifications := request.specifications,
      salesCount := 0,
      viewCount := 0,
      rating := 0,
      reviewCount := 0,
      merchantId := merchantId)
  }

  /** The product `updateProduct` stores: the listing fields, then the
      display fields (where an explicit status is applied after the stock
      rule), then the catalogue fields. */
  function Revised(p: Product, request: UpdateProductRequest): Product
  {
    RevisedCatalogue(RevisedDisplay(RevisedListing(p, request), request), request)
  }

  /** Name (only when non-empty), description, price and stock; a stock of
      zero takes an active product out of stock. */
  function RevisedListing(p: Product, request: UpdateProductRequest): Product
  {
    var named := p.(
      name := if request.name.Some? && request.name.value != "" then request.name.value else p.name,
      description := if request.description.Some? then request.description else p.description,
      price := KeepStored(request.price, p.price));
    if request.stock.None? then named
    else named.(
      stock := request.stock.value,
      status := if request.stock.value == 0 && named.status == Active then OutOfStock else named.status)
  }

  /** Category, images, status and the enabled flag. */
  function RevisedDisplay(p: Product, request: UpdateProductRequest): Product
  {
    p.(
      category := if request.category.Some? then request.category else p.category,
      imageUrl := if request.imageUrl.Some? then request.imageUrl else p.imageUrl,
      imageUrls := if request.imageUrls.Some? then request.imageUrls else p.imageUrls,
      status := KeepStored(request.status, p.status),
      enabled := KeepStored(request.enabled, p.enabled))
  }

  /** Original price, SKU, brand, unit and specifications. */
  function RevisedCatalogue(p: Product, request: UpdateProductRequest): Product
  {
    p.(
      originalPrice := if request.originalPrice.Some? then request.originalPrice else p.originalPrice,
      sku := if request.sku.Some? then request.sku else p.sku,
      brand := if request.brand.Some? then request.brand else p.brand,
      unit := if request.unit.Some? then request.unit else p.unit,
      specifications := if request.specifications.Some? then request.specifications else p.specifications)
  }

  /** The stock `updateStock` computes: Java `int` addition. */
  function AdjustedStock(p: Product, delta: Int32): Int32
  {
    Wrap32(p.stock as int + delta as int)
  }

  /** The product `updateStock` stores once the new stock is not negative. */
  function Restocked(p: Product, delta: Int32): Product
  {
    var s := AdjustedStock(p, delta);
    p.(stock := s, status := if s == 0 && p.status == Active then OutOfStock else p.status)
  }

  /** `createProduct`: the merchant must exist and have the merchant role. */
  method CreateProduct(db: Db, merchantId: int, request: CreateProductRequest) returns (r: Result<int>)
    requires db.Valid()
    modifies db
    ensures db.Valid()
    ensures merchantId !in old(db.users) ==> r == Err(UserNotFound) && unchanged(db)
    ensures merchantId in old(db.users) && old(db.users)[merchantId].role != Merchant ==>
              r == Err(UnauthorizedProductAccess) && unchanged(db)
    ensures merchantId in old(db.users) && old(db.users)[merchantId].role == Merchant ==>
              && r.Ok? && r.value !in old(db.products)
              && db.products == old(db.products)[r.value := NewProduct(merchantId, request)]
              && db.users == old(db.users) && db.orders == old(db.orders)
  {
    if merchantId !in db.users {
      return Err(UserNotFound);
    }
    if db.users[merchantId].role != Merchant {
      return Err(UnauthorizedProductAccess);
    }
    var product := NewProduct(merchantId, request);
    var id := db.nextProductId;
    db.products := db.products[id := product];
    db.nextProductId := db.nextProductId + 1;
    r := Ok(id);
  }

  /** `getProductById` with its view counter persisted: the stored view
      count goes up by one (Java `int` addition) and the product is
      returned as stored. */
  method GetProductById(db: Db, id: int) returns (r: Result<Product>)
    requires db.Valid()
    modifies db
    ensures db.Valid()
    ensures id !in old(db.products) ==> r == Err(ProductNotFound) && unchanged(db)
    ensures id in old(db.products) ==>
              var viewed := old(db.products)[id].(viewCount := Wrap32(old(db.products)[id].viewCount as int + 1));
              && r == Ok(viewed)
              && db.products == old(db.products)[id := viewed]
              && db.users == old(db.users) && db.orders == old(db.orders)
  {
    if id !in db.products {
      return Err(ProductNotFound);
    }
    var product := db.products[id];
    product := product.(viewCount := Wrap32(product.viewCount as int + 1));
    db.products := db.products[id := product];
    r := Ok(product);
  }

  /** `getProductById` as it runs: the method is marked read-only, so the
      transaction is never flushed and the raised view count reaches only
      the response. */
  method GetProductByIdReadOnly(db: Db, id: int) returns (r: Result<Product>)
    requires db.Valid()
    ensures id !in db.products ==> r == Err(ProductNotFound)
    ensures id in db.products ==>
              r == Ok(db.products[id].(viewCount := Wrap32(db.products[id].viewCount as int + 1)))
  {
    if id !in db.products {
      return Err(ProductNotFound);
    }
    var product := db.products[id];
    product := product.(viewCount := Wrap32(product.viewCount as int + 1));
    r := Ok(product);
  }

  /** `updateProduct`: only the owner's product can be revised. */
  method UpdateProduct(db: Db, productId: int, merchantId: int, request: UpdateProductRequest)
    returns (r: Result<int>)
    requires db.Valid()
    modifies db
    ensures db.Valid()
    ensures !Owned(old(db.products), productId, merchantId) ==> r == Err(ProductNotFound) && unchanged(db)
    ensures Owned(old(db.products), productId, merchantId) ==>
              && r == Ok(productId)
              && db.products == old(db.products)[productId := Revised(old(db.products)[productId], request)]
              && db.users == old(db.users) && db.orders == old(db.orders)
  {
    if !Owned(db.products, productId, merchantId) {
      return Err(ProductNotFound);
    }
    var product := ReviseListing(db.products[productId], request);
    product := ReviseDisplay(product, request);
    product := ReviseCatalogue(product, request);
    db.products := db.products[productId := product];
    r := Ok(productId);
  }

  method ReviseListing(p: Product, request: UpdateProductRequest) returns (product: Product)
    ensures product == RevisedListing(p, request)
  {
    product := p;
    if request.name.Some? && request.name.value != "" {
      product := product.(name := request.name.value);
    }
    if request.description.Some? { product := product.(description := request.description); }
    if request.price.Some? { product := product.(price := request.price.value); }
    if request.stock.Some? {
      product := product.(stock := request.stock.value);
      if request.stock.value == 0 && product.status == Active {
        product := product.(status := OutOfStock);
      }
    }
  }

  method ReviseDisplay(p: Product, request: UpdateProductRequest) returns (product: Product)
    ensures product == RevisedDisplay(p, request)
  {
    product := p;
    if request.category.Some? { product := product.(category := request.category); }
    if request.imageUrl.Some? { product := product.(imageUrl := request.imageUrl); }
    if request.imageUrls.Some? { product := product.(imageUrls := request.imageUrls); }
    if request.status.Some? { product := product.(status := request.status.value); }
    if request.enabled.Some? { product := product.(enabled := request.enabled.value); }
  }

  method ReviseCatalogue(p: Product, request: UpdateProductRequest) returns (product: Product)
    ensures product == RevisedCatalogue(p, request)
  {
    product := p;
    if request.originalPrice.Some? { product := product.(originalPrice := request.originalPrice); }
    if request.sku.Some? { product := product.(sku := request.sku); }
    if request.brand.Some? { product := product.(brand := request.brand); }
    if request.unit.Some? { product := product.(unit := request.unit); }
    if request.specifications.Some? { product := product.(specifications := request.specifications); }
  }

  /** `deleteProduct`: only the owner's product can be deleted. */
  method DeleteProduct(db: Db, productId: int, merchantId: int) returns (r: Result<()>)
    requires db.Valid()
    modifies db
    ensures db.Valid()
    ensures !Owned(old(db.products), productId, merchantId) ==> r == Err(ProductNotFound) && unchanged(db)
    ensures Owned(old(db.products), productId, merchantId) ==>
              && r == Ok(())
              && db.products == old(db.products) - {productId}
              && db.users == old(db.users) && db.orders == old(db.orders)
  {
    if !Owned(db.products, productId, merchantId) {
      return Err(ProductNotFound);
    }
    db.products := db.products - {productId};
    r := Ok(());
  }

  /** `deleteProductByAdmin`: any existing product. */
  method DeleteProductByAdmin(db: Db, productId: int) returns (r: Result<()>)
    requires db.Valid()
    modifies db
    ensures db.Valid()
    ensures productId !in old(db.products) ==> r == Err(ProductNotFound) && unchanged(db)
    ensures productId in old(db.products) ==>
              && r == Ok(())
              && db.products == old(db.products) - {productId}
              && db.users == old(db.users) && db.orders == old(db.orders)
  {
    if productId !in db.products {
      return Err(ProductNotFound);
    }
    db.products := db.products - {productId};
    r := Ok(());
  }

  /** `updateStock`: a (wrapped) negative result is refused. */
  method UpdateStock(db: Db, productId: int, delta: Int32) returns (r: Result<int>)
    requires db.Valid()
    modifies db
    ensures db.Valid()
    ensures productId !in old(db.products) ==> r == Err(ProductNotFound) && unchanged(db)
    ensures productId in old(db.products) && AdjustedStock(old(db.products)[productId], delta) < 0 ==>
              r == Err(InsufficientStock) && unchanged(db)
    ensures productId in old(db.products) && AdjustedStock(old(db.products)[productId], delta) >= 0 ==>
              && r == Ok(productId)
              && db.products == old(db.products)[productId := Restocked(old(db.products)[productId], delta)]
              && db.users == old(db.users) && db.orders == old(db.orders)
  {
    if productId !in db.products {
      return Err(ProductNotFound);
    }
    var product := db.products[productId];
    var newStock := Wrap32(product.stock as int + delta as int);
    if newStock < 0 {
      return Err(InsufficientStock);
    }
    product := product.(stock := newStock);
    if newStock == 0 && product.status == Active {
      product := product.(status := OutOfStock);
    }
    db.products := db.products[productId := product];
    r := Ok(productId);
  }

  /** `toggleProductStatus`: negates the owner's product's enabled flag. */
  method ToggleProductStatus(db: Db, productId: int, merchantId: int) returns (r: Result<int>)
    requires db.Valid()
    modifies db
    ensures db.Valid()
    ensures !Owned(old(db.products), productId, merchantId) ==> r == Err(ProductNotFound) && unchanged(db)
    ensures Owned(old(db.products), productId, merchantId) ==>
              && r == Ok(productId)
              && db.products == old(db.products)[productId :=
                   old(db.products)[productId].(enabled := !old(db.products)[productId].enabled)]
              && db.users == old(db.users) && db.orders == old(db.orders)
  {
    if !Owned(db.products, productId, merchantId) {
      return Err(ProductNotFound);
    }
    var product := db.products[productId];
    product := product.(enabled := !product.enabled);
    db.products := db.products[productId := product];
    r := Ok(productId);
  }

  // ---------------------------------------------------------------------
  // Properties
  // ---------------------------------------------------------------------

  /** A created product belongs to its merchant, is enabled, has no sales,
      views, reviews or rating, and defaults to no stock and the active
      status. */
  lemma NewProductDefaults(merchantId: int, request: CreateProductRequest)
    ensures var p := NewProduct(merchantId, request);
      && p.merchantId == merchantId && p.enabled
      && p.salesCount == 0 && p.viewCount == 0 && p.reviewCount == 0 && p.rating == 0
      && (request.stock.None? ==> p.stock == 0)
      && (request.stock.Some? ==> p.stock == request.stock.value)
      && (request.status.None? ==> p.status == Active)
      && (request.status.Some? ==> p.status == request.status.value)
  {
  }

  /** A revision never changes the owner or the counters; an explicit
      status wins over the stock rule; without one, the status changes
      only when a stock of zero meets an active product; a null or empty
      name keeps the name. */
  lemma RevisedFields(p: Product, request: UpdateProductRequest)
    ensures var q := Revised(p, request);
      && q.merchantId == p.merchantId && q.salesCount == p.salesCount && q.viewCount == p.viewCount
      && q.rating == p.rating && q.reviewCount == p.reviewCount
      && (request.status.Some? ==> q.status == request.status.value)
      && (request.status.None? && request.stock == Some(0) && p.status == Active ==> q.status == OutOfStock)
      && (request.status.None? && !(request.stock == Some(0) && p.status == Active) ==> q.status == p.status)
      && (request.stock.Some? ==> q.stock == request.stock.value)
      && (request.stock.None? ==> q.stock == p.stock)
      && (request.enabled.None? ==> q.enabled == p.enabled)
      && (request.name.None? || request.name == Some("") ==> q.name == p.name)
      && (request.name.Some? && request.name.value != "" ==> q.name == request.name.value)
      && (request.price.Some? ==> q.price == request.price.value)
      && (request.enabled.Some? ==> q.enabled == request.enabled.value)
  {
  }

  /** Every other null field of an update keeps the stored value. */
  lemma RevisedKeepsNullFields(p: Product, request: UpdateProductRequest)
    ensures var q := Revised(p, request);
      && (request.description.None? ==> q.description == p.description)
      && (request.price.None? ==> q.price == p.price)
      && (request.category.None? ==> q.category == p.category)
      && (request.imageUrl.None? ==> q.imageUrl == p.imageUrl)
      && (request.imageUrls.None? ==> q.imageUrls == p.imageUrls)
      && (request.originalPrice.None? ==> q.originalPrice == p.originalPrice)
      && (request.sku.None? ==> q.sku == p.sku)
      && (request.brand.None? ==> q.brand == p.brand)
      && (request.unit.None? ==> q.unit == p.unit)
      && (request.specifications.None? ==> q.specifications == p.specifications)
  {
  }

  /** Every other given field of an update replaces the stored value. */
  lemma RevisedSetsGivenFields(p: Product, request: UpdateProductRequest)
    ensures var q := Revised(p, request);
      && (request.description.Some? ==> q.description == request.description)
      && (request.category.Some? ==> q.category == request.category)
      && (request.imageUrl.Some? ==> q.imageUrl == request.imageUrl)
      && (request.imageUrls.Some? ==> q.imageUrls == request.imageUrls)
      && (request.originalPrice.Some? ==> q.originalPrice == request.originalPrice)
      && (request.sku.Some? ==> q.sku == request.sku)
      && (request.brand.Some? ==> q.brand == request.brand)
      && (request.unit.Some? ==> q.unit == request.unit)
      && (request.specifications.Some? ==> q.specifications == request.specifications)
  {
  }

  /** A revision whose fields are all null changes nothing. */
  lemma EmptyRevision(p: Product)
    ensures Revised(p, UpdateProductRequest(None, None, None, None, None, None, None, None, None, None,
                                            None, None, None, None)) == p
  {
  }

  /** When the exact sum fits in an `int`, the stock moves by exactly `delta`, and the update is refused exactly
      when the result would be negative. */
  lemma StockMovesByDelta(p: Product, delta: Int32)
    requires -0x8000_0000 <= p.stock as int + delta as int < 0x8000_0000
    ensures AdjustedStock(p, delta) < 0 <==> p.stock as int + delta as int < 0
    ensures AdjustedStock(p, delta) >= 0 ==> Restocked(p, delta).stock as int == p.stock as int + delta as int
  {
  }

  /** A restock that overflows `int` wraps to a negative number and is
      reported as insufficient stock. */
  lemma OverflowingRestockRefused(p: Product, delta: Int32)
    requires p.stock as int + delta as int >= 0x8000_0000
    ensures AdjustedStock(p, delta) < 0
  {
    assert p.stock as int + delta as int < TWO_TO_32;
    assert AdjustedStock(p, delta) == Wrap32(p.stock as int + delta as int - TWO_TO_32);
  }

  /** A decrease that underflows `int` wraps to a non-negative number, so
      the negative-stock guard lets it through and that wrapped number is
      stored. */
  lemma UnderflowingUpdateAccepted(p: Product, delta: Int32)
    requires p.stock as int + delta as int < -0x8000_0000
    ensures AdjustedStock(p, delta) >= 0
    ensures Restocked(p, delta).stock as int == p.stock as int + delta as int + TWO_TO_32
  {
    assert p.stock as int + delta as int >= -TWO_TO_32;
    assert AdjustedStock(p, delta) == Wrap32(p.stock as int + delta as int + TWO_TO_32);
  }

  /** Concretely: a stock of -10 lowered by 2^31 becomes 2^31 - 10. */
  lemma UnderflowExample(p: Product)
    requires p.stock == -10
    ensures AdjustedStock(p, -0x8000_0000) == 0x7FFF_FFF6
  {
    UnderflowingUpdateAccepted(p, -0x8000_0000);
  }

  /** A stock update never makes a product active: an active product that
      reaches zero goes out of stock, and any other update keeps the
      status. */
  lemma RestockNeverActivates(p: Product, delta: Int32)
    ensures Restocked(p, delta).status == Active ==> p.status == Active
    ensures Restocked(p, delta).status != p.status ==> p.status == Active && Restocked(p, delta).status == OutOfStock
    ensures p.status == Active && AdjustedStock(p, delta) == 0 ==> Restocked(p, delta).status == OutOfStock
    ensures AdjustedStock(p, delta) != 0 ==> Restocked(p, delta).status == p.status
  {
  }

  /** Selling out and restocking the same amount brings the stock back, but
      the product stays out of stock. */
  lemma SellOutThenRestock(p: Product)
    requires p.status == Active && p.stock == 5
    ensures Restocked(p, -5).status == OutOfStock
    ensures Restocked(Restocked(p, -5), 5).stock == 5
    ensures Restocked(Restocked(p, -5), 5).status == OutOfStock
  {
  }

  /** Switching a product twice restores it. */
  method ToggleProductTwice(db: Db, productId: int, merchantId: int)
    requires db.Valid()
    modifies db
    ensures db.Valid()
    ensures db.products == old(db.products)
  {
    var first := ToggleProductStatus(db, productId, merchantId);
    var second := ToggleProductStatus(db, productId, merchantId);
  }

  /** The read-only form reports a view the database never records: the
      product it returns counts one more view than the stored product. */
  method ViewCountLost(db: Db, id: int) returns (seen: Result<Product>)
    requires db.Valid()
    requires id in db.products && db.products[id].viewCount < 0x7FFF_FFFF
    ensures seen.Ok? && seen.value.viewCount as int == db.products[id].viewCount as int + 1
  {
    seen := GetProductByIdReadOnly(db, id);
  }
}
