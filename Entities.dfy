/** The persistent records of the store's backend and their enumerations.
    Money is in integer cents (the columns hold two decimal places, and
    `BigDecimal` arithmetic on them is exact); timestamps are opaque
    integers supplied by the caller; a nullable column is an `Option`;
    an `Integer` column is an `Int32`. Record ids are the keys of the
    repository maps and are not repeated inside the records. */
module Entities {
  import opened Common

  type Money = int
  type Timestamp = int

  datatype UserRole = Customer | Admin | Merchant

  datatype ProductStatus = Active | Inactive | OutOfStock | Discontinued

  datatype OrderStatus =
    | PendingPayment | Processing | Shipped | Delivered | Completed | Cancelled | Returned | Refunded

  datatype PaymentStatus = Pending | Paid | Refunded | Failed | PartiallyPaid

  datatype PaymentMethod =
    | CreditCard | DebitCard | PayPal | WeChatPay | AliPay | BankTransfer | CashOnDelivery

  datatype OrderItemStatus = Pending | Processing | Shipped | Delivered | Cancelled | Returned

  /** A row of the `users` table; `password` holds the encoded password. */
  datatype User = User(
    username: string,
    email: string,
    password: string,
    firstName: Option<string>,
    lastName: Option<string>,
    phone: Option<string>,
    role: UserRole,
    enabled: bool,
    address: Option<string>,
    city: Option<string>,
    postcode: Option<string>,
    country: Option<string>,
    businessName: Option<string>,
    businessLicense: Option<string>,
    businessDescription: Option<string>,
    lastLoginAt: Option<Timestamp>)

  /** A row of the `products` table; `rating` is in hundredths. */
  datatype Product = Product(
    name: string,
    description: Option<string>,
    price: Money,
    stock: Int32,
    category: Option<string>,
    imageUrl: Option<string>,
    imageUrls: Option<string>,
    status: ProductStatus,
    enabled: bool,
    originalPrice: Option<Money>,
    sku: Option<string>,
    brand: Option<string>,
    unit: Option<string>,
    specifications: Option<string>,
    salesCount: Int32,
    viewCount: Int32,
    rating: int,
    reviewCount: Int32,
    merchantId: int)

  /** The recipient block of an order. */
  datatype ShippingAddress = ShippingAddress(
    name: Option<string>,
    phone: Option<string>,
    address: Option<string>,
    city: Option<string>,
    postcode: Option<string>,
    country: Option<string>)

  /** A row of the `order_items` table: a snapshot of the product at the
      time of ordering. */
  datatype OrderItem = OrderItem(
    productId: int,
    merchantId: int,
    productName: string,
    productSku: Option<string>,
    unitPrice: Money,
    quantity: Int32,
    totalPrice: Money,
    status: OrderItemStatus,
    notes: Option<string>)

  /** A row of the `orders` table with its items. */
  datatype Order = Order(
    orderNumber: string,
    customerId: int,
    status: OrderStatus,
    paymentStatus: PaymentStatus,
    paymentMethod: Option<PaymentMethod>,
    subtotal: Money,
    shippingFee: Money,
    taxAmount: Money,
    discountAmount: Money,
    totalAmount: Money,
    shipping: ShippingAddress,
    shippingProvider: Option<string>,
    trackingNumber: Option<string>,
    paymentReference: Option<string>,
    notes: Option<string>,
    cancellationReason: Option<string>,
    items: seq<OrderItem>,
    orderDate: Timestamp,
    paymentDate: Option<Timestamp>,
    shippedDate: Option<Timestamp>,
    deliveredDate: Option<Timestamp>,
    cancelledDate: Option<Timestamp>)
}
