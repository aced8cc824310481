/**
 * The order records of types/order.ts that the order list and the money
 * relations read. The file declares types only; dates are ISO date strings.
 */
module OrderTypes {
  import opened Wrappers
  import opened ProductTypes
  import opened Utils

  /** The product as it was when the order was placed. */
  datatype OrderItemSnapshot = OrderItemSnapshot(
    name: string, nameTh: string, sku: string, thumbnailUrl: string, priceAtOrder: int)

  datatype OrderItem = OrderItem(
    id: string,
    productId: string,
    productSnapshot: OrderItemSnapshot,
    configuration: ProductConfiguration,
    quantity: int,
    unitPrice: int,
    totalPrice: int)

  datatype ShippingInfo = ShippingInfo(
    deliveryMethod: string,
    trackingNumber: Option<string>,
    carrier: Option<string>,
    estimatedDelivery: Option<string>,
    shippingCost: int)

  datatype OrderPricing = OrderPricing(
    subtotal: int, discount: int, discountCode: Option<string>, shippingCost: int, vat: int, total: int)

  datatype Order = Order(
    id: string,
    orderNumber: string,
    userId: string,
    items: seq<OrderItem>,
    status: OrderStatus,
    shipping: ShippingInfo,
    pricing: OrderPricing,
    createdAt: string)

  /** The summary row of the order history list. */
  datatype OrderListItem = OrderListItem(
    id: string,
    orderNumber: string,
    status: OrderStatus,
    totalAmount: int,
    itemCount: int,
    firstItemThumbnail: string,
    firstItemName: string,
    carrier: Option<string>,
    trackingNumber: Option<string>,
    estimatedDelivery: Option<string>,
    createdAt: string)
}
