/**
 * The constant catalogue, cart, orders and discount codes of data/mockData.ts,
 * the two list projections built from them, and what holds of the numbers.
 * Image URLs are abbreviated to short placeholders of the same role; long
 * descriptions, feature lists and specification tables are left out.
 */
module MockData {
  import opened Wrappers
  import opened Utils
  import opened ProductTypes
  import opened CartTypes
  import opened OrderTypes

  // ---------------------------------------------------------------------------
  // Categories (data/mockData.ts:21-65)
  // ---------------------------------------------------------------------------

  /** A catalogue category; `icon` is a Material Symbols icon name. */
  datatype Category = Category(
    id: ProductCategory, name: string, nameTh: string, icon: string, productCount: int)

  const MockCategories: seq<Category> := [
    Category(Window, "Windows", "หน้าต่าง", "window", 24),
    Category(Door, "Doors", "ประตู", "door_sliding", 18),
    Category(Vinyl, "Vinyl", "ไวนิล", "grid_view", 12),
    Category(Screen, "Screens", "มุ้งลวด", "pest_control", 8),
    Category(Accessory, "Accessories", "อุปกรณ์เสริม", "handyman", 32)
  ]

  // ---------------------------------------------------------------------------
  // Colour and glass options (data/mockData.ts:71-199)
  // ---------------------------------------------------------------------------

  const MockColorOptions: seq<ColorOption> := [
    ColorOption("white", "White", "ขาว", "#FFFFFF", Some(0)),
    ColorOption("black", "Black", "ดำ", "#1a1a1a", Some(500)),
    ColorOption("teak", "Teak Wood", "ไม้สัก", "#8D6E63", Some(1500)),
    ColorOption("silver", "Silver", "เงิน", "#C0C0C0", Some(300)),
    ColorOption("bronze", "Bronze", "บรอนซ์", "#CD7F32", Some(800))
  ]

  /** Glass price modifiers are baht per square metre on top of clear 5 mm glass. */
  const MockGlassOptions: seq<GlassOption> := [
    GlassOption("clear-5mm", "Clear Glass 5mm", "กระจกใส 5 มม.", Some("กระจกใสมาตรฐาน ความหนา 5 มม."), 0),
    GlassOption("clear-6mm", "Clear Glass 6mm", "กระจกใส 6 มม.", Some("กระจกใสมาตรฐาน ความหนา 6 มม."), 150),
    GlassOption("frosted", "Frosted Glass", "กระจกฝ้า", Some("กระจกฝ้าพ่นทราย กันการมองทะลุ"), 350),
    GlassOption("tinted-green", "Tinted Glass - Green", "กระจกสีเขียว", Some("กระจกสีเขียวตัดแสง ลดความร้อน 30%"), 400),
    GlassOption("tinted-grey", "Tinted Glass - Grey", "กระจกสีเทา", Some("กระจกสีเทาควัน ลดความร้อน 35%"), 400),
    GlassOption("tinted-bronze", "Tinted Glass - Bronze", "กระจกสีชา", Some("กระจกสีชาบรอนซ์ ลดความร้อน 40%"), 450),
    GlassOption("tinted-blue", "Tinted Glass - Blue", "กระจกสีฟ้า", Some("กระจกสีฟ้าน้ำทะเล สวยงามทันสมัย"), 500),
    GlassOption("tempered-5mm", "Tempered Glass 5mm", "กระจกเทมเปอร์ 5 มม.", Some("กระจกนิรภัย แข็งแรงกว่าปกติ 5 เท่า"), 650),
    GlassOption("tempered-6mm", "Tempered Glass 6mm", "กระจกเทมเปอร์ 6 มม.", Some("กระจกนิรภัย แข็งแรงกว่าปกติ 5 เท่า หนา 6 มม."), 800),
    GlassOption("laminated", "Laminated Glass", "กระจกลามิเนต", Some("กระจกลามิเนต 2 ชั้น ปลอดภัยสูงสุด ไม่แตกกระจาย"), 1200),
    GlassOption("double-glazed", "Double Glazed (IGU)", "กระจก 2 ชั้น (IGU)", Some("กระจก 2 ชั้นสุญญากาศ กันเสียง กันความร้อนดีเยี่ยม"), 1800),
    GlassOption("low-e", "Low-E Glass", "กระจก Low-E", Some("กระจกเคลือบ Low-E กันความร้อนสูงสุด ประหยัดพลังงาน"), 2500)
  ]

  // ---------------------------------------------------------------------------
  // Products (data/mockData.ts:205-526)
  // ---------------------------------------------------------------------------

  function Dim(min: int, max: int, step: int): DimensionConstraints {
    DimensionConstraints(min, max, Some(step))
  }

  const MockProducts: seq<Product> := [
    Product("prod-001", "WIN-SLD-8842", "Signature Sliding Door", "ประตูบานเลื่อน Signature", Door,
      Some("Series 500"), 12500, ["img/prod-001/1", "img/prod-001/2"], Some(4.8), Some(156), ["best-seller"],
      Some(ProductConstraints(Dim(120, 400, 10), Dim(180, 280, 10), MockColorOptions, Some(MockGlassOptions))),
      InStock, true, Some(14)),
    Product("prod-002", "WIN-CSM-3301", "Premier Casement Window", "หน้าต่างบานเปิด Premier", Window,
      Some("Series 300"), 8900, ["img/prod-002/1"], Some(4.6), Some(89), ["eco"],
      Some(ProductConstraints(Dim(60, 180, 5), Dim(60, 180, 5), MockColorOptions[..3], Some(MockGlassOptions[..3]))),
      InStock, true, Some(7)),
    Product("prod-003", "WIN-ENT-5501", "Grand Entrance Door", "ประตูทางเข้า Grand", Door,
      Some("Premium Collection"), 15000, ["img/prod-003/1"], Some(4.9), Some(42), ["new"],
      Some(ProductConstraints(Dim(80, 120, 5), Dim(200, 240, 5), MockColorOptions[2..5], Some(MockGlassOptions[..2]))),
      PreOrder, true, Some(21)),
    Product("prod-004", "WIN-AWN-5501", "Awning Window", "หน้าต่างบานกระทุ้ง", Window,
      Some("Series 500"), 5500, ["img/prod-004/1"], Some(4.5), Some(67), [],
      Some(ProductConstraints(Dim(40, 120, 5), Dim(40, 80, 5), MockColorOptions[..2], Some(MockGlassOptions[..3]))),
      InStock, true, Some(5)),
    Product("prod-005", "ACC-HDL-1201", "Heavy Duty Handle", "มือจับ Heavy Duty", Accessory,
      None, 1200, ["img/prod-005/1"], Some(4.7), Some(234), [],
      None, InStock, false, None),
    Product("prod-006", "VNL-SDG-002", "Vinyl Siding (White)", "ไวนิลไซดิ้ง (ขาว)", Vinyl,
      None, 1200, ["img/prod-006/1"], Some(4.4), Some(89), [],
      None, PreOrder, false, Some(7)),
    Product("prod-007", "WIN-SLD-SMT-001", "Smart Sliding Window", "หน้าต่างบานเลื่อน สลับ", Window,
      Some("Smart Series"), 12500, ["img/prod-007/1"], Some(4.8), Some(112), ["best-seller"],
      Some(ProductConstraints(Dim(50, 240, 5), Dim(40, 200, 5), MockColorOptions, Some(MockGlassOptions))),
      InStock, true, Some(14)),
    Product("prod-008", "WIN-DBH-001", "Double Hung Smart", "หน้าต่างบานเลื่อนขึ้น-ลง", Window,
      None, 6800, ["img/prod-008/1"], Some(4.5), Some(78), [],
      None, InStock, true, Some(7)),
    Product("prod-009", "WIN-FIX-001", "Fixed Picture View", "หน้าต่างบานตายชมวิว", Window,
      None, 8500, ["img/prod-009/1"], Some(4.7), Some(56), [],
      None, InStock, true, Some(10)),
    Product("prod-010", "ACC-SMS-001", "Smart Slide Accessories", "อุปกรณ์บานเลื่อน Smart Slide", Accessory,
      None, 3125, ["img/prod-010/1"], Some(4.6), Some(45), [],
      None, InStock, false, None)
  ]

  // ---------------------------------------------------------------------------
  // The product list projection (data/mockData.ts:532-545)
  // ---------------------------------------------------------------------------

  /** `images[0]`: undefined (None) for a product without images. */
  function FirstImage(images: seq<string>): (r: Option<string>)
    ensures r.Some? <==> |images| > 0
    ensures r.Some? ==> r.value == images[0]
  {
    if images == [] then None else Some(images[0])
  }

  function ToListItem(p: Product): ProductListItem {
    ProductListItem(p.id, p.sku, p.name, p.nameTh, p.category, p.series, p.basePrice,
      FirstImage(p.images), p.rating, p.badges, p.stockStatus, p.isConfigurable)
  }

  /** `products.map(...)`: one list item per product, in the same order, each
      copying its product's identity, price, badges and configurability and
      taking its thumbnail from the first image. */
  function ProductListItems(ps: seq<Product>): (r: seq<ProductListItem>)
    ensures |r| == |ps|
    ensures forall i :: 0 <= i < |ps| ==>
      r[i].id == ps[i].id && r[i].sku == ps[i].sku && r[i].name == ps[i].name
      && r[i].nameTh == ps[i].nameTh && r[i].category == ps[i].category
      && r[i].series == ps[i].series && r[i].basePrice == ps[i].basePrice
      && r[i].thumbnailUrl == FirstImage(ps[i].images) && r[i].rating == ps[i].rating
      && r[i].badges == ps[i].badges && r[i].stockStatus == ps[i].stockStatus
      && r[i].isConfigurable == ps[i].isConfigurable
  {
    if ps == [] then [] else [ToListItem(ps[0])] + ProductListItems(ps[1..])
  }

  const MockProductListItems: seq<ProductListItem> := ProductListItems(MockProducts)

  // ---------------------------------------------------------------------------
  // Promo banners (data/mockData.ts:551-602)
  // ---------------------------------------------------------------------------

  datatype PromoBanner = PromoBanner(
    id: string, title: string, subtitle: string, imageUrl: string,
    badge: Option<string>, badgeColor: Option<string>, link: string)

  const MockPromoBanners: seq<PromoBanner> := [
    PromoBanner("promo-1", "Summer Sale", "Get 15% off all Sliding Systems this month.", "img/promo-1",
      Some("PROMO"), Some("primary"), "/catalog?promo=summer-sale"),
    PromoBanner("promo-2", "Smart Lock Series", "Secure your home with new tech.", "img/promo-2",
      Some("NEW"), Some("white"), "/catalog?category=accessory&tag=smart-lock"),
    PromoBanner("promo-3", "Premium Window Collection", "ฟรีค่าติดตั้งเมื่อซื้อครบ 50,000 บาท", "img/promo-3",
      Some("HOT"), Some("primary"), "/catalog?category=window"),
    PromoBanner("promo-4", "Year End Clearance", "ลดสูงสุด 30% สินค้าคัดสรร", "img/promo-4",
      Some("SALE"), Some("white"), "/catalog?filter=clearance")
  ]

  // ---------------------------------------------------------------------------
  // Cart (data/mockData.ts:608-669)
  // ---------------------------------------------------------------------------

  const MockCartItems: seq<CartItem> := [
    CartItem("cart-item-1", "prod-001",
      ProductSnapshot("WINDSOR Signature Window", "หน้าต่าง WINDSOR Signature", "WIN-SLD-8842", "img/prod-001/1", 5000),
      ProductConfiguration(Some(120), Some(200), "white", Some("double"), 2),
      2, 5000, 10000, "2024-01-05", "2024-01-05"),
    CartItem("cart-item-2", "prod-006",
      ProductSnapshot("Vinyl Siding (White)", "ไวนิลไซดิ้ง (ขาว)", "VNL-SDG-002", "img/prod-006/1", 1200),
      ProductConfiguration(None, None, "white", None, 10),
      10, 1200, 12000, "2024-01-05", "2024-01-05")
  ]

  const MockCart: Cart := Cart("cart-001", Some("user-001"), MockCartItems,
    CartSummary(22000, 0, None, 0, 1540, 23540, 2, 12),
    None, "2024-01-05", "2024-01-05")

  // ---------------------------------------------------------------------------
  // Orders (data/mockData.ts:675-901)
  // ---------------------------------------------------------------------------

  const MockOrders: seq<Order> := [
    Order("order-001", "ORD-2023-088", "user-001",
      [OrderItem("item-1", "prod-001",
        OrderItemSnapshot("WINDSOR Signature Window Set", "ชุดหน้าต่าง WINDSOR Signature", "WIN-SLD-8842", "img/prod-001/1", 45000),
        ProductConfiguration(Some(120), Some(120), "white", None, 1), 1, 45000, 45000)],
      Shipped,
      ShippingInfo("Standard Delivery", Some("KERRY123456789"), Some("Kerry Express"), Some("2024-01-14"), 0),
      OrderPricing(45000, 0, None, 0, 3150, 45000),
      "2024-01-01"),
    Order("order-002", "ORD-2023-092", "user-001",
      [OrderItem("item-2", "prod-010",
        OrderItemSnapshot("Smart Slide Accessories", "อุปกรณ์บานเลื่อน Smart Slide", "ACC-SMS-001", "img/prod-010/1", 3125),
        ProductConfiguration(None, None, "black", None, 4), 4, 3125, 12500)],
      Processing,
      ShippingInfo("Standard Delivery", None, None, None, 0),
      OrderPricing(12500, 0, None, 0, 875, 12500),
      "2024-01-07"),
    Order("order-003", "ORD-2023-095", "user-001",
      [OrderItem("item-3", "prod-006",
        OrderItemSnapshot("Vinyl SPC Click Lock", "พื้นไวนิล SPC Click Lock", "VNL-SPC-001", "img/prod-006/1", 1445),
        ProductConfiguration(None, None, "teak", None, 20), 20, 1445, 28900)],
      PendingPayment,
      ShippingInfo("Standard Delivery", None, None, None, 0),
      OrderPricing(28900, 0, None, 0, 2023, 28900),
      "2024-01-10")
  ]

  /** One order's row in the order list, or None where the source's `items[0]`
      would be undefined and reading its snapshot throws a TypeError. */
  function ToOrderListItem(o: Order): (r: Option<OrderListItem>)
    ensures r.None? <==> o.items == []
    ensures r.Some? ==>
      r.value.id == o.id && r.value.orderNumber == o.orderNumber && r.value.status == o.status
      && r.value.totalAmount == o.pricing.total && r.value.itemCount == |o.items|
      && r.value.firstItemThumbnail == o.items[0].productSnapshot.thumbnailUrl
      && r.value.firstItemName == o.items[0].productSnapshot.nameTh
      && r.value.carrier == o.shipping.carrier && r.value.trackingNumber == o.shipping.trackingNumber
      && r.value.estimatedDelivery == o.shipping.estimatedDelivery && r.value.createdAt == o.createdAt
  {
    if o.items == [] then None
    else Some(OrderListItem(o.id, o.orderNumber, o.status, o.pricing.total, |o.items|,
      o.items[0].productSnapshot.thumbnailUrl, o.items[0].productSnapshot.nameTh,
      o.shipping.carrier, o.shipping.trackingNumber, o.shipping.estimatedDelivery, o.createdAt))
  }

  /** `orders.map(...)`: fails as a whole when some order has no items, and
      otherwise gives one row per order, in the same order. */
  function OrderListItems(os: seq<Order>): (r: Option<seq<OrderListItem>>)
    ensures r.None? <==> exists i :: 0 <= i < |os| && os[i].items == []
    ensures r.Some? ==> |r.value| == |os|
    ensures r.Some? ==> forall i :: 0 <= i < |os| ==> Some(r.value[i]) == ToOrderListItem(os[i])
  {
    if os == [] then Some([])
    else
      match (ToOrderListItem(os[0]), OrderListItems(os[1..]))
      case (Some(first), Some(rest)) => Some([first] + rest)
      case _ => None
  }

  const MockOrderListItems: Option<seq<OrderListItem>> := OrderListItems(MockOrders)

  // ---------------------------------------------------------------------------
  // User and discount codes (data/mockData.ts:907-981)
  // ---------------------------------------------------------------------------

  /** The signed-in sample user, with the fields a session keeps. */
  datatype UserProfile = UserProfile(
    uid: string, email: string, displayName: string, phoneNumber: string, avatarUrl: string)

  const MockUser: UserProfile :=
    UserProfile("user-001", "somchai@example.com", "Khun Somchai", "081-234-5678", "img/avatar/user-001")

  const MockDiscountCodes: seq<DiscountCode> := [
    DiscountCode("SUMMER15", Percentage, 15, Some(5000), Some(3000), "2024-01-01", "2024-03-31", Some(100), 45, true),
    DiscountCode("WELCOME500", Fixed, 500, Some(2000), None, "2024-01-01", "2024-12-31", None, 0, true)
  ]

  /** Both sample codes are live and below their usage limit, a cap is set
      on the percentage code only, and the fixed code's minimum order is at
      least its value, so it never takes an eligible order below zero. */
  lemma MockDiscountCodesConsistent()
    ensures forall c :: c in MockDiscountCodes ==>
      c.isActive && c.value > 0 && (c.usageLimit.Some? ==> c.usedCount < c.usageLimit.value)
    ensures forall c :: c in MockDiscountCodes && c.maxDiscount.Some? ==> c.kind == Percentage
    ensures forall c :: c in MockDiscountCodes && c.kind == Percentage ==> c.value <= 100
    ensures forall c :: c in MockDiscountCodes && c.kind == Fixed ==>
      c.minOrderAmount.Some? && c.value <= c.minOrderAmount.value
  {
  }

  /** SUMMER15 takes exactly 15% off an order of at least 5000 baht; its
      3000-baht cap binds exactly on orders above 20000 baht. */
  lemma Summer15CapBindsAbove20000(orderAmount: int, discount: int)
    requires 100 * discount == MockDiscountCodes[0].value * orderAmount
    ensures MockDiscountCodes[0].code == "SUMMER15"
    ensures MeetsMinimum(MockDiscountCodes[0], orderAmount) <==> orderAmount >= 5000
    ensures WithinCap(MockDiscountCodes[0], discount) <==> orderAmount <= 20000
  {
  }

  /** WELCOME500 is never limited by a cap, and any order it may be used on
      is at least its 500 baht. */
  lemma Welcome500NeverExceedsOrder(orderAmount: int)
    requires MeetsMinimum(MockDiscountCodes[1], orderAmount)
    ensures MockDiscountCodes[1].code == "WELCOME500"
    ensures WithinCap(MockDiscountCodes[1], MockDiscountCodes[1].value)
    ensures MockDiscountCodes[1].value <= orderAmount
  {
  }

  // ---------------------------------------------------------------------------
  // What holds of the sample numbers
  // ---------------------------------------------------------------------------

  /** Every cart line's total is unit price times quantity, and its quantity is
      the configured quantity. */
  lemma MockCartLinesPriced()
    ensures forall i :: 0 <= i < |MockCartItems| ==>
      CartLinePriced(MockCartItems[i]) && MockCartItems[i].quantity == MockCartItems[i].configuration.quantity
  {
  }

  /** Every order line satisfies the same two relations. */
  lemma MockOrderLinesPriced()
    ensures forall o, i :: o in MockOrders && 0 <= i < |o.items| ==>
      LinePriced(o.items[i].unitPrice, o.items[i].quantity, o.items[i].totalPrice)
      && o.items[i].quantity == o.items[i].configuration.quantity
  {
  }

  /** The cart summary agrees with its lines: 2 lines, 12 pieces, subtotal
      22000 = 10000 + 12000, VAT 1540 = 7% of 22000, and total 23540 adds the
      VAT to subtotal - discount + shipping. */
  lemma MockCartSummaryConsistent()
    ensures SummaryCountsItems(MockCart.items, MockCart.summary)
    ensures var s := MockCart.summary;
      s.subtotal == 22000 && s.itemCount == 2 && s.totalQuantity == 12
      && VatIsSevenPercent(s.vat, s.subtotal)
      && TotalAddsVat(s.subtotal, s.discount, s.shipping, s.vat, s.total)
  {
    assert MockCart.items[..1][..0] == [];
  }

  /** Every order records VAT as 7% of its subtotal, yet sets its total to
      subtotal - discount + shipping, without the VAT. */
  lemma MockOrdersOmitVat()
    ensures forall o :: o in MockOrders ==>
      var p := o.pricing;
      VatIsSevenPercent(p.vat, p.subtotal) && p.vat > 0
      && TotalOmitsVat(p.subtotal, p.discount, p.shippingCost, p.total)
      && !TotalAddsVat(p.subtotal, p.discount, p.shippingCost, p.vat, p.total)
  {
  }

  /** So no single total formula fits all the sample data: the cart's total
      adds VAT and the orders' totals do not. */
  lemma NoSingleTotalFormula()
    ensures var s := MockCart.summary;
      TotalAddsVat(s.subtotal, s.discount, s.shipping, s.vat, s.total)
      && !TotalOmitsVat(s.subtotal, s.discount, s.shipping, s.total)
    ensures exists o :: (o in MockOrders
      && !TotalAddsVat(o.pricing.subtotal, o.pricing.discount, o.pricing.shippingCost, o.pricing.vat, o.pricing.total))
  {
    MockOrdersOmitVat();
    assert MockOrders[0] in MockOrders;
  }

  /** Every width and height range is non-empty with a positive step. */
  lemma MockConstraintsWellFormed()
    ensures forall p :: p in MockProducts && p.constraints.Some? ==>
      DimensionWellFormed(p.constraints.value.width) && DimensionWellFormed(p.constraints.value.height)
  {
  }

  /** Being configurable does not mean having a constraints block:
      prod-008 and prod-009 are configurable and have none. */
  lemma ConfigurableWithoutConstraints()
    ensures MockProducts[7].id == "prod-008" && MockProducts[7].isConfigurable && MockProducts[7].constraints.None?
    ensures MockProducts[8].id == "prod-009" && MockProducts[8].isConfigurable && MockProducts[8].constraints.None?
  {
  }

  /** Glass modifiers are never negative, and clear 5 mm glass is the zero baseline. */
  lemma GlassModifiersFromClearBaseline()
    ensures forall g :: g in MockGlassOptions ==> g.priceModifier >= 0
    ensures MockGlassOptions[0].id == "clear-5mm" && MockGlassOptions[0].priceModifier == 0
  {
  }

  /** The sample cart does not refer back to the catalogue consistently: its
      first line names a glass id that no glass option has, and its snapshot
      base price is not the catalogue's. */
  lemma MockCartSnapshotDiverges()
    ensures MockCartItems[0].configuration.glassTypeId == Some("double")
    ensures forall g :: g in MockGlassOptions ==> g.id != "double"
    ensures MockCartItems[0].productId == MockProducts[0].id
    ensures MockCartItems[0].productSnapshot.basePrice != MockProducts[0].basePrice
  {
  }

  /** The order list of the sample orders exists and its amounts are the orders' totals. */
  lemma MockOrderListTotals()
    ensures MockOrderListItems.Some?
    ensures |MockOrderListItems.value| == 3
    ensures forall i :: 0 <= i < 3 ==> MockOrderListItems.value[i].totalAmount == MockOrders[i].pricing.total
    ensures MockOrderListItems.value[0].totalAmount == 45000
  {
  }
}
