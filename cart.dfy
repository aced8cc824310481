/**
 * The cart records of types/cart.ts and the money relations their field
 * comments state, in whole baht. The file declares types only: no code in
 * the repository computes a summary, applies a discount code or reduces a
 * CartAction, so this module states the relations as predicates and proves
 * how they compose; it does not compute them.
 */
module CartTypes {
  import opened Wrappers
  import opened ProductTypes

  /** The product as it was when it was put in the cart. */
  datatype ProductSnapshot = ProductSnapshot(
    name: string, nameTh: string, sku: string, thumbnailUrl: string, basePrice: int)

  datatype CartItem = CartItem(
    id: string,
    productId: string,
    productSnapshot: ProductSnapshot,
    configuration: ProductConfiguration,
    quantity: int,
    unitPrice: int,
    totalPrice: int,
    addedAt: string,
    updatedAt: string)

  /** shipping == 0 means "worked out at a later step", not "free". */
  datatype CartSummary = CartSummary(
    subtotal: int,
    discount: int,
    discountCode: Option<string>,
    shipping: int,
    vat: int,
    total: int,
    itemCount: int,
    totalQuantity: int)

  datatype Cart = Cart(
    id: string,
    userId: Option<string>,
    items: seq<CartItem>,
    summary: CartSummary,
    appliedDiscountCode: Option<string>,
    createdAt: string,
    updatedAt: string)

  datatype DiscountKind = Percentage | Fixed

  /** A discount code; `kind` is the record's `type` field. */
  datatype DiscountCode = DiscountCode(
    code: string,
    kind: DiscountKind,
    value: int,
    minOrderAmount: Option<int>,
    maxDiscount: Option<int>,
    validFrom: string,
    validTo: string,
    usageLimit: Option<int>,
    usedCount: int,
    isActive: bool)

  /** The actions a cart reducer would take. ApplyDiscount carries the discount
      amount already worked out: the action supplies it, it does not derive it. */
  datatype CartAction =
    | AddItem(item: CartItem)
    | RemoveItem(itemId: string)
    | UpdateQuantity(itemId: string, quantity: int)
    | ApplyDiscount(code: string, discount: int)
    | RemoveDiscount
    | ClearCart
    | SetCart(cart: Cart)

  // ---------------------------------------------------------------------------
  // Line and summary relations (types/cart.ts:22-37)
  // ---------------------------------------------------------------------------

  /** A line's total is its unit price times its quantity. */
  predicate LinePriced(unitPrice: int, quantity: int, totalPrice: int) {
    totalPrice == unitPrice * quantity
  }

  predicate CartLinePriced(item: CartItem) {
    LinePriced(item.unitPrice, item.quantity, item.totalPrice)
  }

  function SumQuantity(items: seq<CartItem>): int {
    if items == [] then 0 else SumQuantity(items[..|items| - 1]) + items[|items| - 1].quantity
  }

  function SumTotalPrice(items: seq<CartItem>): int {
    if items == [] then 0 else SumTotalPrice(items[..|items| - 1]) + items[|items| - 1].totalPrice
  }

  /** The sum of unit price times quantity over the lines. */
  function SumExtended(items: seq<CartItem>): int {
    if items == [] then 0
    else SumExtended(items[..|items| - 1]) + items[|items| - 1].unitPrice * items[|items| - 1].quantity
  }

  /** The summary counts the lines, adds up their quantities, and its subtotal
      (before discount) adds up their totals. */
  predicate SummaryCountsItems(items: seq<CartItem>, s: CartSummary) {
    s.itemCount == |items|
    && s.totalQuantity == SumQuantity(items)
    && s.subtotal == SumTotalPrice(items)
  }

  /** vat is exactly 7% of a taxable base; whether that base is taken before or
      after the discount is not stated, so it is a parameter. */
  predicate VatIsSevenPercent(vat: int, base: int) {
    100 * vat == 7 * base
  }

  /** The two total formulas the data uses: one adds VAT, one does not. */
  predicate TotalAddsVat(subtotal: int, discount: int, shipping: int, vat: int, total: int) {
    total == subtotal - discount + shipping + vat
  }

  predicate TotalOmitsVat(subtotal: int, discount: int, shipping: int, total: int) {
    total == subtotal - discount + shipping
  }

  /** How a summary's shipping field reads. */
  datatype ShippingCharge = LaterStep | Charge(amount: int)

  function ShippingShown(s: CartSummary): (c: ShippingCharge)
    ensures c == LaterStep <==> s.shipping == 0
    ensures c.Charge? ==> c.amount == s.shipping && c.amount != 0
  {
    if s.shipping == 0 then LaterStep else Charge(s.shipping)
  }

  // ---------------------------------------------------------------------------
  // Discount code fields (types/cart.ts:52-63)
  // ---------------------------------------------------------------------------

  /** minOrderAmount is the smallest order amount the code may be used on. */
  predicate MeetsMinimum(c: DiscountCode, orderAmount: int) {
    c.minOrderAmount.None? || orderAmount >= c.minOrderAmount.value
  }

  /** maxDiscount caps percentage codes only. */
  predicate WithinCap(c: DiscountCode, discount: int) {
    c.kind == Percentage && c.maxDiscount.Some? ==> discount <= c.maxDiscount.value
  }

  // ---------------------------------------------------------------------------
  // How the relations compose
  // ---------------------------------------------------------------------------

  lemma {:induction false} SumsAppend(a: seq<CartItem>, b: seq<CartItem>)
    ensures SumQuantity(a + b) == SumQuantity(a) + SumQuantity(b)
    ensures SumTotalPrice(a + b) == SumTotalPrice(a) + SumTotalPrice(b)
    decreases |b|
  {
    if b == [] {
      assert a + b == a;
    } else {
      var c := b[..|b| - 1];
      assert (a + b)[..|a + b| - 1] == a + c;
      SumsAppend(a, c);
    }
  }

  /** When every line is priced, the subtotal is the sum of unit price times quantity. */
  lemma {:induction false} SubtotalOfPricedLines(items: seq<CartItem>)
    requires forall i :: 0 <= i < |items| ==> CartLinePriced(items[i])
    ensures SumTotalPrice(items) == SumExtended(items)
  {
    if items != [] {
      SubtotalOfPricedLines(items[..|items| - 1]);
      assert CartLinePriced(items[|items| - 1]);
    }
  }

  /** A consistent summary stays consistent when one line is added and the
      count, the quantity and the subtotal each grow by that line. */
  lemma SummaryAfterAddingLine(items: seq<CartItem>, s: CartSummary, item: CartItem)
    requires SummaryCountsItems(items, s)
    ensures SummaryCountsItems(items + [item],
      s.(itemCount := s.itemCount + 1,
         totalQuantity := s.totalQuantity + item.quantity,
         subtotal := s.subtotal + item.totalPrice))
  {
    SumsAppend(items, [item]);
    assert [item][..0] == [];
  }

  /** Removing the line at position k takes exactly its share off the count,
      the quantity and the subtotal. */
  lemma SummaryAfterRemovingLine(items: seq<CartItem>, s: CartSummary, k: nat)
    requires k < |items|
    requires SummaryCountsItems(items, s)
    ensures SummaryCountsItems(items[..k] + items[k + 1..],
      s.(itemCount := s.itemCount - 1,
         totalQuantity := s.totalQuantity - items[k].quantity,
         subtotal := s.subtotal - items[k].totalPrice))
  {
    assert items == items[..k] + ([items[k]] + items[k + 1..]);
    SumsAppend(items[..k], [items[k]] + items[k + 1..]);
    SumsAppend([items[k]], items[k + 1..]);
    SumsAppend(items[..k], items[k + 1..]);
    SumsAppend([], [items[k]]);
    assert [] + [items[k]] == [items[k]];
  }
}
