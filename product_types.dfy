/**
 * The product records of types/product.ts. The file declares types only;
 * prices are whole baht and dimensions whole centimetres.
 */
module ProductTypes {
  import opened Wrappers

  datatype ProductCategory = Window | Door | Vinyl | Screen | Accessory

  datatype StockStatus = InStock | PreOrder | OutOfStock

  /** A colour choice; its price modifier is a flat amount in baht. */
  datatype ColorOption = ColorOption(
    id: string, name: string, nameTh: string, hexCode: string, priceModifier: Option<int>)

  /** A glass choice; its price modifier is baht per square metre. */
  datatype GlassOption = GlassOption(
    id: string, name: string, nameTh: string, description: Option<string>, priceModifier: int)

  /** A width or height range in centimetres; an absent step means 1. */
  datatype DimensionConstraints = DimensionConstraints(min: int, max: int, step: Option<int>)

  datatype ProductConstraints = ProductConstraints(
    width: DimensionConstraints,
    height: DimensionConstraints,
    colors: seq<ColorOption>,
    glassTypes: Option<seq<GlassOption>>)

  /** A catalogue product. Its badges are kept as the strings the record holds. */
  datatype Product = Product(
    id: string,
    sku: string,
    name: string,
    nameTh: string,
    category: ProductCategory,
    series: Option<string>,
    basePrice: int,
    images: seq<string>,
    rating: Option<real>,
    reviewCount: Option<int>,
    badges: seq<string>,
    constraints: Option<ProductConstraints>,
    stockStatus: StockStatus,
    isConfigurable: bool,
    leadTimeDays: Option<int>)

  /** The short form of a product that lists and cards show. The thumbnail is
      None where the source reads `images[0]` of an empty list (undefined). */
  datatype ProductListItem = ProductListItem(
    id: string,
    sku: string,
    name: string,
    nameTh: string,
    category: ProductCategory,
    series: Option<string>,
    basePrice: int,
    thumbnailUrl: Option<string>,
    rating: Option<real>,
    badges: seq<string>,
    stockStatus: StockStatus,
    isConfigurable: bool)

  /** What a customer chose for one product. */
  datatype ProductConfiguration = ProductConfiguration(
    width: Option<int>,
    height: Option<int>,
    colorId: string,
    glassTypeId: Option<string>,
    quantity: int)

  /** A dimension range is usable: it is not empty and its step, 1 when absent, is positive. */
  predicate DimensionWellFormed(d: DimensionConstraints) {
    d.min <= d.max && d.step.GetOr(1) > 0
  }
}
