/**
 * The decisions of components/product/ProductCard.tsx that do not depend on
 * styling: which badge is shown and how, when the quick add-to-cart button
 * and the "from" marker appear, when the series and the rating are shown,
 * and where a press leads. The grid and list variants make the same
 * decisions. Upper-casing covers ASCII letters only.
 */
module ProductCard {
  import opened Wrappers
  import opened ProductTypes

  datatype BadgeVariant = Primary | New | Eco | Promo | Neutral

  /** `getBadgeVariant`: the four known badges have their own variant;
      anything else is neutral. */
  function GetBadgeVariant(badge: string): (v: BadgeVariant)
    ensures v == Primary <==> badge == "best-seller"
    ensures v == New <==> badge == "new"
    ensures v == Eco <==> badge == "eco"
    ensures v == Promo <==> badge == "promo"
    ensures v == Neutral <==> !IsKnownBadge(badge)
  {
    match badge
    case "best-seller" => Primary
    case "new" => New
    case "eco" => Eco
    case "promo" => Promo
    case _ => Neutral
  }

  predicate IsKnownBadge(badge: string) {
    badge == "best-seller" || badge == "new" || badge == "eco" || badge == "promo"
  }

  predicate IsAsciiLower(c: char) {
    'a' <= c <= 'z'
  }

  function UpperChar(c: char): (u: char)
    ensures !IsAsciiLower(u)
    ensures !IsAsciiLower(c) ==> u == c
  {
    if IsAsciiLower(c) then (c as int - 32) as char else c
  }

  /** `toUpperCase` on ASCII: same length, each lower-case letter raised. */
  function ToUpper(s: string): (r: string)
    ensures |r| == |s|
    ensures forall i :: 0 <= i < |s| ==> r[i] == UpperChar(s[i])
  {
    if s == [] then [] else [UpperChar(s[0])] + ToUpper(s[1..])
  }

  predicate NoLowerCase(s: string) {
    forall i :: 0 <= i < |s| ==> !IsAsciiLower(s[i])
  }

  /** Upper-casing twice is upper-casing once. */
  lemma ToUpperIdempotent(s: string)
    ensures ToUpper(ToUpper(s)) == ToUpper(s)
  {
  }

  /** `getBadgeLabel`: fixed labels for the four known badges, the badge
      itself upper-cased for any other. */
  function GetBadgeLabel(badge: string): (text: string)
    ensures badge == "best-seller" ==> text == "BEST SELLER"
    ensures badge == "new" ==> text == "NEW"
    ensures badge == "eco" ==> text == "ECO"
    ensures badge == "promo" ==> text == "PROMO"
    ensures !IsKnownBadge(badge) ==> text == ToUpper(badge)
    ensures NoLowerCase(text)
  {
    match badge
    case "best-seller" => "BEST SELLER"
    case "new" => "NEW"
    case "eco" => "ECO"
    case "promo" => "PROMO"
    case _ => ToUpper(badge)
  }

  /** The four known badges get four different labels and four different variants. */
  lemma KnownBadgesDistinct(a: string, b: string)
    requires IsKnownBadge(a) && IsKnownBadge(b) && a != b
    ensures GetBadgeLabel(a) != GetBadgeLabel(b)
    ensures GetBadgeVariant(a) != GetBadgeVariant(b)
  {
  }

  /** Only the first badge is drawn, and nothing for an empty list. */
  function ShownBadge(badges: seq<string>): (b: Option<(BadgeVariant, string)>)
    ensures b.None? <==> badges == []
    ensures b.Some? ==> b.value == (GetBadgeVariant(badges[0]), GetBadgeLabel(badges[0]))
  {
    if badges == [] then None else Some((GetBadgeVariant(badges[0]), GetBadgeLabel(badges[0])))
  }

  /** The round add button: only with a handler, and only for a product
      that needs no configuring. */
  predicate QuickAddVisible(hasAddHandler: bool, isConfigurable: bool) {
    hasAddHandler && !isConfigurable
  }

  /** The "เริ่มต้น" ("from") marker next to the price of a configurable product. */
  predicate FromMarkerVisible(isConfigurable: bool) {
    isConfigurable
  }

  /** The add button and the "from" marker never appear together; with an
      add handler, exactly one of them appears. */
  lemma AddOrFromMarker(hasAddHandler: bool, isConfigurable: bool)
    ensures !(QuickAddVisible(hasAddHandler, isConfigurable) && FromMarkerVisible(isConfigurable))
    ensures hasAddHandler ==> (QuickAddVisible(hasAddHandler, isConfigurable) || FromMarkerVisible(isConfigurable))
  {
  }

  /** `product.series && …`: an absent or empty series is not drawn. */
  predicate SeriesShown(series: Option<string>) {
    series.Some? && series.value != ""
  }

  /** `product.rating && …`: an absent rating, or a rating of 0, draws no stars. */
  predicate RatingShown(rating: Option<real>) {
    rating.Some? && rating.value != 0.0
  }

  const PRODUCT_ROUTE_PREFIX: string := "/(customer)/product/"

  datatype PressAction = CallOnPress | Navigate(path: string)

  /** `handlePress`: the supplied handler if there is one, otherwise the
      product's detail page. */
  function HandlePress(hasOnPress: bool, productId: string): (a: PressAction)
    ensures a == CallOnPress <==> hasOnPress
    ensures a.Navigate? ==> (|a.path| == |PRODUCT_ROUTE_PREFIX| + |productId|
      && a.path[..|PRODUCT_ROUTE_PREFIX|] == PRODUCT_ROUTE_PREFIX
      && a.path[|PRODUCT_ROUTE_PREFIX|..] == productId)
  {
    if hasOnPress then CallOnPress else Navigate(PRODUCT_ROUTE_PREFIX + productId)
  }

  /** Different products lead to different pages. */
  lemma RoutesDistinct(id1: string, id2: string)
    requires id1 != id2
    ensures HandlePress(false, id1) != HandlePress(false, id2)
  {
    var p1, p2 := HandlePress(false, id1).path, HandlePress(false, id2).path;
    assert p1[|PRODUCT_ROUTE_PREFIX|..] == id1;
    assert p2[|PRODUCT_ROUTE_PREFIX|..] == id2;
  }

  /** What the card shows for a list item. */
  datatype CardView = CardView(
    badge: Option<(BadgeVariant, string)>,
    seriesShown: bool,
    ratingShown: bool,
    quickAdd: bool,
    fromMarker: bool)

  function View(p: ProductListItem, hasAddHandler: bool): (v: CardView)
    ensures v.badge.None? <==> p.badges == []
    ensures v.badge.Some? ==> v.badge.value == (GetBadgeVariant(p.badges[0]), GetBadgeLabel(p.badges[0]))
    ensures v.quickAdd <==> hasAddHandler && !p.isConfigurable
    ensures v.fromMarker <==> p.isConfigurable
    ensures !(v.quickAdd && v.fromMarker)
    ensures v.seriesShown <==> p.series.Some? && p.series.value != ""
    ensures v.ratingShown <==> p.rating.Some? && p.rating.value != 0.0
  {
    AddOrFromMarker(hasAddHandler, p.isConfigurable);
    CardView(ShownBadge(p.badges), SeriesShown(p.series), RatingShown(p.rating),
      QuickAddVisible(hasAddHandler, p.isConfigurable), FromMarkerVisible(p.isConfigurable))
  }
}
