/**
 * The category tiles of components/product/CategoryCard.tsx: the icon each
 * category name maps to, and the row that lays out one tile per category.
 */
module CategoryCard {
  import opened Wrappers
  import opened MockData

  const FALLBACK_ICON: string := "cube-outline"

  /** Material Symbols names of the catalogue to Ionicons names. */
  const IconMap: map<string, string> := map[
    "window" := "grid-outline",
    "door_sliding" := "browsers-outline",
    "grid_view" := "apps-outline",
    "pest_control" := "bug-outline",
    "handyman" := "construct-outline"
  ]

  /** `getIconName`: the mapped icon for a known name, the cube for any other. */
  function GetIconName(iconName: string): (icon: string)
    ensures icon == FALLBACK_ICON <==> iconName !in IconMap
    ensures iconName in IconMap ==> icon == IconMap[iconName]
  {
    if iconName in IconMap && IconMap[iconName] != "" then IconMap[iconName] else FALLBACK_ICON
  }

  /** Every category of the catalogue has an icon of its own. */
  lemma MockCategoriesHaveIcons()
    ensures forall c :: c in MockCategories ==> GetIconName(c.icon) != FALLBACK_ICON
  {
    forall c | c in MockCategories
      ensures GetIconName(c.icon) != FALLBACK_ICON
    {
      assert c.icon in IconMap;
    }
  }

  datatype CardVariant = IconVariant | Compact

  /** A card's variant when none is given. */
  function VariantOrDefault(variant: Option<CardVariant>): (v: CardVariant)
    ensures variant.None? ==> v == IconVariant
    ensures variant.Some? ==> v == variant.value
  {
    if variant.Some? then variant.value else IconVariant
  }

  datatype Tile = Tile(category: Category, variant: CardVariant, icon: string)

  /** `CategoryRow`: one icon-variant tile per category, in the order given. */
  function CategoryRow(categories: seq<Category>): (tiles: seq<Tile>)
    ensures |tiles| == |categories|
    ensures forall i :: 0 <= i < |tiles| ==>
      tiles[i].category == categories[i] && tiles[i].variant == IconVariant
      && tiles[i].icon == GetIconName(categories[i].icon)
  {
    if categories == [] then []
    else
      var first := Tile(categories[0], VariantOrDefault(Some(IconVariant)), GetIconName(categories[0].icon));
      [first] + CategoryRow(categories[1..])
  }
}
