/**
 * The round icon button of components/ui/IconButton.tsx: its defaults, its
 * disabled state, and the notification badge with its "99+" cap.
 * Badge counts are whole numbers.
 */
module IconButton {
  import opened Wrappers
  import opened Utils

  datatype Variant = DefaultVariant | Filled | Outlined | Ghost
  datatype Size = Small | Medium | Large

  const DEFAULT_BADGE_COLOR: string := "bg-red-500"
  const BADGE_CAP: string := "99+"

  /** The props after defaults: an absent variant is "default", an absent
      size is "md", an absent badge colour is red. */
  datatype ButtonProps = ButtonProps(variant: Variant, size: Size, badgeColor: string)

  function WithDefaults(variant: Option<Variant>, size: Option<Size>, badgeColor: Option<string>)
    : (p: ButtonProps)
    ensures variant.None? ==> p.variant == DefaultVariant
    ensures size.None? ==> p.size == Medium
    ensures badgeColor.None? ==> p.badgeColor == DEFAULT_BADGE_COLOR
    ensures variant.Some? ==> p.variant == variant.value
    ensures size.Some? ==> p.size == size.value
    ensures badgeColor.Some? ==> p.badgeColor == badgeColor.value
  {
    ButtonProps(variant.GetOr(DefaultVariant), size.GetOr(Medium), badgeColor.GetOr(DEFAULT_BADGE_COLOR))
  }

  /** How a disabled flag reaches the touchable: whether it reacts to presses
      and whether it is drawn at half opacity. */
  datatype Touchable = Touchable(pressable: bool, dimmed: bool)

  function Touch(disabled: bool): (t: Touchable)
    ensures t.pressable <==> !disabled
    ensures t.dimmed <==> !t.pressable
  {
    Touchable(!disabled, disabled)
  }

  /** The badge text: none unless the count is given and positive; "99+"
      above 99; the count's decimal digits otherwise. */
  function BadgeLabel(badge: Option<int>): (text: Option<string>)
    ensures text.Some? <==> badge.Some? && badge.value > 0
    ensures text == Some(BADGE_CAP) <==> badge.Some? && badge.value > 99
    ensures text.Some? && badge.value <= 99 ==>
      |text.value| >= 1 && AllDigits(text.value) && ParseInt(text.value) == badge.value
  {
    if badge.None? || badge.value <= 0 then None
    else if badge.value > 99 then Some(BADGE_CAP)
    else
      IntToStringRoundTrip(badge.value);
      Some(IntToString(badge.value))
  }

  /** Counts up to 99 are told apart by their badges; all larger counts share one. */
  lemma BadgeDistinguishesUpTo99(a: int, b: int)
    requires 0 < a <= 99 && 0 < b
    requires BadgeLabel(Some(a)) == BadgeLabel(Some(b))
    ensures a == b
  {
    assert b <= 99;
  }
}
