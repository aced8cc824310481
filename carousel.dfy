/**
 * The promotion carousel of components/ui/BannerCarousel.tsx: which banner
 * is current, whether it advances by itself, the page indicators and the
 * item layout.
 *
 * The interval and the resume timeout become explicit calls: `Tick` is one
 * firing of the autoplay interval, and `ResumeTimerFires` one firing of a
 * timeout that `EndDrag` started. The index that a finished fling settles
 * on is a parameter (the float rounding of the scroll offset is left out).
 */
module Carousel {

  const AUTOPLAY_INTERVAL_MS: int := 4000
  const RESUME_DELAY_MS: int := 2000
  /** Horizontal padding of the carousel (px-4 on both sides). */
  const SIDE_PADDING: int := 32
  const WIDE_INDICATOR: int := 24
  const NARROW_INDICATOR: int := 8

  /** Division truncated toward zero, the quotient that JavaScript's `%` pairs with. */
  function TruncDiv(a: int, b: int): int
    requires b > 0
  {
    if a >= 0 then a / b else -((-a) / b)
  }

  /** JavaScript's `%` on integers: the remainder takes the sign of the
      dividend, unlike Dafny's `%`, whose remainder is never negative. */
  function JsRem(a: int, b: int): (r: int)
    requires b > 0
    ensures a >= 0 ==> 0 <= r < b
    ensures a < 0 ==> -b < r <= 0
    ensures a == b * TruncDiv(a, b) + r
  {
    if a >= 0 then a % b else -((-a) % b)
  }

  /** The banner after `index`, wrapping from the last one to the first. */
  lemma NextWraps(index: int, total: int)
    requires total > 1 && 0 <= index < total
    ensures JsRem(index + 1, total) == (if index == total - 1 then 0 else index + 1)
  {
  }

  /** A tick from any non-negative index lands on a banner that exists. */
  lemma TickFromNonNegativeInRange(index: int, total: int)
    requires total > 1 && index >= 0
    ensures 0 <= JsRem(index + 1, total) < total
  {
  }

  // ---------------------------------------------------------------------------
  // Indicators (components/ui/BannerCarousel.tsx:166-187)
  // ---------------------------------------------------------------------------

  function IndicatorWidth(index: int, current: int): (w: int)
    ensures w == WIDE_INDICATOR <==> index == current
    ensures w != WIDE_INDICATOR ==> w == NARROW_INDICATOR
  {
    if index == current then WIDE_INDICATOR else NARROW_INDICATOR
  }

  /** The widths of the indicator dots, one per banner, and none at all for
      a single banner or none. */
  function Indicators(total: nat, current: int): (ws: seq<int>)
    ensures total <= 1 ==> ws == []
    ensures total > 1 ==> |ws| == total
    ensures forall i :: 0 <= i < |ws| ==> ws[i] == IndicatorWidth(i, current)
  {
    if total > 1 then seq(total, i => IndicatorWidth(i, current)) else []
  }

  /** How many dots are drawn wide. */
  function CountWide(ws: seq<int>): nat {
    if ws == [] then 0
    else CountWide(ws[..|ws| - 1]) + (if ws[|ws| - 1] == WIDE_INDICATOR then 1 else 0)
  }

  lemma {:induction false} CountWideOfDots(n: nat, current: int)
    ensures CountWide(seq(n, i => IndicatorWidth(i, current))) == (if 0 <= current < n then 1 else 0)
  {
    if n > 0 {
      var ws := seq(n, i => IndicatorWidth(i, current));
      assert ws[..n - 1] == seq(n - 1, i => IndicatorWidth(i, current));
      CountWideOfDots(n - 1, current);
    }
  }

  /** With several banners and the current one in range, exactly one dot is
      wide, the current one; out of range, none is. */
  lemma ExactlyOneWideIndicator(total: nat, current: int)
    requires total > 1
    ensures CountWide(Indicators(total, current)) == (if 0 <= current < total then 1 else 0)
  {
    CountWideOfDots(total, current);
  }

  // ---------------------------------------------------------------------------
  // Item layout (components/ui/BannerCarousel.tsx:22-24, 136-143)
  // ---------------------------------------------------------------------------

  /** `BANNER_WIDTH`: the screen less the strip's padding on both sides. */
  function BannerWidth(screenWidth: int): (w: int)
    ensures w + SIDE_PADDING == screenWidth
  {
    screenWidth - SIDE_PADDING
  }

  datatype ItemLayout = ItemLayout(length: int, offset: int, index: int)

  /** `getItemLayout` on a screen of the given width. */
  function GetItemLayout(index: int, screenWidth: int): (l: ItemLayout)
    ensures l.index == index && l.length == BannerWidth(screenWidth)
  {
    var w := BannerWidth(screenWidth);
    ItemLayout(w, w * index, index)
  }

  /** The items tile the strip: the first starts at 0, each is one banner
      wide, and each starts where the one before it ends. */
  lemma LayoutTiles(index: int, screenWidth: int)
    ensures GetItemLayout(0, screenWidth).offset == 0
    ensures GetItemLayout(index, screenWidth).length + SIDE_PADDING == screenWidth
    ensures GetItemLayout(index + 1, screenWidth).offset
      == GetItemLayout(index, screenWidth).offset + GetItemLayout(index, screenWidth).length
  {
  }

  /** The offset of item k is the sum of the lengths of the k items before it. */
  lemma {:induction false} LayoutOffsetIsPrefixSum(k: nat, screenWidth: int)
    ensures GetItemLayout(k, screenWidth).offset == SumLengths(k, screenWidth)
  {
    if k > 0 {
      LayoutOffsetIsPrefixSum(k - 1, screenWidth);
      LayoutTiles(k - 1, screenWidth);
    }
  }

  function SumLengths(k: nat, screenWidth: int): int {
    if k == 0 then 0 else SumLengths(k - 1, screenWidth) + GetItemLayout(k - 1, screenWidth).length
  }

  /** `Math.round(offsetX / BANNER_WIDTH)` for a whole-pixel offset: the page
      whose start is nearest, a tie going to the later page. */
  function SettledPage(offsetX: int, bannerWidth: int): (page: int)
    requires bannerWidth > 0
    ensures 2 * page * bannerWidth <= 2 * offsetX + bannerWidth < 2 * (page + 1) * bannerWidth
  {
    (2 * offsetX + bannerWidth) / (2 * bannerWidth)
  }

  /** Only one page lies within half a banner of an offset. */
  lemma SettledPageUnique(offsetX: int, bannerWidth: int, page: int)
    requires bannerWidth > 0
    requires 2 * page * bannerWidth <= 2 * offsetX + bannerWidth < 2 * (page + 1) * bannerWidth
    ensures SettledPage(offsetX, bannerWidth) == page
  {
    var q := SettledPage(offsetX, bannerWidth);
    if q < page {
      MulMonotone(q + 1, page, 2 * bannerWidth);
    } else if q > page {
      MulMonotone(page + 1, q, 2 * bannerWidth);
    }
  }

  lemma MulMonotone(a: int, b: int, c: int)
    requires a <= b && c > 0
    ensures a * c <= b * c
  {
  }

  /** A fling that comes to rest at the start of item k, as laid out by
      getItemLayout, settles on index k. */
  lemma SettledPageOfLayoutOffset(k: int, screenWidth: int)
    requires screenWidth > SIDE_PADDING
    ensures SettledPage(GetItemLayout(k, screenWidth).offset, BannerWidth(screenWidth)) == k
  {
    var w := BannerWidth(screenWidth);
    SettledPageUnique(w * k, w, k);
  }

  // ---------------------------------------------------------------------------
  // The carousel state (components/ui/BannerCarousel.tsx:42-92)
  // ---------------------------------------------------------------------------

  class BannerCarousel {
    const totalBanners: nat
    /** BANNER_WIDTH on this device. */
    const bannerWidth: int
    var currentIndex: int
    var isAutoPlaying: bool
    /** Resume timeouts started by drag ends that have not fired yet. */
    var pendingResumes: nat

    predicate InRange()
      reads this
    {
      0 <= currentIndex < totalBanners
    }

    /** The autoplay interval runs only while autoplay is on and there is
        more than one banner. */
    predicate TickScheduled()
      reads this
    {
      isAutoPlaying && totalBanners > 1
    }

    constructor (banners: nat, screenWidth: int)
      ensures totalBanners == banners && bannerWidth == BannerWidth(screenWidth)
      ensures currentIndex == 0 && isAutoPlaying && pendingResumes == 0
      ensures banners > 0 ==> InRange()
    {
      totalBanners := banners;
      bannerWidth := BannerWidth(screenWidth);
      currentIndex := 0;
      isAutoPlaying := true;
      pendingResumes := 0;
    }

    /** One firing of the autoplay interval: the next banner, wrapping to
        the first; nothing happens when no interval is scheduled. */
    method Tick()
      modifies this`currentIndex
      ensures TickScheduled() ==> currentIndex == JsRem(old(currentIndex) + 1, totalBanners)
      ensures !TickScheduled() ==> currentIndex == old(currentIndex)
      ensures old(InRange()) ==> InRange()
      ensures old(InRange()) && TickScheduled() ==>
        currentIndex == (if old(currentIndex) == totalBanners - 1 then 0 else old(currentIndex) + 1)
    {
      if isAutoPlaying && totalBanners > 1 {
        currentIndex := JsRem(currentIndex + 1, totalBanners);
      }
    }

    /** A finished fling settles on the page nearest the scroll offset,
        unclamped: an overscrolled offset gives an index out of range. */
    method MomentumScrollEnd(offsetX: int)
      requires bannerWidth > 0
      modifies this`currentIndex
      ensures currentIndex == SettledPage(offsetX, bannerWidth)
      ensures 2 * currentIndex * bannerWidth <= 2 * offsetX + bannerWidth < 2 * (currentIndex + 1) * bannerWidth
    {
      currentIndex := SettledPage(offsetX, bannerWidth);
    }

    /** Touching the strip stops autoplay. */
    method BeginDrag()
      modifies this`isAutoPlaying
      ensures !isAutoPlaying && !TickScheduled()
    {
      isAutoPlaying := false;
    }

    /** Letting go starts a timeout that turns autoplay back on later. */
    method EndDrag()
      modifies this`pendingResumes
      ensures pendingResumes == old(pendingResumes) + 1
    {
      pendingResumes := pendingResumes + 1;
    }

    /** One of the started timeouts fires. It is never cleared, so it turns
        autoplay on even when a new drag began after it was started. */
    method ResumeTimerFires()
      requires pendingResumes > 0
      modifies this`isAutoPlaying, this`pendingResumes
      ensures isAutoPlaying && pendingResumes == old(pendingResumes) - 1
      ensures totalBanners > 1 ==> TickScheduled()
    {
      isAutoPlaying := true;
      pendingResumes := pendingResumes - 1;
    }

    /** Pressing a dot jumps to its banner. */
    method IndicatorPress(index: int)
      requires 0 <= index < totalBanners
      modifies this`currentIndex
      ensures currentIndex == index && InRange()
    {
      currentIndex := index;
    }
  }
}
