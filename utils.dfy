/**
 * Text, time and order-status helpers of lib/utils.ts.
 *
 * Numbers that the source turns into text with a template literal are
 * integers here, rendered in decimal by IntToString; the clock read of
 * formatRelativeTime is replaced by the millisecond difference it computes.
 */
module Utils {

  // ---------------------------------------------------------------------------
  // Decimal rendering of integers (what `${n}` prints for an integer n)
  // ---------------------------------------------------------------------------

  predicate IsDigit(c: char) {
    '0' <= c <= '9'
  }

  predicate AllDigits(s: string) {
    forall i :: 0 <= i < |s| ==> IsDigit(s[i])
  }

  function DigitChar(d: nat): (c: char)
    requires d < 10
    ensures IsDigit(c) && c as int - '0' as int == d
  {
    ('0' as int + d) as char
  }

  /** The decimal digits of n, most significant first, without leading zeros. */
  function NatToString(n: nat): (s: string)
    ensures |s| >= 1 && AllDigits(s)
    ensures s[0] == '0' ==> n == 0
    decreases n
  {
    if n < 10 then [DigitChar(n)] else NatToString(n / 10) + [DigitChar(n % 10)]
  }

  /** The number a string of decimal digits denotes. */
  function DigitsValue(s: string): nat
    requires AllDigits(s)
  {
    if s == [] then 0 else 10 * DigitsValue(s[..|s| - 1]) + (s[|s| - 1] as int - '0' as int)
  }

  lemma {:induction false} NatToStringRoundTrip(n: nat)
    ensures DigitsValue(NatToString(n)) == n
  {
    if n >= 10 {
      var s := NatToString(n);
      assert s[..|s| - 1] == NatToString(n / 10);
      NatToStringRoundTrip(n / 10);
    }
  }

  /** An integer in decimal, with a leading '-' when it is negative. */
  function IntToString(n: int): (s: string)
    ensures |s| >= 1
    ensures s[0] == '-' <==> n < 0
    ensures s[0] == '-' || IsDigit(s[0])
    ensures forall i :: 0 < i < |s| ==> IsDigit(s[i])
  {
    if n < 0 then "-" + NatToString(-n) else NatToString(n)
  }

  /** Reads back what IntToString prints. */
  function ParseInt(s: string): int
    requires |s| >= 1 && (s[0] == '-' || IsDigit(s[0]))
    requires forall i :: 0 < i < |s| ==> IsDigit(s[i])
  {
    if s[0] == '-' then 0 - DigitsValue(s[1..]) as int else DigitsValue(s)
  }

  lemma {:induction false} IntToStringRoundTrip(n: int)
    ensures ParseInt(IntToString(n)) == n
  {
    if n < 0 {
      NatToStringRoundTrip(-n);
      assert IntToString(n)[1..] == NatToString(-n);
    } else {
      NatToStringRoundTrip(n);
    }
  }

  lemma IntToStringInjective(a: int, b: int)
    ensures IntToString(a) == IntToString(b) ==> a == b
  {
    IntToStringRoundTrip(a);
    IntToStringRoundTrip(b);
  }

  // ---------------------------------------------------------------------------
  // truncate (lib/utils.ts:89-92)
  // ---------------------------------------------------------------------------

  /** The end index `s.slice(0, end)` stops at, for a string of length len:
      a negative end counts back from the end of the string (it is NOT
      clamped to 0 first), and the result is clamped to [0, len]. */
  function SliceEnd(len: nat, end: int): (k: nat)
    ensures k <= len
    ensures 0 <= end <= len ==> k == end
    ensures end < 0 ==> k == if len + end < 0 then 0 else len + end
  {
    if end < 0 then (if len + end < 0 then 0 else len + end)
    else if end > len then len
    else end
  }

  /** `str` when it fits in maxLength, otherwise `str.slice(0, maxLength - 3) + "..."`. */
  function Truncate(str: string, maxLength: int): (r: string)
    ensures |str| <= maxLength ==> r == str
    ensures |str| > maxLength ==> |r| >= 3 && r[|r| - 3..] == "..." && r[..|r| - 3] <= str
  {
    if |str| <= maxLength then str
    else str[..SliceEnd(|str|, maxLength - 3)] + "..."
  }

  /** With room for the ellipsis, a long string is cut to exactly maxLength characters. */
  lemma TruncateLong(str: string, maxLength: int)
    requires 3 <= maxLength < |str|
    ensures |Truncate(str, maxLength)| == maxLength
    ensures Truncate(str, maxLength) == str[..maxLength - 3] + "..."
  {
  }

  /** Below 3 the slice end is negative and counts from the end of the string,
      so the result is longer than maxLength. */
  lemma TruncateShortLimit(str: string, maxLength: int)
    requires maxLength < 3 && maxLength < |str|
    ensures var keep := if |str| + maxLength - 3 < 0 then 0 else |str| + maxLength - 3;
      Truncate(str, maxLength) == str[..keep] + "..."
    ensures |Truncate(str, maxLength)| > maxLength
  {
  }

  /** truncate(truncate(s, n), n) == truncate(s, n) once the limit leaves room for "...". */
  lemma TruncateIdempotent(str: string, maxLength: int)
    requires maxLength >= 3
    ensures Truncate(Truncate(str, maxLength), maxLength) == Truncate(str, maxLength)
  {
  }

  // ---------------------------------------------------------------------------
  // formatRelativeTime (lib/utils.ts:64-84), given diffMs = now - date
  // ---------------------------------------------------------------------------

  const MS_PER_MINUTE := 60000
  const MS_PER_HOUR := 3600000
  const MS_PER_DAY := 86400000

  /** The phrase formatRelativeTime picks, before it is rendered as text. */
  datatype RelativeTime =
    | JustNow
    | MinutesAgo(minutes: int)
    | HoursAgo(hours: int)
    | Yesterday
    | DaysAgo(days: int)
    | WeeksAgo(weeks: int)
    | MonthsAgo(months: int)
    | YearsAgo(years: int)

  /** The if-chain on diffDays = floor(diffMs / one day), and on the day of
      the difference on whole hours and minutes. Each ensures gives the range of
      diffMs a phrase stands for. */
  function RelativeBucket(diffMs: int): (r: RelativeTime)
    ensures r == JustNow <==> 0 <= diffMs < 2 * MS_PER_MINUTE
    ensures r.MinutesAgo? <==> 2 * MS_PER_MINUTE <= diffMs < MS_PER_HOUR
    ensures r.MinutesAgo? ==> (2 <= r.minutes <= 59
      && r.minutes * MS_PER_MINUTE <= diffMs < (r.minutes + 1) * MS_PER_MINUTE)
    ensures r.HoursAgo? <==> MS_PER_HOUR <= diffMs < MS_PER_DAY
    ensures r.HoursAgo? ==> (1 <= r.hours <= 23
      && r.hours * MS_PER_HOUR <= diffMs < (r.hours + 1) * MS_PER_HOUR)
    ensures r == Yesterday <==> MS_PER_DAY <= diffMs < 2 * MS_PER_DAY
    ensures r.DaysAgo? <==> diffMs < 0 || 2 * MS_PER_DAY <= diffMs < 7 * MS_PER_DAY
    ensures r.DaysAgo? ==> (r.days < 7 && r.days != 0 && r.days != 1
      && r.days * MS_PER_DAY <= diffMs < (r.days + 1) * MS_PER_DAY)
    ensures r.WeeksAgo? <==> 7 * MS_PER_DAY <= diffMs < 30 * MS_PER_DAY
    ensures r.WeeksAgo? ==> (1 <= r.weeks <= 4
      && 7 * r.weeks * MS_PER_DAY <= diffMs < 7 * (r.weeks + 1) * MS_PER_DAY)
    ensures r.MonthsAgo? <==> 30 * MS_PER_DAY <= diffMs < 365 * MS_PER_DAY
    ensures r.MonthsAgo? ==> (1 <= r.months <= 12
      && 30 * r.months * MS_PER_DAY <= diffMs < 30 * (r.months + 1) * MS_PER_DAY)
    ensures r.YearsAgo? <==> 365 * MS_PER_DAY <= diffMs
    ensures r.YearsAgo? ==> (1 <= r.years
      && 365 * r.years * MS_PER_DAY <= diffMs < 365 * (r.years + 1) * MS_PER_DAY)
  {
    var diffDays := diffMs / MS_PER_DAY;
    if diffDays == 0 then
      var diffHours := diffMs / MS_PER_HOUR;
      if diffHours == 0 then
        var diffMins := diffMs / MS_PER_MINUTE;
        if diffMins <= 1 then JustNow else MinutesAgo(diffMins)
      else HoursAgo(diffHours)
    else if diffDays == 1 then Yesterday
    else if diffDays < 7 then DaysAgo(diffDays)
    else if diffDays < 30 then WeeksAgo(diffDays / 7)
    else if diffDays < 365 then MonthsAgo(diffDays / 30)
    else YearsAgo(diffDays / 365)
  }

  /** The Thai text of each phrase. */
  function Phrase(t: RelativeTime): string {
    match t
    case JustNow => "เมื่อสักครู่"
    case MinutesAgo(m) => IntToString(m) + " นาทีที่แล้ว"
    case HoursAgo(h) => IntToString(h) + " ชั่วโมงที่แล้ว"
    case Yesterday => "เมื่อวาน"
    case DaysAgo(d) => IntToString(d) + " วันที่แล้ว"
    case WeeksAgo(w) => IntToString(w) + " สัปดาห์ที่แล้ว"
    case MonthsAgo(m) => IntToString(m) + " เดือนที่แล้ว"
    case YearsAgo(y) => IntToString(y) + " ปีที่แล้ว"
  }

  /** `formatRelativeTime`: "เมื่อสักครู่" (just now) exactly under two
      minutes, "เมื่อวาน" (yesterday) exactly on day one, and otherwise the
      whole count of the unit its range calls for, followed by that unit. */
  function FormatRelativeTime(diffMs: int): (text: string)
    ensures text == "เมื่อสักครู่" <==> 0 <= diffMs < 2 * MS_PER_MINUTE
    ensures text == "เมื่อวาน" <==> MS_PER_DAY <= diffMs < 2 * MS_PER_DAY
    ensures 2 * MS_PER_MINUTE <= diffMs < MS_PER_HOUR ==>
      text == IntToString(diffMs / MS_PER_MINUTE) + " นาทีที่แล้ว"
    ensures MS_PER_HOUR <= diffMs < MS_PER_DAY ==>
      text == IntToString(diffMs / MS_PER_HOUR) + " ชั่วโมงที่แล้ว"
    ensures diffMs < 0 || 2 * MS_PER_DAY <= diffMs < 7 * MS_PER_DAY ==>
      text == IntToString(diffMs / MS_PER_DAY) + " วันที่แล้ว"
    ensures 7 * MS_PER_DAY <= diffMs < 30 * MS_PER_DAY ==>
      text == IntToString(diffMs / MS_PER_DAY / 7) + " สัปดาห์ที่แล้ว"
    ensures 30 * MS_PER_DAY <= diffMs < 365 * MS_PER_DAY ==>
      text == IntToString(diffMs / MS_PER_DAY / 30) + " เดือนที่แล้ว"
    ensures 365 * MS_PER_DAY <= diffMs ==>
      text == IntToString(diffMs / MS_PER_DAY / 365) + " ปีที่แล้ว"
  {
    var r := RelativeBucket(diffMs);
    PhraseStart(r);
    Phrase(r)
  }

  /** A future date (negative difference) is reported as a negative number of days ago. */
  lemma FutureDateIsNegativeDaysAgo(diffMs: int)
    requires diffMs < 0
    ensures FormatRelativeTime(diffMs) == IntToString(diffMs / MS_PER_DAY) + " วันที่แล้ว"
    ensures diffMs / MS_PER_DAY <= -1
  {
  }

  /** The unit words that follow a number in a phrase. */
  const UnitSuffixes: seq<string> :=
    [" นาทีที่แล้ว", " ชั่วโมงที่แล้ว", " วันที่แล้ว", " สัปดาห์ที่แล้ว", " เดือนที่แล้ว", " ปีที่แล้ว"]

  /** A number followed by a word that starts with a space splits back into the two. */
  lemma NumberThenWord(a: int, b: int, x: string, y: string)
    requires |x| >= 1 && |y| >= 1 && x[0] == ' ' && y[0] == ' '
    requires IntToString(a) + x == IntToString(b) + y
    ensures a == b && x == y
  {
    var sa, sb := IntToString(a), IntToString(b);
    var w := sa + x;
    assert forall i :: 0 <= i < |sa| ==> w[i] != ' ';
    assert w[|sa|] == ' ';
    assert forall i :: 0 <= i < |sb| ==> (sb + y)[i] != ' ';
    assert (sb + y)[|sb|] == ' ';
    assert |sa| == |sb|;
    assert sa == w[..|sa|] == (sb + y)[..|sb|] == sb;
    IntToStringInjective(a, b);
    assert x == w[|sa|..] == (sb + y)[|sb|..] == y;
  }

  /** Different phrases never print the same text, so the text shown determines
      the bucket and its number. */
  lemma PhraseInjective(s: RelativeTime, t: RelativeTime)
    requires Phrase(s) == Phrase(t)
    ensures s == t
  {
    PhraseStart(s);
    PhraseStart(t);
    if Numbered(s) && Numbered(t) {
      var ns, nt := NumberAndWord(s), NumberAndWord(t);
      SuffixStartsWithSpace(ns.1);
      SuffixStartsWithSpace(nt.1);
      NumberThenWord(ns.0, nt.0, ns.1, nt.1);
    }
  }

  predicate Numbered(t: RelativeTime) {
    !t.JustNow? && !t.Yesterday?
  }

  /** The number and the unit word of a numbered phrase. */
  function NumberAndWord(t: RelativeTime): (nw: (int, string))
    requires Numbered(t)
    ensures Phrase(t) == IntToString(nw.0) + nw.1
    ensures nw.1 in UnitSuffixes
  {
    match t
    case MinutesAgo(m) => (m, UnitSuffixes[0])
    case HoursAgo(h) => (h, UnitSuffixes[1])
    case DaysAgo(d) => (d, UnitSuffixes[2])
    case WeeksAgo(w) => (w, UnitSuffixes[3])
    case MonthsAgo(m) => (m, UnitSuffixes[4])
    case YearsAgo(y) => (y, UnitSuffixes[5])
  }

  /** A numbered phrase starts with its number; the two others with the letter 'เ'. */
  lemma PhraseStart(t: RelativeTime)
    ensures |Phrase(t)| >= 1
    ensures Numbered(t) <==> Phrase(t)[0] == '-' || IsDigit(Phrase(t)[0])
  {
    if Numbered(t) {
      var nw := NumberAndWord(t);
      assert Phrase(t)[0] == IntToString(nw.0)[0];
    } else {
      assert Phrase(t)[0] == 'เ';
    }
  }

  lemma SuffixStartsWithSpace(x: string)
    requires x in UnitSuffixes
    ensures |x| >= 1 && x[0] == ' '
  {
  }

  // ---------------------------------------------------------------------------
  // getOrderStatusText and getOrderStatusColor (lib/utils.ts:97-136)
  // ---------------------------------------------------------------------------

  /** The eleven order statuses of an order's lifecycle. */
  datatype OrderStatus =
    | PendingPayment | PaymentConfirmed | Processing | Manufacturing | QualityCheck
    | ReadyToShip | Shipped | Delivered | Completed | Cancelled | Refunded

  /** The string value each status has in an order record. */
  function StatusKey(s: OrderStatus): string {
    match s
    case PendingPayment => "pending_payment"
    case PaymentConfirmed => "payment_confirmed"
    case Processing => "processing"
    case Manufacturing => "manufacturing"
    case QualityCheck => "quality_check"
    case ReadyToShip => "ready_to_ship"
    case Shipped => "shipped"
    case Delivered => "delivered"
    case Completed => "completed"
    case Cancelled => "cancelled"
    case Refunded => "refunded"
  }

  /** The Thai label of each status, as the status badge shows it. */
  function ThaiLabel(s: OrderStatus): string {
    match s
    case PendingPayment => "รอชำระเงิน"
    case PaymentConfirmed => "ชำระเงินแล้ว"
    case Processing => "กำลังดำเนินการ"
    case Manufacturing => "กำลังผลิต"
    case QualityCheck => "ตรวจสอบคุณภาพ"
    case ReadyToShip => "พร้อมจัดส่ง"
    case Shipped => "จัดส่งแล้ว"
    case Delivered => "ส่งถึงแล้ว"
    case Completed => "เสร็จสิ้น"
    case Cancelled => "ยกเลิก"
    case Refunded => "คืนเงินแล้ว"
  }

  /** The status-to-label record getOrderStatusText builds on each call. */
  const StatusTextMap: map<string, string> := map[
    "pending_payment" := "รอชำระเงิน",
    "payment_confirmed" := "ชำระเงินแล้ว",
    "processing" := "กำลังดำเนินการ",
    "manufacturing" := "กำลังผลิต",
    "quality_check" := "ตรวจสอบคุณภาพ",
    "ready_to_ship" := "พร้อมจัดส่ง",
    "shipped" := "จัดส่งแล้ว",
    "delivered" := "ส่งถึงแล้ว",
    "completed" := "เสร็จสิ้น",
    "cancelled" := "ยกเลิก",
    "refunded" := "คืนเงินแล้ว"
  ]

  /** True when `status` is the string value of one of the eleven statuses. */
  predicate IsStatusKey(status: string) {
    exists s :: StatusKey(s) == status
  }

  /** Both records are keyed by exactly the eleven status values. */
  lemma RecordKeysAreStatusKeys(k: string)
    ensures k in StatusTextMap <==> IsStatusKey(k)
    ensures k in StatusColorMap <==> IsStatusKey(k)
  {
    if k == "pending_payment" {
      assert StatusKey(PendingPayment) == k;
    } else if k == "payment_confirmed" {
      assert StatusKey(PaymentConfirmed) == k;
    } else if k == "processing" {
      assert StatusKey(Processing) == k;
    } else if k == "manufacturing" {
      assert StatusKey(Manufacturing) == k;
    } else if k == "quality_check" {
      assert StatusKey(QualityCheck) == k;
    } else if k == "ready_to_ship" {
      assert StatusKey(ReadyToShip) == k;
    } else if k == "shipped" {
      assert StatusKey(Shipped) == k;
    } else if k == "delivered" {
      assert StatusKey(Delivered) == k;
    } else if k == "completed" {
      assert StatusKey(Completed) == k;
    } else if k == "cancelled" {
      assert StatusKey(Cancelled) == k;
    } else if k == "refunded" {
      assert StatusKey(Refunded) == k;
    }
  }

  /** `statusMap[status] || status`: the record's entry when it is a non-empty
      string, the argument itself otherwise. */
  function OrderStatusText(status: string): (r: string)
    ensures forall s :: StatusKey(s) == status ==> r == ThaiLabel(s)
    ensures !IsStatusKey(status) ==> r == status
  {
    RecordKeysAreStatusKeys(status);
    if status in StatusTextMap && StatusTextMap[status] != "" then StatusTextMap[status] else status
  }

  /** Every status has its own label, so the label tells the status. */
  lemma ThaiLabelInjective(a: OrderStatus, b: OrderStatus)
    requires ThaiLabel(a) == ThaiLabel(b)
    ensures a == b
  {
  }

  /** The badge colours a status can take. */
  datatype StatusColor = Primary | Success | Warning | Error | Neutral

  /** The status-to-colour record getOrderStatusColor builds on each call. */
  const StatusColorMap: map<string, StatusColor> := map[
    "pending_payment" := Warning,
    "payment_confirmed" := Primary,
    "processing" := Primary,
    "manufacturing" := Primary,
    "quality_check" := Primary,
    "ready_to_ship" := Primary,
    "shipped" := Primary,
    "delivered" := Success,
    "completed" := Success,
    "cancelled" := Error,
    "refunded" := Neutral
  ]

  /** `colorMap[status] || "neutral"`: every colour name is a non-empty string,
      so the record's entry when there is one, "neutral" otherwise. */
  function OrderStatusColor(status: string): (r: StatusColor)
    ensures r == Warning <==> status == "pending_payment"
    ensures r == Success <==> status == "delivered" || status == "completed"
    ensures r == Error <==> status == "cancelled"
    ensures r == Primary <==> (status in
      {"payment_confirmed", "processing", "manufacturing", "quality_check", "ready_to_ship", "shipped"})
    ensures r == Neutral <==> status == "refunded" || !IsStatusKey(status)
  {
    RecordKeysAreStatusKeys(status);
    if status in StatusColorMap then StatusColorMap[status] else Neutral
  }
}
