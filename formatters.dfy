/** The decisions the display helpers make before handing a number to the platform's
    formatter: how many fraction digits a currency amount gets, which sign and
    colour a change gets, and which "time ago" bucket a date falls in. */
module Formatters {
  import opened Seqs

  function Abs(x: real): real
  {
    if x < 0.0 then -x else x
  }

  /** The minimum and maximum number of fraction digits passed on to the formatter. */
  datatype FractionDigits = FractionDigits(min: nat, max: nat)

  /** `formatCurrency`'s choice: explicit `decimals` (even 0, since `??` only skips a
      missing value) fixes both; otherwise small amounts get 4 to 6 digits, amounts
      under 100 get exactly 2, and larger ones 0 to 2. */
  function CurrencyDigits(value: real, decimals: Option<nat>): (d: FractionDigits)
    ensures d.min <= d.max
    ensures decimals.Some? ==> d.min == d.max == decimals.value
    ensures decimals.None? ==> 2 <= d.max <= 6 && (d.min == 0 <==> Abs(value) >= 100.0)
  {
    var absValue := Abs(value);
    match decimals
    case Some(n) => FractionDigits(n, n)
    case None =>
      var min := if absValue < 1.0 then 4 else if absValue < 100.0 then 2 else 0;
      var max := if absValue < 1.0 then 6 else 2;
      FractionDigits(min, max)
  }

  /** The three bands of `formatCurrency` when no `decimals` is given. */
  lemma CurrencyDigitBands(value: real)
    ensures Abs(value) < 1.0 ==> CurrencyDigits(value, None) == FractionDigits(4, 6)
    ensures 1.0 <= Abs(value) < 100.0 ==> CurrencyDigits(value, None) == FractionDigits(2, 2)
    ensures 100.0 <= Abs(value) ==> CurrencyDigits(value, None) == FractionDigits(0, 2)
    ensures CurrencyDigits(value, None) == CurrencyDigits(-value, None)
  {
  }

  /** `formatPercentage`'s sign: a `+` for every value that is not negative, 0 included. */
  function PercentSign(value: real): (sign: string)
    ensures sign == "+" <==> value >= 0.0
    ensures sign == "" <==> value < 0.0
  {
    if value >= 0.0 then "+" else ""
  }

  /** `formatChange`'s colour class and icon. */
  datatype ChangeStyle = ChangeStyle(cssClass: string, icon: string)

  function ChangeStyleOf(value: real): (s: ChangeStyle)
    ensures s.cssClass == "text-emerald-400" <==> value >= 0.0
    ensures s.icon == "i-heroicons-arrow-trending-up" <==> value >= 0.0
    ensures value < 0.0 ==> s.cssClass == "text-red-400" && s.icon == "i-heroicons-arrow-trending-down"
  {
    var isPositive := value >= 0.0;
    ChangeStyle(
      if isPositive then "text-emerald-400" else "text-red-400",
      if isPositive then "i-heroicons-arrow-trending-up" else "i-heroicons-arrow-trending-down")
  }

  /** The colour, the icon and the `+` sign of a change always agree. */
  lemma ChangeStyleAgreesWithSign(value: real)
    ensures ChangeStyleOf(value).cssClass == "text-emerald-400" <==> PercentSign(value) == "+"
    ensures ChangeStyleOf(value).icon == "i-heroicons-arrow-trending-up" <==> PercentSign(value) == "+"
  {
  }

  /** What `formatDate` shows in relative mode: a "time ago" text, or `Absolute` when
      the date is a week old or more and falls through to the absolute format. */
  datatype RelativeTime = JustNow | MinutesAgo(minutes: int) | HoursAgo(hours: int) | DaysAgo(days: int) | Absolute

  const MsPerMinute := 60 * 1000
  const MsPerHour := 60 * MsPerMinute
  const MsPerDay := 24 * MsPerHour

  /** `Math.floor(x / d)` for a positive divisor (Dafny's `/` on `int` rounds down
      when the divisor is positive, negative `x` included). */
  function FloorDiv(x: int, d: int): int
    requires d > 0
  {
    x / d
  }

  /** The relative branch of `formatDate`, given `now - date` in milliseconds. Each
      number shown is in its bucket's range. */
  function RelativeBucket(diff: int): (r: RelativeTime)
    ensures r.MinutesAgo? ==> 1 <= r.minutes < 60
    ensures r.HoursAgo? ==> 1 <= r.hours < 24
    ensures r.DaysAgo? ==> 1 <= r.days < 7
  {
    var seconds := FloorDiv(diff, 1000);
    var minutes := FloorDiv(seconds, 60);
    var hours := FloorDiv(minutes, 60);
    var days := FloorDiv(hours, 24);
    if seconds < 60 then JustNow
    else if minutes < 60 then MinutesAgo(minutes)
    else if hours < 24 then HoursAgo(hours)
    else if days < 7 then DaysAgo(days)
    else Absolute
  }

  /** The buckets: under a minute (future dates included) is "just now"; then whole
      minutes below an hour, whole hours below a day, whole days below a week; a
      week or more falls through to the absolute format. */
  lemma RelativeBuckets(diff: int)
    ensures RelativeBucket(diff) == JustNow <==> diff < MsPerMinute
    ensures MsPerMinute <= diff < MsPerHour ==> RelativeBucket(diff) == MinutesAgo(diff / MsPerMinute)
    ensures MsPerHour <= diff < MsPerDay ==> RelativeBucket(diff) == HoursAgo(diff / MsPerHour)
    ensures MsPerDay <= diff < 7 * MsPerDay ==> RelativeBucket(diff) == DaysAgo(diff / MsPerDay)
    ensures RelativeBucket(diff) == Absolute <==> diff >= 7 * MsPerDay
  {
  }
}
