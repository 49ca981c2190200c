/**
 * The card expiry date (`CardExpirationDate`) and the class-level rule that it
 * lies strictly after the current month (`ExpiryDateValidator`), at the
 * granularity of `java.time.YearMonth`. The clock read `YearMonth.now()` is
 * the parameter `now`.
 */
module Expiry {
  import opened Wrappers

  /** `java.time.YearMonth`: a month of a year, no day. */
  datatype YearMonth = YearMonth(year: int, month: int)

  const MinYear: int := -999_999_999
  const MaxYear: int := 999_999_999

  /** The values `YearMonth.of` accepts. */
  predicate IsValidYearMonth(ym: YearMonth) {
    MinYear <= ym.year <= MaxYear && 1 <= ym.month <= 12
  }

  /** The `DateTimeException` that `YearMonth.of` throws, by the field it rejects. */
  datatype DateTimeError = YearOutOfRange(year: int) | MonthOutOfRange(month: int)

  /** `YearMonth.of(year, month)`: the year is checked first, then the month. */
  function YearMonthOf(year: int, month: int): (r: Result<YearMonth, DateTimeError>)
    ensures r.Success? <==> IsValidYearMonth(YearMonth(year, month))
    ensures r.Success? ==> r.value == YearMonth(year, month)
    ensures r.Failure? && 1 <= month <= 12 ==> r.error == YearOutOfRange(year)
  {
    if !(MinYear <= year <= MaxYear) then Failure(YearOutOfRange(year))
    else if !(1 <= month <= 12) then Failure(MonthOutOfRange(month))
    else Success(YearMonth(year, month))
  }

  /** `YearMonth.isAfter`: a later year, or the same year and a later month. */
  predicate IsAfter(a: YearMonth, b: YearMonth) {
    a.year > b.year || (a.year == b.year && a.month > b.month)
  }

  /** The number of months since January of year 0. */
  function MonthIndex(ym: YearMonth): int {
    ym.year * 12 + ym.month - 1
  }

  /** For real months the year-then-month comparison is the comparison of month counts. */
  lemma IsAfterIsLaterMonthIndex(a: YearMonth, b: YearMonth)
    requires 1 <= a.month <= 12 && 1 <= b.month <= 12
    ensures IsAfter(a, b) <==> MonthIndex(a) > MonthIndex(b)
  {
  }

  /** `YearMonth.plusMonths(k)`, the month k months later (earlier when k < 0). */
  function PlusMonths(ym: YearMonth, k: int): (r: YearMonth)
    ensures 1 <= r.month <= 12
    ensures MonthIndex(r) == MonthIndex(ym) + k
  {
    var count := MonthIndex(ym) + k;
    YearMonth(count / 12, count % 12 + 1)
  }

  /** `CardExpirationDate`; its constructor stores both parts unchanged. */
  datatype CardExpirationDate = CardExpirationDate(expiryMonth: int, expiryYear: int)

  function AsYearMonth(e: CardExpirationDate): YearMonth {
    YearMonth(e.expiryYear, e.expiryMonth)
  }

  /**
   * `ExpiryDateValidator.isValid`: a missing date passes (the not-null rule
   * reports it); otherwise the date must be a month strictly after `now`.
   * A month outside 1..12 or a year outside `YearMonth`'s range throws.
   */
  function IsValid(value: Option<CardExpirationDate>, now: YearMonth): (r: Result<bool, DateTimeError>)
    requires IsValidYearMonth(now)
    ensures value.None? ==> r == Success(true)
    ensures value.Some? ==> (r.Success? <==> IsValidYearMonth(AsYearMonth(value.value)))
    ensures value.Some? && r.Success? ==>
      (r.value <==> value.value.expiryYear * 12 + value.value.expiryMonth > now.year * 12 + now.month)
  {
    if value.None? then Success(true)
    else
      match YearMonthOf(value.value.expiryYear, value.value.expiryMonth)
      case Failure(e) => Failure(e)
      case Success(expiry) =>
        IsAfterIsLaterMonthIndex(expiry, now);
        Success(IsAfter(expiry, now))
  }

  /** The constraints declared on `CardExpirationDate`. */
  datatype ExpiryViolation = MonthBelowOne | MonthAboveTwelve | NotInFuture

  function ExpiryMessage(v: ExpiryViolation): string {
    match v
    case MonthBelowOne => "Expiry month must be greater than or equal to 1"
    case MonthAboveTwelve => "Expiry month must be less than or equal to 12"
    case NotInFuture => "Expiry date must be in the future"
  }

  /** Each expiry constraint has its own message, so a message names its constraint. */
  lemma ExpiryMessageIdentifiesViolation(v: ExpiryViolation, w: ExpiryViolation)
    requires ExpiryMessage(v) == ExpiryMessage(w)
    ensures v == w
  {
  }

  /**
   * Validating a `CardExpirationDate`: the two month bounds and the class-level
   * future-expiry rule are all evaluated, and an exception from the latter
   * aborts the whole validation. So a month outside 1..12 is never reported as
   * a bound violation: validation fails instead.
   */
  function Violations(e: CardExpirationDate, now: YearMonth): (r: Result<set<ExpiryViolation>, DateTimeError>)
    requires IsValidYearMonth(now)
    ensures r.Success? <==> IsValidYearMonth(AsYearMonth(e))
    ensures r.Success? ==> MonthBelowOne !in r.value && MonthAboveTwelve !in r.value
    ensures r.Success? ==> (r.value == {} <==> MonthIndex(AsYearMonth(e)) > MonthIndex(now))
  {
    var bounds := (if e.expiryMonth < 1 then {MonthBelowOne} else {}) +
                  (if e.expiryMonth > 12 then {MonthAboveTwelve} else {});
    match IsValid(Some(e), now)
    case Failure(err) => Failure(err)
    case Success(future) => Success(bounds + if future then {} else {NotInFuture})
  }

  /** The current month is not in the future. */
  lemma CurrentMonthRejected(now: YearMonth)
    requires IsValidYearMonth(now)
    ensures IsValid(Some(CardExpirationDate(now.month, now.year)), now) == Success(false)
  {
  }

  /**
   * The month k months from now is accepted exactly when k > 0: one month
   * back and one year back are rejected, next month (December to January
   * included) and next year are accepted.
   */
  lemma AcceptedExactlyWhenLater(now: YearMonth, k: int)
    requires IsValidYearMonth(now)
    requires MinYear <= PlusMonths(now, k).year <= MaxYear
    ensures var later := PlusMonths(now, k);
      IsValid(Some(CardExpirationDate(later.month, later.year)), now) == Success(k > 0)
  {
  }

  /** The month after a December is January of the next year, and it is accepted. */
  lemma DecemberRollsOverToJanuary(year: int)
    requires MinYear <= year < MaxYear
    ensures PlusMonths(YearMonth(year, 12), 1) == YearMonth(year + 1, 1)
    ensures IsValid(Some(CardExpirationDate(1, year + 1)), YearMonth(year, 12)) == Success(true)
  {
  }
}
