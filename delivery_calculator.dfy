/** Business-day arithmetic and per-service delivery dates.
    A date is a day number; day 0 is a Monday, so the weekday of `d` is
    `d % 7` with Monday = 0 ... Sunday = 6, as Python's `weekday()`. */
module DeliveryCalculator {
  import opened Base

  type Date = int

  function Weekday(d: Date): (w: int)
    ensures 0 <= w < 7
  {
    d % 7
  }

  /** is_business_day: Monday to Friday. */
  predicate IsBusinessDay(d: Date)
  {
    Weekday(d) < 5
  }

  /** Consecutive days have consecutive weekdays, wrapping after Sunday. */
  lemma WeekdayNext(d: Date)
    ensures Weekday(d + 1) == if Weekday(d) == 6 then 0 else Weekday(d) + 1
  {
  }

  /** The number of business days in the interval (a, b]. */
  function BusinessDaysBetween(a: Date, b: Date): nat
    decreases b - a
  {
    if b <= a then 0 else BusinessDaysBetween(a, b - 1) + (if IsBusinessDay(b) then 1 else 0)
  }

  /** The first business day strictly after `d`. */
  function NextBusinessDay(d: Date): (r: Date)
    ensures d < r <= d + 3
    ensures IsBusinessDay(r)
    ensures forall k :: d < k < r ==> !IsBusinessDay(k)
  {
    WeekdayNext(d);
    WeekdayNext(d + 1);
    WeekdayNext(d + 2);
    if Weekday(d) == 4 then d + 3
    else if Weekday(d) == 5 then d + 2
    else d + 1
  }

  /** The date reached by stepping over `n` business days from `start`. */
  function BusinessDaysAfter(start: Date, n: int): Date
    decreases n
  {
    if n <= 0 then start else NextBusinessDay(BusinessDaysAfter(start, n - 1))
  }

  /** add_business_days: walk forward a day at a time, counting business days. */
  method AddBusinessDays(start: Date, n: int) returns (current: Date)
    ensures current == BusinessDaysAfter(start, n)
  {
    current := start;
    var added := 0;
    while added < n
      invariant 0 <= added <= (if n > 0 then n else 0)
      invariant BusinessDaysAfter(start, added) <= current < NextBusinessDay(BusinessDaysAfter(start, added))
      invariant current == BusinessDaysAfter(start, added) || added < n
      decreases n - added, NextBusinessDay(BusinessDaysAfter(start, added)) - current
    {
      ghost var reached := BusinessDaysAfter(start, added);
      AdvanceOneDay(reached, current);
      current := current + 1;
      if Weekday(current) < 5 {
        added := added + 1;
        assert BusinessDaysAfter(start, added) == current;
      }
    }
  }

  /** One day further on, a walk that has not yet passed the next business
      day either lands on it or stays short of it. */
  lemma AdvanceOneDay(reached: Date, current: Date)
    requires reached <= current < NextBusinessDay(reached)
    ensures IsBusinessDay(current + 1) ==> current + 1 == NextBusinessDay(reached)
    ensures !IsBusinessDay(current + 1) ==> current + 1 < NextBusinessDay(reached)
  {
  }

  /** The step count adds up: for n >= 1 the result is a later business day
      with exactly n business days in (start, result]; for n <= 0 it is the
      start date itself. */
  lemma {:induction false} BusinessDaysAfterCounts(start: Date, n: int)
    ensures n <= 0 ==> BusinessDaysAfter(start, n) == start
    ensures n >= 1 ==> start < BusinessDaysAfter(start, n) && IsBusinessDay(BusinessDaysAfter(start, n))
    ensures n >= 0 ==> BusinessDaysBetween(start, BusinessDaysAfter(start, n)) == n
    decreases n
  {
    if n >= 1 {
      var prev := BusinessDaysAfter(start, n - 1);
      BusinessDaysAfterCounts(start, n - 1);
      assert start <= prev;
      SkipToNext(start, prev, NextBusinessDay(prev));
    }
  }

  /** Stepping from x to the next business day y adds exactly one to the count. */
  lemma {:induction false} SkipToNext(a: Date, x: Date, y: Date)
    requires a <= x < y && IsBusinessDay(y)
    requires forall k :: x < k < y ==> !IsBusinessDay(k)
    ensures BusinessDaysBetween(a, y) == BusinessDaysBetween(a, x) + 1
    decreases y - x
  {
    if y - 1 > x {
      NoBusinessDaysBetween(a, x, y - 1);
    }
  }

  lemma {:induction false} NoBusinessDaysBetween(a: Date, x: Date, z: Date)
    requires a <= x <= z
    requires forall k :: x < k <= z ==> !IsBusinessDay(k)
    ensures BusinessDaysBetween(a, z) == BusinessDaysBetween(a, x)
    decreases z - x
  {
    if z > x {
      NoBusinessDaysBetween(a, x, z - 1);
    }
  }

  /** get_next_business_day: one business day on, even from a business day. */
  method GetNextBusinessDay(d: Date) returns (r: Date)
    ensures r == NextBusinessDay(d)
    ensures d < r && IsBusinessDay(r)
  {
    r := AddBusinessDays(d, 1);
  }

  /** ensure_business_day: a weekend date moves to the following Monday. */
  function EnsureBusinessDay(d: Date): (r: Date)
    ensures IsBusinessDay(r)
    ensures IsBusinessDay(d) ==> r == d
    ensures !IsBusinessDay(d) ==> d < r <= d + 2 && Weekday(r) == 0
    ensures forall k :: d <= k < r ==> !IsBusinessDay(k)
  {
    WeekdayNext(d);
    WeekdayNext(d + 1);
    if IsBusinessDay(d) then d else d + (7 - Weekday(d))
  }

  // ---------------------------------------------------------------------
  // DeliveryDateCalculator
  // ---------------------------------------------------------------------

  /** SERVICE_BUSINESS_DAYS in dictionary order. */
  function ServiceBusinessDaysTable(): seq<(string, int)>
  {
    [ ("UPS_NEXT_DAY_AIR_EARLY", 1),
      ("UPS_NEXT_DAY_AIR", 1),
      ("UPS_NEXT_DAY_AIR_SAVER", 1),
      ("UPS_2ND_DAY_AIR", 2),
      ("UPS_3_DAY_SELECT", 3),
      ("UPS_GROUND", 3) ]
  }

  /** SERVICE_BUSINESS_DAYS.get(key, 3) */
  function ServiceBusinessDays(key: string): (n: int)
    ensures 1 <= n <= 3
    ensures (forall i :: 0 <= i < |ServiceBusinessDaysTable()| ==> ServiceBusinessDaysTable()[i].0 != key) ==> n == 3
    ensures forall i :: 0 <= i < |ServiceBusinessDaysTable()| && ServiceBusinessDaysTable()[i].0 == key ==>
              n == ServiceBusinessDaysTable()[i].1
  {
    match FirstIndex(ServiceBusinessDaysTable(), (e: (string, int)) => e.0 == key)
    case None => 3
    case Some(i) => ServiceBusinessDaysTable()[i].1
  }

  /** The delivery date of calculate_delivery_date. */
  function DeliveryDate(key: string, shipDate: Date): Date
  {
    BusinessDaysAfter(EnsureBusinessDay(shipDate), ServiceBusinessDays(key))
  }

  /** calculate_delivery_date. The current date used when no ship date is
      given is a parameter here; the formatted string is not modelled. */
  method CalculateDeliveryDate(key: string, shipDate: Date) returns (delivery: Date)
    ensures delivery == DeliveryDate(key, shipDate)
    ensures EnsureBusinessDay(shipDate) < delivery && IsBusinessDay(delivery)
    ensures BusinessDaysBetween(EnsureBusinessDay(shipDate), delivery) == ServiceBusinessDays(key)
  {
    var effective := EnsureBusinessDay(shipDate);
    var days := ServiceBusinessDays(key);
    delivery := AddBusinessDays(effective, days);
    BusinessDaysAfterCounts(effective, days);
  }

  /** A next-day service shipped on a Friday arrives on the Monday after. */
  lemma NextDayFromFridayIsMonday(key: string, shipDate: Date)
    requires ServiceBusinessDays(key) == 1 && Weekday(shipDate) == 4
    ensures DeliveryDate(key, shipDate) == shipDate + 3
    ensures Weekday(DeliveryDate(key, shipDate)) == 0
  {
    WeekdayNext(shipDate);
    WeekdayNext(shipDate + 1);
    WeekdayNext(shipDate + 2);
    assert BusinessDaysAfter(shipDate, 1) == NextBusinessDay(shipDate);
  }

  /** Shipped on a weekend, the package leaves on Monday, so a next-day
      service arrives on Tuesday. */
  lemma NextDayFromWeekendIsTuesday(key: string, shipDate: Date)
    requires ServiceBusinessDays(key) == 1 && Weekday(shipDate) >= 5
    ensures DeliveryDate(key, shipDate) == shipDate + (8 - Weekday(shipDate))
    ensures Weekday(DeliveryDate(key, shipDate)) == 1
  {
    var e := EnsureBusinessDay(shipDate);
    assert Weekday(e) == 0;
    WeekdayNext(e);
    assert BusinessDaysAfter(e, 1) == NextBusinessDay(e);
  }

  datatype DeliveryInfo = DeliveryInfo(deliveryDate: Date, businessDaysFromShip: int)

  /** calculate_all_service_delivery_dates: one entry per key of the
      service table, keyed by service. */
  method CalculateAllServiceDeliveryDates(shipDate: Date) returns (dates: map<string, DeliveryInfo>)
    ensures forall k :: k in dates <==> exists i :: 0 <= i < |ServiceBusinessDaysTable()| && ServiceBusinessDaysTable()[i].0 == k
    ensures forall k :: k in dates ==>
              dates[k] == DeliveryInfo(DeliveryDate(k, shipDate), ServiceBusinessDays(k))
  {
    dates := DatesForKeys(ServiceBusinessDaysTable(), shipDate);
  }

  /** The loop of calculate_all_service_delivery_dates over the keys of
      `table`. */
  method DatesForKeys(table: seq<(string, int)>, shipDate: Date) returns (dates: map<string, DeliveryInfo>)
    ensures forall k :: k in dates <==> exists i :: 0 <= i < |table| && table[i].0 == k
    ensures forall k :: k in dates ==>
              dates[k] == DeliveryInfo(DeliveryDate(k, shipDate), ServiceBusinessDays(k))
  {
    dates := map[];
    var i := 0;
    while i < |table|
      invariant 0 <= i <= |table|
      invariant forall k :: k in dates <==> exists j :: 0 <= j < i && table[j].0 == k
      invariant forall k :: k in dates ==> dates[k] == DeliveryInfo(DeliveryDate(k, shipDate), ServiceBusinessDays(k))
    {
      var key := table[i].0;
      var delivery := CalculateDeliveryDate(key, shipDate);
      dates := dates[key := DeliveryInfo(delivery, ServiceBusinessDays(key))];
      i := i + 1;
    }
  }

  /** The time-of-day tail of a commitment text: " by" and what follows the
      first "by" up to the next one, when the lower-cased text mentions "by".
      The split is case-sensitive while the test is not, so a text with only
      "BY" keeps no tail. */
  function CommitmentTimePart(commitment: string): string
  {
    if Contains(Lower(commitment), "by") then
      var parts := Split(commitment, "by");
      if |parts| > 1 then " by" + parts[1] else ""
    else ""
  }

  /** get_delivery_commitment_with_date; `formatDate` stands for the
      calendar-name formatting of a date. */
  method DeliveryCommitmentWithDate(key: string, commitment: string, shipDate: Date, formatDate: Date -> string)
    returns (text: string)
    ensures text == formatDate(DeliveryDate(key, shipDate)) + CommitmentTimePart(commitment)
  {
    var delivery := CalculateDeliveryDate(key, shipDate);
    text := formatDate(delivery) + CommitmentTimePart(commitment);
  }

  /** When "by" occurs once, the tail is " by" followed by everything after it. */
  lemma CommitmentTimePartSingleBy(commitment: string, i: nat)
    requires IndexOf(commitment, "by") == Some(i)
    requires !Contains(commitment[i + 2..], "by")
    ensures CommitmentTimePart(commitment) == " by" + commitment[i + 2..]
  {
    var lc := Lower(commitment);
    assert lc[i..i + 2] == "by";
    ContainsAt(lc, "by", i);
    var rest := commitment[i + 2..];
    assert Split(rest, "by") == [rest];
    assert Split(commitment, "by") == [commitment[..i]] + [rest];
  }

  /** A commitment in which "by" appears only in other letter cases keeps no tail. */
  lemma CommitmentTimePartIsCaseSensitive(commitment: string)
    requires !Contains(commitment, "by")
    ensures CommitmentTimePart(commitment) == ""
  {
  }

  // ---------------------------------------------------------------------
  // DeliveryDateValidator
  // ---------------------------------------------------------------------

  datatype DateCheck = DateAccepted | TooEarly(serviceKey: string) | NotABusinessDay

  /** validate_delivery_date_request: "too early" is checked before "weekend". */
  function ValidateDeliveryDateRequest(requested: Date, key: string, shipDate: Date): (r: DateCheck)
    ensures r == DateAccepted <==> requested >= DeliveryDate(key, shipDate) && IsBusinessDay(requested)
    ensures r == TooEarly(key) <==> requested < DeliveryDate(key, shipDate)
    ensures r == DateAccepted ==> requested > EnsureBusinessDay(shipDate)
  {
    BusinessDaysAfterCounts(EnsureBusinessDay(shipDate), ServiceBusinessDays(key));
    var earliest := DeliveryDate(key, shipDate);
    if requested < earliest then TooEarly(key)
    else if !IsBusinessDay(requested) then NotABusinessDay
    else DateAccepted
  }

  /** get_alternative_delivery_dates (dates only; their formatting is not
      modelled): the standard date, then successive next business days. */
  method AlternativeDeliveryDates(key: string, shipDate: Date, count: int) returns (dates: seq<Date>)
    ensures |dates| == if count > 0 then count else 0
    ensures |dates| > 0 ==> dates[0] == DeliveryDate(key, shipDate)
    ensures forall i :: 0 < i < |dates| ==> dates[i] == NextBusinessDay(dates[i - 1])
    ensures forall i, j :: 0 <= i < j < |dates| ==> dates[i] < dates[j]
    ensures forall i :: 0 <= i < |dates| ==> IsBusinessDay(dates[i])
  {
    var base := CalculateDeliveryDate(key, shipDate);
    dates := [];
    var current := base;
    var i := 0;
    while i < count
      invariant 0 <= i <= (if count > 0 then count else 0) && |dates| == i
      invariant if i == 0 then current == base else current == dates[i - 1] && dates[0] == base
      invariant forall k :: 0 < k < i ==> dates[k] == NextBusinessDay(dates[k - 1])
      invariant forall k :: 0 <= k < i ==> IsBusinessDay(dates[k])
      invariant IsBusinessDay(current)
    {
      if i > 0 {
        current := GetNextBusinessDay(current);
      }
      dates := dates + [current];
      i := i + 1;
    }
    ChainIncreasing(dates);
  }

  lemma ChainIncreasing(dates: seq<Date>)
    requires forall i :: 0 < i < |dates| ==> dates[i] == NextBusinessDay(dates[i - 1])
    ensures forall i, j :: 0 <= i < j < |dates| ==> dates[i] < dates[j]
  {
    forall i, j | 0 <= i < j < |dates| ensures dates[i] < dates[j] {
      var k := i + 1;
      while k < j
        invariant i < k <= j && dates[i] < dates[k]
      {
        k := k + 1;
      }
    }
  }
}
