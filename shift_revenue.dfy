/**
 * ShiftRevenueGetter (apps/orders/services/total_revenue_getter.py): the
 * current shift's window, computed from the clock and the configured start
 * time and length, and the revenue of the paid orders created in it. The
 * clock reading and the two settings are parameters.
 */
module ShiftRevenue {
  import opened Wrappers
  import opened Catalog
  import opened Models

  // ---------------------------------------------------------------------------
  // The clock
  // ---------------------------------------------------------------------------

  const MicrosPerHour: int := 3_600_000_000
  const MicrosPerDay: int := 24 * MicrosPerHour

  /** The calendar day of an instant (days since the epoch). */
  function Day(t: Instant): int {
    t / MicrosPerDay
  }

  /** Microseconds since midnight. */
  function TimeOfDay(t: Instant): int {
    t % MicrosPerDay
  }

  // ---------------------------------------------------------------------------
  // The configured start time, read with strptime(..., '%H:%M')
  // ---------------------------------------------------------------------------

  datatype ClockTime = ClockTime(hour: nat, minute: nat)

  /** strptime raises ValueError for a start time that does not match '%H:%M'. */
  datatype ConfigError = BadStartTime

  predicate IsDigit(c: char) {
    '0' <= c <= '9'
  }

  function DigitValue(c: char): nat
    requires IsDigit(c)
  {
    c as int - '0' as int
  }

  /** One or two decimal digits whose value is below `bound`. */
  function ParseField(t: string, bound: nat): (r: Option<nat>)
    ensures r.Some? ==> r.value < bound
  {
    if |t| == 1 && IsDigit(t[0]) && DigitValue(t[0]) < bound then Some(DigitValue(t[0]))
    else if |t| == 2 && IsDigit(t[0]) && IsDigit(t[1]) && 10 * DigitValue(t[0]) + DigitValue(t[1]) < bound then
      Some(10 * DigitValue(t[0]) + DigitValue(t[1]))
    else None
  }

  /**
   * '%H:%M': an hour of one or two digits below 24, a colon, a minute of
   * one or two digits below 60, and nothing after it.
   */
  function ParseClock(text: string): (r: Result<ClockTime, ConfigError>)
    ensures r.Ok? ==> r.value.hour < 24 && r.value.minute < 60
  {
    if |text| >= 2 && text[1] == ':' && ParseField(text[..1], 24).Some? && ParseField(text[2..], 60).Some? then
      Ok(ClockTime(ParseField(text[..1], 24).value, ParseField(text[2..], 60).value))
    else if |text| >= 3 && text[2] == ':' && ParseField(text[..2], 24).Some? && ParseField(text[3..], 60).Some? then
      Ok(ClockTime(ParseField(text[..2], 24).value, ParseField(text[3..], 60).value))
    else
      Err(BadStartTime)
  }

  function DigitChar(d: nat): char
    requires d < 10
  {
    ('0' as int + d) as char
  }

  /** The zero-padded "HH:MM" text of a clock time. */
  function FormatClock(c: ClockTime): string
    requires c.hour < 24 && c.minute < 60
  {
    [DigitChar(c.hour / 10), DigitChar(c.hour % 10), ':', DigitChar(c.minute / 10), DigitChar(c.minute % 10)]
  }

  /** Every clock time written as "HH:MM" reads back as itself. */
  lemma ParseFormatClock(c: ClockTime)
    requires c.hour < 24 && c.minute < 60
    ensures ParseClock(FormatClock(c)) == Ok(c)
  {
    var t := FormatClock(c);
    assert t[..2] == [DigitChar(c.hour / 10), DigitChar(c.hour % 10)];
    assert t[3..] == [DigitChar(c.minute / 10), DigitChar(c.minute % 10)];
  }

  // ---------------------------------------------------------------------------
  // The shift window
  // ---------------------------------------------------------------------------

  /** WORKING_HOURS_START and WORKING_HOURS. */
  datatype ShiftSettings = ShiftSettings(start: string, hours: int)

  /** The configured values: the shift starts at 10:00 and lasts 12 hours. */
  const DefaultSettings: ShiftSettings := ShiftSettings("10:00", 12)

  /** WorkingTime: a (start, end) pair of instants. */
  datatype WorkingTime = WorkingTime(start: Instant, end: Instant)

  /** now.replace(hour=h, minute=0, second=0, microsecond=0). */
  function ShiftStart(now: Instant, hour: nat): (r: Instant) {
    Day(now) * MicrosPerDay + hour * MicrosPerHour
  }

  /** The start keeps the date of now and sits exactly on the configured hour. */
  lemma ShiftStartOnTheHour(now: Instant, hour: nat)
    requires hour < 24
    ensures Day(ShiftStart(now, hour)) == Day(now)
    ensures TimeOfDay(ShiftStart(now, hour)) == hour * MicrosPerHour
  {
    var start := ShiftStart(now, hour);
    assert 0 <= hour * MicrosPerHour < MicrosPerDay;
    assert start == Day(now) * MicrosPerDay + hour * MicrosPerHour;
  }

  /**
   * get_working_time_period: from the start hour today to that plus the
   * shift length; a window exists only while now lies in it, and it ends
   * at now. The configured minutes are read but not used.
   */
  function GetWorkingTimePeriod(now: Instant, settings: ShiftSettings): (r: Result<Option<WorkingTime>, ConfigError>)
  {
    match ParseClock(settings.start)
    case Err(e) => Err(e)
    case Ok(clock) =>
      var start := ShiftStart(now, clock.hour);
      var end := start + settings.hours * MicrosPerHour;
      if start <= now <= end then Ok(Some(WorkingTime(start, now))) else Ok(None)
  }

  /**
   * A window exists exactly when now lies between the shift start and the
   * shift end, both included: when the time of day of now lies between the
   * start hour and the start hour plus the shift length. The window then
   * runs from the start hour of today to now, not to the shift end.
   */
  lemma WorkingTimePeriodWindow(now: Instant, settings: ShiftSettings)
    requires ParseClock(settings.start).Ok?
    ensures var hour := ParseClock(settings.start).value.hour;
      var r := GetWorkingTimePeriod(now, settings);
      && r.Ok?
      && (r.value.Some? <==> hour * MicrosPerHour <= TimeOfDay(now) <= (hour + settings.hours) * MicrosPerHour)
      && (r.value.Some? ==>
            && r.value.value.end == now
            && Day(r.value.value.start) == Day(now)
            && TimeOfDay(r.value.value.start) == hour * MicrosPerHour)
  {
    var hour := ParseClock(settings.start).value.hour;
    ShiftStartOnTheHour(now, hour);
    assert now == Day(now) * MicrosPerDay + TimeOfDay(now);
  }

  /** Two start times with the same hour give the same window, whatever their minutes. */
  lemma WorkingTimePeriodIgnoresMinutes(now: Instant, a: ShiftSettings, b: ShiftSettings)
    requires ParseClock(a.start).Ok? && ParseClock(b.start).Ok?
    requires ParseClock(a.start).value.hour == ParseClock(b.start).value.hour && a.hours == b.hours
    ensures GetWorkingTimePeriod(now, a) == GetWorkingTimePeriod(now, b)
  {
  }

  /** With the configured settings, a window exists from 10:00 to 22:00 of every day, both included. */
  lemma DefaultWorkingTimePeriod(now: Instant)
    ensures var r := GetWorkingTimePeriod(now, DefaultSettings);
      && r.Ok?
      && (r.value.Some? <==> 10 * MicrosPerHour <= TimeOfDay(now) <= 22 * MicrosPerHour)
      && (r.value.Some? ==> r.value.value == WorkingTime(Day(now) * MicrosPerDay + 10 * MicrosPerHour, now))
  {
    assert DefaultSettings.start[..2] == "10" && DefaultSettings.start[3..] == "00";
    assert ParseClock(DefaultSettings.start) == Ok(ClockTime(10, 0));
    assert now == Day(now) * MicrosPerDay + TimeOfDay(now);
  }

  // ---------------------------------------------------------------------------
  // The revenue
  // ---------------------------------------------------------------------------

  /** filter(status=PAID, created__gte=start, created__lte=end), for one row. */
  predicate Counts(o: Order, w: WorkingTime) {
    o.status == Paid && w.start <= o.created <= w.end
  }

  /** The rows the two filters keep, in row order. */
  function PaidInWindow(orders: seq<Order>, w: WorkingTime): (r: seq<Order>)
    ensures forall o :: o in r <==> o in orders && Counts(o, w)
  {
    if orders == [] then []
    else
      var n := |orders| - 1;
      assert orders == orders[..n] + [orders[n]];
      PaidInWindow(orders[..n], w) + (if Counts(orders[n], w) then [orders[n]] else [])
  }

  function SumTotals(orders: seq<Order>): Cents {
    if orders == [] then 0
    else
      var n := |orders| - 1;
      SumTotals(orders[..n]) + orders[n].totalPrice
  }

  /** aggregate(Sum('total_price')): SQL's SUM, which is NULL over no rows. */
  function AggregateSum(orders: seq<Order>): (r: Option<Cents>)
    ensures r.None? <==> orders == []
  {
    if orders == [] then None else Some(SumTotals(orders))
  }

  /**
   * get_total_revenue: 0 without a window, otherwise the sum over the
   * matching rows, with a missing sum read as 0.
   */
  function GetTotalRevenue(orders: seq<Order>, now: Instant, settings: ShiftSettings): (r: Result<Cents, ConfigError>)
  {
    match GetWorkingTimePeriod(now, settings)
    case Err(e) => Err(e)
    case Ok(None) => Ok(0)
    case Ok(Some(w)) => Ok(AggregateSum(PaidInWindow(orders, w)).GetOr(0))
  }

  /** The revenue of a window defined directly: each row in turn adds its total when it counts. */
  function PaidRevenue(orders: seq<Order>, w: WorkingTime): Cents {
    if orders == [] then 0
    else (if Counts(orders[0], w) then orders[0].totalPrice else 0) + PaidRevenue(orders[1..], w)
  }

  lemma {:induction false} PaidRevenueAppend(a: seq<Order>, b: seq<Order>, w: WorkingTime)
    ensures PaidRevenue(a + b, w) == PaidRevenue(a, w) + PaidRevenue(b, w)
  {
    if a != [] {
      assert (a + b)[1..] == a[1..] + b;
      PaidRevenueAppend(a[1..], b, w);
    } else {
      assert a + b == b;
    }
  }

  /** Filtering and then summing gives the one-pass revenue. */
  lemma {:induction false} SumPaidInWindow(orders: seq<Order>, w: WorkingTime)
    ensures SumTotals(PaidInWindow(orders, w)) == PaidRevenue(orders, w)
  {
    if orders != [] {
      var n := |orders| - 1;
      var last := orders[n];
      assert orders == orders[..n] + [last];
      SumPaidInWindow(orders[..n], w);
      PaidRevenueAppend(orders[..n], [last], w);
      assert [last][1..] == [];
      var gain := if Counts(last, w) then last.totalPrice else 0;
      assert PaidRevenue([last], w) == gain;
      var kept := PaidInWindow(orders[..n], w);
      if Counts(last, w) {
        assert PaidInWindow(orders, w) == kept + [last];
        assert (kept + [last])[..|kept|] == kept;
        assert SumTotals(kept + [last]) == SumTotals(kept) + gain;
      } else {
        assert PaidInWindow(orders, w) == kept + [];
        assert kept + [] == kept;
      }
    }
  }

  /**
   * The revenue is 0 when there is no window, and otherwise the total of
   * the paid orders created between the window's start and now, 0 when
   * there are none.
   */
  lemma TotalRevenueIsPaidRevenue(orders: seq<Order>, now: Instant, settings: ShiftSettings)
    requires GetWorkingTimePeriod(now, settings).Ok?
    ensures var period := GetWorkingTimePeriod(now, settings).value;
      && (period.None? ==> GetTotalRevenue(orders, now, settings) == Ok(0))
      && (period.Some? ==> GetTotalRevenue(orders, now, settings) == Ok(PaidRevenue(orders, period.value)))
  {
    var period := GetWorkingTimePeriod(now, settings).value;
    if period.Some? {
      SumPaidInWindow(orders, period.value);
    }
  }

  /** With no matching row the sum is missing, and the revenue reads it as 0. */
  lemma NoMatchingOrdersIsZero(orders: seq<Order>, w: WorkingTime)
    requires forall o :: o in orders ==> !Counts(o, w)
    ensures AggregateSum(PaidInWindow(orders, w)) == None
    ensures AggregateSum(PaidInWindow(orders, w)).GetOr(0) == 0
  {
    if PaidInWindow(orders, w) != [] {
      assert PaidInWindow(orders, w)[0] in PaidInWindow(orders, w);
    }
  }

  /** A pending or ready order never contributes, wherever it stands among the rows. */
  lemma UnpaidOrderNeverCounts(a: seq<Order>, o: Order, b: seq<Order>, w: WorkingTime)
    requires o.status != Paid
    ensures PaidRevenue(a + [o] + b, w) == PaidRevenue(a + b, w)
  {
    PaidRevenueAppend(a + [o], b, w);
    PaidRevenueAppend(a, [o], w);
    PaidRevenueAppend(a, b, w);
  }

  /**
   * With the configured settings, at noon: a paid order of 40.00 created
   * at 11:00 counts, a paid order created at 23:00 and a pending order
   * created at 11:00 do not, so the revenue is 40.00; at 08:00 there is no
   * shift and the revenue is 0.
   */
  lemma RevenueExample(day: int)
    ensures var base := day * MicrosPerDay;
      var orders := [Order(1, 1, Paid, 4000, base + 11 * MicrosPerHour),
                     Order(2, 1, Paid, 2500, base + 23 * MicrosPerHour),
                     Order(3, 1, Pending, 1000, base + 11 * MicrosPerHour)];
      && GetTotalRevenue(orders, base + 12 * MicrosPerHour, DefaultSettings) == Ok(4000)
      && GetTotalRevenue(orders, base + 8 * MicrosPerHour, DefaultSettings) == Ok(0)
  {
    var base := day * MicrosPerDay;
    var orders := [Order(1, 1, Paid, 4000, base + 11 * MicrosPerHour),
                   Order(2, 1, Paid, 2500, base + 23 * MicrosPerHour),
                   Order(3, 1, Pending, 1000, base + 11 * MicrosPerHour)];
    var noon := base + 12 * MicrosPerHour;
    var morning := base + 8 * MicrosPerHour;
    assert Day(noon) == day && TimeOfDay(noon) == 12 * MicrosPerHour;
    assert Day(morning) == day && TimeOfDay(morning) == 8 * MicrosPerHour;
    DefaultWorkingTimePeriod(noon);
    DefaultWorkingTimePeriod(morning);
    var w := WorkingTime(base + 10 * MicrosPerHour, noon);
    TotalRevenueIsPaidRevenue(orders, noon, DefaultSettings);
    assert Counts(orders[0], w) && !Counts(orders[1], w) && !Counts(orders[2], w);
    assert orders[1..][1..][1..] == [];
    assert PaidRevenue(orders[1..][1..], w) == 0;
    assert PaidRevenue(orders[1..], w) == 0;
    assert PaidRevenue(orders, w) == 4000;
  }
}
