/** The dashboard's pure helpers: relative-time buckets, status colours,
    churn rate and growth rate. Clock reads are the explicit `now`. */
module Utils {
  import opened Numeric

  const MsPerHour: int := 3600000
  const MsPerDay: int := 86400000

  /** A relative-time label, or the calendar date of the timestamp (the
      Intl date formatting itself is not modelled). */
  datatype RelativeTime = Label(text: string) | CalendarDate(at: int)

  /** Whole elapsed days are whole elapsed hours divided by 24, both floored. */
  lemma HoursToDays(elapsed: int)
    ensures (elapsed / MsPerHour) / 24 == elapsed / MsPerDay
  {
  }

  /** Buckets the elapsed time between `date` and `now` by whole hours. */
  function FormatRelativeTime(date: int, now: int): (r: RelativeTime)
    ensures var e := now - date;
      && (e < MsPerHour ==> r == Label("Less than an hour ago"))
      && (MsPerHour <= e < 2 * MsPerHour ==> r == Label("1 hour ago"))
      && (2 * MsPerHour <= e < MsPerDay ==> r == Label(NatToString(e / MsPerHour) + " hours ago"))
      && (MsPerDay <= e < 2 * MsPerDay ==> r == Label("1 day ago"))
      && (2 * MsPerDay <= e < 7 * MsPerDay ==> r == Label(NatToString(e / MsPerDay) + " days ago"))
      && (r.CalendarDate? <==> e >= 7 * MsPerDay)
      && (r.CalendarDate? ==> r.at == date)
  {
    var hours := (now - date) / MsPerHour;
    if hours < 1 then Label("Less than an hour ago")
    else if hours == 1 then Label("1 hour ago")
    else if hours < 24 then Label(NatToString(hours) + " hours ago")
    else
      var days := hours / 24;
      HoursToDays(now - date);
      if days == 1 then Label("1 day ago")
      else if days < 7 then Label(NatToString(days) + " days ago")
      else CalendarDate(date)
  }

  const SuccessClass := "bg-success/10 text-success"
  const WarningClass := "bg-warning/10 text-warning"
  const DestructiveClass := "bg-destructive/10 text-destructive"
  const OrangeClass := "bg-orange-100 text-orange-600"
  const GrayClass := "bg-gray-100 text-gray-600"

  /** The badge classes of a status; every other text gets the gray default. */
  function GetStatusColor(status: string): (c: string)
    ensures c == GrayClass <==>
      status !in {"active", "trial", "cancelled", "past_due", "pending", "failed", "paid", "resolved"}
    ensures c == SuccessClass <==> status in {"active", "paid", "resolved"}
    ensures c == WarningClass <==> status in {"trial", "pending"}
    ensures c == DestructiveClass <==> status in {"cancelled", "failed"}
    ensures c == OrangeClass <==> status == "past_due"
  {
    match status
    case "active" => SuccessClass
    case "trial" => WarningClass
    case "cancelled" => DestructiveClass
    case "past_due" => OrangeClass
    case "pending" => WarningClass
    case "failed" => DestructiveClass
    case "paid" => SuccessClass
    case "resolved" => SuccessClass
    case _ => GrayClass
  }

  /** Churn in tenths of a percent: cancelled/total*100 rounded half-up to
      one decimal, 0 when there is no subscription at all. */
  function CalculateChurnRate(cancelled: int, total: int): (tenths: int)
    ensures total == 0 ==> tenths == 0
    ensures total > 0 ==> (2 * tenths - 1) * total <= 2000 * cancelled < (2 * tenths + 1) * total
    ensures total < 0 ==> (2 * tenths - 1) * -total <= -2000 * cancelled < (2 * tenths + 1) * -total
    ensures 0 <= cancelled <= total ==> 0 <= tenths <= 1000
  {
    if total == 0 then 0
    else
      ChurnInRange(cancelled, total);
      RoundHalfUpDiv(1000 * cancelled, total)
  }

  /** Between none and all cancelled, the rounded churn is within 0..100.0%. */
  lemma ChurnInRange(cancelled: int, total: int)
    requires total != 0
    ensures 0 <= cancelled <= total ==> 0 <= RoundHalfUpDiv(1000 * cancelled, total) <= 1000
  {
    if 0 <= cancelled <= total {
      RoundHalfUpDivRange(1000 * cancelled, total, 1000);
    }
  }

  datatype Growth = Growth(rate: real, isPositive: bool, formatted: string)

  /** The exact percentage change (current - previous) / previous * 100. */
  function PercentChange(delta: int, previous: int): real
    requires previous != 0
  {
    (delta as real) * 100.0 / (previous as real)
  }

  /** The change is non-negative exactly when delta and previous do not have
      opposite signs, and its magnitude is |delta| / |previous| * 100. */
  lemma PercentChangeSign(delta: int, previous: int)
    requires previous != 0
    ensures var rate := PercentChange(delta, previous);
      && (rate >= 0.0 <==> delta * previous >= 0)
      && (if rate < 0.0 then -rate else rate) * (Abs(previous) as real) == (Abs(delta) as real) * 100.0
  {
    var rate := PercentChange(delta, previous);
    var p := previous as real;
    assert rate * p == (delta as real) * 100.0;
    if previous > 0 {
      MulSign(delta, previous);
      assert rate >= 0.0 <==> delta >= 0;
    } else {
      MulSign(delta, -previous);
      assert delta * -previous == -(delta * previous);
      assert rate >= 0.0 <==> delta <= 0;
    }
  }

  /** rate is the magnitude of delta as a percentage of previous. */
  predicate IsPercentOf(rate: real, delta: int, previous: int) {
    rate * (Abs(previous) as real) == (Abs(delta) as real) * 100.0
  }

  /** The absolute percentage change and whether the change is
      non-negative (`Math.abs(rate)` and `rate >= 0`). */
  function Change(delta: int, previous: int): (c: (real, bool))
    requires previous != 0
    ensures c.0 >= 0.0
    ensures c.1 <==> delta * previous >= 0
    ensures IsPercentOf(c.0, delta, previous)
  {
    var rate := PercentChange(delta, previous);
    PercentChangeSign(delta, previous);
    (if rate < 0.0 then -rate else rate, rate >= 0.0)
  }

  /** Period-over-period growth: the absolute percentage change, its sign,
      and a signed text rounded to one decimal ("+12.5%", "-3%"). */
  function CalculateGrowthRate(current: int, previous: int): (g: Growth)
    ensures previous == 0 ==> g == Growth(0.0, true, "0%")
    ensures previous != 0 ==> (g.isPositive <==> (current - previous) * previous >= 0)
    ensures g.rate >= 0.0
    ensures previous != 0 ==> IsPercentOf(g.rate, current - previous, previous)
    ensures |g.formatted| >= 2 && g.formatted[|g.formatted| - 1] == '%'
    ensures previous != 0 ==> (g.formatted[0] == '+' <==> g.isPositive)
  {
    if previous == 0 then Growth(0.0, true, "0%")
    else
      var c := Change(current - previous, previous);
      Growth(c.0, c.1, FormatGrowth(c.1, current - previous, previous))
  }

  /** `${isPositive ? '+' : ''}${Math.round(rate * 10) / 10}%`, the rate
      being delta / previous * 100. */
  function FormatGrowth(isPositive: bool, delta: int, previous: int): (s: string)
    requires previous != 0
    ensures |s| >= 2 && s[|s| - 1] == '%'
    ensures s[0] == '+' <==> isPositive
  {
    (if isPositive then "+" else "") + TenthsToString(RoundHalfUpDiv(delta * 1000, previous)) + "%"
  }
}
