/** The dashboard page's own helpers: its time-ago text, its status badge,
    the payment-issue panel and the plan colour dots. */
module Dashboard {
  import opened Wrappers
  import opened Numeric
  import opened Schema
  import Storage
  import Utils

  /** "N day(s) ago" for a whole number of days, plural above one. */
  function DaysAgo(days: nat): (s: string)
    requires days >= 1
  {
    NatToString(days) + " day" + (if days > 1 then "s" else "") + " ago"
  }

  /** Buckets by whole elapsed hours like the shared helper, but keeps
      counting days where that one switches to a calendar date. */
  function FormatTimeAgo(date: int, now: int): (r: string)
    ensures var e := now - date;
      && (e < Utils.MsPerHour ==> r == "Less than an hour ago")
      && (Utils.MsPerHour <= e < 2 * Utils.MsPerHour ==> r == "1 hour ago")
      && (2 * Utils.MsPerHour <= e < Utils.MsPerDay ==> r == NatToString(e / Utils.MsPerHour) + " hours ago")
      && (e >= Utils.MsPerDay ==> r == DaysAgo(e / Utils.MsPerDay))
  {
    var hours := (now - date) / Utils.MsPerHour;
    if hours < 1 then "Less than an hour ago"
    else if hours == 1 then "1 hour ago"
    else if hours < 24 then NatToString(hours) + " hours ago"
    else
      Utils.HoursToDays(now - date);
      DaysAgo(hours / 24)
  }

  /** Under a week the two helpers say the same thing. */
  lemma TimeAgoMatchesRelativeTime(date: int, now: int)
    requires now - date < 7 * Utils.MsPerDay
    ensures Utils.FormatRelativeTime(date, now) == Utils.Label(FormatTimeAgo(date, now))
  {
    var e := now - date;
    if e >= Utils.MsPerDay {
      if e < 2 * Utils.MsPerDay {
        assert e / Utils.MsPerDay == 1;
        assert NatToString(1) == "1";
      } else {
        assert e / Utils.MsPerDay > 1;
      }
    }
  }

  /** From a week on they differ: the dashboard still says "N days ago". */
  lemma TimeAgoKeepsCountingDays(date: int, now: int)
    requires now - date >= 7 * Utils.MsPerDay
    ensures Utils.FormatRelativeTime(date, now).CalendarDate?
    ensures FormatTimeAgo(date, now) == NatToString((now - date) / Utils.MsPerDay) + " days ago"
  {
    assert (now - date) / Utils.MsPerDay >= 7;
  }

  /** Only three statuses have a badge colour of their own here. */
  function GetStatusBadge(status: string): (c: string)
    ensures c == Utils.SuccessClass <==> status == "active"
    ensures c == Utils.WarningClass <==> status == "trial"
    ensures c == Utils.DestructiveClass <==> status == "cancelled"
    ensures c == Utils.GrayClass <==> status !in {"active", "trial", "cancelled"}
  {
    match status
    case "active" => Utils.SuccessClass
    case "trial" => Utils.WarningClass
    case "cancelled" => Utils.DestructiveClass
    case _ => Utils.GrayClass
  }

  /** The badge agrees with the shared colour table on the statuses it
      knows, and falls back to gray for past-due where the table has orange. */
  lemma BadgeVersusStatusColor(status: string)
    ensures status in {"active", "trial", "cancelled"} ==> GetStatusBadge(status) == Utils.GetStatusColor(status)
    ensures GetStatusBadge(SubscriptionStatusName(PastDue)) == Utils.GrayClass
    ensures Utils.GetStatusColor(SubscriptionStatusName(PastDue)) == Utils.OrangeClass
  {
  }

  const IssuePanelLimit: nat := 3

  /** The payment-issue panel shows the first three issues of the listing. */
  function IssuePanel(issues: seq<Storage.IssueView>): (shown: seq<Storage.IssueView>)
    ensures |shown| == if |issues| < IssuePanelLimit then |issues| else IssuePanelLimit
    ensures shown <= issues
  {
    if |issues| <= IssuePanelLimit then issues else issues[..IssuePanelLimit]
  }

  /** The "N pending" badge: shown when the listing is non-empty, with the
      listing's length whatever the issues' statuses. */
  function PendingBadge(issues: seq<Storage.IssueView>): (n: Option<nat>)
    ensures n.Some? <==> |issues| > 0
    ensures n.Some? ==> n.value == |issues|
  {
    if |issues| > 0 then Some(|issues|) else None
  }

  function PendingIn(issues: seq<Storage.IssueView>): (n: nat)
    ensures n <= |issues|
    decreases |issues|
  {
    if |issues| == 0 then 0
    else PendingIn(issues[..|issues| - 1]) + (if issues[|issues| - 1].issue.status == Pending then 1 else 0)
  }

  /** The badge overstates the pending count exactly when some listed issue
      is resolved or failed. */
  lemma {:induction false} BadgeCountsSettledIssues(issues: seq<Storage.IssueView>)
    ensures PendingIn(issues) == |issues| <==> forall i :: 0 <= i < |issues| ==> issues[i].issue.status == Pending
    decreases |issues|
  {
    if |issues| > 0 {
      var pre := issues[..|issues| - 1];
      BadgeCountsSettledIssues(pre);
      assert forall i :: 0 <= i < |pre| ==> pre[i] == issues[i];
    }
  }

  const PlanColors: seq<string> := ["bg-primary", "bg-success", "bg-warning"]

  /** The dot colour of the plan at position `index`. */
  function PlanColor(index: nat): (c: string)
    ensures c in PlanColors
    ensures index % 3 == 0 ==> c == "bg-primary"
    ensures index % 3 == 1 ==> c == "bg-success"
    ensures index % 3 == 2 ==> c == "bg-warning"
  {
    PlanColors[index % |PlanColors|]
  }

  /** The colours cycle with period three starting primary, success,
      warning, and neighbours never share one. */
  lemma PlanColorsCycle(index: nat)
    ensures PlanColor(0) == "bg-primary" && PlanColor(1) == "bg-success" && PlanColor(2) == "bg-warning"
    ensures PlanColor(index + 3) == PlanColor(index)
    ensures PlanColor(index + 1) != PlanColor(index)
  {
  }
}
