/** The notification bell and panel: the unread count and its badge, the four filter tabs,
    the relative-time labels and when the two header actions are offered. */
module Notifications {
  import opened Text
  import opened Lists

  datatype NoticeType = Success | Error | Info | Warning
  datatype Category = Booking | Payment | System | Promotion

  /** A notification; `timestamp` is in milliseconds since the epoch. */
  datatype Notification = Notification(
    id: string, kind: NoticeType, title: string, message: string,
    timestamp: int, read: bool, category: Category)

  /** The panel's filter tabs. */
  datatype FilterTab = All | Unread | BookingTab | PaymentTab

  predicate IsUnread(n: Notification) {
    !n.read
  }

  /** `notifications.filter(n => !n.read).length`. */
  function UnreadCount(ns: seq<Notification>): (c: nat)
    ensures c <= |ns|
  {
    |Filter(IsUnread, ns)|
  }

  /** The count is zero exactly when everything is read. */
  lemma UnreadZeroIff(ns: seq<Notification>)
    ensures UnreadCount(ns) == 0 <==> forall i :: 0 <= i < |ns| ==> ns[i].read
  {
    if UnreadCount(ns) == 0 {
      forall i | 0 <= i < |ns| ensures ns[i].read {
        if !ns[i].read {
          FilterKeeps(IsUnread, ns, ns[i]);
        }
      }
    } else {
      var x := Filter(IsUnread, ns)[0];
      assert x in Filter(IsUnread, ns);
      assert x in ns && !x.read;
      var i :| 0 <= i < |ns| && ns[i] == x;
    }
  }

  /** Counting unread notifications is additive over concatenation. */
  lemma UnreadAppend(a: seq<Notification>, b: seq<Notification>)
    ensures UnreadCount(a + b) == UnreadCount(a) + UnreadCount(b)
  {
    FilterAppend(IsUnread, a, b);
  }

  /** The test behind each filter tab. */
  predicate Keeps(tab: FilterTab, n: Notification) {
    match tab
    case Unread => !n.read
    case BookingTab => n.category == Booking
    case PaymentTab => n.category == Payment
    case All => true
  }

  function KeepsFn(tab: FilterTab): Notification -> bool {
    n => Keeps(tab, n)
  }

  /** `filteredNotifications`. */
  function Filtered(ns: seq<Notification>, tab: FilterTab): (r: seq<Notification>)
  {
    Filter(KeepsFn(tab), ns)
  }

  /** Each tab shows exactly the notifications that pass its test, in their original order,
      and 'all' shows everything. */
  lemma FilteredSpec(ns: seq<Notification>, tab: FilterTab)
    ensures forall n :: n in Filtered(ns, tab) <==> n in ns && Keeps(tab, n)
    ensures IsSubsequence(Filtered(ns, tab), ns)
    ensures tab == All ==> Filtered(ns, tab) == ns
  {
    forall n ensures n in Filtered(ns, tab) <==> n in ns && Keeps(tab, n) {
      FilterMembership(KeepsFn(tab), ns, n);
    }
    FilterIsSubsequence(KeepsFn(tab), ns);
    if tab == All {
      FilterAllPass(KeepsFn(tab), ns);
    }
  }

  /** The 'unread' tab has exactly as many entries as the unread count. */
  lemma UnreadTabCount(ns: seq<Notification>)
    ensures |Filtered(ns, Unread)| == UnreadCount(ns)
  {
    FilterSame(KeepsFn(Unread), IsUnread, ns);
  }

  lemma {:induction false} FilterSame<T>(p: T -> bool, q: T -> bool, s: seq<T>)
    requires forall x :: p(x) == q(x)
    ensures Filter(p, s) == Filter(q, s)
  {
    if s != [] {
      FilterSame(p, q, s[1..]);
    }
  }

  /** The badge on the bell. */
  datatype Badge = Hidden | Count(n: nat) | NinePlus

  function BadgeOf(unread: nat): (b: Badge)
  {
    if unread == 0 then Hidden
    else if unread > 9 then NinePlus
    else Count(unread)
  }

  /** Hidden at zero, the number itself from 1 to 9, '9+' above. */
  lemma BadgeSpec(unread: nat)
    ensures BadgeOf(unread) == Hidden <==> unread == 0
    ensures BadgeOf(unread) == NinePlus <==> unread >= 10
    ensures BadgeOf(unread).Count? ==> BadgeOf(unread).n == unread && 1 <= unread <= 9
  {
  }

  /** 'Mark all read' is offered only when something is unread. */
  predicate ShowMarkAllRead(ns: seq<Notification>) {
    UnreadCount(ns) > 0
  }

  /** 'Clear all notifications' is offered only when the list is not empty. */
  predicate ShowClearAll(ns: seq<Notification>) {
    |ns| > 0
  }

  /** Whenever 'mark all read' is offered, so is 'clear all'; and an all-read list offers
      only the latter. */
  lemma ActionsConsistent(ns: seq<Notification>)
    ensures ShowMarkAllRead(ns) ==> ShowClearAll(ns)
    ensures ShowMarkAllRead(ns) <==> exists i :: 0 <= i < |ns| && !ns[i].read
  {
    UnreadZeroIff(ns);
  }

  // ---------------------------------------------------------------------------
  // Relative time

  const MsPerMinute := 60000
  const MsPerHour := 3600000
  const MsPerDay := 86400000

  /** The label `formatTimestamp` picks; the last bucket is the locale date. */
  datatype Age = JustNow | MinutesAgo(minutes: int) | HoursAgo(hours: int) | DaysAgo(days: int) | LocaleDate

  /** `Math.floor(diff / unit)`: with a positive divisor, Dafny's division is the floor. */
  function FloorDiv(diff: int, unit: int): (q: int)
    requires unit > 0
    ensures q * unit <= diff < q * unit + unit
  {
    diff / unit
  }

  function FormatTimestamp(now: int, timestamp: int): (a: Age)
  {
    var diff := now - timestamp;
    var minutes := FloorDiv(diff, MsPerMinute);
    var hours := FloorDiv(diff, MsPerHour);
    var days := FloorDiv(diff, MsPerDay);
    if minutes < 1 then JustNow
    else if minutes < 60 then MinutesAgo(minutes)
    else if hours < 24 then HoursAgo(hours)
    else if days < 7 then DaysAgo(days)
    else LocaleDate
  }

  /** The buckets in terms of the elapsed milliseconds: anything under a minute, including
      a timestamp in the future, is 'just now'; each label's number lies in its range. */
  lemma FormatBuckets(now: int, timestamp: int)
    ensures var diff, a := now - timestamp, FormatTimestamp(now, timestamp);
      && (a == JustNow <==> diff < MsPerMinute)
      && (a.MinutesAgo? <==> MsPerMinute <= diff < MsPerHour)
      && (a.HoursAgo? <==> MsPerHour <= diff < MsPerDay)
      && (a.DaysAgo? <==> MsPerDay <= diff < 7 * MsPerDay)
      && (a == LocaleDate <==> diff >= 7 * MsPerDay)
      && (a.MinutesAgo? ==> 1 <= a.minutes < 60 && a.minutes * MsPerMinute <= diff)
      && (a.HoursAgo? ==> 1 <= a.hours < 24 && a.hours * MsPerHour <= diff)
      && (a.DaysAgo? ==> 1 <= a.days < 7 && a.days * MsPerDay <= diff)
  {
    var diff := now - timestamp;
    var m, h, d := FloorDiv(diff, MsPerMinute), FloorDiv(diff, MsPerHour), FloorDiv(diff, MsPerDay);
    assert m < 1 <==> diff < MsPerMinute;
    assert m < 60 <==> diff < MsPerHour;
    assert h < 24 <==> diff < MsPerDay;
    assert d < 7 <==> diff < 7 * MsPerDay;
    assert diff >= MsPerHour ==> h >= 1;
    assert diff >= MsPerDay ==> d >= 1;
  }

  /** The order of the buckets. */
  function Rank(a: Age): nat {
    match a
    case JustNow => 0
    case MinutesAgo(_) => 1
    case HoursAgo(_) => 2
    case DaysAgo(_) => 3
    case LocaleDate => 4
  }

  /** An older notification never gets a finer bucket than a newer one. */
  lemma FormatMonotone(now: int, t1: int, t2: int)
    requires t2 <= t1
    ensures Rank(FormatTimestamp(now, t1)) <= Rank(FormatTimestamp(now, t2))
  {
    FormatBuckets(now, t1);
    FormatBuckets(now, t2);
  }

  /** The text shown; `localeDate` stands for `timestamp.toLocaleDateString()`. */
  function AgeText(a: Age, localeDate: string): (r: string)
  {
    match a
    case JustNow => "Just now"
    case MinutesAgo(m) => IntToString(m) + "m ago"
    case HoursAgo(h) => IntToString(h) + "h ago"
    case DaysAgo(d) => IntToString(d) + "d ago"
    case LocaleDate => localeDate
  }

  /** A count followed by a five-character unit reads back as the count. */
  lemma LabelReadsBack(n: nat, unit: string)
    requires |unit| == 5
    ensures var t := Decimal(n) + unit; |t| > 5 && DigitsValue(t[..|t| - 5]) == n
  {
    var t := Decimal(n) + unit;
    assert t[..|t| - 5] == Decimal(n);
    DecimalRoundTrip(n);
  }

  /** The label shown for a timestamp: "Just now", a positive count in plain digits followed
      by "m ago", "h ago" or "d ago" (the digits reading back as the count), or the locale
      date. */
  lemma AgeTextLabels(now: int, timestamp: int, localeDate: string)
    ensures var a := FormatTimestamp(now, timestamp); var t := AgeText(a, localeDate);
      && (a.JustNow? ==> t == "Just now")
      && (a.LocaleDate? ==> t == localeDate)
      && (a.MinutesAgo? ==> a.minutes >= 1 && t == Decimal(a.minutes) + "m ago"
                            && DigitsValue(t[..|t| - 5]) == a.minutes)
      && (a.HoursAgo? ==> a.hours >= 1 && t == Decimal(a.hours) + "h ago"
                          && DigitsValue(t[..|t| - 5]) == a.hours)
      && (a.DaysAgo? ==> a.days >= 1 && t == Decimal(a.days) + "d ago"
                         && DigitsValue(t[..|t| - 5]) == a.days)
  {
    var a := FormatTimestamp(now, timestamp);
    FormatBuckets(now, timestamp);
    match a
    case MinutesAgo(m) => LabelReadsBack(m, "m ago");
    case HoursAgo(h) => LabelReadsBack(h, "h ago");
    case DaysAgo(d) => LabelReadsBack(d, "d ago");
    case _ =>
  }
}
