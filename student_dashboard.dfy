/** The bookings tab of the student dashboard: a case-insensitive search over hostel name
    and location combined with a status filter, and the status colour classes. */
module StudentDashboard {
  import opened Text
  import opened Lists

  datatype BookingStatus = Pending | Confirmed | Completed | Cancelled

  datatype Booking = Booking(
    id: string, hostelName: string, location: string, date: string, time: string,
    status: BookingStatus, amount: int, image: string)

  /** The filter tabs. There is no tab for cancelled bookings. */
  datatype StatusFilter = AllStatuses | OnlyPending | OnlyConfirmed | OnlyCompleted

  function FilterStatus(f: StatusFilter): BookingStatus
    requires f != AllStatuses
  {
    match f
    case OnlyPending => Pending
    case OnlyConfirmed => Confirmed
    case OnlyCompleted => Completed
  }

  predicate MatchesSearch(query: string, b: Booking) {
    Includes(ToLower(b.hostelName), ToLower(query)) || Includes(ToLower(b.location), ToLower(query))
  }

  predicate MatchesFilter(f: StatusFilter, b: Booking) {
    f == AllStatuses || b.status == FilterStatus(f)
  }

  predicate Shown(query: string, f: StatusFilter, b: Booking) {
    MatchesSearch(query, b) && MatchesFilter(f, b)
  }

  function ShownFn(query: string, f: StatusFilter): Booking -> bool {
    b => Shown(query, f, b)
  }

  /** `filteredBookings`. */
  function FilteredBookings(bookings: seq<Booking>, query: string, f: StatusFilter): (r: seq<Booking>)
  {
    Filter(ShownFn(query, f), bookings)
  }

  /** A booking is listed exactly when its name or location contains the query, ignoring
      case, and the tab is 'all' or its status; the list keeps the original order. */
  lemma FilteredBookingsSpec(bookings: seq<Booking>, query: string, f: StatusFilter)
    ensures forall b :: b in FilteredBookings(bookings, query, f) <==>
      b in bookings
      && (Includes(ToLower(b.hostelName), ToLower(query)) || Includes(ToLower(b.location), ToLower(query)))
      && (f == AllStatuses || b.status == FilterStatus(f))
    ensures IsSubsequence(FilteredBookings(bookings, query, f), bookings)
  {
    forall b ensures b in FilteredBookings(bookings, query, f) <==> b in bookings && Shown(query, f, b) {
      FilterMembership(ShownFn(query, f), bookings, b);
    }
    FilterIsSubsequence(ShownFn(query, f), bookings);
  }

  /** An empty search matches every booking, so the 'all' tab then lists everything. */
  lemma EmptyQueryMatchesAll(bookings: seq<Booking>)
    ensures FilteredBookings(bookings, "", AllStatuses) == bookings
  {
    forall b | b in bookings ensures ShownFn("", AllStatuses)(b) {
      IncludesEmpty(ToLower(b.hostelName));
      assert ToLower("") == "";
    }
    FilterAllPass(ShownFn("", AllStatuses), bookings);
  }

  /** A cancelled booking can only appear under the 'all' tab. */
  lemma CancelledOnlyUnderAll(bookings: seq<Booking>, query: string, f: StatusFilter, b: Booking)
    requires b in FilteredBookings(bookings, query, f) && b.status == Cancelled
    ensures f == AllStatuses
  {
    FilterMembership(ShownFn(query, f), bookings, b);
  }

  /** The three shades of one colour, as every status class is written. */
  function ColorClass(color: string): (c: string)
  {
    "text-" + color + "-600 bg-" + color + "-100 dark:bg-" + color + "-900/30"
  }

  /** Different colours give different classes. */
  lemma ColorClassInjective(a: string, b: string)
    requires ColorClass(a) == ColorClass(b)
    ensures a == b
  {
    assert |ColorClass(a)| == 33 + 3 * |a|;
    assert ColorClass(a)[5..5 + |a|] == a;
    assert ColorClass(b)[5..5 + |b|] == b;
  }

  /** `getStatusColor`, a `switch` over the status string. */
  function GetStatusColor(status: string): (c: string)
  {
    if status == "confirmed" then ColorClass("green")
    else if status == "pending" then ColorClass("yellow")
    else if status == "completed" then ColorClass("blue")
    else if status == "cancelled" then ColorClass("red")
    else ColorClass("gray")
  }

  /** The four statuses get four different classes, and any other string gets the gray
      default, which is none of the four. */
  lemma StatusColorsDistinct(status: string)
    ensures GetStatusColor(status) == ColorClass("gray") <==>
      status !in {"confirmed", "pending", "completed", "cancelled"}
    ensures var c, p, d, x := GetStatusColor("confirmed"), GetStatusColor("pending"),
                             GetStatusColor("completed"), GetStatusColor("cancelled");
      c != p && c != d && c != x && p != d && p != x && d != x
  {
    var colors := ["green", "yellow", "blue", "red", "gray"];
    forall i, j | 0 <= i < j < 5 ensures ColorClass(colors[i]) != ColorClass(colors[j]) {
      if ColorClass(colors[i]) == ColorClass(colors[j]) {
        ColorClassInjective(colors[i], colors[j]);
      }
    }
    assert ColorClass(colors[0]) != ColorClass(colors[4]);
    assert ColorClass(colors[1]) != ColorClass(colors[4]);
    assert ColorClass(colors[2]) != ColorClass(colors[4]);
    assert ColorClass(colors[3]) != ColorClass(colors[4]);
  }
}
