/** A tasker's public page (PublicTaskerProfile.tsx): the services shown, and the month
    calendar with a status for each day. The month's first weekday, its length, each day's date
    string and whether it lies before today come from the browser's clock and are inputs here. */
module PublicTaskerProfile {
  import opened Types
  import opened Lists

  /** Published (approved) and switched on. */
  predicate Shown(s: TaskerService) {
    s.publishState == PublishState.Approved && s.isActive
  }

  /** `approvedModules`: exactly the shown services, in order. */
  function ApprovedModules(services: seq<TaskerService>): (r: seq<TaskerService>)
    ensures forall i :: 0 <= i < |r| ==> r[i] in services && Shown(r[i])
    ensures forall i :: 0 <= i < |services| && Shown(services[i]) ==> services[i] in r
  {
    Filter(services, Shown)
  }

  /** The blank cells before day 1 in a week that starts on Monday: six when the month starts on
      Sunday (weekday 0), otherwise the weekday less one. */
  function LeadingBlanks(firstWeekday: nat): (n: nat)
    requires firstWeekday < 7
    ensures n < 7
    ensures (n + 1) % 7 == firstWeekday
  {
    if firstWeekday == 0 then 6 else firstWeekday - 1
  }

  datatype DayStatus = Past | Blocked | Booked | Available

  /** Past wins over blocked, blocked over booked, booked over available. */
  function StatusOf(isPast: bool, isBlocked: bool, isBooked: bool): (r: DayStatus)
    ensures r == Past <==> isPast
    ensures r == Blocked <==> !isPast && isBlocked
    ensures r == Booked <==> !isPast && !isBlocked && isBooked
    ensures r == Available <==> !isPast && !isBlocked && !isBooked
  {
    if isPast then Past else if isBlocked then Blocked else if isBooked then Booked else Available
  }

  /** A booking occupies the tasker on that date unless it was cancelled. */
  predicate Occupies(b: Booking, dateStr: string, taskerId: string) {
    b.date == dateStr && b.providerId == Some(taskerId) && b.status != Cancelled
  }

  predicate IsBooked(bookings: seq<Booking>, dateStr: string, taskerId: string) {
    exists i :: 0 <= i < |bookings| && Occupies(bookings[i], dateStr, taskerId)
  }

  datatype Cell = Cell(num: nat, dateStr: string, status: DayStatus)

  /** The cell of day `day`. */
  function DayCell(day: nat, dateOf: nat -> string, isPast: nat -> bool, blockedDates: seq<string>,
                   bookings: seq<Booking>, taskerId: string): Cell {
    var d := dateOf(day);
    Cell(day, d, StatusOf(isPast(day), d in blockedDates, IsBooked(bookings, d, taskerId)))
  }

  /** `calendarDays`: the leading blanks, then one cell per day of the month numbered from 1,
      with its date string and its status. */
  method CalendarDays(firstWeekday: nat, daysInMonth: nat, dateOf: nat -> string, isPast: nat -> bool,
                      blockedDates: seq<string>, bookings: seq<Booking>, taskerId: string)
    returns (days: seq<Option<Cell>>)
    requires firstWeekday < 7
    ensures |days| == LeadingBlanks(firstWeekday) + daysInMonth
    ensures forall i :: 0 <= i < LeadingBlanks(firstWeekday) ==> days[i].None?
    ensures forall day :: 1 <= day <= daysInMonth ==>
      days[LeadingBlanks(firstWeekday) + day - 1]
        == Some(DayCell(day, dateOf, isPast, blockedDates, bookings, taskerId))
  {
    var lead := if firstWeekday == 0 then 6 else firstWeekday - 1;
    days := [];
    var i := 0;
    while i < lead
      invariant 0 <= i <= lead
      invariant |days| == i
      invariant forall j :: 0 <= j < i ==> days[j].None?
    {
      days := days + [None];
      i := i + 1;
    }
    var day := 1;
    while day <= daysInMonth
      invariant 1 <= day <= daysInMonth + 1
      invariant |days| == lead + day - 1
      invariant forall j :: 0 <= j < lead ==> days[j].None?
      invariant forall d :: 1 <= d < day ==>
        days[lead + d - 1] == Some(DayCell(d, dateOf, isPast, blockedDates, bookings, taskerId))
    {
      var dateStr := dateOf(day);
      var isBlocked := dateStr in blockedDates;
      var isBooked := Exists(bookings, (b: Booking) => Occupies(b, dateStr, taskerId));
      assert isBooked == IsBooked(bookings, dateStr, taskerId);
      days := days + [Some(Cell(day, dateStr, StatusOf(isPast(day), isBlocked, isBooked)))];
      day := day + 1;
    }
  }

  /** A day shows as booked exactly when it is neither past nor blocked and a non-cancelled
      booking of this tasker falls on it; it shows as available exactly when it is neither past
      nor blocked and no such booking exists; a blocked future day shows as blocked whatever is
      booked. */
  lemma BookedIffOccupied(day: nat, dateOf: nat -> string, isPast: nat -> bool, blockedDates: seq<string>,
                          bookings: seq<Booking>, taskerId: string)
    ensures var cell := DayCell(day, dateOf, isPast, blockedDates, bookings, taskerId);
      var occupied := exists k :: 0 <= k < |bookings| && Occupies(bookings[k], dateOf(day), taskerId);
      && (cell.status == Booked <==> !isPast(day) && dateOf(day) !in blockedDates && occupied)
      && (cell.status == Available <==> !isPast(day) && dateOf(day) !in blockedDates && !occupied)
      && (cell.status == Blocked <==> !isPast(day) && dateOf(day) in blockedDates)
      && cell.num == day && cell.dateStr == dateOf(day)
  {
  }
}
