/** The tasker's control centre (ProviderDashboard.tsx): the tasker's own bookings, the money
    held in escrow, paid out and kept as fees, and the buttons that move a job forward. */
module ProviderDashboard {
  import opened Types
  import opened Lists
  import opened AppStore

  /** `b => b.providerId === userId`: a booking without a provider belongs to nobody. */
  function IsMine(userId: string): Booking -> bool {
    (b: Booking) => b.providerId == Some(userId)
  }

  /** `myBookings`: the bookings assigned to this tasker, in store order. */
  function MyBookings(bookings: seq<Booking>, userId: string): (r: seq<Booking>)
    ensures forall i :: 0 <= i < |r| ==> r[i] in bookings && r[i].providerId == Some(userId)
    ensures forall i :: 0 <= i < |bookings| && bookings[i].providerId == Some(userId) ==> bookings[i] in r
  {
    Filter(bookings, IsMine(userId))
  }

  /** Paid by the customer and held by the app for a job that is not yet completed. */
  predicate InEscrow(b: Booking) {
    b.paymentStatus == PaidToEscrow && b.status != Completed
  }

  predicate IsCleared(b: Booking) {
    b.paymentStatus == ReleasedToTasker
  }

  predicate IsCompleted(b: Booking) {
    b.status == Completed
  }

  function TaskerAmount(b: Booking): int { b.taskerAmount }
  function PlatformFee(b: Booking): int { b.platformFee }

  datatype Financials = Financials(escrow: int, cleared: int, fees: int)

  function Escrow(bookings: seq<Booking>, userId: string): int {
    Sum(Filter(MyBookings(bookings, userId), InEscrow), TaskerAmount)
  }

  function Cleared(bookings: seq<Booking>, userId: string): int {
    Sum(Filter(MyBookings(bookings, userId), IsCleared), TaskerAmount)
  }

  function Fees(bookings: seq<Booking>, userId: string): int {
    Sum(Filter(MyBookings(bookings, userId), IsCompleted), PlatformFee)
  }

  /** `financials`: the three sums, each over the tasker's own bookings only. */
  function ComputeFinancials(bookings: seq<Booking>, userId: string): Financials {
    Financials(Escrow(bookings, userId), Cleared(bookings, userId), Fees(bookings, userId))
  }

  /** Other taskers' bookings never move this tasker's figures, wherever they sit in the list. */
  lemma FinancialsIgnoreOtherTaskers(mine: seq<Booking>, others: seq<Booking>, userId: string)
    requires forall i :: 0 <= i < |others| ==> others[i].providerId != Some(userId)
    ensures ComputeFinancials(mine + others, userId) == ComputeFinancials(mine, userId)
    ensures ComputeFinancials(others + mine, userId) == ComputeFinancials(mine, userId)
  {
    FilterConcat(mine, others, IsMine(userId));
    FilterConcat(others, mine, IsMine(userId));
    FilterNone(others, IsMine(userId));
    assert MyBookings(mine, userId) + [] == MyBookings(mine, userId);
    assert [] + MyBookings(mine, userId) == MyBookings(mine, userId);
  }

  /** With non-negative amounts, every figure is non-negative. */
  lemma FinancialsNonNegative(bookings: seq<Booking>, userId: string)
    requires forall i :: 0 <= i < |bookings| ==> bookings[i].taskerAmount >= 0 && bookings[i].platformFee >= 0
    ensures Escrow(bookings, userId) >= 0 && Cleared(bookings, userId) >= 0 && Fees(bookings, userId) >= 0
  {
    var my := MyBookings(bookings, userId);
    SumNonNegative(Filter(my, InEscrow), TaskerAmount);
    SumNonNegative(Filter(my, IsCleared), TaskerAmount);
    SumNonNegative(Filter(my, IsCompleted), PlatformFee);
  }

  /** The row's action button: "Confirm Order" on a requested job, "Arrived & Working" on an
      accepted one, "Complete & Payout" on one in progress; no button otherwise. */
  function NextStatus(st: BookingStatus): (r: Option<BookingStatus>)
    ensures r.Some? <==> st == BookingStatus.Requested || st == Accepted || st == InProgress
  {
    match st
    case Requested => Some(Accepted)
    case Accepted => Some(InProgress)
    case InProgress => Some(Completed)
    case _ => None
  }

  /** Position on the provider's path Requested, Accepted, In Progress, Completed; -1 off it. */
  function Progress(st: BookingStatus): int {
    match st
    case Requested => 0
    case Accepted => 1
    case InProgress => 2
    case Completed => 3
    case _ => -1
  }

  /** The buttons only ever move a job one place along the path, and never out of Completed,
      Cancelled, Declined or Confirmed. */
  lemma NextStatusAdvancesOnePlace(st: BookingStatus)
    ensures NextStatus(st).Some? ==> Progress(st) >= 0 && Progress(NextStatus(st).value) == Progress(st) + 1
    ensures Progress(st) == 3 || Progress(st) == -1 ==> NextStatus(st).None?
  {
  }

  /** `b.status !== 'Completed' && b.status !== 'Cancelled'`: the jobs listed on the Active Jobs tab. */
  predicate IsActive(b: Booking) {
    b.status != Completed && b.status != Cancelled
  }

  function ActiveJobs(bookings: seq<Booking>, userId: string): (r: seq<Booking>)
    ensures forall i :: 0 <= i < |r| ==> r[i] in bookings && r[i].providerId == Some(userId) && IsActive(r[i])
  {
    Filter(MyBookings(bookings, userId), IsActive)
  }

  /** A job of this tasker that is not completed or cancelled is on the Active Jobs tab. */
  lemma ActiveJobsListsEveryOpenJob(bookings: seq<Booking>, userId: string, i: nat)
    requires i < |bookings| && bookings[i].providerId == Some(userId) && IsActive(bookings[i])
    ensures bookings[i] in ActiveJobs(bookings, userId)
  {
    var my := MyBookings(bookings, userId);
    var j :| 0 <= j < |my| && my[j] == bookings[i];
  }

  /** The store action a row's button issues (`handleCompleteJob`'s delay collapsed). */
  function ButtonAction(b: Booking): (r: Option<Action>)
    ensures r.Some? <==> NextStatus(b.status).Some?
    ensures r.Some? ==> r.value == UpdateBookingStatus(b.id, NextStatus(b.status).value)
  {
    match NextStatus(b.status)
    case None => None
    case Some(next) => Some(UpdateBookingStatus(b.id, next))
  }

  function BookingId(b: Booking): string { b.id }

  /** Completing job `k` of a list, all else equal, takes its payout out of escrow, leaves the
      cleared figure unchanged until the admin releases the payment, and adds its fee to the
      fees figure. */
  lemma {:induction false} CompletingOneJob(a: seq<Booking>, b: seq<Booking>, k: nat, userId: string)
    requires |a| == |b| && k < |a|
    requires forall i :: 0 <= i < |a| && i != k ==> a[i] == b[i]
    requires b[k] == a[k].(status := Completed)
    ensures var mine := a[k].providerId == Some(userId);
            && Escrow(b, userId) == Escrow(a, userId) - (if mine && InEscrow(a[k]) then a[k].taskerAmount else 0)
            && Cleared(b, userId) == Cleared(a, userId)
            && Fees(b, userId) == Fees(a, userId) + (if mine && !IsCompleted(a[k]) then a[k].platformFee else 0)
  {
    var mine := a[k].providerId == Some(userId);
    assert Escrow(b, userId) == Escrow(a, userId) - (if mine && InEscrow(a[k]) then a[k].taskerAmount else 0) by {
      SumFilterFilterReplaceOne(a, b, k, IsMine(userId), InEscrow, TaskerAmount);
    }
    assert Cleared(b, userId) == Cleared(a, userId) by {
      SumFilterFilterReplaceOne(a, b, k, IsMine(userId), IsCleared, TaskerAmount);
    }
    assert Fees(b, userId) == Fees(a, userId) + (if mine && !IsCompleted(a[k]) then a[k].platformFee else 0) by {
      SumFilterFilterReplaceOne(a, b, k, IsMine(userId), IsCompleted, PlatformFee);
    }
  }

  /** `handleCompleteJob` on job `k` of the store, booking ids being unique: the same three
      movements, now through the store's status update. */
  lemma CompletingMovesOutOfEscrow(s: State, k: nat, userId: string, stamp: Stamp)
    requires k < |s.bookings| && UniqueKeys(s.bookings, BookingId)
    ensures var job := s.bookings[k];
            var after := Step(s, UpdateBookingStatus(job.id, Completed), stamp).bookings;
            var mine := job.providerId == Some(userId);
            && Escrow(after, userId) == Escrow(s.bookings, userId) - (if mine && InEscrow(job) then job.taskerAmount else 0)
            && Cleared(after, userId) == Cleared(s.bookings, userId)
            && Fees(after, userId) == Fees(s.bookings, userId) + (if mine && !IsCompleted(job) then job.platformFee else 0)
  {
    var a := s.bookings;
    var b := Step(s, UpdateBookingStatus(a[k].id, Completed), stamp).bookings;
    UpdateBookingStatusOnlyMatching(s, a[k].id, Completed, stamp);
    forall i | 0 <= i < |a| && i != k ensures a[i] == b[i] {
      assert BookingId(a[i]) != BookingId(a[k]) by {
        if i < k { } else { }
      }
    }
    CompletingOneJob(a, b, k, userId);
  }
  /** A row's button, run through the store with booking ids unique, moves that job exactly one
      place along requested, accepted, in progress and completed and leaves every other booking
      as it was; a job with no further place has no button. */
  lemma ButtonMovesOnlyItsJob(s: State, k: nat, stamp: Stamp)
    requires k < |s.bookings| && UniqueKeys(s.bookings, BookingId)
    ensures ButtonAction(s.bookings[k]).None? <==> Progress(s.bookings[k].status) == 3 || Progress(s.bookings[k].status) == -1
    ensures ButtonAction(s.bookings[k]).Some? ==>
      var t := Step(s, ButtonAction(s.bookings[k]).value, stamp);
      && |t.bookings| == |s.bookings|
      && Progress(t.bookings[k].status) == Progress(s.bookings[k].status) + 1
      && t.bookings[k] == s.bookings[k].(status := t.bookings[k].status)
      && forall i :: 0 <= i < |s.bookings| && i != k ==> t.bookings[i] == s.bookings[i]
  {
    NextStatusAdvancesOnePlace(s.bookings[k].status);
    var a := ButtonAction(s.bookings[k]);
    if a.Some? {
      var next := NextStatus(s.bookings[k].status).value;
      UpdateBookingStatusOnlyMatching(s, s.bookings[k].id, next, stamp);
      forall i | 0 <= i < |s.bookings| && i != k ensures s.bookings[i].id != s.bookings[k].id {
        assert BookingId(s.bookings[i]) != BookingId(s.bookings[k]) by {
          if i < k { } else { }
        }
      }
    }
  }
}
