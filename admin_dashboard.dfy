/** The owner's console (AdminDashboard.tsx): the treasury figures, the booking search, Mark
    Paid, the identity and portfolio review queues with their approve and request-changes
    buttons, and the Pause button of the talent list. Each button is modelled by the store
    actions it issues, in order. */
module AdminDashboard {
  import opened Types
  import opened Lists
  import opened Text
  import opened Money
  import opened AppStore
  import ProviderDashboard
  import ProviderApplicationForm

  // ---------------------------------------------------------------- treasury

  /** The bookings the treasury counts as paid: completed, or paid into escrow. */
  predicate Counted(b: Booking) {
    b.status == Completed || b.paymentStatus == PaidToEscrow
  }

  function TotalPrice(b: Booking): int { b.totalPrice }

  datatype Treasury = Treasury(totalPaid: int, platformFees: int, taskerPayouts: int)

  /** `treasuryStats`: the total price of the counted bookings, 15% of it (rounded) for the
      platform and the rest for the taskers. */
  function TreasuryStats(bookings: seq<Booking>): (t: Treasury)
    ensures t.totalPaid == Sum(Filter(bookings, Counted), TotalPrice)
    ensures t.platformFees + t.taskerPayouts == t.totalPaid
    ensures 20 * t.platformFees <= 3 * t.totalPaid + 10 < 20 * t.platformFees + 20
  {
    var totalPaid := Sum(Filter(bookings, Counted), TotalPrice);
    var fees := FifteenPercent(totalPaid);
    Treasury(totalPaid, fees, totalPaid - fees)
  }

  /** The treasury reads only whether a booking is counted and its total price: the fee stored on
      each booking, and every other field, never enter it. */
  lemma TreasuryReadsOnlyCountedPrices(a: seq<Booking>, b: seq<Booking>)
    requires |a| == |b|
    requires forall i :: 0 <= i < |a| ==> Counted(a[i]) == Counted(b[i]) && a[i].totalPrice == b[i].totalPrice
    ensures TreasuryStats(a) == TreasuryStats(b)
  {
    SumFilterAgree(a, b, Counted, TotalPrice);
  }

  /** The payout column of the payout table: 85% of the booking's price, rounded. */
  function PayoutColumn(b: Booking): (r: int)
    ensures 20 * r <= 17 * b.totalPrice + 10 < 20 * r + 20
  {
    EightyFivePercent(b.totalPrice)
  }

  // ---------------------------------------------------------------- booking search

  datatype BookingFilter = BookingFilter(date: string, service: string, tasker: string)

  const NoFilter := BookingFilter("", "", "")

  /** One row of `filteredBookings`: an empty field matches everything; the date must match
      exactly; the service title and the tasker's name must contain the query, ignoring case;
      a booking without a tasker name never matches a tasker query. */
  predicate MatchesFilter(f: BookingFilter, b: Booking) {
    && (f.date == "" || b.date == f.date)
    && (f.service == "" || Contains(Lower(b.serviceTitle), Lower(f.service)))
    && (f.tasker == "" || (b.providerName.Some? && Contains(Lower(b.providerName.value), Lower(f.tasker))))
  }

  function Matches(f: BookingFilter): Booking -> bool {
    (b: Booking) => MatchesFilter(f, b)
  }

  /** `filteredBookings`: exactly the bookings that match, in their order. */
  function FilteredBookings(bookings: seq<Booking>, f: BookingFilter): (r: seq<Booking>)
    ensures forall i :: 0 <= i < |r| ==> r[i] in bookings && MatchesFilter(f, r[i])
    ensures forall i :: 0 <= i < |bookings| && MatchesFilter(f, bookings[i]) ==> bookings[i] in r
  {
    Filter(bookings, Matches(f))
  }

  /** With every field empty the search shows all bookings, unchanged. */
  lemma EmptyFilterShowsAll(bookings: seq<Booking>)
    ensures FilteredBookings(bookings, NoFilter) == bookings
  {
    FilterAll(bookings, Matches(NoFilter));
  }

  /** The search keeps the bookings' order: searching a list in two parts gives the two results
      one after the other. */
  lemma FilteredBookingsKeepsOrder(a: seq<Booking>, b: seq<Booking>, f: BookingFilter)
    ensures FilteredBookings(a + b, f) == FilteredBookings(a, f) + FilteredBookings(b, f)
  {
    FilterConcat(a, b, Matches(f));
  }

  // ---------------------------------------------------------------- Mark Paid

  /** Rows of the payout table are the completed bookings; the Mark Paid button shows on those
      still in escrow. */
  predicate MarkPaidOffered(b: Booking) {
    b.status == Completed && b.paymentStatus == PaidToEscrow
  }

  function HasBookingId(id: string): Booking -> bool {
    (b: Booking) => b.id == id
  }

  function Release(b: Booking): Booking {
    b.(paymentStatus := ReleasedToTasker)
  }

  /** The list Mark Paid hands to the store's `setBookings`: the booking with that id released to
      the tasker, every other booking as it was. */
  function MarkPaid(bookings: seq<Booking>, id: string): (r: seq<Booking>)
    ensures |r| == |bookings|
    ensures forall i :: 0 <= i < |r| ==>
      r[i] == if bookings[i].id == id then bookings[i].(paymentStatus := ReleasedToTasker) else bookings[i]
  {
    MapWhere(bookings, HasBookingId(id), Release)
  }

  function MarkPaidAction(bookings: seq<Booking>, id: string): Action {
    SetBookings(MarkPaid(bookings, id))
  }

  /** With unique ids, Mark Paid changes booking `k` alone. */
  lemma MarkPaidTouchesOnlyOne(bookings: seq<Booking>, k: nat)
    requires k < |bookings| && UniqueKeys(bookings, ProviderDashboard.BookingId)
    ensures var after := MarkPaid(bookings, bookings[k].id);
            && after[k] == Release(bookings[k])
            && forall i :: 0 <= i < |bookings| && i != k ==> after[i] == bookings[i]
  {
    var after := MarkPaid(bookings, bookings[k].id);
    forall i | 0 <= i < |bookings| && i != k ensures after[i] == bookings[i] {
      assert ProviderDashboard.BookingId(bookings[i]) != ProviderDashboard.BookingId(bookings[k]) by {
        if i < k { } else { }
      }
    }
  }

  /** Releasing one completed escrow booking moves its payout (when it is the tasker's) from
      nowhere into cleared; escrow and fees count only non-completed and completed bookings and
      do not see the payment status of a completed one. */
  lemma {:induction false} ReleasingOneJob(a: seq<Booking>, b: seq<Booking>, k: nat, userId: string)
    requires |a| == |b| && k < |a| && MarkPaidOffered(a[k])
    requires forall i :: 0 <= i < |a| && i != k ==> a[i] == b[i]
    requires b[k] == Release(a[k])
    ensures var mine := a[k].providerId == Some(userId);
            && ProviderDashboard.Cleared(b, userId)
               == ProviderDashboard.Cleared(a, userId) + (if mine then a[k].taskerAmount else 0)
            && ProviderDashboard.Escrow(b, userId) == ProviderDashboard.Escrow(a, userId)
            && ProviderDashboard.Fees(b, userId) == ProviderDashboard.Fees(a, userId)
  {
    var mine := ProviderDashboard.IsMine(userId);
    assert ProviderDashboard.Cleared(b, userId)
           == ProviderDashboard.Cleared(a, userId) + (if mine(a[k]) then a[k].taskerAmount else 0) by {
      SumFilterFilterReplaceOne(a, b, k, mine, ProviderDashboard.IsCleared, ProviderDashboard.TaskerAmount);
    }
    assert ProviderDashboard.Escrow(b, userId) == ProviderDashboard.Escrow(a, userId) by {
      SumFilterFilterReplaceOne(a, b, k, mine, ProviderDashboard.InEscrow, ProviderDashboard.TaskerAmount);
    }
    assert ProviderDashboard.Fees(b, userId) == ProviderDashboard.Fees(a, userId) by {
      SumFilterFilterReplaceOne(a, b, k, mine, ProviderDashboard.IsCompleted, ProviderDashboard.PlatformFee);
    }
  }

  /** Marking a completed escrow booking paid (ids unique) moves its payout into the tasker's
      cleared figure, leaves their escrow and fee figures alone, and does not change the
      treasury, which already counted it as completed. */
  lemma MarkPaidReleasesPayout(bookings: seq<Booking>, k: nat, userId: string)
    requires k < |bookings| && MarkPaidOffered(bookings[k])
    requires UniqueKeys(bookings, ProviderDashboard.BookingId)
    ensures var after := MarkPaid(bookings, bookings[k].id);
            var mine := bookings[k].providerId == Some(userId);
            && ProviderDashboard.Cleared(after, userId)
               == ProviderDashboard.Cleared(bookings, userId) + (if mine then bookings[k].taskerAmount else 0)
            && ProviderDashboard.Escrow(after, userId) == ProviderDashboard.Escrow(bookings, userId)
            && ProviderDashboard.Fees(after, userId) == ProviderDashboard.Fees(bookings, userId)
            && TreasuryStats(after) == TreasuryStats(bookings)
  {
    var after := MarkPaid(bookings, bookings[k].id);
    MarkPaidTouchesOnlyOne(bookings, k);
    ReleasingOneJob(bookings, after, k, userId);
    TreasuryReadsOnlyCountedPrices(bookings, after);
  }

  // ---------------------------------------------------------------- identity queue

  /** The identity queue: applications that are new or were sent back for changes. */
  predicate AwaitsIdentityReview(a: ProviderApplication) {
    a.status == Applied || a.status == ChangesRequired
  }

  function IdentityQueue(apps: seq<ProviderApplication>): (r: seq<ProviderApplication>)
    ensures forall i :: 0 <= i < |r| ==> r[i] in apps && AwaitsIdentityReview(r[i])
    ensures forall i :: 0 <= i < |apps| && AwaitsIdentityReview(apps[i]) ==> apps[i] in r
  {
    Filter(apps, AwaitsIdentityReview)
  }

  /** `feedbackInput[key] || fallback`: the typed feedback, or the fallback when none was typed. */
  function TypedOr(feedbackInput: map<string, string>, key: string, fallback: string): (r: string)
    ensures key in feedbackInput && feedbackInput[key] != "" ==> r == feedbackInput[key]
    ensures !(key in feedbackInput && feedbackInput[key] != "") ==> r == fallback
  {
    if key in feedbackInput && feedbackInput[key] != "" then feedbackInput[key] else fallback
  }

  const ApprovedMessage := "Application approved! Welcome to the team."

  /** "Approve": the feedback (typed, or the welcome message), then the approved status. */
  function ApproveApplication(app: ProviderApplication, feedbackInput: map<string, string>): (r: seq<Action>)
    ensures |r| == 2
    ensures r[0] == UpdateApplicationFeedback(app.id, TypedOr(feedbackInput, app.id, ApprovedMessage))
    ensures r[1] == UpdateApplicationStatus(app.id, ProviderStatus.Approved)
  {
    [UpdateApplicationFeedback(app.id, TypedOr(feedbackInput, app.id, ApprovedMessage)),
     UpdateApplicationStatus(app.id, ProviderStatus.Approved)]
  }

  /** "Request Changes": refused (no action at all) without typed feedback; otherwise the
      feedback, then the changes-required status. */
  function RequestApplicationChanges(app: ProviderApplication, feedbackInput: map<string, string>): (r: seq<Action>)
    ensures r == [] <==> !(app.id in feedbackInput && feedbackInput[app.id] != "")
    ensures r != [] ==> r == [UpdateApplicationFeedback(app.id, feedbackInput[app.id]),
                              UpdateApplicationStatus(app.id, ChangesRequired)]
  {
    if app.id in feedbackInput && feedbackInput[app.id] != "" then
      [UpdateApplicationFeedback(app.id, feedbackInput[app.id]), UpdateApplicationStatus(app.id, ChangesRequired)]
    else []
  }

  /** Pairs each action with the stamp its log entry would carry; spare stamps go unused. */
  function Stamped(actions: seq<Action>, stamps: seq<Stamp>): (r: seq<(Action, Stamp)>)
    requires |stamps| >= |actions|
    ensures |r| == |actions|
    ensures forall i :: 0 <= i < |r| ==> r[i] == (actions[i], stamps[i])
  {
    seq(|actions|, i requires 0 <= i < |actions| => (actions[i], stamps[i]))
  }

  /** Running an identity decision through the store leaves every application with that id
      carrying the decision's feedback and status, and every other application as it was. */
  lemma {:induction false} IdentityDecisionLands(s: State, id: string, fb: string, st: ProviderStatus, st1: Stamp, st2: Stamp)
    ensures var t := Run(s, [(UpdateApplicationFeedback(id, fb), st1), (UpdateApplicationStatus(id, st), st2)]);
      |t.applications| == |s.applications|
      && forall i :: 0 <= i < |s.applications| ==>
         t.applications[i] == if s.applications[i].id == id
                              then s.applications[i].(adminFeedback := Some(fb), status := st)
                              else s.applications[i]
  {
    var events := [(UpdateApplicationFeedback(id, fb), st1), (UpdateApplicationStatus(id, st), st2)];
    var s1 := Step(s, events[0].0, events[0].1);
    assert s1.applications == MapWhere(s.applications, AppWithId(id), WithFeedback(fb));
    ApplicationStatusOnlyMatching(s1, id, st, st2);
    assert events[1..][1..] == [];
    assert Run(s, events) == Run(s1, events[1..]);
    assert Run(s1, events[1..]) == Step(s1, events[1].0, events[1].1);
  }

  /** The application decided on is the first with its id and its owner's first. */
  predicate FirstOfItsKind(apps: seq<ProviderApplication>, k: nat) {
    k < |apps| && forall j :: 0 <= j < k ==> apps[j].id != apps[k].id && apps[j].userId != apps[k].userId
  }

  /** A decision on application `k` reaches its owner: the owner's entry in the user list, and the
      signed-in profile when it is the owner, take the new status, and the application form the
      owner opens next shows the decided application, on the status screen exactly when changes
      were requested. */
  lemma {:induction false} DecisionReachesApplicant(s: State, k: nat, fb: string, st: ProviderStatus, st1: Stamp, st2: Stamp)
    requires FirstOfItsKind(s.applications, k)
    ensures var t := Run(s, [(UpdateApplicationFeedback(s.applications[k].id, fb), st1),
                             (UpdateApplicationStatus(s.applications[k].id, st), st2)]);
      var owner := s.applications[k].userId;
      var form := ProviderApplicationForm.ExistingApplication(t.applications, owner);
      && (forall i :: 0 <= i < |t.allUsers| && t.allUsers[i].id == owner ==> t.allUsers[i].providerStatus == Some(st))
      && (s.userProfile.id == owner ==> t.userProfile.providerStatus == Some(st))
      && form == Some(s.applications[k].(adminFeedback := Some(fb), status := st))
      && (ProviderApplicationForm.InitialStep(form) == 0 <==> st == ChangesRequired)
  {
    var id := s.applications[k].id;
    var owner := s.applications[k].userId;
    var events := [(UpdateApplicationFeedback(id, fb), st1), (UpdateApplicationStatus(id, st), st2)];
    var s1 := Step(s, events[0].0, events[0].1);
    assert s1.applications == MapWhere(s.applications, AppWithId(id), WithFeedback(fb));
    assert s1.userProfile == s.userProfile && s1.allUsers == s.allUsers;
    assert events[1..][1..] == [];
    assert Run(s, events) == Step(s1, events[1].0, events[1].1) by {
      assert Run(s, events) == Run(s1, events[1..]);
    }
    ApplicationStatusReachesOwner(s1, id, st, st2, k);
    IdentityDecisionLands(s, id, fb, st, st1, st2);
    var t := Run(s, events);
    var r := Find(t.applications, ProviderApplicationForm.OwnedBy(owner));
    assert ProviderApplicationForm.OwnedBy(owner)(t.applications[k]);
    assert r == k;
  }

  /** "Approve" through the store: the application carries the typed feedback, or the welcome
      message when none was typed, and the approved status; no other application changes; the
      applicant becomes an approved provider and reopens the form on its welcome screen. */
  lemma ApprovalLands(s: State, k: nat, feedbackInput: map<string, string>, st1: Stamp, st2: Stamp)
    requires FirstOfItsKind(s.applications, k)
    ensures var app := s.applications[k];
      var fb := if app.id in feedbackInput && feedbackInput[app.id] != "" then feedbackInput[app.id] else ApprovedMessage;
      var t := Run(s, Stamped(ApproveApplication(app, feedbackInput), [st1, st2]));
      && |t.applications| == |s.applications|
      && (forall i :: 0 <= i < |s.applications| ==>
           t.applications[i] == if s.applications[i].id == app.id
                                then s.applications[i].(adminFeedback := Some(fb), status := ProviderStatus.Approved)
                                else s.applications[i])
      && (forall i :: 0 <= i < |t.allUsers| && t.allUsers[i].id == app.userId ==>
           t.allUsers[i].providerStatus == Some(ProviderStatus.Approved))
      && (s.userProfile.id == app.userId ==> t.userProfile.providerStatus == Some(ProviderStatus.Approved))
      && ProviderApplicationForm.InitialStep(ProviderApplicationForm.ExistingApplication(t.applications, app.userId)) == 1
  {
    var app := s.applications[k];
    var fb := TypedOr(feedbackInput, app.id, ApprovedMessage);
    assert Stamped(ApproveApplication(app, feedbackInput), [st1, st2])
           == [(UpdateApplicationFeedback(app.id, fb), st1), (UpdateApplicationStatus(app.id, ProviderStatus.Approved), st2)];
    IdentityDecisionLands(s, app.id, fb, ProviderStatus.Approved, st1, st2);
    DecisionReachesApplicant(s, k, fb, ProviderStatus.Approved, st1, st2);
  }

  /** "Request Changes" through the store: without typed feedback nothing changes at all;
      with it, the application carries that feedback and the changes-required status, no other
      application changes, the applicant takes that status, and the form they open next starts
      on the status screen. */
  lemma RequestChangesLands(s: State, k: nat, feedbackInput: map<string, string>, st1: Stamp, st2: Stamp)
    requires FirstOfItsKind(s.applications, k)
    ensures var app := s.applications[k];
      var typed := app.id in feedbackInput && feedbackInput[app.id] != "";
      var t := Run(s, Stamped(RequestApplicationChanges(app, feedbackInput), [st1, st2]));
      && (!typed ==> t == s)
      && (typed ==>
          && |t.applications| == |s.applications|
          && (forall i :: 0 <= i < |s.applications| ==>
               t.applications[i] == if s.applications[i].id == app.id
                                    then s.applications[i].(adminFeedback := Some(feedbackInput[app.id]), status := ChangesRequired)
                                    else s.applications[i])
          && (forall i :: 0 <= i < |t.allUsers| && t.allUsers[i].id == app.userId ==>
               t.allUsers[i].providerStatus == Some(ChangesRequired))
          && ProviderApplicationForm.InitialStep(ProviderApplicationForm.ExistingApplication(t.applications, app.userId)) == 0)
  {
    var app := s.applications[k];
    if app.id in feedbackInput && feedbackInput[app.id] != "" {
      var fb := feedbackInput[app.id];
      assert Stamped(RequestApplicationChanges(app, feedbackInput), [st1, st2])
             == [(UpdateApplicationFeedback(app.id, fb), st1), (UpdateApplicationStatus(app.id, ChangesRequired), st2)];
      IdentityDecisionLands(s, app.id, fb, ChangesRequired, st1, st2);
      DecisionReachesApplicant(s, k, fb, ChangesRequired, st1, st2);
    } else {
      assert Stamped(RequestApplicationChanges(app, feedbackInput), [st1, st2]) == [];
    }
  }

  // ---------------------------------------------------------------- portfolio queue

  predicate PortfolioSubmitted(u: UserProfile) {
    u.settings.Some? && u.settings.value.submissionStatus == TaskerSubmissionStatus.Submitted
  }

  /** `pendingPortfolios`: exactly the users whose portfolio is submitted, in order. */
  function PendingPortfolios(users: seq<UserProfile>): (r: seq<UserProfile>)
    ensures forall i :: 0 <= i < |r| ==> r[i] in users && PortfolioSubmitted(r[i])
    ensures forall i :: 0 <= i < |users| && PortfolioSubmitted(users[i]) ==> users[i] in r
  {
    Filter(users, PortfolioSubmitted)
  }

  /** The two portfolio buttons: approve, or send back for changes. */
  datatype PortfolioDecision = ApprovePortfolio | RequestPortfolioChanges

  /** The submission status a decision leaves on the portfolio: changes required sends it back to
      draft. */
  function DecidedStatus(d: PortfolioDecision): TaskerSubmissionStatus {
    if d == RequestPortfolioChanges then TaskerSubmissionStatus.Draft else TaskerSubmissionStatus.Approved
  }

  function UserIs(userId: string): UserProfile -> bool {
    (u: UserProfile) => u.id == userId
  }

  function AppOf(userId: string): ProviderApplication -> bool {
    (a: ProviderApplication) => a.userId == userId
  }

  /** `handlePortfolioAction`: nothing for an unknown user or one without a portfolio; otherwise
      the feedback (and, for changes, the changes-required status) on the user's first
      application if there is one, and then the user, taken as listed, saved with the portfolio's
      new submission status and nothing else changed. */
  function PortfolioActions(users: seq<UserProfile>, apps: seq<ProviderApplication>, userId: string,
                            d: PortfolioDecision, feedback: string): (r: seq<Action>)
    ensures var k := Find(users, UserIs(userId));
      r == [] <==> k < 0 || users[k].settings.None?
    ensures r != [] ==>
      var u := users[Find(users, UserIs(userId))];
      && r[|r| - 1] == UpdateProfile(u.(settings := Some(u.settings.value.(submissionStatus := DecidedStatus(d)))))
      && u.id == userId
  {
    var k := Find(users, UserIs(userId));
    if k < 0 || users[k].settings.None? then []
    else
      var user := users[k];
      var updated := user.(settings := Some(user.settings.value.(submissionStatus := DecidedStatus(d))));
      PortfolioAppActions(apps, userId, d, feedback) + [UpdateProfile(updated)]
  }

  /** The application part of `handlePortfolioAction`: on the user's first application, if there
      is one, the feedback and, for changes, the changes-required status. */
  function PortfolioAppActions(apps: seq<ProviderApplication>, userId: string, d: PortfolioDecision,
                               feedback: string): (r: seq<Action>)
    ensures |r| <= 2
  {
    var j := Find(apps, AppOf(userId));
    if j < 0 then []
    else [UpdateApplicationFeedback(apps[j].id, feedback)]
         + (if d == RequestPortfolioChanges then [UpdateApplicationStatus(apps[j].id, ChangesRequired)] else [])
  }

  /** With an application on file, approving sends feedback then the profile; asking for changes
      also marks that application changes-required in between. */
  lemma PortfolioActionsWithApplication(users: seq<UserProfile>, apps: seq<ProviderApplication>, userId: string,
                                        d: PortfolioDecision, feedback: string, j: nat)
    requires HasKey(users, UserId, userId)
    requires j < |apps| && apps[j].userId == userId && forall i :: 0 <= i < j ==> apps[i].userId != userId
    ensures var r := PortfolioActions(users, apps, userId, d, feedback);
      var k := Find(users, UserIs(userId));
      users[k].settings.Some? ==>
        && r[0] == UpdateApplicationFeedback(apps[j].id, feedback)
        && |r| == (if d == RequestPortfolioChanges then 3 else 2)
        && (d == RequestPortfolioChanges ==> r[1] == UpdateApplicationStatus(apps[j].id, ChangesRequired))
  {
    var i :| 0 <= i < |users| && UserId(users[i]) == userId;
    assert UserIs(userId)(users[i]);
    assert Find(apps, AppOf(userId)) == j;
  }

  const PortfolioApprovedMessage := "Your portfolio is excellent and now live!"

  /** "Approve & Go Live": the typed feedback or the congratulation. */
  function ApprovePortfolioButton(users: seq<UserProfile>, apps: seq<ProviderApplication>, userId: string,
                                  feedbackInput: map<string, string>): (r: seq<Action>)
    ensures r == PortfolioActions(users, apps, userId, ApprovePortfolio,
                                  TypedOr(feedbackInput, userId, PortfolioApprovedMessage))
  {
    PortfolioActions(users, apps, userId, ApprovePortfolio, TypedOr(feedbackInput, userId, PortfolioApprovedMessage))
  }

  /** "Request Changes" on a portfolio: refused without typed feedback. */
  function RequestPortfolioChangesButton(users: seq<UserProfile>, apps: seq<ProviderApplication>, userId: string,
                                         feedbackInput: map<string, string>): (r: seq<Action>)
    ensures !(userId in feedbackInput && feedbackInput[userId] != "") ==> r == []
    ensures userId in feedbackInput && feedbackInput[userId] != "" ==>
      r == PortfolioActions(users, apps, userId, RequestPortfolioChanges, feedbackInput[userId])
  {
    if userId in feedbackInput && feedbackInput[userId] != ""
    then PortfolioActions(users, apps, userId, RequestPortfolioChanges, feedbackInput[userId])
    else []
  }

  /** The application feedback and status a portfolio decision leaves on the user's first
      application `j`: the feedback always, the changes-required status only when changes are
      requested. */
  function DecidedApplication(a: ProviderApplication, d: PortfolioDecision, feedback: string): ProviderApplication {
    a.(adminFeedback := Some(feedback), status := if d == RequestPortfolioChanges then ChangesRequired else a.status)
  }

  /** The profile a portfolio decision saves: the user as listed, with the decided submission
      status. */
  function Decided(u: UserProfile, d: PortfolioDecision): UserProfile
    requires u.settings.Some?
  {
    u.(settings := Some(u.settings.value.(submissionStatus := DecidedStatus(d))))
  }

  /** A decision on user `k` runs its application actions and then the profile update. */
  lemma PortfolioRunSplits(s: State, k: nat, d: PortfolioDecision, feedback: string, stamps: seq<Stamp>)
    requires k < |s.allUsers| && s.allUsers[k].settings.Some?
    requires forall i :: 0 <= i < k ==> s.allUsers[i].id != s.allUsers[k].id
    requires |stamps| >= 3
    ensures var u := s.allUsers[k];
      var front := PortfolioAppActions(s.applications, u.id, d, feedback);
      Run(s, Stamped(PortfolioActions(s.allUsers, s.applications, u.id, d, feedback), stamps))
      == Step(Run(s, Stamped(front, stamps)), UpdateProfile(Decided(u, d)), stamps[|front|])
  {
    var u := s.allUsers[k];
    assert Find(s.allUsers, UserIs(u.id)) == k by {
      assert UserIs(u.id)(s.allUsers[k]);
    }
    var front := PortfolioAppActions(s.applications, u.id, d, feedback);
    var acts := PortfolioActions(s.allUsers, s.applications, u.id, d, feedback);
    assert acts == front + [UpdateProfile(Decided(u, d))];
    assert Stamped(acts, stamps) == Stamped(front, stamps) + [(UpdateProfile(Decided(u, d)), stamps[|front|])];
    RunThenStep(s, Stamped(front, stamps), UpdateProfile(Decided(u, d)), stamps[|front|]);
  }

  /** The application actions of a decision leave the feedback (and, for changes, the
      changes-required status) on the applications with the id of the user's first application,
      and change nothing without one. */
  lemma PortfolioApplicationsLand(s: State, userId: string, d: PortfolioDecision, feedback: string, stamps: seq<Stamp>)
    requires |stamps| >= 2
    ensures var t := Run(s, Stamped(PortfolioAppActions(s.applications, userId, d, feedback), stamps));
      var j := Find(s.applications, AppOf(userId));
      && |t.applications| == |s.applications|
      && (j < 0 ==> t.applications == s.applications)
      && (j >= 0 ==> forall i :: 0 <= i < |s.applications| ==>
           t.applications[i] == if s.applications[i].id == s.applications[j].id
                                then DecidedApplication(s.applications[i], d, feedback)
                                else s.applications[i])
  {
    var j := Find(s.applications, AppOf(userId));
    var front := Stamped(PortfolioAppActions(s.applications, userId, d, feedback), stamps);
    if j >= 0 {
      var id := s.applications[j].id;
      if d == RequestPortfolioChanges {
        assert front == [(UpdateApplicationFeedback(id, feedback), stamps[0]), (UpdateApplicationStatus(id, ChangesRequired), stamps[1])];
        IdentityDecisionLands(s, id, feedback, ChangesRequired, stamps[0], stamps[1]);
      } else {
        assert front == [(UpdateApplicationFeedback(id, feedback), stamps[0])];
        assert front[1..] == [];
        assert Run(s, front) == Step(s, front[0].0, front[0].1);
      }
    } else {
      assert front == [];
    }
  }

  /** A portfolio decision on user `k` through the store: the signed-in profile and every record
      of that user become the listed user with the decided submission status, so the user leaves
      the pending queue; the applications with the id of the user's first application carry the
      feedback (and the changes-required status when changes are asked for), and no other
      application changes. */
  lemma PortfolioDecisionLands(s: State, k: nat, d: PortfolioDecision, feedback: string, stamps: seq<Stamp>)
    requires k < |s.allUsers| && s.allUsers[k].settings.Some?
    requires forall i :: 0 <= i < k ==> s.allUsers[i].id != s.allUsers[k].id
    requires |stamps| >= 3
    ensures var u := s.allUsers[k];
      var t := Run(s, Stamped(PortfolioActions(s.allUsers, s.applications, u.id, d, feedback), stamps));
      var j := Find(s.applications, AppOf(u.id));
      && t.userProfile == Decided(u, d)
      && (forall i :: 0 <= i < |t.allUsers| && t.allUsers[i].id == u.id ==> t.allUsers[i] == Decided(u, d))
      && (forall i :: 0 <= i < |PendingPortfolios(t.allUsers)| ==> PendingPortfolios(t.allUsers)[i].id != u.id)
      && |t.applications| == |s.applications|
      && (j < 0 ==> t.applications == s.applications)
      && (j >= 0 ==> forall i :: 0 <= i < |s.applications| ==>
           t.applications[i] == if s.applications[i].id == s.applications[j].id
                                then DecidedApplication(s.applications[i], d, feedback)
                                else s.applications[i])
  {
    var u := s.allUsers[k];
    var front := PortfolioAppActions(s.applications, u.id, d, feedback);
    PortfolioRunSplits(s, k, d, feedback, stamps);
    var mid := Run(s, Stamped(front, stamps));
    PortfolioApplicationsLand(s, u.id, d, feedback, stamps);
    UpdateProfileUpserts(mid, Decided(u, d), stamps[|front|]);
    var t := Step(mid, UpdateProfile(Decided(u, d)), stamps[|front|]);
    assert t.applications == mid.applications;
    assert !PortfolioSubmitted(Decided(u, d));
  }

  /** "Approve & Go Live" through the store: the portfolio is approved and leaves the queue, and
      the user's first application carries the typed feedback, or the congratulation when none
      was typed. */
  lemma ApprovePortfolioLands(s: State, k: nat, feedbackInput: map<string, string>, stamps: seq<Stamp>)
    requires k < |s.allUsers| && s.allUsers[k].settings.Some?
    requires forall i :: 0 <= i < k ==> s.allUsers[i].id != s.allUsers[k].id
    requires |stamps| >= 3
    ensures var u := s.allUsers[k];
      var fb := if u.id in feedbackInput && feedbackInput[u.id] != "" then feedbackInput[u.id] else PortfolioApprovedMessage;
      var t := Run(s, Stamped(ApprovePortfolioButton(s.allUsers, s.applications, u.id, feedbackInput), stamps));
      var j := Find(s.applications, AppOf(u.id));
      && t.userProfile.settings.Some? && t.userProfile.settings.value.submissionStatus == TaskerSubmissionStatus.Approved
      && |t.applications| == |s.applications|
      && (forall i :: 0 <= i < |t.allUsers| && t.allUsers[i].id == u.id ==>
           t.allUsers[i].settings.Some? && t.allUsers[i].settings.value.submissionStatus == TaskerSubmissionStatus.Approved)
      && (j >= 0 ==> forall i :: 0 <= i < |s.applications| && s.applications[i].id == s.applications[j].id ==>
           t.applications[i] == s.applications[i].(adminFeedback := Some(fb)))
  {
    var u := s.allUsers[k];
    PortfolioDecisionLands(s, k, ApprovePortfolio, TypedOr(feedbackInput, u.id, PortfolioApprovedMessage), stamps);
  }

  /** "Request Changes" on a portfolio through the store: nothing at all changes without typed
      feedback; with it the portfolio goes back to draft and leaves the queue, and the user's
      first application carries the feedback and the changes-required status. */
  lemma RequestPortfolioChangesLands(s: State, k: nat, feedbackInput: map<string, string>, stamps: seq<Stamp>)
    requires k < |s.allUsers| && s.allUsers[k].settings.Some?
    requires forall i :: 0 <= i < k ==> s.allUsers[i].id != s.allUsers[k].id
    requires |stamps| >= 3
    ensures var u := s.allUsers[k];
      var typed := u.id in feedbackInput && feedbackInput[u.id] != "";
      var t := Run(s, Stamped(RequestPortfolioChangesButton(s.allUsers, s.applications, u.id, feedbackInput), stamps));
      var j := Find(s.applications, AppOf(u.id));
      && (!typed ==> t == s)
      && (typed ==>
          && t.userProfile.settings.Some? && t.userProfile.settings.value.submissionStatus == TaskerSubmissionStatus.Draft
          && |t.applications| == |s.applications|
          && (forall i :: 0 <= i < |t.allUsers| && t.allUsers[i].id == u.id ==>
               t.allUsers[i].settings.Some? && t.allUsers[i].settings.value.submissionStatus == TaskerSubmissionStatus.Draft)
          && (j >= 0 ==> forall i :: 0 <= i < |s.applications| && s.applications[i].id == s.applications[j].id ==>
               t.applications[i] == s.applications[i].(adminFeedback := Some(feedbackInput[u.id]), status := ChangesRequired)))
  {
    var u := s.allUsers[k];
    if u.id in feedbackInput && feedbackInput[u.id] != "" {
      PortfolioDecisionLands(s, k, RequestPortfolioChanges, feedbackInput[u.id], stamps);
    } else {
      assert Stamped(RequestPortfolioChangesButton(s.allUsers, s.applications, u.id, feedbackInput), stamps) == [];
    }
  }

  // ---------------------------------------------------------------- Pause

  /** The talent list: the users approved as providers. */
  function ApprovedTaskers(users: seq<UserProfile>): (r: seq<UserProfile>)
    ensures forall i :: 0 <= i < |r| ==> r[i] in users && r[i].providerStatus == Some(ProviderStatus.Approved)
    ensures forall i :: 0 <= i < |users| && users[i].providerStatus == Some(ProviderStatus.Approved) ==> users[i] in r
  {
    Filter(users, (u: UserProfile) => u.providerStatus == Some(ProviderStatus.Approved))
  }

  /** "Pause" as written: it hands the store the user's id where an application id is expected. */
  function PauseAsWritten(u: UserProfile): Action {
    UpdateApplicationStatus(u.id, Suspended)
  }

  /** An application id as the application form makes it: "APP-" followed by digits. */
  predicate IsFormApplicationId(id: string) {
    |id| >= 4 && id[..4] == "APP-"
  }

  /** When every application id comes from the form and the user's id does not (the seeded user
      is "user_1"), Pause as written finds no application: the tasker stays approved and
      nothing but the log changes. */
  lemma PauseAsWrittenChangesNothing(s: State, u: UserProfile, stamp: Stamp)
    requires forall i :: 0 <= i < |s.applications| ==> IsFormApplicationId(s.applications[i].id)
    requires !IsFormApplicationId(u.id)
    ensures var t := Step(s, PauseAsWritten(u), stamp);
      t.applications == s.applications && t.allUsers == s.allUsers && t.userProfile == s.userProfile
  {
    forall i | 0 <= i < |s.applications| ensures s.applications[i].id != u.id {
      assert IsFormApplicationId(s.applications[i].id);
    }
    ApplicationStatusUnknownId(s, u.id, Suspended, stamp);
  }

  /** "Pause" as intended: suspend the application the user filed, which the store then copies
      onto the user. A user with no application on file gets no action. */
  function Pause(apps: seq<ProviderApplication>, u: UserProfile): (r: Option<Action>)
    ensures r.None? <==> !HasKey(apps, ApplicantId, u.id)
    ensures r.Some? ==> exists j :: 0 <= j < |apps| && apps[j].userId == u.id
                                    && r.value == UpdateApplicationStatus(apps[j].id, Suspended)
  {
    var j := Find(apps, AppOf(u.id));
    if j < 0 then
      assert !HasKey(apps, ApplicantId, u.id) by {
        forall i | 0 <= i < |apps| ensures ApplicantId(apps[i]) != u.id {
          assert !AppOf(u.id)(apps[i]);
        }
      }
      None
    else
      assert ApplicantId(apps[j]) == u.id;
      Some(UpdateApplicationStatus(apps[j].id, Suspended))
  }

  /** With application ids unique, the intended Pause suspends the tasker in the user list and,
      when the tasker is signed in, in the profile too. */
  lemma PauseSuspendsTasker(s: State, u: UserProfile, stamp: Stamp)
    requires UniqueKeys(s.applications, AppId)
    requires Pause(s.applications, u).Some?
    ensures var t := Step(s, Pause(s.applications, u).value, stamp);
      (forall i :: 0 <= i < |t.allUsers| && t.allUsers[i].id == u.id ==> t.allUsers[i].providerStatus == Some(Suspended))
      && (s.userProfile.id == u.id ==> t.userProfile.providerStatus == Some(Suspended))
  {
    var j := Find(s.applications, AppOf(u.id));
    var id := s.applications[j].id;
    forall i | 0 <= i < j ensures s.applications[i].id != id {
      assert AppId(s.applications[i]) != AppId(s.applications[j]);
    }
    ApplicationStatusReachesOwner(s, id, Suspended, stamp, j);
  }

  function AppId(a: ProviderApplication): string { a.id }
}
