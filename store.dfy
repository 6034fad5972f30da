/** The application state of App.tsx: the lists every screen reads, the signed-in profile, and
    the handlers the screens call to change them. Each handler replaces whole lists with a
    prepend, an id-keyed map or an upsert, and most of them prepend one activity-log entry. */
module AppStore {
  import opened Types
  import opened Lists
  import opened Text

  /** Everything the app keeps in memory. */
  datatype State = State(
    services: seq<Service>,
    bookings: seq<Booking>,
    reviews: seq<Review>,
    books: seq<Book>,
    applications: seq<ProviderApplication>,
    logs: seq<ActivityLog>,
    userProfile: UserProfile,
    allUsers: seq<UserProfile>)

  /** The random log id and the clock reading `addLog` would draw, supplied by the caller. */
  datatype Stamp = Stamp(logId: string, time: string)

  /** A handler invocation, with the arguments the screens pass. */
  datatype Action =
    | CreateBooking(booking: Booking)
    | UpdateBookingStatus(bookingId: string, bookingStatus: BookingStatus)
    | UpdateProfile(profile: UserProfile)
    | AddReview(review: Review)
    | UpdateApplicationStatus(appId: string, providerStatus: ProviderStatus)
    | UpdateApplicationFeedback(feedbackAppId: string, feedback: string)
    | AssignProvider(serviceId: string, providerId: string)
    | SubmitApplication(application: ProviderApplication)
    | Borrow(book: Book)
    | SetBookings(newBookings: seq<Booking>)
    | SetBooks(newBooks: seq<Book>)

  /** The handlers that call `addLog`; the plain setters do not. */
  predicate Logs(a: Action) {
    !(a.UpdateApplicationFeedback? || a.Borrow? || a.SetBookings? || a.SetBooks?)
  }

  /** The action text `addLog` records for a logging handler, read from the state it was called in. */
  function LogMessage(s: State, a: Action): string {
    match a
    case CreateBooking(b) =>
      "\U{1F4B8} ESCROW PAYMENT: " + b.customerName + " paid KES " + IntString(b.totalPrice)
      + " for " + b.serviceTitle + ". Funds held by app."
    case UpdateBookingStatus(id, st) => "Booking " + id + " status updated to " + BookingStatusName(st)
    case UpdateProfile(p) => "Profile for " + p.name + " updated."
    case AddReview(r) => "New review added for " + r.serviceTitle
    case UpdateApplicationStatus(id, st) => "Application " + id + " status updated to " + ProviderStatusName(st)
    case AssignProvider(sid, pid) => "Provider " + pid + " assigned to service " + sid
    case SubmitApplication(_) => "Provider application submitted by " + s.userProfile.name
    case _ => ""
  }

  function NewLog(stamp: Stamp, action: string): ActivityLog {
    ActivityLog(stamp.logId, stamp.time, action, "SYSTEM")
  }

  function UserId(u: UserProfile): string { u.id }
  function ApplicantId(a: ProviderApplication): string { a.userId }

  /** The user list after `handleUpdateProfile(p)`: an upsert keyed by user id. */
  function UpsertUser(users: seq<UserProfile>, p: UserProfile): seq<UserProfile> {
    Upsert(users, p, UserId)
  }

  function BookingWithId(id: string): Booking -> bool { (b: Booking) => b.id == id }
  function WithBookingStatus(st: BookingStatus): Booking -> Booking { (b: Booking) => b.(status := st) }
  function AppWithId(id: string): ProviderApplication -> bool { (x: ProviderApplication) => x.id == id }
  function WithAppStatus(st: ProviderStatus): ProviderApplication -> ProviderApplication {
    (x: ProviderApplication) => x.(status := st)
  }
  function WithFeedback(fb: string): ProviderApplication -> ProviderApplication {
    (x: ProviderApplication) => x.(adminFeedback := Some(fb))
  }
  function UserWithId(id: string): UserProfile -> bool { (u: UserProfile) => u.id == id }
  function WithProviderStatus(st: ProviderStatus): UserProfile -> UserProfile {
    (u: UserProfile) => u.(providerStatus := Some(st))
  }
  function ServiceWithId(id: string): Service -> bool { (x: Service) => x.id == id }
  /** The service's provider list with `pid` appended; an absent list counts as empty. */
  function WithProvider(pid: string): Service -> Service {
    (x: Service) => x.(allowedProviderIds := Some(x.allowedProviderIds.GetOr([]) + [pid]))
  }

  /** The state after one handler, apart from its log entry. */
  function Effect(s: State, a: Action): State {
    match a
    case CreateBooking(b) => s.(bookings := [b] + s.bookings)
    case UpdateBookingStatus(id, st) =>
      s.(bookings := MapWhere(s.bookings, BookingWithId(id), WithBookingStatus(st)))
    case UpdateProfile(p) => s.(userProfile := p, allUsers := UpsertUser(s.allUsers, p))
    case AddReview(r) => s.(reviews := [r] + s.reviews)
    case UpdateApplicationStatus(id, st) =>
      var apps := MapWhere(s.applications, AppWithId(id), WithAppStatus(st));
      var k := Find(s.applications, AppWithId(id));
      if k < 0 then s.(applications := apps)
      else
        var owner := s.applications[k].userId;
        var users := MapWhere(s.allUsers, UserWithId(owner), WithProviderStatus(st));
        var profile := if owner == s.userProfile.id then s.userProfile.(providerStatus := Some(st)) else s.userProfile;
        s.(applications := apps, allUsers := users, userProfile := profile)
    case UpdateApplicationFeedback(id, fb) =>
      s.(applications := MapWhere(s.applications, AppWithId(id), WithFeedback(fb)))
    case AssignProvider(sid, pid) =>
      s.(services := MapWhere(s.services, ServiceWithId(sid), WithProvider(pid)))
    case SubmitApplication(app) =>
      var profile := s.userProfile.(providerStatus := Some(Applied), email := app.userEmail, phone := app.userPhone);
      s.(applications := Upsert(s.applications, app, ApplicantId),
         userProfile := profile, allUsers := UpsertUser(s.allUsers, profile))
    case Borrow(b) => s.(books := [b] + s.books)
    case SetBookings(bs) => s.(bookings := bs)
    case SetBooks(bs) => s.(books := bs)
  }

  /** The state after one handler. A logging handler prepends one entry to the log list it
      closed over; submitting an application logs twice from the same stale list, so only the
      second entry survives. */
  function Step(s: State, a: Action, stamp: Stamp): State {
    var t := Effect(s, a);
    if Logs(a) then t.(logs := [NewLog(stamp, LogMessage(s, a))] + s.logs) else t
  }

  /** The state after a sequence of handler calls. */
  function Run(s: State, events: seq<(Action, Stamp)>): State
    decreases |events|
  {
    if events == [] then s else Run(Step(s, events[0].0, events[0].1), events[1..])
  }

  /** Running one more handler after a run is running the longer sequence. */
  lemma {:induction false} RunThenStep(s: State, events: seq<(Action, Stamp)>, a: Action, stamp: Stamp)
    ensures Run(s, events + [(a, stamp)]) == Step(Run(s, events), a, stamp)
    decreases |events|
  {
    if events == [] {
      assert [] + [(a, stamp)] == [(a, stamp)];
      assert [(a, stamp)][1..] == [];
    } else {
      assert (events + [(a, stamp)])[1..] == events[1..] + [(a, stamp)];
      RunThenStep(Step(s, events[0].0, events[0].1), events[1..], a, stamp);
    }
  }

  function CountLogging(events: seq<(Action, Stamp)>): nat {
    if events == [] then 0 else (if Logs(events[0].0) then 1 else 0) + CountLogging(events[1..])
  }

  /** Each handler leaves the earlier log untouched below at most one new entry on top, and
      every logging handler adds exactly one. */
  lemma StepPrependsOneLog(s: State, a: Action, stamp: Stamp)
    ensures Logs(a) ==> |Step(s, a, stamp).logs| == |s.logs| + 1 && Step(s, a, stamp).logs[1..] == s.logs
    ensures !Logs(a) ==> Step(s, a, stamp).logs == s.logs
    ensures Logs(a) ==> Step(s, a, stamp).logs[0].user == "SYSTEM"
  {
  }

  /** The log only grows: after any run of handlers the original log is its tail, under one new
      entry per logging handler. */
  lemma {:induction false} RunKeepsLogHistory(s: State, events: seq<(Action, Stamp)>)
    ensures |Run(s, events).logs| == |s.logs| + CountLogging(events)
    ensures Run(s, events).logs[CountLogging(events)..] == s.logs
    decreases |events|
  {
    if events != [] {
      var t := Step(s, events[0].0, events[0].1);
      StepPrependsOneLog(s, events[0].0, events[0].1);
      RunKeepsLogHistory(t, events[1..]);
      var n := CountLogging(events[1..]);
      if Logs(events[0].0) {
        assert Run(s, events).logs[n..][1..] == Run(s, events).logs[n + 1..];
      }
    }
  }

  /** Creating a booking puts it first and keeps every earlier booking, duplicates included. */
  lemma CreateBookingPrepends(s: State, b: Booking, stamp: Stamp)
    ensures Step(s, CreateBooking(b), stamp).bookings[0] == b
    ensures Step(s, CreateBooking(b), stamp).bookings[1..] == s.bookings
    ensures |Step(s, CreateBooking(b), stamp).bookings| == |s.bookings| + 1
  {
    assert ([b] + s.bookings)[1..] == s.bookings;
  }

  /** A status update touches only the status of the bookings with that id. */
  lemma UpdateBookingStatusOnlyMatching(s: State, id: string, st: BookingStatus, stamp: Stamp)
    ensures |Step(s, UpdateBookingStatus(id, st), stamp).bookings| == |s.bookings|
    ensures forall i :: 0 <= i < |s.bookings| ==>
      var b := Step(s, UpdateBookingStatus(id, st), stamp).bookings[i];
      if s.bookings[i].id == id then b == s.bookings[i].(status := st) && b.status == st
      else b == s.bookings[i]
    ensures Step(s, UpdateBookingStatus(id, st), stamp).applications == s.applications
  {
  }

  /** Saving a profile upserts it by id: it replaces the record with its id in place, or is
      appended; afterwards it is the record for that id and the signed-in profile. */
  lemma UpdateProfileUpserts(s: State, p: UserProfile, stamp: Stamp)
    ensures var t := Step(s, UpdateProfile(p), stamp);
      t.userProfile == p
      && (HasKey(s.allUsers, UserId, p.id) ==> |t.allUsers| == |s.allUsers|)
      && (!HasKey(s.allUsers, UserId, p.id) ==> t.allUsers == s.allUsers + [p])
      && (forall i :: 0 <= i < |t.allUsers| && t.allUsers[i].id == p.id ==> t.allUsers[i] == p)
      && (forall i :: 0 <= i < |s.allUsers| && s.allUsers[i].id != p.id ==> t.allUsers[i] == s.allUsers[i])
    ensures UniqueKeys(s.allUsers, UserId) ==> UniqueKeys(Step(s, UpdateProfile(p), stamp).allUsers, UserId)
  {
    if UniqueKeys(s.allUsers, UserId) {
      UpsertKeepsKeysUnique(s.allUsers, p, UserId);
    }
  }

  /** A new status for application `id` lands on the applications with that id and no other. */
  lemma ApplicationStatusOnlyMatching(s: State, id: string, st: ProviderStatus, stamp: Stamp)
    ensures var t := Step(s, UpdateApplicationStatus(id, st), stamp);
      |t.applications| == |s.applications|
      && forall i :: 0 <= i < |s.applications| ==>
         t.applications[i] == if s.applications[i].id == id then s.applications[i].(status := st) else s.applications[i]
  {
  }

  /** An unknown application id changes no application, no user and not the signed-in profile. */
  lemma ApplicationStatusUnknownId(s: State, id: string, st: ProviderStatus, stamp: Stamp)
    requires forall i :: 0 <= i < |s.applications| ==> s.applications[i].id != id
    ensures var t := Step(s, UpdateApplicationStatus(id, st), stamp);
      t.applications == s.applications && t.allUsers == s.allUsers && t.userProfile == s.userProfile
  {
    var apps := MapWhere(s.applications, AppWithId(id), WithAppStatus(st));
    assert apps == s.applications;
  }

  /** The new status of the first application with id `id` is copied onto the user who owns it,
      and onto the signed-in profile when that is the owner. */
  lemma ApplicationStatusReachesOwner(s: State, id: string, st: ProviderStatus, stamp: Stamp, k: nat)
    requires k < |s.applications| && s.applications[k].id == id
    requires forall j :: 0 <= j < k ==> s.applications[j].id != id
    ensures var t := Step(s, UpdateApplicationStatus(id, st), stamp);
      (forall i :: 0 <= i < |t.allUsers| && t.allUsers[i].id == s.applications[k].userId ==>
         t.allUsers[i].providerStatus == Some(st))
      && (s.userProfile.id == s.applications[k].userId ==> t.userProfile.providerStatus == Some(st))
  {
    assert Find(s.applications, AppWithId(id)) == k;
  }

  /** Assigning a provider appends the id to that service's list only (an absent list counts as
      empty); other services are untouched and duplicates are kept. */
  lemma AssignProviderAppends(s: State, sid: string, pid: string, stamp: Stamp)
    ensures var t := Step(s, AssignProvider(sid, pid), stamp);
      |t.services| == |s.services|
      && forall i :: 0 <= i < |s.services| ==>
        if s.services[i].id == sid then
          t.services[i].allowedProviderIds == Some(s.services[i].allowedProviderIds.GetOr([]) + [pid])
          && t.services[i].(allowedProviderIds := s.services[i].allowedProviderIds) == s.services[i]
        else t.services[i] == s.services[i]
  {
  }

  /** Submitting an application upserts it by applicant, so nobody gains a second application;
      the signed-in user becomes `applied` with the application's email and phone. */
  lemma SubmitApplicationUpserts(s: State, app: ProviderApplication, stamp: Stamp)
    ensures var t := Step(s, SubmitApplication(app), stamp);
      HasKey(t.applications, ApplicantId, app.userId)
      && (forall i :: 0 <= i < |t.applications| && t.applications[i].userId == app.userId ==> t.applications[i] == app)
      && t.userProfile.providerStatus == Some(Applied)
      && t.userProfile.email == app.userEmail && t.userProfile.phone == app.userPhone
      && t.userProfile.(providerStatus := s.userProfile.providerStatus, email := s.userProfile.email,
                        phone := s.userProfile.phone) == s.userProfile
      && |t.logs| == |s.logs| + 1
    ensures UniqueKeys(s.applications, ApplicantId) ==>
      UniqueKeys(Step(s, SubmitApplication(app), stamp).applications, ApplicantId)
  {
    if UniqueKeys(s.applications, ApplicantId) {
      UpsertKeepsKeysUnique(s.applications, app, ApplicantId);
    }
  }

  /** Submitting an application is the profile update on the upserted applications, with the
      profile update's log entry replaced by the submission entry. */
  lemma SubmitIsProfileUpdateThenLog(s: State, app: ProviderApplication, stamp: Stamp)
    ensures var profile := s.userProfile.(providerStatus := Some(Applied), email := app.userEmail, phone := app.userPhone);
      var mid := s.(applications := Upsert(s.applications, app, ApplicantId));
      Step(s, SubmitApplication(app), stamp)
      == Step(mid, UpdateProfile(profile), stamp).(logs := [NewLog(stamp, "Provider application submitted by " + s.userProfile.name)] + s.logs)
  {
  }

  /** The store as App.tsx holds it: one field per `useState` list and the signed-in profile. */
  class Store {
    var services: seq<Service>
    var bookings: seq<Booking>
    var reviews: seq<Review>
    var books: seq<Book>
    var applications: seq<ProviderApplication>
    var logs: seq<ActivityLog>
    var userProfile: UserProfile
    var allUsers: seq<UserProfile>

    function Snapshot(): State
      reads this
    {
      State(services, bookings, reviews, books, applications, logs, userProfile, allUsers)
    }

    /** The lists as loaded from browser storage (or the seeded defaults), passed in. */
    constructor (init: State)
      ensures Snapshot() == init
    {
      services := init.services;
      bookings := init.bookings;
      reviews := init.reviews;
      books := init.books;
      applications := init.applications;
      logs := init.logs;
      userProfile := init.userProfile;
      allUsers := init.allUsers;
    }

    /** `addLog`: prepend a SYSTEM entry. */
    method AddLog(stamp: Stamp, action: string)
      modifies this
      ensures Snapshot() == old(Snapshot()).(logs := [NewLog(stamp, action)] + old(logs))
    {
      logs := [NewLog(stamp, action)] + logs;
    }

    method CreateBooking(b: Booking, stamp: Stamp)
      modifies this
      ensures Snapshot() == Step(old(Snapshot()), Action.CreateBooking(b), stamp)
    {
      var message := LogMessage(Snapshot(), Action.CreateBooking(b));
      bookings := [b] + bookings;
      AddLog(stamp, message);
    }

    method UpdateBookingStatus(id: string, st: BookingStatus, stamp: Stamp)
      modifies this
      ensures Snapshot() == Step(old(Snapshot()), Action.UpdateBookingStatus(id, st), stamp)
    {
      var message := LogMessage(Snapshot(), Action.UpdateBookingStatus(id, st));
      bookings := MapWhere(bookings, BookingWithId(id), WithBookingStatus(st));
      AddLog(stamp, message);
    }

    method UpdateProfile(p: UserProfile, stamp: Stamp)
      modifies this
      ensures Snapshot() == Step(old(Snapshot()), Action.UpdateProfile(p), stamp)
    {
      var message := LogMessage(Snapshot(), Action.UpdateProfile(p));
      userProfile := p;
      allUsers := UpsertUser(allUsers, p);
      AddLog(stamp, message);
    }

    method AddReview(r: Review, stamp: Stamp)
      modifies this
      ensures Snapshot() == Step(old(Snapshot()), Action.AddReview(r), stamp)
    {
      var message := LogMessage(Snapshot(), Action.AddReview(r));
      reviews := [r] + reviews;
      AddLog(stamp, message);
    }

    method UpdateApplicationStatus(id: string, st: ProviderStatus, stamp: Stamp)
      modifies this
      ensures Snapshot() == Step(old(Snapshot()), Action.UpdateApplicationStatus(id, st), stamp)
    {
      ghost var before := Snapshot();
      var message := LogMessage(Snapshot(), Action.UpdateApplicationStatus(id, st));
      var k := Find(applications, AppWithId(id));
      if k >= 0 {
        var owner := applications[k].userId;
        allUsers := MapWhere(allUsers, UserWithId(owner), WithProviderStatus(st));
        if owner == userProfile.id {
          userProfile := userProfile.(providerStatus := Some(st));
        }
      }
      applications := MapWhere(applications, AppWithId(id), WithAppStatus(st));
      ghost var effect := Snapshot();
      assert effect == Effect(before, Action.UpdateApplicationStatus(id, st)).(logs := before.logs);
      AddLog(stamp, message);
    }

    method UpdateApplicationFeedback(id: string, fb: string)
      modifies this
      ensures forall stamp :: Snapshot() == Step(old(Snapshot()), Action.UpdateApplicationFeedback(id, fb), stamp)
    {
      applications := MapWhere(applications, AppWithId(id), WithFeedback(fb));
    }

    method AssignProvider(sid: string, pid: string, stamp: Stamp)
      modifies this
      ensures Snapshot() == Step(old(Snapshot()), Action.AssignProvider(sid, pid), stamp)
    {
      var message := LogMessage(Snapshot(), Action.AssignProvider(sid, pid));
      services := MapWhere(services, ServiceWithId(sid), WithProvider(pid));
      AddLog(stamp, message);
    }

    /** The application form's `onSubmit`: upsert the application by applicant, save the profile
        as `applied`, and log. Both log calls prepend to the list as it was when the handler
        started, so the profile's entry is overwritten by the submission entry. */
    method SubmitApplication(app: ProviderApplication, stamp: Stamp)
      modifies this
      ensures Snapshot() == Step(old(Snapshot()), Action.SubmitApplication(app), stamp)
    {
      ghost var before := Snapshot();
      applications := Upsert(applications, app, ApplicantId);
      var logsWhenCalled := logs;
      var submitter := userProfile.name;
      var profile := userProfile.(providerStatus := Some(Applied), email := app.userEmail, phone := app.userPhone);
      ghost var mid := Snapshot();
      UpdateProfile(profile, stamp);
      ghost var updated := Snapshot();
      assert updated == Step(mid, Action.UpdateProfile(profile), stamp);
      logs := [NewLog(stamp, "Provider application submitted by " + submitter)] + logsWhenCalled;
      assert Snapshot() == updated.(logs := logs);
      SubmitIsProfileUpdateThenLog(before, app, stamp);
    }

    method Borrow(b: Book)
      modifies this
      ensures forall stamp :: Snapshot() == Step(old(Snapshot()), Action.Borrow(b), stamp)
    {
      books := [b] + books;
    }

    method SetBookings(bs: seq<Booking>)
      modifies this
      ensures forall stamp :: Snapshot() == Step(old(Snapshot()), Action.SetBookings(bs), stamp)
    {
      bookings := bs;
    }

    method SetBooks(bs: seq<Book>)
      modifies this
      ensures forall stamp :: Snapshot() == Step(old(Snapshot()), Action.SetBooks(bs), stamp)
    {
      books := bs;
    }
  }
}
