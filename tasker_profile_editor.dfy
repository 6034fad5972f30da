/** The tasker's portfolio manager (TaskerProfileEditor.tsx): the e-mail and phone checks, the
    edit buffer seeded from the stored portfolio or from defaults, the edits made to it, the save
    that hands the new profile to the store, and the job metrics. */
module TaskerProfileEditor {
  import opened Types
  import opened Lists
  import opened Text
  import opened ProviderDashboard

  // ---------------------------------------------------------------- validators

  /** A character `[^\s@]` accepts. */
  predicate Plain(c: char) {
    !IsJsWhitespace(c) && c != '@'
  }

  predicate AllPlain(s: string) {
    forall i :: 0 <= i < |s| ==> Plain(s[i])
  }

  /** The language of `/^[^\s@]+@[^\s@]+\.[^\s@]+$/`: a plain run, '@', a plain run, '.', and a
      plain run. */
  ghost predicate EmailShape(e: string) {
    exists i, j :: 0 < i && i + 1 < j && j + 1 < |e| && e[i] == '@' && e[j] == '.'
                   && AllPlain(e[..i]) && AllPlain(e[i + 1..j]) && AllPlain(e[j + 1..])
  }

  function AtSign(): char -> bool {
    (c: char) => c == '@'
  }

  /** A dot with at least one character on each side. */
  predicate HasInnerDot(s: string) {
    exists j :: 1 <= j < |s| - 1 && s[j] == '.'
  }

  /** `isEmailValid`, decided by locating the first '@'. */
  predicate IsEmailValid(e: string) {
    var i := Find(e, AtSign());
    i > 0 && AllPlain(e[..i]) && AllPlain(e[i + 1..]) && HasInnerDot(e[i + 1..])
  }

  /** What the check accepts matches the pattern. */
  lemma EmailCheckSound(e: string)
    requires IsEmailValid(e)
    ensures EmailShape(e)
  {
    var i := Find(e, AtSign());
    var rest := e[i + 1..];
    var k :| 1 <= k < |rest| - 1 && rest[k] == '.';
    var j := i + 1 + k;
    assert e[i + 1..j] == rest[..k];
    assert e[j + 1..] == rest[k + 1..];
    AllPlainSlice(rest, 0, k);
    AllPlainSlice(rest, k + 1, |rest|);
    assert e[i] == '@' && e[j] == '.';
    assert AllPlain(e[..i]) && AllPlain(e[i + 1..j]) && AllPlain(e[j + 1..]);
  }

  lemma AllPlainSlice(s: string, lo: nat, hi: nat)
    requires lo <= hi <= |s| && AllPlain(s)
    ensures AllPlain(s[lo..hi])
  {
    forall t | 0 <= t < hi - lo ensures Plain(s[lo..hi][t]) {
      assert s[lo..hi][t] == s[lo + t];
    }
  }

  /** The first '@' of a string whose prefix before `a` has none is at `a`. */
  lemma FirstAtSign(e: string, a: nat)
    requires a < |e| && e[a] == '@' && AllPlain(e[..a])
    ensures Find(e, AtSign()) == a
  {
    var r := Find(e, AtSign());
    assert AtSign()(e[a]);
  }

  /** Every string of the pattern passes the check. */
  lemma EmailCheckComplete(e: string, a: nat, b: nat)
    requires 0 < a && a + 1 < b && b + 1 < |e| && e[a] == '@' && e[b] == '.'
    requires AllPlain(e[..a]) && AllPlain(e[a + 1..b]) && AllPlain(e[b + 1..])
    ensures IsEmailValid(e)
  {
    FirstAtSign(e, a);
    var rest := e[a + 1..];
    forall t | 0 <= t < |rest| ensures Plain(rest[t]) {
      if t < b - a - 1 {
        assert rest[t] == e[a + 1..b][t];
      } else if t > b - a - 1 {
        assert rest[t] == e[b + 1..][t - (b - a)];
      }
    }
    assert rest[b - a - 1] == '.';
  }

  /** The check accepts exactly the strings of the pattern. */
  lemma EmailCheckMatchesPattern(e: string)
    ensures IsEmailValid(e) <==> EmailShape(e)
  {
    if IsEmailValid(e) {
      EmailCheckSound(e);
    }
    if EmailShape(e) {
      var a, b :| 0 < a && a + 1 < b && b + 1 < |e| && e[a] == '@' && e[b] == '.'
                  && AllPlain(e[..a]) && AllPlain(e[a + 1..b]) && AllPlain(e[b + 1..]);
      EmailCheckComplete(e, a, b);
    }
  }

  /** `phone.replace(/\s+/g, '')`. */
  function NotBlank(): char -> bool {
    (c: char) => !IsJsWhitespace(c)
  }

  function StripWhitespace(s: string): string {
    Filter(s, NotBlank())
  }

  /** The subscriber part: 1 or 7 and then exactly eight digits. */
  predicate Subscriber(t: string) {
    |t| == 9 && (t[0] == '1' || t[0] == '7') && AllDigits(t[1..])
  }

  /** `isPhoneValid`: `/^(\+254|0)[17]\d{8}$/` on the number without whitespace. */
  predicate IsPhoneValid(p: string) {
    var t := StripWhitespace(p);
    (|t| >= 4 && t[..4] == "+254" && Subscriber(t[4..])) || (|t| >= 1 && t[0] == '0' && Subscriber(t[1..]))
  }

  /** Whitespace anywhere in the number is ignored. */
  lemma {:induction false} PhoneIgnoresWhitespace(a: string, c: char, b: string)
    requires IsJsWhitespace(c)
    ensures IsPhoneValid(a + [c] + b) <==> IsPhoneValid(a + b)
  {
    FilterConcat(a + [c], b, NotBlank());
    FilterConcat(a, [c], NotBlank());
    FilterConcat(a, b, NotBlank());
    assert Filter([c], NotBlank()) == [];
    assert Filter(a, NotBlank()) + [] == Filter(a, NotBlank());
  }

  /** A valid number has 13 characters in the +254 form and 10 in the 0 form. */
  lemma PhoneLength(p: string)
    requires IsPhoneValid(p)
    ensures |StripWhitespace(p)| == 13 || |StripWhitespace(p)| == 10
  {
    var t := StripWhitespace(p);
    if |t| >= 4 && t[..4] == "+254" && Subscriber(t[4..]) {
    }
  }

  // ---------------------------------------------------------------- the edit buffer

  /** The days of the availability grid. */
  const Days: seq<string> := ["Monday", "Tuesday", "Wednesday", "Thursday", "Friday", "Saturday", "Sunday"]

  /** A grid with every day open from 16:00 to 19:00. */
  function DefaultGrid(): (g: map<string, DayAvailability>)
    ensures forall d :: d in g <==> d in Days
    ensures forall d :: d in g ==> g[d] == DayAvailability(false, "16:00", "19:00")
  {
    map d | d in Days :: DayAvailability(false, "16:00", "19:00")
  }

  /** `a || b` on strings: the empty string is falsy. */
  function OrElse(a: string, b: string): string {
    if a != "" then a else b
  }

  /** The settings the manager starts from when the user has none. */
  function DefaultSettings(u: UserProfile): (st: TaskerProfileSettings)
    ensures st.isPubliclyVisible && !st.isDeactivated && st.acceptingNewBookings
    ensures st.submissionStatus == TaskerSubmissionStatus.Draft
    ensures st.availabilityGrid == DefaultGrid()
    ensures st.displayName == u.name
  {
    TaskerProfileSettings(
      u.name, "Neighborhood Assistant", OrElse(u.bio.GetOr(""), "Dedicated student entrepreneur."),
      OrElse(u.city, "Local Neighborhood"), ["English"], false, true, map[], false, "Mon-Fri: 4pm-7pm",
      Beginner, Some(0), [], DefaultGrid(), [], false, true, [], false, TaskerSubmissionStatus.Draft,
      false, None, false)
  }

  /** The empty-string fallbacks applied to a stored portfolio; `yearsExperience || 0`. */
  function WithFallbacks(u: UserProfile, st: TaskerProfileSettings): TaskerProfileSettings {
    st.(displayName := OrElse(st.displayName, u.name),
        headline := OrElse(st.headline, "Neighborhood Assistant"),
        publicBio := OrElse(st.publicBio, OrElse(u.bio.GetOr(""), "Dedicated student entrepreneur.")),
        serviceArea := OrElse(st.serviceArea, OrElse(u.city, "Local Neighborhood")),
        weeklySchedule := OrElse(st.weeklySchedule, "Mon-Fri: 4pm-7pm"),
        yearsExperience := Some(if st.yearsExperience.Some? then st.yearsExperience.value else 0))
  }

  /** The buffer as the source seeds it: the object is written out field by field, and the two
      activation fields, which its settings type does not declare, are not among them. */
  function EditorSettingsAsWritten(u: UserProfile): TaskerProfileSettings {
    if u.settings.None? then DefaultSettings(u)
    else WithFallbacks(u, u.settings.value).(activationRequestStatus := None, isProfileActive := false)
  }

  /** Saving the portfolio erases a pending activation request and an active profile flag. */
  lemma SaveForgetsActivation(u: UserProfile)
    requires u.settings.Some? && (u.settings.value.activationRequestStatus.Some? || u.settings.value.isProfileActive)
    ensures EditorSettingsAsWritten(u).activationRequestStatus.None?
    ensures !EditorSettingsAsWritten(u).isProfileActive
    ensures EditorSettingsAsWritten(u).activationRequestStatus != u.settings.value.activationRequestStatus
            || EditorSettingsAsWritten(u).isProfileActive != u.settings.value.isProfileActive
  {
  }

  /** The buffer the manager starts from: the stored portfolio with its fallbacks, every other
      field kept, or the defaults when there is none. */
  function EditorSettings(u: UserProfile): (st: TaskerProfileSettings)
    ensures u.settings.Some? ==>
      && st.submissionStatus == u.settings.value.submissionStatus
      && st.activationRequestStatus == u.settings.value.activationRequestStatus
      && st.isProfileActive == u.settings.value.isProfileActive
      && st.offeredServices == u.settings.value.offeredServices
      && st.availabilityGrid == u.settings.value.availabilityGrid
    ensures u.settings.None? ==> st == DefaultSettings(u)
  {
    if u.settings.None? then DefaultSettings(u) else WithFallbacks(u, u.settings.value)
  }

  /** The buffer carries the stored submission status, or Draft for a first portfolio, and
      never an activation request or an active flag. */
  lemma BufferSubmissionStatus(u: UserProfile)
    ensures EditorSettingsAsWritten(u).submissionStatus
            == if u.settings.Some? then u.settings.value.submissionStatus else TaskerSubmissionStatus.Draft
    ensures EditorSettingsAsWritten(u).activationRequestStatus.None? && !EditorSettingsAsWritten(u).isProfileActive
  {
  }

  /** The corrected buffer differs from the written one only in the activation fields. */
  lemma EditorSettingsCorrectsOnlyActivation(u: UserProfile)
    ensures EditorSettings(u).(activationRequestStatus := None, isProfileActive := false)
            == EditorSettingsAsWritten(u).(activationRequestStatus := None, isProfileActive := false)
  {
  }

  /** A change to one offered service. */
  datatype ServiceEdit = Description(text: string) | Rate(price: JsNumber) | RateKind(kind: PriceType)

  /** `{ ...s, ...updates }`; the rate input stores `parseInt(value) || 0`. */
  function ApplyEdit(s: TaskerService, e: ServiceEdit): (r: TaskerService)
    ensures r.id == s.id && r.title == s.title && r.category == s.category
    ensures r.isActive == s.isActive && r.isBookable == s.isBookable && r.publishState == s.publishState
    ensures e.Description? ==> r.description == e.text && r.price == s.price && r.priceType == s.priceType
    ensures e.Rate? && e.price.Num? ==> r.price == e.price.n && r.description == s.description && r.priceType == s.priceType
    ensures e.Rate? && e.price.NaN? ==> r.price == 0 && r.description == s.description && r.priceType == s.priceType
    ensures e.RateKind? ==> r.priceType == e.kind && r.description == s.description && r.price == s.price
  {
    match e
    case Description(text) => s.(description := text)
    case Rate(p) => s.(price := if p.Num? then p.n else 0)
    case RateKind(k) => s.(priceType := k)
  }

  function HasServiceId(id: string): TaskerService -> bool {
    (s: TaskerService) => s.id == id
  }

  function ApplyTo(e: ServiceEdit): TaskerService -> TaskerService {
    (s: TaskerService) => ApplyEdit(s, e)
  }

  /** The portfolio manager's buffer. */
  class PortfolioEditor {
    const user: UserProfile
    var email: string
    var phone: string
    var settings: TaskerProfileSettings
    var hasChanges: bool

    /** No edit touches the submission status, and the buffer, seeded as the source writes it,
        holds no activation request and no active flag. */
    predicate Valid()
      reads this`settings
    {
      && settings.submissionStatus == EditorSettingsAsWritten(user).submissionStatus
      && settings.activationRequestStatus.None?
      && !settings.isProfileActive
    }

    constructor (u: UserProfile)
      ensures user == u && email == u.email && phone == u.phone
      ensures settings == EditorSettingsAsWritten(u) && !hasChanges
      ensures Valid()
    {
      user := u;
      email := u.email;
      phone := u.phone;
      settings := EditorSettingsAsWritten(u);
      hasChanges := false;
    }

    method SetEmail(value: string)
      requires Valid()
      modifies this`email, this`hasChanges
      ensures Valid() && email == value && hasChanges
    {
      email := value;
      hasChanges := true;
    }

    method SetPhone(value: string)
      requires Valid()
      modifies this`phone, this`hasChanges
      ensures Valid() && phone == value && hasChanges
    {
      phone := value;
      hasChanges := true;
    }

    /** The display name, headline and public bio inputs. */
    method SetIdentityText(displayName: string, headline: string, publicBio: string)
      requires Valid()
      modifies this`settings, this`hasChanges
      ensures Valid() && hasChanges
      ensures settings == old(settings).(displayName := displayName, headline := headline, publicBio := publicBio)
    {
      settings := settings.(displayName := displayName, headline := headline, publicBio := publicBio);
      hasChanges := true;
    }

    /** `updateService`: the edit lands on the services with that id and on no other. */
    method UpdateService(id: string, e: ServiceEdit)
      requires Valid()
      modifies this`settings, this`hasChanges
      ensures Valid() && hasChanges
      ensures settings == old(settings).(offeredServices := MapWhere(old(settings).offeredServices, HasServiceId(id), ApplyTo(e)))
      ensures |settings.offeredServices| == |old(settings).offeredServices|
      ensures forall i :: 0 <= i < |settings.offeredServices| ==>
        settings.offeredServices[i] == (if old(settings).offeredServices[i].id == id
                                        then ApplyEdit(old(settings).offeredServices[i], e)
                                        else old(settings).offeredServices[i])
    {
      settings := settings.(offeredServices := MapWhere(settings.offeredServices, HasServiceId(id), ApplyTo(e)));
      hasChanges := true;
    }

    /** `toggleDay`: opens or closes one day of the grid and keeps its hours. The day's button is
        drawn only for days the grid holds. */
    method ToggleDay(day: string)
      requires Valid() && day in settings.availabilityGrid
      modifies this`settings, this`hasChanges
      ensures Valid() && hasChanges
      ensures var g := old(settings).availabilityGrid;
        settings == old(settings).(availabilityGrid := g[day := g[day].(isClosed := !g[day].isClosed)])
    {
      var g := settings.availabilityGrid;
      settings := settings.(availabilityGrid := g[day := g[day].(isClosed := !g[day].isClosed)]);
      hasChanges := true;
    }

    /** The start and end time inputs of an open day. */
    method SetDayHours(day: string, isStart: bool, time: string)
      requires Valid() && day in settings.availabilityGrid
      modifies this`settings, this`hasChanges
      ensures Valid() && hasChanges
      ensures var g := old(settings).availabilityGrid;
        settings == old(settings).(availabilityGrid := g[day := if isStart then g[day].(start := time) else g[day].(end := time)])
    {
      var g := settings.availabilityGrid;
      settings := settings.(availabilityGrid := g[day := if isStart then g[day].(start := time) else g[day].(end := time)]);
      hasChanges := true;
    }

    /** The Disable / Enable Profile button. */
    method ToggleDeactivated()
      requires Valid()
      modifies this`settings, this`hasChanges
      ensures Valid() && hasChanges
      ensures settings == old(settings).(isDeactivated := !old(settings).isDeactivated)
    {
      settings := settings.(isDeactivated := !settings.isDeactivated);
      hasChanges := true;
    }

    /** `handleSave`: no update with an invalid e-mail or phone; otherwise the user with the new
        e-mail, phone and portfolio, and the buffer is clean again. The saved portfolio keeps the
        submission status but, as the buffer was seeded, carries no activation request and no
        active flag, so a stored one is lost. */
    method Save() returns (update: Option<UserProfile>)
      requires Valid()
      modifies this`hasChanges
      ensures Valid()
      ensures update.None? <==> !IsEmailValid(email) || !IsPhoneValid(phone)
      ensures update.None? ==> hasChanges == old(hasChanges)
      ensures update.Some? ==> update.value == user.(email := email, phone := phone, settings := Some(settings)) && !hasChanges
      ensures update.Some? ==>
        var saved := update.value.settings.value;
        && saved.submissionStatus == (if user.settings.Some? then user.settings.value.submissionStatus else TaskerSubmissionStatus.Draft)
        && saved.activationRequestStatus.None? && !saved.isProfileActive
    {
      BufferSubmissionStatus(user);
      var accepted := IsEmailValid(email) && IsPhoneValid(phone);
      if !accepted {
        return None;
      }
      update := Some(user.(email := email, phone := phone, settings := Some(settings)));
      hasChanges := false;
    }
  }

  // ---------------------------------------------------------------- metrics and guidance

  function One(b: Booking): int { 1 }

  lemma {:induction false} SumOfOnes(s: seq<Booking>)
    ensures Sum(s, One) == |s|
  {
    if s != [] {
      SumOfOnes(s[1..]);
    }
  }

  /** `metrics.completed`: the tasker's completed jobs, counted. */
  function JobsDone(bookings: seq<Booking>, userId: string): int {
    Sum(Filter(MyBookings(bookings, userId), IsCompleted), One)
  }

  /** `metrics.earnings`: the payouts of the tasker's completed jobs, paid out or not. */
  function Earnings(bookings: seq<Booking>, userId: string): int {
    Sum(Filter(MyBookings(bookings, userId), IsCompleted), TaskerAmount)
  }

  /** The jobs figure is the number of completed jobs of this tasker. */
  lemma JobsDoneCounts(bookings: seq<Booking>, userId: string)
    ensures JobsDone(bookings, userId) == |Filter(MyBookings(bookings, userId), IsCompleted)|
    ensures JobsDone(bookings, userId) <= |bookings|
  {
    SumOfOnes(Filter(MyBookings(bookings, userId), IsCompleted));
  }

  /** Completing one of the tasker's open jobs adds one job and its payout to the metrics;
      completing someone else's job, or an already completed one, changes nothing. */
  lemma {:induction false} CompletingAddsToMetrics(a: seq<Booking>, b: seq<Booking>, k: nat, userId: string)
    requires |a| == |b| && k < |a|
    requires forall i :: 0 <= i < |a| && i != k ==> a[i] == b[i]
    requires b[k] == a[k].(status := Completed)
    ensures var counts := a[k].providerId == Some(userId) && !IsCompleted(a[k]);
            && JobsDone(b, userId) == JobsDone(a, userId) + (if counts then 1 else 0)
            && Earnings(b, userId) == Earnings(a, userId) + (if counts then a[k].taskerAmount else 0)
  {
    SumFilterFilterReplaceOne(a, b, k, IsMine(userId), IsCompleted, One);
    SumFilterFilterReplaceOne(a, b, k, IsMine(userId), IsCompleted, TaskerAmount);
  }

  function OwnedBy(userId: string): ProviderApplication -> bool {
    (app: ProviderApplication) => app.userId == userId
  }

  /** `adminFeedback`: the owner's feedback on the first application of this user. */
  function OwnerGuidance(apps: seq<ProviderApplication>, userId: string): (r: Option<string>)
    ensures r.Some? ==> exists i :: 0 <= i < |apps| && apps[i].userId == userId && apps[i].adminFeedback == r
    ensures (forall i :: 0 <= i < |apps| ==> apps[i].userId != userId) ==> r.None?
  {
    var k := Find(apps, OwnedBy(userId));
    if k < 0 then None else apps[k].adminFeedback
  }
}
