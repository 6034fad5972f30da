/** The category page (CategoryDiscovery.tsx): which taskers are listed under a category, and
    the price shown on each tasker's card. */
module CategoryDiscovery {
  import opened Types
  import opened Lists
  import opened Text

  /** Approved as a provider, portfolio approved, publicly visible and not deactivated. */
  predicate BaseActive(u: UserProfile, st: TaskerProfileSettings) {
    && u.providerStatus == Some(ProviderStatus.Approved)
    && st.submissionStatus == TaskerSubmissionStatus.Approved
    && st.isPubliclyVisible
    && !st.isDeactivated
  }

  predicate ActiveIn(c: Category, s: TaskerService) {
    s.category == c && s.isActive
  }

  /** Some active offered service lies in the category. */
  predicate HasActiveModule(st: TaskerProfileSettings, c: Category) {
    exists i :: 0 <= i < |st.offeredServices| && ActiveIn(c, st.offeredServices[i])
  }

  /** The `filteredTaskers` test: a portfolio, the base conditions, and either an active service
      in the category or the category among the preferred job types. */
  predicate Listed(u: UserProfile, c: Category) {
    && u.settings.Some?
    && BaseActive(u, u.settings.value)
    && (HasActiveModule(u.settings.value, c) || c in u.settings.value.preferredJobTypes)
  }

  function ListedIn(c: Category): UserProfile -> bool {
    (u: UserProfile) => Listed(u, c)
  }

  /** `filteredTaskers`: exactly the listed users, in their order. */
  function FilteredTaskers(users: seq<UserProfile>, c: Category): (r: seq<UserProfile>)
    ensures forall i :: 0 <= i < |r| ==> r[i] in users && Listed(r[i], c)
    ensures forall i :: 0 <= i < |users| && Listed(users[i], c) ==> users[i] in r
  {
    Filter(users, ListedIn(c))
  }

  /** The listing keeps the users' order. */
  lemma FilteredTaskersKeepsOrder(a: seq<UserProfile>, b: seq<UserProfile>, c: Category)
    ensures FilteredTaskers(a + b, c) == FilteredTaskers(a, c) + FilteredTaskers(b, c)
  {
    FilterConcat(a, b, ListedIn(c));
  }

  /** A user who has only applied, or who has no portfolio, is never listed, whatever their
      services. */
  lemma UnapprovedNeverListed(users: seq<UserProfile>, c: Category, i: nat)
    requires i < |users| && (users[i].providerStatus == Some(Applied) || users[i].settings.None?)
    ensures users[i] !in FilteredTaskers(users, c)
  {
  }

  /** `priceType.replace('_', ' ')`. */
  function PriceTypeLabel(t: PriceType): string {
    match t
    case PerHour => "per hour"
    case PerTask => "per task"
  }

  function InCategory(c: Category): TaskerService -> bool {
    (s: TaskerService) => s.category == c
  }

  /** The card's price: the first offered service in the category, active or not, as
      "KES <grouped price> <unit>"; without one, the tasker's custom rate for the category when
      set and non-empty; otherwise "Market Rate". */
  function DisplayPrice(st: TaskerProfileSettings, c: Category): (r: string)
    ensures var k := Find(st.offeredServices, InCategory(c));
      k >= 0 ==> r == "KES " + LocaleString(st.offeredServices[k].price) + " " + PriceTypeLabel(st.offeredServices[k].priceType)
    ensures (forall i :: 0 <= i < |st.offeredServices| ==> st.offeredServices[i].category != c) ==>
      r == (if CategoryName(c) in st.customRates && st.customRates[CategoryName(c)] != ""
            then st.customRates[CategoryName(c)] else "Market Rate")
  {
    var k := Find(st.offeredServices, InCategory(c));
    if k >= 0 then
      var m := st.offeredServices[k];
      "KES " + LocaleString(m.price) + " " + PriceTypeLabel(m.priceType)
    else if CategoryName(c) in st.customRates && st.customRates[CategoryName(c)] != "" then
      st.customRates[CategoryName(c)]
    else "Market Rate"
  }

  /** The price may come from an inactive service: the listing test looks only at active
      services, the price at the first service in the category whatever its state. */
  lemma PriceIgnoresActiveFlag(st: TaskerProfileSettings, c: Category, k: nat)
    requires k < |st.offeredServices| && st.offeredServices[k].category == c
    requires forall j :: 0 <= j < k ==> st.offeredServices[j].category != c
    ensures DisplayPrice(st, c) == DisplayPrice(st.(offeredServices := st.offeredServices[k := st.offeredServices[k].(isActive := !st.offeredServices[k].isActive)]), c)
  {
    var flipped := st.offeredServices[k := st.offeredServices[k].(isActive := !st.offeredServices[k].isActive)];
    assert Find(st.offeredServices, InCategory(c)) == k;
    assert forall j :: 0 <= j < k ==> !InCategory(c)(flipped[j]);
    assert InCategory(c)(flipped[k]);
    assert Find(flipped, InCategory(c)) == k;
  }
}
