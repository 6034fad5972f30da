/** The landing page (Home.tsx): the category chips over the service list and the call to apply
    that only non-taskers see. */
module Home {
  import opened Types
  import opened Lists
  import opened AppStore
  import AdminDashboard

  function InCategory(c: Category): Service -> bool {
    (s: Service) => s.category == c
  }

  /** `filteredServices`: "All" (None) shows every service; a chip shows exactly the services
      of its category, in order. */
  function FilteredServices(services: seq<Service>, selected: Option<Category>): (r: seq<Service>)
    ensures selected.None? ==> r == services
    ensures selected.Some? ==> forall i :: 0 <= i < |r| ==> r[i] in services && r[i].category == selected.value
    ensures selected.Some? ==> forall i :: 0 <= i < |services| && services[i].category == selected.value ==> services[i] in r
  {
    if selected.None? then services else Filter(services, InCategory(selected.value))
  }

  /** Every service shows under its own chip and under no other. */
  lemma EachServiceUnderOneChip(services: seq<Service>, i: nat, c: Category)
    requires i < |services|
    ensures services[i] in FilteredServices(services, Some(c)) <==> services[i].category == c
  {
    if services[i] in FilteredServices(services, Some(c)) {
      var r := FilteredServices(services, Some(c));
      var k :| 0 <= k < |r| && r[k] == services[i];
    }
  }

  /** The chips keep the list's order: the services of a category listed in two parts are the
      first part's followed by the second's. */
  lemma ChipKeepsOrder(a: seq<Service>, b: seq<Service>, c: Category)
    ensures FilteredServices(a + b, Some(c)) == FilteredServices(a, Some(c)) + FilteredServices(b, Some(c))
  {
    FilterConcat(a, b, InCategory(c));
  }

  /** The chips: "All" followed by every category. */
  const Chips: seq<Option<Category>> := [None] + CategoryChips(AllCategories)

  function CategoryChips(cs: seq<Category>): (r: seq<Option<Category>>)
    ensures |r| == |cs|
    ensures forall i :: 0 <= i < |cs| ==> r[i] == Some(cs[i])
  {
    seq(|cs|, i requires 0 <= i < |cs| => Some(cs[i]))
  }

  /** Every category has its chip, and the category grid (the chips without "All") is the eight
      categories. */
  lemma EveryCategoryHasAChip(c: Category)
    ensures Some(c) in Chips && Chips[0] == None && |Chips| == 9
  {
    var k: nat :| k < |AllCategories| && AllCategories[k] == c by {
      match c
      case LearningTutoring => assert AllCategories[0] == c;
      case KidsChildServices => assert AllCategories[1] == c;
      case HomeHelpCleaning => assert AllCategories[2] == c;
      case CreativeHandmade => assert AllCategories[3] == c;
      case DigitalTechHelp => assert AllCategories[4] == c;
      case SchoolStudySupport => assert AllCategories[5] == c;
      case CommunityErrands => assert AllCategories[6] == c;
      case SpecialProgramsClubs => assert AllCategories[7] == c;
    }
    assert Chips[k + 1] == Some(c);
  }

  /** `isTasker`: an approved provider. */
  predicate IsTasker(u: UserProfile) {
    u.providerStatus == Some(ProviderStatus.Approved)
  }

  /** The "Become a Tasker" banner and button show for everyone but approved taskers, whatever
      else their profile says. */
  function ShowsApply(u: UserProfile): (r: bool)
    ensures r <==> u.providerStatus != Some(ProviderStatus.Approved)
  {
    !IsTasker(u)
  }

  /** The call to apply follows the owner's decisions: once an application of the signed-in user
      is decided through the store, the banner shows exactly when the decision is not an
      approval, so approving hides it and requesting changes or suspending brings it back. */
  lemma DecisionDecidesApplyBanner(s: State, k: nat, fb: string, st: ProviderStatus, st1: Stamp, st2: Stamp)
    requires AdminDashboard.FirstOfItsKind(s.applications, k) && s.applications[k].userId == s.userProfile.id
    ensures var id := s.applications[k].id;
      var t := Run(s, [(UpdateApplicationFeedback(id, fb), st1), (UpdateApplicationStatus(id, st), st2)]);
      ShowsApply(t.userProfile) <==> st != ProviderStatus.Approved
  {
    AdminDashboard.DecisionReachesApplicant(s, k, fb, st, st1, st2);
  }
}
