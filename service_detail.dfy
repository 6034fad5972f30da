/** A service's page (ServiceDetail.tsx): the assistants a customer can pick for the service,
    the price shown on each assistant's card, and the booking button. */
module ServiceDetail {
  import opened Types
  import opened Lists
  import ProviderApplicationForm

  /** `allowedProviderIds?.includes(app.userId)`: no list assigns nobody. */
  predicate Assigned(s: Service, userId: string) {
    s.allowedProviderIds.Some? && userId in s.allowedProviderIds.value
  }

  /** The filter of `assignedAssistants`: approved and assigned to the service. */
  predicate Eligible(s: Service, app: ProviderApplication) {
    app.status == ProviderStatus.Approved && Assigned(s, app.userId)
  }

  function EligibleFor(s: Service): ProviderApplication -> bool {
    (app: ProviderApplication) => Eligible(s, app)
  }

  /** An assistant card; the headline, location, photo, level, strengths and style are the same
      constants on every card and are not kept. */
  datatype Assistant = Assistant(id: string, name: string, bio: string, skills: seq<string>,
                                 isVerified: bool, price: string)

  /** `app.requestedPricing?.[service.category] || "Market Rate"`: the card reads the pricing
      under the service's category name. */
  function AssistantPrice(s: Service, app: ProviderApplication): (r: string)
    ensures r != ""
    ensures r != "Market Rate" ==> CategoryName(s.category) in app.requestedPricing
                                    && r == app.requestedPricing[CategoryName(s.category)]
  {
    var key := CategoryName(s.category);
    if key in app.requestedPricing && app.requestedPricing[key] != "" then app.requestedPricing[key]
    else "Market Rate"
  }

  /** A card as the page draws it, priced by the category-name lookup. */
  function ToAssistant(s: Service, app: ProviderApplication): Assistant {
    Assistant(app.userId, app.userName, app.experience, app.skills,
              app.status == ProviderStatus.Approved, AssistantPrice(s, app))
  }

  function MapAssistants(s: Service, apps: seq<ProviderApplication>): (r: seq<Assistant>)
    ensures |r| == |apps|
    ensures forall i :: 0 <= i < |apps| ==> r[i] == ToAssistant(s, apps[i])
  {
    if apps == [] then [] else [ToAssistant(s, apps[0])] + MapAssistants(s, apps[1..])
  }

  /** `assignedAssistants`: one card per approved application assigned to the service, in
      application order. */
  function AssignedAssistants(s: Service, apps: seq<ProviderApplication>): seq<Assistant> {
    MapAssistants(s, Filter(apps, EligibleFor(s)))
  }

  /** Every card belongs to an approved application assigned to the service, carries its
      user's id, and is marked verified. */
  lemma CardComesFromEligible(s: Service, apps: seq<ProviderApplication>, i: nat)
    requires i < |AssignedAssistants(s, apps)|
    ensures exists j :: 0 <= j < |apps| && Eligible(s, apps[j]) && AssignedAssistants(s, apps)[i] == ToAssistant(s, apps[j])
    ensures AssignedAssistants(s, apps)[i].isVerified
  {
    var kept := Filter(apps, EligibleFor(s));
    assert kept[i] in apps && Eligible(s, kept[i]);
    var j :| 0 <= j < |apps| && apps[j] == kept[i];
  }

  /** Every approved application assigned to the service has its card. */
  lemma EligibleHasCard(s: Service, apps: seq<ProviderApplication>, j: nat)
    requires j < |apps| && Eligible(s, apps[j])
    ensures ToAssistant(s, apps[j]) in AssignedAssistants(s, apps)
  {
    var kept := Filter(apps, EligibleFor(s));
    assert apps[j] in kept;
    var i :| 0 <= i < |kept| && kept[i] == apps[j];
    assert AssignedAssistants(s, apps)[i] == ToAssistant(s, apps[j]);
  }

  /** The cards keep the applications' order. */
  lemma {:induction false} AssistantsKeepOrder(s: Service, a: seq<ProviderApplication>, b: seq<ProviderApplication>)
    ensures AssignedAssistants(s, a + b) == AssignedAssistants(s, a) + AssignedAssistants(s, b)
  {
    FilterConcat(a, b, EligibleFor(s));
    MapAppend(s, Filter(a, EligibleFor(s)), Filter(b, EligibleFor(s)));
  }

  lemma MapAppend(s: Service, a: seq<ProviderApplication>, b: seq<ProviderApplication>)
    ensures MapAssistants(s, a + b) == MapAssistants(s, a) + MapAssistants(s, b)
  {
  }

  /** A service with no assignment list shows no assistants. */
  lemma NoListNoAssistants(s: Service, apps: seq<ProviderApplication>)
    requires s.allowedProviderIds.None?
    ensures AssignedAssistants(s, apps) == []
  {
    FilterNone(apps, EligibleFor(s));
  }

  /** `!selectedProviderId`: nothing picked, or an empty id. */
  predicate NothingSelected(selected: Option<string>) {
    selected.None? || selected.value == ""
  }

  /** The button is disabled while assistants are listed and none is picked. */
  predicate BookDisabled(assistants: seq<Assistant>, selected: Option<string>) {
    |assistants| > 0 && NothingSelected(selected)
  }

  /** `onBook(selectedProviderId || undefined)`: the picked id, or no provider. */
  function BookTarget(selected: Option<string>): (r: Option<string>)
    ensures r.Some? <==> !NothingSelected(selected)
    ensures r.Some? ==> r == selected
  {
    if NothingSelected(selected) then None else selected
  }

  /** When the button is enabled and assistants are listed, the booking goes to the picked
      assistant; with no assistants listed it goes to no one unless an id was picked earlier. */
  lemma EnabledBookingNamesTheChoice(assistants: seq<Assistant>, selected: Option<string>)
    ensures !BookDisabled(assistants, selected) && |assistants| > 0 ==> BookTarget(selected) == selected
    ensures BookDisabled(assistants, selected) <==> |assistants| > 0 && BookTarget(selected).None?
  {
  }

  // ---------------------------------------------------------------- the card's price

  /** The application form keys `requestedPricing` by catalogue service ids ("lt1", "cs4", ...),
      while the card reads it under a category name: for every application the form builds, the
      card shows "Market Rate" whatever the tasker asked for. */
  lemma FormPricesNeverShown(s: Service, app: ProviderApplication)
    requires forall key :: key in app.requestedPricing ==> ProviderApplicationForm.CategoryOf(key).Some?
    ensures AssistantPrice(s, app) == "Market Rate"
  {
    ProviderApplicationForm.CategoryNameIsNoServiceId(s.category);
  }

  /** Every card of an application the form built shows "Market Rate". */
  lemma FormBuiltCardsShowMarketRate(s: Service, apps: seq<ProviderApplication>, i: nat)
    requires forall j, key :: 0 <= j < |apps| && key in apps[j].requestedPricing ==> ProviderApplicationForm.CategoryOf(key).Some?
    requires i < |AssignedAssistants(s, apps)|
    ensures AssignedAssistants(s, apps)[i].price == "Market Rate"
  {
    CardComesFromEligible(s, apps, i);
    var j :| 0 <= j < |apps| && Eligible(s, apps[j]) && AssignedAssistants(s, apps)[i] == ToAssistant(s, apps[j]);
    FormPricesNeverShown(s, apps[j]);
  }

  /** A selected service of the application that lies in the service's category and has a
      non-empty stored price. */
  predicate PricedIn(app: ProviderApplication, c: Category, id: string) {
    && ProviderApplicationForm.CategoryOf(id) == Some(c)
    && id in app.requestedPricing && app.requestedPricing[id] != ""
  }

  function PricedInCategory(app: ProviderApplication, c: Category): string -> bool {
    (id: string) => PricedIn(app, c, id)
  }

  /** The evidently intended price: the stored price of the first selected service of the
      application that lies in the service's category; "Market Rate" when there is none. */
  function AssistantPriceByService(s: Service, app: ProviderApplication): (r: string)
    ensures var services := app.specificServices.GetOr([]);
      var k := Find(services, PricedInCategory(app, s.category));
      && (k >= 0 ==> r == app.requestedPricing[services[k]])
      && (k < 0 ==> r == "Market Rate")
  {
    var services := app.specificServices.GetOr([]);
    var k := Find(services, PricedInCategory(app, s.category));
    if k >= 0 then app.requestedPricing[services[k]] else "Market Rate"
  }

  /** With the corrected lookup, a tasker who priced a service of the category through the form
      shows a price they entered rather than "Market Rate". */
  lemma PricedTaskerShowsTheirPrice(s: Service, app: ProviderApplication, j: nat)
    requires app.specificServices.Some? && j < |app.specificServices.value|
    requires PricedIn(app, s.category, app.specificServices.value[j])
    ensures exists id :: id in app.requestedPricing && ProviderApplicationForm.CategoryOf(id) == Some(s.category)
                         && AssistantPriceByService(s, app) == app.requestedPricing[id]
  {
    var services := app.specificServices.value;
    var k := Find(services, PricedInCategory(app, s.category));
    assert PricedInCategory(app, s.category)(services[j]);
    assert k >= 0;
    assert PricedIn(app, s.category, services[k]);
  }

  /** With the corrected lookup, a tasker who priced no selected service of the category shows
      "Market Rate". */
  lemma UnpricedTaskerShowsMarketRate(s: Service, app: ProviderApplication)
    requires forall j :: 0 <= j < |app.specificServices.GetOr([])| ==> !PricedIn(app, s.category, app.specificServices.GetOr([])[j])
    ensures AssistantPriceByService(s, app) == "Market Rate"
  {
  }
}
