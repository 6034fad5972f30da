/** The tasker application form (ProviderApplicationForm.tsx): the service catalogue and the
    pricing rules per category, the price checks, the default prices filled in for newly chosen
    services, the "KES <price> <unit>" strings stored on the application and read back when it
    is reopened, and the seven-screen wizard that ends in a submitted application. */
module ProviderApplicationForm {
  import opened Types
  import opened Lists
  import opened Text

  // ---------------------------------------------------------------- catalogue and rules

  /** The ids of the detailed services offered under each category, in catalogue order. */
  function CategoryServices(c: Category): seq<string> {
    match c
    case LearningTutoring => ["lt1", "lt2", "lt3", "lt4", "lt5", "lt6", "lt7", "lt8", "lt9", "lt10"]
    case KidsChildServices =>
      ["cs1", "cs2", "cs3", "cs4", "cs5", "cs6", "cs7", "cs8", "cs9", "cs10",
       "cs11", "cs12", "cs13", "cs14", "cs15", "cs16", "cs17", "cs18", "cs19"]
    case HomeHelpCleaning => ["hc1", "hc2", "hc3", "hc4", "hc5", "hc6", "hc7", "hc8", "hc9"]
    case CreativeHandmade => ["cr1"]
    case DigitalTechHelp => ["dt1", "dt2", "dt3", "dt4", "dt5", "dt6", "dt7", "dt8", "dt9", "dt10"]
    case SchoolStudySupport => ["ss1", "ss2", "ss3", "ss4", "ss5", "ss6", "ss7", "ss8", "ss9", "ss10"]
    case CommunityErrands => ["ce1", "ce2", "ce3", "ce4", "ce5", "ce6", "ce7", "ce8", "ce9", "ce10", "ce11", "ce12"]
    case SpecialProgramsClubs => ["sp1", "sp2", "sp3", "sp4", "sp5", "sp6", "sp7", "sp8", "sp9", "sp10"]
  }

  /** The category `ALL_SERVICES_MAP` files a service id under: the categories are visited in
      order and a later one overwrites an earlier one. */
  function CategoryIn(cats: seq<Category>, id: string): (r: Option<Category>)
    ensures r.Some? ==> r.value in cats && id in CategoryServices(r.value)
    ensures r.None? ==> forall i :: 0 <= i < |cats| ==> id !in CategoryServices(cats[i])
  {
    if cats == [] then None
    else
      var later := CategoryIn(cats[1..], id);
      if later.Some? then later
      else if id in CategoryServices(cats[0]) then Some(cats[0])
      else None
  }

  function CategoryOf(id: string): Option<Category> {
    CategoryIn(AllCategories, id)
  }

  /** Every catalogue id is at most four characters long. */
  lemma CatalogueIdsAreShort(c: Category, i: nat)
    requires i < |CategoryServices(c)|
    ensures |CategoryServices(c)[i]| <= 4
  {
  }

  /** A category's own name is never the id of a catalogue service. */
  lemma CategoryNameIsNoServiceId(c: Category)
    ensures CategoryOf(CategoryName(c)).None?
  {
    forall i | 0 <= i < |AllCategories| ensures CategoryName(c) !in CategoryServices(AllCategories[i]) {
      if CategoryName(c) in CategoryServices(AllCategories[i]) {
        var j :| 0 <= j < |CategoryServices(AllCategories[i])| && CategoryServices(AllCategories[i])[j] == CategoryName(c);
        CatalogueIdsAreShort(AllCategories[i], j);
      }
    }
  }

  datatype PriceRule = PriceRule(default: int, min: int, max: int, units: seq<string>)

  /** `PRICING_RULES`: every category has a rule. */
  function Rule(c: Category): PriceRule {
    match c
    case LearningTutoring => PriceRule(500, 300, 2500, ["Per Hour", "Per Session"])
    case KidsChildServices => PriceRule(400, 200, 3500, ["Per Hour", "Per Day"])
    case HomeHelpCleaning => PriceRule(500, 200, 4000, ["Per Hour", "Per Task", "Per Day"])
    case CreativeHandmade => PriceRule(400, 100, 10000, ["Per Item", "Per Project"])
    case DigitalTechHelp => PriceRule(700, 500, 5000, ["Per Hour", "Per Task"])
    case SchoolStudySupport => PriceRule(600, 350, 2000, ["Per Hour", "Per Session"])
    case CommunityErrands => PriceRule(350, 100, 2000, ["Per Task", "Per Hour"])
    case SpecialProgramsClubs => PriceRule(800, 300, 8000, ["Per Child", "Per Session", "Per Week"])
  }

  /** Each rule's default lies within its own range and above zero, and it has a first unit. */
  lemma RulesAreConsistent(c: Category)
    ensures 0 < Rule(c).min <= Rule(c).default <= Rule(c).max
    ensures |Rule(c).units| >= 1
  {
  }

  // ---------------------------------------------------------------- price checks and defaults

  /** `!requestedPricing[id]`: no price, a NaN price or a zero price. */
  predicate Falsy(pricing: map<string, JsNumber>, id: string) {
    id !in pricing || pricing[id] == NaN || pricing[id] == Num(0)
  }

  /** A selected catalogue service whose recorded price is outside its category's range; a
      missing or NaN price compares false both ways and is not an error. */
  predicate PriceError(id: string, pricing: map<string, JsNumber>) {
    && CategoryOf(id).Some?
    && id in pricing && pricing[id].Num?
    && (pricing[id].n > Rule(CategoryOf(id).value).max || pricing[id].n < Rule(CategoryOf(id).value).min)
  }

  /** `hasPricingErrors`. */
  predicate HasPricingErrors(services: seq<string>, pricing: map<string, JsNumber>) {
    exists i :: 0 <= i < |services| && PriceError(services[i], pricing)
  }

  /** The default-pricing effect fills the price of a selected catalogue service whose price is
      falsy. */
  predicate NeedsDefault(id: string, pricing: map<string, JsNumber>) {
    CategoryOf(id).Some? && Falsy(pricing, id)
  }

  /** The price and unit the effect fills in: the category's default and its first unit. */
  function DefaultPrice(id: string): JsNumber
    requires CategoryOf(id).Some?
  {
    Num(Rule(CategoryOf(id).value).default)
  }

  function DefaultUnit(id: string): string
    requires CategoryOf(id).Some?
  {
    RulesAreConsistent(CategoryOf(id).value);
    Rule(CategoryOf(id).value).units[0]
  }

  /** A default price is truthy and within its category's range. */
  lemma DefaultPriceIsValid(id: string)
    requires CategoryOf(id).Some?
    ensures !Falsy(map[id := DefaultPrice(id)], id)
    ensures !PriceError(id, map[id := DefaultPrice(id)])
  {
    RulesAreConsistent(CategoryOf(id).value);
  }

  /** The fill relation for any test of which services need a default and any default price and
      unit: every walked service that needs one gets it; every other price and unit stays, and
      no other entry appears. */
  ghost predicate IsFill(services: seq<string>, need: string -> bool, price: string -> JsNumber, unit: string -> string,
                         pricing: map<string, JsNumber>, units: map<string, string>,
                         pricing': map<string, JsNumber>, units': map<string, string>) {
    && (forall id :: id in services && need(id) ==>
          && id in pricing' && pricing'[id] == price(id)
          && id in units' && units'[id] == unit(id))
    && (forall id :: !(id in services && need(id)) ==>
          && (id in pricing' <==> id in pricing) && (id in pricing ==> pricing'[id] == pricing[id])
          && (id in units' <==> id in units) && (id in units ==> units'[id] == units[id]))
  }

  /** Walking one more service fills it exactly when it needs a default and was not walked yet. */
  lemma FillStepAbstract(done: seq<string>, srvId: string, need: string -> bool, price: string -> JsNumber,
                         unit: string -> string, pricing: map<string, JsNumber>, units: map<string, string>,
                         p: map<string, JsNumber>, u: map<string, string>)
    requires IsFill(done, need, price, unit, pricing, units, p, u)
    ensures srvId !in done && need(srvId) ==>
      IsFill(done + [srvId], need, price, unit, pricing, units, p[srvId := price(srvId)], u[srvId := unit(srvId)])
    ensures !(srvId !in done && need(srvId)) ==> IsFill(done + [srvId], need, price, unit, pricing, units, p, u)
  {
    var done' := done + [srvId];
    if srvId !in done && need(srvId) {
      var p2 := p[srvId := price(srvId)];
      var u2 := u[srvId := unit(srvId)];
      forall id | id in done' && need(id)
        ensures id in p2 && p2[id] == price(id) && id in u2 && u2[id] == unit(id)
      {
        if id != srvId {
          assert id in done;
        }
      }
    } else {
      forall id | id in done' && need(id)
        ensures id in p && p[id] == price(id) && id in u && u[id] == unit(id)
      {
        if id != srvId {
          assert id in done;
        }
      }
    }
  }

  function NeedsDefaultIn(pricing: map<string, JsNumber>): string -> bool {
    id => NeedsDefault(id, pricing)
  }

  /** The default price, NaN for an id outside the catalogue (which never needs one). */
  function DefaultPriceOr(id: string): JsNumber {
    if CategoryOf(id).Some? then DefaultPrice(id) else NaN
  }

  function DefaultUnitOr(id: string): string {
    if CategoryOf(id).Some? then DefaultUnit(id) else ""
  }

  /** What the default-pricing effect leaves: every selected catalogue service with a falsy price
      gets its category's default price and first unit; every other price and unit stays, and
      no other entry appears. */
  ghost predicate IsDefaultFill(services: seq<string>, pricing: map<string, JsNumber>, units: map<string, string>,
                                pricing': map<string, JsNumber>, units': map<string, string>) {
    IsFill(services, NeedsDefaultIn(pricing), DefaultPriceOr, DefaultUnitOr, pricing, units, pricing', units')
  }

  /** One step of the effect keeps the fill relation for the services walked so far: a service
      still needs its default exactly when it was not walked yet and needed one at the start. */
  lemma FillStep(done: seq<string>, srvId: string, pricing: map<string, JsNumber>, units: map<string, string>,
                 p: map<string, JsNumber>, u: map<string, string>)
    requires IsDefaultFill(done, pricing, units, p, u)
    ensures NeedsDefault(srvId, p) ==>
      IsDefaultFill(done + [srvId], pricing, units, p[srvId := DefaultPrice(srvId)], u[srvId := DefaultUnit(srvId)])
    ensures !NeedsDefault(srvId, p) ==> IsDefaultFill(done + [srvId], pricing, units, p, u)
  {
    FillStepAbstract(done, srvId, NeedsDefaultIn(pricing), DefaultPriceOr, DefaultUnitOr, pricing, units, p, u);
    if srvId in done && NeedsDefault(srvId, pricing) {
      DefaultPriceIsValid(srvId);
      assert p[srvId] == DefaultPrice(srvId);
    } else {
      assert Falsy(p, srvId) == Falsy(pricing, srvId);
    }
  }

  /** The default-pricing effect, which walks the selected services in order. */
  method FillDefaults(services: seq<string>, pricing: map<string, JsNumber>, units: map<string, string>)
    returns (pricing': map<string, JsNumber>, units': map<string, string>)
    ensures IsDefaultFill(services, pricing, units, pricing', units')
  {
    pricing', units' := pricing, units;
    var i := 0;
    while i < |services|
      invariant 0 <= i <= |services|
      invariant IsDefaultFill(services[..i], pricing, units, pricing', units')
    {
      var srvId := services[i];
      assert services[..i + 1] == services[..i] + [srvId];
      FillStep(services[..i], srvId, pricing, units, pricing', units');
      if NeedsDefault(srvId, pricing') {
        pricing' := pricing'[srvId := DefaultPrice(srvId)];
        units' := units'[srvId := DefaultUnit(srvId)];
      }
      i := i + 1;
    }
    assert services[..i] == services;
  }

  /** After the fill every selected catalogue service carries a usable price. */
  lemma FillPricesEverySelected(services: seq<string>, pricing: map<string, JsNumber>, units: map<string, string>,
                                pricing': map<string, JsNumber>, units': map<string, string>, i: nat)
    requires IsDefaultFill(services, pricing, units, pricing', units')
    requires i < |services| && CategoryOf(services[i]).Some?
    ensures !Falsy(pricing', services[i])
  {
    var id := services[i];
    if NeedsDefault(id, pricing) {
      DefaultPriceIsValid(id);
    }
  }

  /** A defaulted price never raises a pricing error: every error after the fill was already
      there before it. */
  lemma FillIntroducesNoErrors(services: seq<string>, pricing: map<string, JsNumber>, units: map<string, string>,
                               pricing': map<string, JsNumber>, units': map<string, string>)
    requires IsDefaultFill(services, pricing, units, pricing', units')
    ensures HasPricingErrors(services, pricing') ==> HasPricingErrors(services, pricing)
  {
    if HasPricingErrors(services, pricing') {
      var i :| 0 <= i < |services| && PriceError(services[i], pricing');
      var id := services[i];
      if !NeedsDefault(id, pricing) {
        assert PriceError(id, pricing);
      } else {
        DefaultPriceIsValid(id);
      }
    }
  }

  // ---------------------------------------------------------------- pricing strings

  /** The longest prefix of `s` made of digits and commas. */
  function DigitCommaRun(s: string): (r: string)
    ensures r <= s
    ensures forall i :: 0 <= i < |r| ==> IsDigitOrComma(r[i])
    ensures |r| < |s| ==> !IsDigitOrComma(s[|r|])
  {
    if s == [] || !IsDigitOrComma(s[0]) then [] else [s[0]] + DigitCommaRun(s[1..])
  }

  /** The longest prefix of `s` without a line terminator: what `.+` takes. */
  function LineRun(s: string): (r: string)
    ensures r <= s
    ensures forall i :: 0 <= i < |r| ==> !IsLineTerminator(r[i])
    ensures |r| < |s| ==> IsLineTerminator(s[|r|])
  {
    if s == [] || IsLineTerminator(s[0]) then [] else [s[0]] + LineRun(s[1..])
  }

  /** `/KES ([\d,]+) (.+)/` tried at the start of `s`. The digit-and-comma run is greedy and can
      only be followed by the space at its end, so it is the longest such run; the unit is the
      rest of the line and must not be empty. */
  function MatchHere(s: string): (r: Option<(string, string)>)
    ensures r.Some? ==> |r.value.0| >= 1 && forall i :: 0 <= i < |r.value.0| ==> IsDigitOrComma(r.value.0[i])
  {
    if |s| >= 4 && s[..4] == "KES " then
      var run := DigitCommaRun(s[4..]);
      var rest := s[4 + |run|..];
      if |run| >= 1 && |rest| >= 2 && rest[0] == ' ' && !IsLineTerminator(rest[1])
      then Some((run, LineRun(rest[1..])))
      else None
    else None
  }

  /** `str.match(/KES ([\d,]+) (.+)/)`: the captures of the first position where it matches. */
  function MatchPricing(s: string): (r: Option<(string, string)>)
    ensures r.Some? ==> |r.value.0| >= 1 && forall i :: 0 <= i < |r.value.0| ==> IsDigitOrComma(r.value.0[i])
  {
    if s == [] then None
    else if MatchHere(s).Some? then MatchHere(s)
    else MatchPricing(s[1..])
  }

  /** The pattern matches at position `k` of `s`. */
  predicate MatchesAt(s: string, k: nat) {
    k < |s| && MatchHere(s[k..]).Some?
  }

  /** The search finds a match exactly when the pattern matches at some position, and then
      reports the captures of the first such position. */
  lemma {:induction false} MatchPricingFindsFirst(s: string)
    ensures MatchPricing(s).Some? <==> exists k :: 0 <= k < |s| && MatchesAt(s, k)
    ensures MatchPricing(s).Some? ==>
      exists k :: 0 <= k < |s| && MatchesAt(s, k) && MatchPricing(s) == MatchHere(s[k..])
                  && forall j :: 0 <= j < k ==> !MatchesAt(s, j)
    decreases |s|
  {
    if s != [] && MatchHere(s).Some? {
      assert s[0..] == s;
      assert MatchesAt(s, 0);
    } else if s != [] {
      var t := s[1..];
      MatchPricingFindsFirst(t);
      assert !MatchesAt(s, 0) by { assert s[0..] == s; }
      forall k | 0 <= k < |t| ensures MatchesAt(t, k) <==> MatchesAt(s, k + 1) {
        assert t[k..] == s[k + 1..];
      }
      if MatchPricing(t).Some? {
        var k :| 0 <= k < |t| && MatchesAt(t, k) && MatchPricing(t) == MatchHere(t[k..])
                 && forall j :: 0 <= j < k ==> !MatchesAt(t, j);
        assert t[k..] == s[k + 1..];
        forall j | 0 <= j < k + 1 ensures !MatchesAt(s, j) {
          if j > 0 { assert !MatchesAt(t, j - 1); }
        }
        assert MatchesAt(s, k + 1);
      } else {
        forall k | 0 <= k < |s| ensures !MatchesAt(s, k) {
          if k > 0 { assert !MatchesAt(t, k - 1); }
        }
      }
    }
  }

  /** Removing commas from digits and commas leaves digits. */
  lemma DropCommasOfRun(s: string)
    requires forall i :: 0 <= i < |s| ==> IsDigitOrComma(s[i])
    ensures AllDigits(DropCommas(s))
  {
    var r := DropCommas(s);
    forall i | 0 <= i < |r| ensures IsDigit(r[i]) {
      var j :| 0 <= j < |s| && s[j] == r[i];
    }
  }

  /** One entry of `parsePricingStrings`: the price `parseInt` makes of the run without its commas
      (NaN when only commas were captured) and the unit; nothing when the string does not match. */
  function ParseEntry(str: string): Option<(JsNumber, string)> {
    match MatchPricing(str)
    case None => None
    case Some((run, unit)) =>
      DropCommasOfRun(run);
      Some((ParseDigits(DropCommas(run)), unit))
  }

  /** `price.toLocaleString()` for a number that may be NaN. */
  function PriceText(p: JsNumber): string {
    match p
    case Num(n) => LocaleString(n)
    case NaN => "NaN"
  }

  /** The string `handleSubmit` stores for one service. */
  function PricingString(price: JsNumber, unit: string): string {
    "KES " + PriceText(price) + " " + unit
  }

  /** A unit the parser reads back whole. */
  predicate ReadableUnit(unit: string) {
    unit != [] && forall i :: 0 <= i < |unit| ==> !IsLineTerminator(unit[i])
  }

  lemma DigitCommaRunStops(a: string, b: string)
    requires forall i :: 0 <= i < |a| ==> IsDigitOrComma(a[i])
    requires b != [] && !IsDigitOrComma(b[0])
    ensures DigitCommaRun(a + b) == a
  {
    if a == [] {
      assert a + b == b;
    } else {
      assert (a + b)[1..] == a[1..] + b;
      DigitCommaRunStops(a[1..], b);
    }
  }

  lemma LineRunWhole(s: string)
    requires forall i :: 0 <= i < |s| ==> !IsLineTerminator(s[i])
    ensures LineRun(s) == s
  {
    if s != [] {
      LineRunWhole(s[1..]);
    }
  }

  /** At the start of a stored string the pattern captures its run and its unit. */
  lemma MatchHereStored(run: string, unit: string)
    requires run != [] && forall i :: 0 <= i < |run| ==> IsDigitOrComma(run[i])
    requires ReadableUnit(unit)
    ensures MatchHere("KES " + run + " " + unit) == Some((run, unit))
  {
    var tail := " " + unit;
    var s := "KES " + run + " " + unit;
    assert s == "KES " + (run + tail);
    assert s[..4] == "KES ";
    assert s[4..] == run + tail;
    DigitCommaRunStops(run, tail);
    assert s[4 + |run|..] == tail;
    assert tail[1..] == unit;
    LineRunWhole(unit);
  }

  /** The pattern matches a stored string at its start and captures its run and its unit. */
  lemma MatchesStoredString(run: string, unit: string)
    requires run != [] && forall i :: 0 <= i < |run| ==> IsDigitOrComma(run[i])
    requires ReadableUnit(unit)
    ensures MatchPricing("KES " + run + " " + unit) == Some((run, unit))
  {
    MatchHereStored(run, unit);
  }

  /** A grouped number keeps at least one digit once its commas are gone. */
  lemma GroupedKeepsADigit(n: nat)
    ensures DropCommas(Grouped(n)) != []
  {
    var g := Grouped(n);
    assert g == [g[0]] + g[1..];
    FilterConcat([g[0]], g[1..], NotComma);
  }

  /** Reading back a stored price string gives the price and unit it was made from. */
  lemma PricingStringReadsBack(p: nat, unit: string)
    requires ReadableUnit(unit)
    ensures ParseEntry(PricingString(Num(p), unit)) == Some((Num(p), unit))
  {
    MatchesStoredString(Grouped(p), unit);
    GroupedReadsBack(p);
    GroupedKeepsADigit(p);
  }

  /** The strings `handleSubmit` stores, one per selected service. */
  ghost predicate IsPricingStrings(services: seq<string>, prices: map<string, JsNumber>, units: map<string, string>,
                             strings: map<string, string>) {
    && (forall id :: id in strings <==> id in services)
    && (forall id :: id in strings ==> id in prices && strings[id] == PricingString(prices[id], UnitOrUndefined(units, id)))
  }

  /** A missing unit prints as "undefined". */
  function UnitOrUndefined(units: map<string, string>, id: string): string {
    if id in units then units[id] else "undefined"
  }

  /** The loop of `handleSubmit` that builds the stored strings. A selected service without a
      price makes `toLocaleString` throw: no strings are built then. */
  method PricingStrings(services: seq<string>, prices: map<string, JsNumber>, units: map<string, string>)
    returns (strings: Option<map<string, string>>)
    ensures strings.None? <==> exists i :: 0 <= i < |services| && services[i] !in prices
    ensures strings.Some? ==> IsPricingStrings(services, prices, units, strings.value)
  {
    var out: map<string, string> := map[];
    var i := 0;
    while i < |services|
      invariant 0 <= i <= |services|
      invariant forall j :: 0 <= j < i ==> services[j] in prices
      invariant forall id :: id in out <==> id in services[..i]
      invariant forall id :: id in out ==> id in prices && out[id] == PricingString(prices[id], UnitOrUndefined(units, id))
    {
      var srvId := services[i];
      assert services[..i + 1] == services[..i] + [srvId];
      if srvId !in prices {
        return None;
      }
      out := out[srvId := PricingString(prices[srvId], UnitOrUndefined(units, srvId))];
      i := i + 1;
    }
    assert services[..i] == services;
    strings := Some(out);
  }

  /** What `parsePricingStrings` returns: a price and a unit for every entry that matches. */
  ghost predicate IsParsedPricing(pricing: map<string, string>, prices: map<string, JsNumber>, units: map<string, string>) {
    && (forall id :: id in prices <==> id in pricing && ParseEntry(pricing[id]).Some?)
    && (forall id :: id in units <==> id in prices)
    && (forall id :: id in prices ==> prices[id] == ParseEntry(pricing[id]).value.0 && units[id] == ParseEntry(pricing[id]).value.1)
  }

  /** `parsePricingStrings`: each entry is read on its own, so the visiting order is immaterial. */
  method ParsePricingStrings(pricing: map<string, string>) returns (prices: map<string, JsNumber>, units: map<string, string>)
    ensures IsParsedPricing(pricing, prices, units)
  {
    prices, units := map[], map[];
    var todo := pricing.Keys;
    while todo != {}
      invariant todo <= pricing.Keys
      invariant forall id :: id in prices <==> id in pricing && id !in todo && ParseEntry(pricing[id]).Some?
      invariant forall id :: id in units <==> id in prices
      invariant forall id :: id in prices ==> prices[id] == ParseEntry(pricing[id]).value.0 && units[id] == ParseEntry(pricing[id]).value.1
      decreases |todo|
    {
      var id :| id in todo;
      var parsed := ParseEntry(pricing[id]);
      if parsed.Some? {
        prices := prices[id := parsed.value.0];
        units := units[id := parsed.value.1];
      }
      todo := todo - {id};
    }
  }

  /** Reopening a submitted application restores the price and unit of every selected service,
      when prices are non-negative and units readable. */
  lemma StoredPricingReadsBack(services: seq<string>, prices: map<string, JsNumber>, units: map<string, string>,
                               strings: map<string, string>, prices': map<string, JsNumber>, units': map<string, string>)
    requires IsPricingStrings(services, prices, units, strings)
    requires forall id :: id in services ==> id in prices && prices[id].Num? && prices[id].n >= 0
    requires forall id :: id in services ==> id in units && ReadableUnit(units[id])
    requires IsParsedPricing(strings, prices', units')
    ensures forall id :: id in services ==> id in prices' && prices'[id] == prices[id] && units'[id] == units[id]
  {
    forall id | id in services ensures id in prices' && prices'[id] == prices[id] && units'[id] == units[id] {
      PricingStringReadsBack(prices[id].n, units[id]);
    }
  }

  // ---------------------------------------------------------------- the wizard

  datatype FormData = FormData(
    email: string, phone: string, skills: seq<string>, specificServices: seq<string>,
    experience: string, availability: string,
    requestedPricing: map<string, JsNumber>, requestedUnits: map<string, string>, terms: bool)

  function OwnedBy(userId: string): ProviderApplication -> bool {
    (a: ProviderApplication) => a.userId == userId
  }

  /** `existingApplication`, which the store hands the form: the first application filed by the
      signed-in user, if any. */
  function ExistingApplication(apps: seq<ProviderApplication>, userId: string): (r: Option<ProviderApplication>)
    ensures r.Some? ==> r.value in apps && r.value.userId == userId
    ensures r.None? <==> forall i :: 0 <= i < |apps| ==> apps[i].userId != userId
  {
    var k := Find(apps, OwnedBy(userId));
    if k < 0 then None else Some(apps[k])
  }

  /** `initialStep`: the status screen (0) for an application sent back for changes, the
      welcome screen (1) otherwise. */
  function InitialStep(existing: Option<ProviderApplication>): (s: nat)
    ensures s == 0 <==> existing.Some? && existing.value.status == ChangesRequired
    ensures s == 0 || s == 1
  {
    if existing.Some? && existing.value.status == ChangesRequired then 0 else 1
  }

  /** The Next button of screens 2 to 5 is enabled only with the screen's required fields. */
  predicate CanAdvance(step: nat, d: FormData) {
    match step
    case 2 => d.experience != "" && d.email != "" && d.phone != ""
    case 3 => |d.skills| > 0
    case 4 => |d.specificServices| > 0
    case 5 => d.availability != ""
    case _ => false
  }

  /** The application form's state. */
  class ApplicationForm {
    const profile: UserProfile
    const existing: Option<ProviderApplication>
    var step: nat
    var data: FormData

    /** `initialData`: an existing application's contents with its stored prices read back and
        the terms accepted; otherwise the profile's e-mail and phone and nothing else. */
    constructor (profile: UserProfile, existing: Option<ProviderApplication>)
      ensures this.profile == profile && this.existing == existing
      ensures step == InitialStep(existing)
      ensures existing.Some? ==>
        var e := existing.value;
        && data.email == e.userEmail && data.phone == e.userPhone && data.skills == e.skills
        && data.specificServices == e.specificServices.GetOr([])
        && data.experience == e.experience && data.availability == e.availability
        && IsParsedPricing(e.requestedPricing, data.requestedPricing, data.requestedUnits)
        && data.terms
      ensures existing.None? ==>
        data == FormData(profile.email, profile.phone, [], [], "", "", map[], map[], false)
    {
      this.profile := profile;
      this.existing := existing;
      step := InitialStep(existing);
      if existing.Some? {
        var e := existing.value;
        var prices, units := ParsePricingStrings(e.requestedPricing);
        data := FormData(e.userEmail, e.userPhone, e.skills, e.specificServices.GetOr([]),
                         e.experience, e.availability, prices, units, true);
      } else {
        data := FormData(profile.email, profile.phone, [], [], "", "", map[], map[], false);
      }
    }

    /** "Begin Application" on the welcome screen, "Edit Application" on the status screen. */
    method Begin()
      requires step == 0 || step == 1
      modifies this`step
      ensures step == 2
    {
      step := 2;
    }

    /** The Next button of screens 2 to 5: one screen on when the screen is complete. */
    method Next()
      requires 2 <= step <= 5
      modifies this`step
      ensures step == if CanAdvance(old(step), data) then old(step) + 1 else old(step)
    {
      if CanAdvance(step, data) {
        step := step + 1;
      }
    }

    /** The Back button: screen 2 returns to the screen the form opened on. */
    method Back()
      requires 2 <= step <= 6
      modifies this`step
      ensures step == if old(step) == 2 then InitialStep(existing) else old(step) - 1
    {
      if step == 2 {
        step := InitialStep(existing);
      } else {
        step := step - 1;
      }
    }

    /** `toggleCategory`. */
    method ToggleCategory(cat: string)
      requires step == 3
      modifies this`data
      ensures data == old(data).(skills := Toggle(old(data).skills, cat))
    {
      data := data.(skills := Toggle(data.skills, cat));
    }

    /** `toggleSpecificService`. */
    method ToggleSpecificService(serviceId: string)
      requires step == 4
      modifies this`data
      ensures data == old(data).(specificServices := Toggle(old(data).specificServices, serviceId))
    {
      data := data.(specificServices := Toggle(data.specificServices, serviceId));
    }

    /** The default-pricing effect, which runs when the form opens and after every change of
        the selected services. */
    method RunDefaultPricing()
      modifies this`data
      ensures data.specificServices == old(data).specificServices
      ensures IsDefaultFill(data.specificServices, old(data).requestedPricing, old(data).requestedUnits,
                            data.requestedPricing, data.requestedUnits)
      ensures data == old(data).(requestedPricing := data.requestedPricing, requestedUnits := data.requestedUnits)
    {
      var prices, units := FillDefaults(data.specificServices, data.requestedPricing, data.requestedUnits);
      data := data.(requestedPricing := prices, requestedUnits := units);
    }

    /** The rate input: `parseInt(value) || 0`. */
    method SetPrice(serviceId: string, value: JsNumber)
      requires step == 6
      modifies this`data
      ensures data == old(data).(requestedPricing := old(data).requestedPricing[serviceId :=
                                   if value.Num? then value else Num(0)])
    {
      var price := if value.Num? then value else Num(0);
      data := data.(requestedPricing := data.requestedPricing[serviceId := price]);
    }

    /** The billing-unit select. */
    method SetUnit(serviceId: string, unit: string)
      requires step == 6
      modifies this`data
      ensures data == old(data).(requestedUnits := old(data).requestedUnits[serviceId := unit])
    {
      data := data.(requestedUnits := data.requestedUnits[serviceId := unit]);
    }

    /** The text inputs of screens 2 and 5 and the terms box of screen 6. */
    method EditDetails(email: string, phone: string, experience: string, availability: string, terms: bool)
      modifies this`data
      ensures data == old(data).(email := email, phone := phone, experience := experience,
                                 availability := availability, terms := terms)
    {
      data := data.(email := email, phone := phone, experience := experience, availability := availability, terms := terms);
    }

    /** `handleSubmit` on the last screen: nothing while the terms are unaccepted or a price is out
        of range (the button is disabled, and the handler checks prices again), nor when a
        selected service has no price; otherwise a fresh `applied` application with empty admin
        feedback that keeps an existing application's id and first application date, and the
        form moves to its confirmation screen. */
    method Submit(freshId: string, today: string, now: string) returns (app: Option<ProviderApplication>)
      requires step == 6
      modifies this`step
      ensures (!data.terms || HasPricingErrors(data.specificServices, data.requestedPricing)) ==> app.None? && step == 6
      ensures app.Some? ==>
        && data.terms && !HasPricingErrors(data.specificServices, data.requestedPricing)
        && step == 7
        && app.value.status == Applied && app.value.adminFeedback == Some("")
        && app.value.id == (if existing.Some? && existing.value.id != "" then existing.value.id else freshId)
        && app.value.appliedDate == (if existing.Some? && existing.value.appliedDate != "" then existing.value.appliedDate else today)
        && app.value.userId == profile.id && app.value.userName == profile.name
        && app.value.userEmail == data.email && app.value.userPhone == data.phone
        && app.value.skills == data.skills && app.value.experience == data.experience
        && app.value.availability == data.availability && app.value.submissionTimestamp == Some(now)
        && app.value.specificServices == Some(data.specificServices)
        && IsPricingStrings(data.specificServices, data.requestedPricing, data.requestedUnits, app.value.requestedPricing)
      ensures app.None? && data.terms && !HasPricingErrors(data.specificServices, data.requestedPricing) ==>
        && step == 6
        && exists i :: 0 <= i < |data.specificServices| && data.specificServices[i] !in data.requestedPricing
    {
      if !data.terms || HasPricingErrors(data.specificServices, data.requestedPricing) {
        return None;
      }
      var strings := PricingStrings(data.specificServices, data.requestedPricing, data.requestedUnits);
      if strings.None? {
        return None;
      }
      var id := if existing.Some? && existing.value.id != "" then existing.value.id else freshId;
      var applied := if existing.Some? && existing.value.appliedDate != "" then existing.value.appliedDate else today;
      app := Some(ProviderApplication(
        id, profile.id, profile.name, data.email, data.phone, data.skills, Some(data.specificServices),
        data.experience, data.availability, strings.value, Applied, applied, Some(now), Some("")));
      step := 7;
    }
  }
}
