/** The owner's direct cleaning service (CleaningHub.tsx): a tier, optional extras with a 10%
    bundle discount from three items on, a free day and hour slot, and a booking paid to escrow
    and confirmed on the spot. */
module CleaningHub {
  import opened Types
  import opened Lists
  import opened Text
  import opened Money

  datatype Tier = Tier(id: string, title: string, price: nat)
  datatype Extra = Extra(id: string, name: string, price: nat)

  const FullClean := Tier("full", "Full Home Cleaning", 2500)
  const StandardClean := Tier("standard", "Standard Cleaning", 1500)
  const LightClean := Tier("light", "Light Cleaning", 800)
  const CleaningTypes: seq<Tier> := [FullClean, StandardClean, LightClean]

  const Yard := Extra("yard", "Yard Sweeping", 500)
  const Car := Extra("car", "Car Washing", 1000)
  const Laundry := Extra("laundry", "Laundry Folding", 400)
  const Plants := Extra("plants", "Plant Watering", 300)
  const Windows := Extra("windows", "Window Polishing", 600)
  const Extras: seq<Extra> := [Yard, Car, Laundry, Plants, Windows]

  const TimeSlots: seq<string> :=
    ["09:00", "10:00", "11:00", "12:00", "13:00", "14:00", "15:00", "16:00", "17:00"]

  /** The owner's own account, which every hub booking is assigned to. */
  const OwnerId := "user_1"
  const OwnerName := "Kyla Ndungu (Owner)"
  const HubServiceId := "owner-cleaning-hub"

  datatype Totals = Totals(subtotal: nat, discount: nat, finalTotal: nat, isBundle: bool)

  function ExtraPrice(e: Extra): int { e.price }
  function ExtraName(e: Extra): string { e.name }

  function TierPrice(tier: Option<Tier>): nat {
    if tier.Some? then tier.value.price else 0
  }

  /** The price summary: tier plus extras; three or more items (the tier counting as one) earn a
      10% discount rounded to the nearest shilling, which the final total never goes below 0 for. */
  function ComputeTotals(tier: Option<Tier>, extras: seq<Extra>): (t: Totals)
    ensures t.subtotal == TierPrice(tier) + Sum(extras, ExtraPrice)
    ensures t.isBundle <==> (if tier.Some? then 1 else 0) + |extras| >= 3
    ensures t.discount + t.finalTotal == t.subtotal
    ensures t.isBundle ==> 10 * t.discount <= t.subtotal + 5 < 10 * t.discount + 10
    ensures !t.isBundle ==> t.discount == 0 && t.finalTotal == t.subtotal
  {
    SumNonNegative(extras, ExtraPrice);
    var subtotal := TierPrice(tier) + Sum(extras, ExtraPrice);
    var isBundle := (if tier.Some? then 1 else 0) + |extras| >= 3;
    var discount := if isBundle then TenPercent(subtotal) else 0;
    Totals(subtotal, discount, subtotal - discount, isBundle)
  }

  /** Standard cleaning with yard sweeping and laundry folding: 2400, less 240, is 2160. */
  lemma StandardBundleExample()
    ensures ComputeTotals(Some(StandardClean), [Yard, Laundry]) == Totals(2400, 240, 2160, true)
  {
    assert Sum([Laundry], ExtraPrice) == 400;
    assert Sum([Yard, Laundry], ExtraPrice) == 900;
  }

  /** `toggleExtra`: drop the extra with that id if selected, otherwise add it at the end. */
  function ToggleExtra(selected: seq<Extra>, e: Extra): (r: seq<Extra>)
    ensures (exists i :: 0 <= i < |selected| && selected[i].id == e.id) ==>
      forall i :: 0 <= i < |r| ==> r[i].id != e.id
    ensures (forall i :: 0 <= i < |selected| ==> selected[i].id != e.id) ==> r == selected + [e]
    ensures forall i :: 0 <= i < |selected| && selected[i].id != e.id ==> selected[i] in r
    ensures forall i :: 0 <= i < |r| ==> r[i] in selected || r[i] == e
  {
    if exists i :: 0 <= i < |selected| && selected[i].id == e.id
    then Filter(selected, (x: Extra) => x.id != e.id)
    else selected + [e]
  }

  function ExtraId(e: Extra): string { e.id }

  /** Toggling never selects the same extra twice. */
  lemma ToggleExtraKeepsIdsUnique(selected: seq<Extra>, e: Extra)
    requires UniqueKeys(selected, ExtraId)
    ensures UniqueKeys(ToggleExtra(selected, e), ExtraId)
  {
    var r := ToggleExtra(selected, e);
    if exists i :: 0 <= i < |selected| && selected[i].id == e.id {
      FilterKeepsKeysUnique(selected, (x: Extra) => x.id != e.id, ExtraId);
    } else {
      forall i, j | 0 <= i < j < |r| ensures r[i].id != r[j].id {
        if j == |selected| { assert r[i] == selected[i]; }
      }
    }
  }

  lemma {:induction false} FilterKeepsKeysUnique<T, K>(s: seq<T>, p: T -> bool, key: T -> K)
    requires UniqueKeys(s, key)
    ensures UniqueKeys(Filter(s, p), key)
  {
    if s != [] {
      FilterKeepsKeysUnique(s[1..], p, key);
      var rest := Filter(s[1..], p);
      if p(s[0]) {
        forall j | 0 <= j < |rest| ensures key(s[0]) != key(rest[j]) {
          var k :| 0 <= k < |s[1..]| && s[1..][k] == rest[j];
          assert s[k + 1] == rest[j];
        }
        forall i, j | 0 <= i < j < |[s[0]] + rest| ensures key(([s[0]] + rest)[i]) != key(([s[0]] + rest)[j]) {
          if i > 0 { assert ([s[0]] + rest)[i] == rest[i - 1]; }
          assert ([s[0]] + rest)[j] == rest[j - 1];
        }
      }
    }
  }

  /** A booking that occupies one of the owner's slots on day `d`. */
  predicate TakesOwnerSlot(b: Booking, d: string) {
    b.date == d && b.status != Cancelled && b.providerId == Some(OwnerId)
  }

  /** Some live owner booking on day `d` starts at `slot`. */
  predicate SlotTaken(bookings: seq<Booking>, d: string, slot: string) {
    exists j :: 0 <= j < |bookings| && TakesOwnerSlot(bookings[j], d) && bookings[j].startTime == Some(slot)
  }

  /** The start times taken on day `d`; a booking without a start time contributes `undefined`. */
  function TakenSlots(bookings: seq<Booking>, d: string): (taken: seq<Option<string>>)
    ensures forall slot :: Some(slot) in taken <==> SlotTaken(bookings, d, slot)
  {
    if bookings == [] then []
    else (if TakesOwnerSlot(bookings[0], d) then [bookings[0].startTime] else [])
         + TakenSlots(bookings[1..], d)
  }

  /** The hours still offered on day `d`: none before a day is picked, otherwise the standard
      slots, in order, without those taken by live owner bookings that day. */
  function AvailableTimeSlots(d: string, bookings: seq<Booking>): (r: seq<string>)
    ensures d == "" ==> r == []
    ensures d != "" ==> r == Filter(TimeSlots, (slot: string) => Some(slot) !in TakenSlots(bookings, d))
    ensures forall i :: 0 <= i < |r| ==> r[i] in TimeSlots
    ensures forall i :: 0 <= i < |r| ==> !SlotTaken(bookings, d, r[i])
    ensures d != "" ==>
      forall slot :: slot in TimeSlots && !SlotTaken(bookings, d, slot) ==> slot in r
  {
    if d == "" then []
    else
      var taken := TakenSlots(bookings, d);
      Filter(TimeSlots, (slot: string) => Some(slot) !in taken)
  }

  /** Once a hub booking for day `d` at `t` is stored, `t` is no longer offered for `d`. */
  lemma BookedSlotDisappears(bookings: seq<Booking>, b: Booking, d: string, t: string)
    requires TakesOwnerSlot(b, d) && b.startTime == Some(t)
    ensures t !in AvailableTimeSlots(d, [b] + bookings)
  {
    assert ([b] + bookings)[0] == b;
  }

  /** `availableDays`: the next fourteen calendar days after today. The date arithmetic and
      formatting are the caller's `dateAfter(k)`, the date `k` days from today. */
  method AvailableDays(dateAfter: nat -> string) returns (days: seq<string>)
    ensures |days| == 14
    ensures forall k :: 0 <= k < 14 ==> days[k] == dateAfter(k + 1)
  {
    days := [];
    var i := 1;
    while i <= 14
      invariant 1 <= i <= 15
      invariant |days| == i - 1
      invariant forall k :: 0 <= k < i - 1 ==> days[k] == dateAfter(k + 1)
    {
      days := days + [dateAfter(i)];
      i := i + 1;
    }
  }

  /** The booking a confirmed hub order produces. */
  function HubBooking(id: string, createdAt: string, profile: UserProfile, tier: Tier,
                      extras: seq<Extra>, date: string, time: string): (b: Booking)
    ensures b.status == Confirmed && b.paymentStatus == PaidToEscrow
    ensures b.platformFee == 0
    ensures b.totalPrice == b.taskerAmount == ComputeTotals(Some(tier), extras).finalTotal
    ensures b.providerId == Some(OwnerId) && b.date == date && b.startTime == Some(time)
    ensures TakesOwnerSlot(b, date)
    ensures b.addOns == Some(Map(extras, ExtraName))
  {
    var names := Join(Map(extras, ExtraName), ", ");
    var total := ComputeTotals(Some(tier), extras).finalTotal;
    Booking(
      id, HubServiceId, tier.title, profile.name, profile.email, Some(profile.phone),
      Some(OwnerId), Some(OwnerName),
      "Direct Cleaning Booking: " + tier.title + ". Extras: " + (if names == "" then "None" else names),
      Confirmed, PaidToEscrow, date, Some(time), None, InPerson, createdAt,
      total, 0, total, Some(Map(extras, ExtraName)))
  }

  /** `s.map(f)`. */
  function Map<T, U>(s: seq<T>, f: T -> U): (r: seq<U>)
    ensures |r| == |s| && forall i :: 0 <= i < |s| ==> r[i] == f(s[i])
  {
    seq(|s|, i requires 0 <= i < |s| => f(s[i]))
  }

  datatype Step = ChooseType | ChooseExtras | Schedule | Summary | Success

  /** The booking wizard's state. */
  class HubSession {
    var step: Step
    var tier: Option<Tier>
    var extras: seq<Extra>
    var date: string
    var time: string
    var confirmedId: Option<string>

    /** What the screens guarantee: a tier is chosen before leaving the first screen, and the
        summary is reached only with a day and an hour. */
    predicate Valid()
      reads this
    {
      (step != ChooseType ==> tier.Some?)
      && (step == Summary ==> date != "" && time != "")
      && (step == Success ==> confirmedId.Some?)
    }

    constructor ()
      ensures Valid() && step == ChooseType && tier == None && extras == []
      ensures date == "" && time == "" && confirmedId == None
    {
      step := ChooseType;
      tier := None;
      extras := [];
      date := "";
      time := "";
      confirmedId := None;
    }

    method SelectTier(t: Tier)
      requires Valid() && step == ChooseType
      modifies this`tier
      ensures Valid() && tier == Some(t)
    {
      tier := Some(t);
    }

    /** "Next" on the first screen is disabled until a tier is chosen. */
    method ContinueToExtras()
      requires Valid() && step == ChooseType
      modifies this`step
      ensures Valid()
      ensures step == if tier.Some? then ChooseExtras else ChooseType
    {
      if tier.Some? {
        step := ChooseExtras;
      }
    }

    method ToggleExtraOnScreen(e: Extra)
      requires Valid() && step == ChooseExtras
      modifies this`extras
      ensures Valid() && extras == ToggleExtra(old(extras), e)
    {
      extras := ToggleExtra(extras, e);
    }

    method BackToType()
      requires Valid() && step == ChooseExtras
      modifies this`step
      ensures Valid() && step == ChooseType
    {
      step := ChooseType;
    }

    method ContinueToSchedule()
      requires Valid() && step == ChooseExtras
      modifies this`step
      ensures Valid() && step == Schedule
    {
      step := Schedule;
    }

    /** Picking a day clears the chosen hour. */
    method SelectDate(d: string)
      requires Valid() && step == Schedule
      modifies this`date, this`time
      ensures Valid() && date == d && time == ""
    {
      date := d;
      time := "";
    }

    method SelectTime(t: string)
      requires Valid() && step == Schedule
      modifies this`time
      ensures Valid() && time == t
    {
      time := t;
    }

    method BackToExtras()
      requires Valid() && step == Schedule
      modifies this`step
      ensures Valid() && step == ChooseExtras
    {
      step := ChooseExtras;
    }

    /** "Review" is disabled until both a day and an hour are chosen. */
    method ContinueToSummary()
      requires Valid() && step == Schedule
      modifies this`step
      ensures Valid()
      ensures step == if date != "" && time != "" then Summary else Schedule
    {
      if date != "" && time != "" {
        step := Summary;
      }
    }

    method Reschedule()
      requires Valid() && step == Summary
      modifies this`step
      ensures Valid() && step == Schedule
    {
      step := Schedule;
    }

    /** `handleConfirmBooking`, with the payment delay collapsed. Its guard (tier, day and hour
        all chosen) always passes here, since the summary opens only once they are; the booking
        is returned for the caller to store and the wizard shows the success screen. */
    method Confirm(id: string, createdAt: string, profile: UserProfile) returns (b: Booking)
      requires Valid() && step == Summary
      modifies this`step, this`confirmedId
      ensures Valid()
      ensures old(tier).Some? && old(date) != "" && old(time) != ""
      ensures b == HubBooking(id, createdAt, profile, tier.value, extras, date, time)
      ensures step == Success && confirmedId == Some(id)
    {
      b := HubBooking(id, createdAt, profile, tier.value, extras, date, time);
      confirmedId := Some(id);
      step := Success;
    }
  }
}
