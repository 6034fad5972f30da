/** The customer's own account page (CustomerProfile.tsx): an editable copy of the profile, the
    customer's bookings and the save button. */
module CustomerProfile {
  import opened Types
  import opened Lists

  function ForEmail(email: string): Booking -> bool {
    (b: Booking) => b.customerEmail == email
  }

  /** `myBookings`: exactly the bookings placed under the profile's e-mail, in order. */
  function MyBookings(bookings: seq<Booking>, user: UserProfile): (r: seq<Booking>)
    ensures forall i :: 0 <= i < |r| ==> r[i] in bookings && r[i].customerEmail == user.email
    ensures forall i :: 0 <= i < |bookings| && bookings[i].customerEmail == user.email ==> bookings[i] in r
  {
    Filter(bookings, ForEmail(user.email))
  }

  /** A booking the customer places afterwards heads their list. */
  lemma NewBookingHeadsList(bookings: seq<Booking>, user: UserProfile, b: Booking)
    requires b.customerEmail == user.email
    ensures MyBookings([b] + bookings, user) == [b] + MyBookings(bookings, user)
  {
    assert ([b] + bookings)[1..] == bookings;
  }

  /** The delivery times the preferences tab offers. */
  predicate IsDeliveryTime(t: string) {
    t == "Morning" || t == "Afternoon" || t == "Evening"
  }

  class ProfilePage {
    const original: UserProfile
    var local: UserProfile

    /** The page edits a copy whose id and e-mail are those of the signed-in profile: the
        e-mail field is read-only and no field edits the id. */
    predicate Valid()
      reads this
    {
      local.id == original.id && local.email == original.email
    }

    constructor (u: UserProfile)
      ensures original == u && local == u && Valid()
    {
      original := u;
      local := u;
    }

    method SetName(value: string)
      requires Valid()
      modifies this`local
      ensures Valid() && local == old(local).(name := value)
    {
      local := local.(name := value);
    }

    method SetPhone(value: string)
      requires Valid()
      modifies this`local
      ensures Valid() && local == old(local).(phone := value)
    {
      local := local.(phone := value);
    }

    method SetAddress(value: string)
      requires Valid()
      modifies this`local
      ensures Valid() && local == old(local).(address := value)
    {
      local := local.(address := value);
    }

    method SetCity(value: string)
      requires Valid()
      modifies this`local
      ensures Valid() && local == old(local).(city := value)
    {
      local := local.(city := value);
    }

    /** One of the three delivery-time buttons. */
    method ChoosePreferredTime(t: string)
      requires Valid() && IsDeliveryTime(t)
      modifies this`local
      ensures Valid() && local == old(local).(preferences := old(local).preferences.(preferredTime := t))
    {
      local := local.(preferences := local.preferences.(preferredTime := t));
    }

    /** The newsletter switch flips that preference only. */
    method ToggleNewsletter()
      requires Valid()
      modifies this`local
      ensures Valid()
      ensures local == old(local).(preferences := old(local).preferences.(newsletter := !old(local).preferences.newsletter))
    {
      local := local.(preferences := local.preferences.(newsletter := !local.preferences.newsletter));
    }

    /** The service-reminder switch flips that preference only. */
    method ToggleReminders()
      requires Valid()
      modifies this`local
      ensures Valid()
      ensures local == old(local).(preferences := old(local).preferences.(serviceReminders := !old(local).preferences.serviceReminders))
    {
      local := local.(preferences := local.preferences.(serviceReminders := !local.preferences.serviceReminders));
    }

    method SetGateCode(value: string)
      requires Valid()
      modifies this`local
      ensures Valid() && local == old(local).(notes := old(local).notes.(gateCode := value))
    {
      local := local.(notes := local.notes.(gateCode := value));
    }

    method SetPetInfo(value: string)
      requires Valid()
      modifies this`local
      ensures Valid() && local == old(local).(notes := old(local).notes.(petInfo := value))
    {
      local := local.(notes := local.notes.(petInfo := value));
    }

    method SetInstructions(value: string)
      requires Valid()
      modifies this`local
      ensures Valid() && local == old(local).(notes := old(local).notes.(generalInstructions := value))
    {
      local := local.(notes := local.notes.(generalInstructions := value));
    }

    /** `handleSave` hands the edited copy to the store's profile update: it keeps the signed-in
        profile's id and e-mail, so it replaces that profile and the customer's bookings stay
        theirs. */
    method Save(bookings: seq<Booking>) returns (update: UserProfile)
      requires Valid()
      ensures update == local
      ensures update.id == original.id && update.email == original.email
      ensures MyBookings(bookings, update) == MyBookings(bookings, original)
    {
      update := local;
    }
  }
}
