/** The business activation page (TaskerActivation.tsx): the activation status a tasker sees and
    the request for activation, sent only once the guidelines are accepted. */
module TaskerActivation {
  import opened Types

  /** `status`: "active" once the profile is active, otherwise the request status (absent
      before any request). */
  function ActivationStatus(st: TaskerProfileSettings): (r: Option<string>)
    ensures st.isProfileActive ==> r == Some("active")
    ensures !st.isProfileActive ==> r == st.activationRequestStatus
  {
    if st.isProfileActive then Some("active") else st.activationRequestStatus
  }

  /** The request form is shown when the status is neither active nor submitted. */
  predicate ShowsRequestForm(st: TaskerProfileSettings) {
    ActivationStatus(st) != Some("active") && ActivationStatus(st) != Some("submitted")
  }

  /** The user the request hands to the store: the portfolio with the request submitted and the
      guidelines accepted, everything else as it was. */
  function RequestedActivation(u: UserProfile): UserProfile
    requires u.settings.Some?
  {
    u.(settings := Some(u.settings.value.(activationRequestStatus := Some("submitted"), acceptedGuidelines := true)))
  }

  /** After the request the page shows the submitted state, or the active one, and no longer
      offers the form; the request changes only the two fields. */
  lemma RequestHidesForm(u: UserProfile)
    requires u.settings.Some?
    ensures var st := RequestedActivation(u).settings.value;
      && !ShowsRequestForm(st)
      && ActivationStatus(st) == (if u.settings.value.isProfileActive then Some("active") else Some("submitted"))
      && st.(activationRequestStatus := u.settings.value.activationRequestStatus, acceptedGuidelines := u.settings.value.acceptedGuidelines)
         == u.settings.value
  {
  }

  /** The page's state. The page reads the portfolio unconditionally, so it is only opened for a
      user who has one. */
  class ActivationPage {
    const user: UserProfile
    var agreed: bool

    constructor (u: UserProfile)
      requires u.settings.Some?
      ensures user == u && agreed == u.settings.value.acceptedGuidelines
    {
      user := u;
      agreed := u.settings.value.acceptedGuidelines;
    }

    /** The guidelines checkbox. */
    method SetAgreed(value: bool)
      modifies this`agreed
      ensures agreed == value
    {
      agreed := value;
    }

    /** `handleSubmitRequest`, with its delay collapsed: no update unless the guidelines are
        accepted, otherwise the requested activation. */
    method SubmitRequest() returns (update: Option<UserProfile>)
      requires user.settings.Some?
      ensures update.None? <==> !agreed
      ensures update.Some? ==> update.value == RequestedActivation(user)
    {
      if !agreed {
        return None;
      }
      update := Some(RequestedActivation(user));
    }
  }
}
