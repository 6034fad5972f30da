/** The account settings page (Settings.tsx): which tasker panels it shows for the user's
    provider status, and the request that sends an approved tasker's portfolio for review. */
module SettingsPage {
  import opened Types
  import AdminDashboard

  /** `handleSubmitToGoLive`: nothing without a portfolio; otherwise the same user with the
      portfolio marked submitted. */
  function SubmitToGoLive(u: UserProfile): (r: Option<UserProfile>)
    ensures r.None? <==> u.settings.None?
    ensures r.Some? ==> r.value == u.(settings := Some(u.settings.value.(submissionStatus := TaskerSubmissionStatus.Submitted)))
  {
    if u.settings.None? then None
    else Some(u.(settings := Some(u.settings.value.(submissionStatus := TaskerSubmissionStatus.Submitted))))
  }

  /** A submitted portfolio lands in the owner's portfolio queue, and the owner's decision then
      moves it out again: approval makes it live, a request for changes returns it to draft,
      from where it can be submitted once more. An approved provider's go-live panel follows:
      in review once sent, then live or ready to submit again. */
  lemma SubmissionCycle(u: UserProfile, d: AdminDashboard.PortfolioDecision)
    requires u.settings.Some?
    ensures var sent := SubmitToGoLive(u).value;
      && AdminDashboard.PortfolioSubmitted(sent)
      && var decided := sent.(settings := Some(sent.settings.value.(submissionStatus := AdminDashboard.DecidedStatus(d))));
         && !AdminDashboard.PortfolioSubmitted(decided)
         && AdminDashboard.PortfolioSubmitted(SubmitToGoLive(decided).value)
    ensures u.providerStatus == Some(ProviderStatus.Approved) ==>
      var sent := SubmitToGoLive(u).value;
      var decided := sent.(settings := Some(sent.settings.value.(submissionStatus := AdminDashboard.DecidedStatus(d))));
      && GoLivePanel(sent) == Some(InReview)
      && GoLivePanel(decided) == Some(if d == AdminDashboard.ApprovePortfolio then Live else ReadyToSubmit)
  {
  }

  /** The three variants of the go-live panel. */
  datatype GoLiveVariant = Live | InReview | ReadyToSubmit

  /** The go-live panel: shown only to approved providers with a portfolio, in the variant the
      portfolio's submission status selects. */
  function GoLivePanel(u: UserProfile): (r: Option<GoLiveVariant>)
    ensures r.Some? <==> u.providerStatus == Some(ProviderStatus.Approved) && u.settings.Some?
    ensures r == Some(Live) <==> r.Some? && u.settings.value.submissionStatus == TaskerSubmissionStatus.Approved
    ensures r == Some(InReview) <==> r.Some? && u.settings.value.submissionStatus == TaskerSubmissionStatus.Submitted
    ensures r == Some(ReadyToSubmit) <==> r.Some? && u.settings.value.submissionStatus == TaskerSubmissionStatus.Draft
  {
    if u.providerStatus != Some(ProviderStatus.Approved) || u.settings.None? then None
    else match u.settings.value.submissionStatus
      case Approved => Some(Live)
      case Submitted => Some(InReview)
      case Draft => Some(ReadyToSubmit)
  }

  predicate IsApprovedProvider(u: UserProfile) { u.providerStatus == Some(ProviderStatus.Approved) }
  predicate IsApplied(u: UserProfile) { u.providerStatus == Some(Applied) }
  predicate IsChangesRequired(u: UserProfile) { u.providerStatus == Some(ChangesRequired) }

  /** The prompt to revise the application. */
  predicate ShowsChangesPrompt(u: UserProfile) { IsChangesRequired(u) }

  /** The identity-review notice, guarded by all three flags as the page writes it. */
  predicate ShowsIdentityReview(u: UserProfile) {
    IsApplied(u) && !IsApprovedProvider(u) && !IsChangesRequired(u)
  }

  /** The tasker tools (provider hub and portfolio manager). */
  predicate ShowsTaskerTools(u: UserProfile) { IsApprovedProvider(u) }

  /** The "Apply as Tasker" button. */
  predicate ShowsApply(u: UserProfile) {
    !IsApprovedProvider(u) && !IsApplied(u) && !IsChangesRequired(u)
  }

  /** Each user sees exactly one of the four status panels: the identity notice exactly when
      applied, the apply button exactly when the status is none of approved, applied and
      changes required (no status, under review, rejected or suspended). */
  lemma ExactlyOneStatusPanel(u: UserProfile)
    ensures ShowsIdentityReview(u) <==> u.providerStatus == Some(Applied)
    ensures ShowsApply(u) <==> u.providerStatus.None? || u.providerStatus == Some(UnderReview)
                               || u.providerStatus == Some(ProviderStatus.Rejected) || u.providerStatus == Some(Suspended)
    ensures ShowsChangesPrompt(u) || ShowsIdentityReview(u) || ShowsTaskerTools(u) || ShowsApply(u)
    ensures !(ShowsChangesPrompt(u) && ShowsIdentityReview(u)) && !(ShowsChangesPrompt(u) && ShowsTaskerTools(u))
    ensures !(ShowsChangesPrompt(u) && ShowsApply(u)) && !(ShowsIdentityReview(u) && ShowsTaskerTools(u))
    ensures !(ShowsIdentityReview(u) && ShowsApply(u)) && !(ShowsTaskerTools(u) && ShowsApply(u))
    ensures GoLivePanel(u).Some? ==> ShowsTaskerTools(u)
  {
    if u.providerStatus.Some? {
      match u.providerStatus.value
      case Applied =>
      case UnderReview =>
      case Approved =>
      case Rejected =>
      case Suspended =>
      case ChangesRequired =>
    }
  }
}
