# Skillio marketplace core, modelled in Dafny

Skillio is a single-page marketplace for household and tutoring help in Kenya. Customers book
services and pay into escrow, taskers apply, publish a portfolio and run their jobs, and the owner
approves people, releases payouts and runs a small book-lending desk. Everything lives in one
in-memory store (`App.tsx`) that the screens change through a handful of handlers.

This project models that store and the logic of each screen that computes or changes something:

- prices, fees and bundle discounts;
- the time slots and calendars;
- the status paths of bookings, applications, portfolios and books;
- the filters behind every list;
- the validators;
- the multi-step forms.

One Dafny module per source file:

| Module | Source file | Form |
|---|---|---|
| `Types` | `types.ts` | records as datatypes |
| `AppStore` | `App.tsx` | a `Store` class whose methods are specified by the pure `Step` function |
| `CleaningHub`, `Contact`, `ProviderApplicationForm`, `TaskerProfileEditor`, `BookBoutique`, `ReviewCenter`, `IntakeQuiz`, `CustomerProfile`, `AdminCustomerProfile`, `TaskerActivation` | the screens of the same name | a class for the screen's state and pure functions for what it computes |
| `ProviderDashboard`, `AdminDashboard`, `CategoryDiscovery`, `PublicTaskerProfile`, `ServiceDetail`, `SettingsPage`, `BookManager`, `Home` | the screens of the same name | pure functions and lemmas |

Three helper modules have no source file of their own:

- `Lists`: filter, toggle, sums, id-keyed map and upsert.
- `Text`: digits, `parseInt`, `toLocaleString`, whitespace, lower-casing.
- `Money`: `Math.round` of the percentage splits, on whole shillings.

Some inputs are parameters of the model rather than things it computes:

- Random ids, the clock and today's date.
- The calendar arithmetic (`dateAfter`, the weekday of the first of the month).
- The delay of `setTimeout`, which is collapsed.
- Browser validation of `required` inputs on the three `<form>` screens (the contact checkout,
  the book request and the review form), modelled as the empty-field check it performs.

## Model

| member | source | states |
|---|---|---|
| AppStore.StepPrependsOneLog | App.tsx:105-113 | a logging handler puts exactly one `SYSTEM` entry on top of the earlier log and a plain setter leaves the log alone |
| AppStore.RunKeepsLogHistory | App.tsx:105-155 | after any run of handlers the original log is the tail of the new one, under one entry per logging handler |
| AppStore.RunThenStep | App.tsx:105-155 | running one more handler after a run is a step from the run's state |
| AppStore.CreateBookingPrepends | App.tsx:115-118 | a new booking is first, every earlier booking follows unchanged, and the list grows by one (no merging) |
| AppStore.UpdateBookingStatusOnlyMatching | App.tsx:121-123 | only bookings with that id change, and only in their status; length and applications are kept |
| AppStore.UpdateProfileUpserts | App.tsx:126-133 | the profile becomes the signed-in profile and the one record for its id, replaced in place or appended; unique ids stay unique |
| AppStore.ApplicationStatusOnlyMatching | App.tsx:141-142 | the new status lands on the applications with that id and no other |
| AppStore.ApplicationStatusUnknownId | App.tsx:141-149 | an unknown application id changes no application, no user and not the signed-in profile |
| AppStore.ApplicationStatusReachesOwner | App.tsx:143-148 | the owner of the first matching application, and the signed-in profile if it is that owner, take the new provider status |
| AppStore.AssignProviderAppends | App.tsx:153-155 | the provider id is appended to that service's list (an absent list counts as empty), duplicates kept, other services untouched |
| AppStore.SubmitApplicationUpserts | App.tsx:296-308 | the application is upserted by applicant; the user becomes `applied` with its e-mail and phone, nothing else of the profile changes, and one log entry survives |
| AppStore.SubmitIsProfileUpdateThenLog | App.tsx:296-309 | submitting is the profile update applied after the upsert, with the update's log entry replaced by the submission entry on the log as it was |
| AppStore.Store.constructor | App.tsx:70-83 | the store starts from the given lists and profile |
| AppStore.Store.AddLog | App.tsx:105-113 | prepends one entry |
| AppStore.Store.CreateBooking | App.tsx:115-119 | new state is `Step` of the old one |
| AppStore.Store.UpdateBookingStatus | App.tsx:121-124 | new state is `Step` of the old one |
| AppStore.Store.UpdateProfile | App.tsx:126-134 | new state is `Step` of the old one |
| AppStore.Store.AddReview | App.tsx:136-139 | new state is `Step` of the old one |
| AppStore.Store.UpdateApplicationStatus | App.tsx:141-151 | new state is `Step` of the old one |
| AppStore.Store.UpdateApplicationFeedback | App.tsx:228 | new state is `Step` of the old one, without a log entry |
| AppStore.Store.AssignProvider | App.tsx:153-156 | new state is `Step` of the old one |
| AppStore.Store.SubmitApplication | App.tsx:296-309 | new state is `Step` of the old one |
| AppStore.Store.Borrow | App.tsx:317 | the requested book is put first on the shelf |
| AppStore.Store.SetBookings | App.tsx:223 | the booking list is replaced |
| AppStore.Store.SetBooks | App.tsx:225 | the book list is replaced |
| Lists.Toggle | components/CleaningHub.tsx:93-99 | the toggled item is present afterwards exactly when it was absent before, and every other item is kept |
| Lists.ToggleTwice | components/ProviderApplicationForm.tsx:267-279 | toggling an absent item on and off again restores the list |
| Lists.ToggleKeepsNoDup | components/IntakeQuiz.tsx:27-34 | toggling never duplicates an entry |
| Lists.Upsert | App.tsx:128-131 | replaces every record with the key, or appends when there is none |
| Lists.UpsertKeepsKeysUnique | App.tsx:297-301 | an upsert keeps keys unique |
| Money.TenPercent | components/Contact.tsx:27 | the nearest integer to a tenth, halves up, never above the amount |
| Money.FifteenPercent | components/AdminDashboard.tsx:46 | the nearest integer to 15%, halves up |
| Money.EightyFivePercent | components/AdminDashboard.tsx:280 | the nearest integer to 85%, halves up |
| Money.PayoutAndFeeCoverAmount | components/AdminDashboard.tsx:46-47 | the 85% column and the 15% fee add up to the amount or one more, the latter exactly when the amount is 10 mod 20 |
| Text.Decimal | App.tsx:118 | `String(n)` is a digit string that reads back as `n` |
| Text.Pad2 | components/Contact.tsx:36 | `padStart(2, '0')` gives two digits that read back as the number |
| Text.Grouped | components/ProviderApplicationForm.tsx:244 | `toLocaleString` starts with a digit and holds only digits and commas |
| Text.GroupedReadsBack | components/ProviderApplicationForm.tsx:244 | removing the grouping commas gives the number back |
| Text.LowerIgnoresCase | components/AdminDashboard.tsx:54-55 | two strings lower-case alike iff they have the same length and agree letter by letter up to ASCII case; lower-casing is idempotent |
| CleaningHub.ComputeTotals | components/CleaningHub.tsx:56-68 | subtotal is tier plus extras; bundle iff at least three items; discount is 10% rounded on a bundle and 0 otherwise; discount plus final total is the subtotal |
| CleaningHub.StandardBundleExample | components/CleaningHub.tsx:22-32 | Standard with Yard and Laundry is 2400, less 240, for 2160 |
| CleaningHub.ToggleExtra | components/CleaningHub.tsx:93-99 | a selected extra is removed by id, an unselected one appended; every other extra is kept and nothing but the selection and the toggled extra appears |
| CleaningHub.ToggleExtraKeepsIdsUnique | components/CleaningHub.tsx:93-99 | selected extra ids stay unique |
| CleaningHub.FilterKeepsKeysUnique | components/CleaningHub.tsx:96 | filtering keeps keys unique |
| CleaningHub.TakenSlots | components/CleaningHub.tsx:87-89 | a start time is listed iff a live owner booking that day starts then |
| CleaningHub.AvailableTimeSlots | components/CleaningHub.tsx:85-91 | none before a day is picked; otherwise exactly the standard slots not taken that day, in order |
| CleaningHub.BookedSlotDisappears | components/CleaningHub.tsx:85-91 | once a hub booking for a day and hour is stored, that hour is no longer offered that day |
| CleaningHub.AvailableDays | components/CleaningHub.tsx:71-81 | fourteen days, the k-th being k+1 days after today |
| CleaningHub.HubBooking | components/CleaningHub.tsx:107-127 | confirmed, paid to escrow, no platform fee, price and payout equal the final total, assigned to the owner at the chosen slot |
| CleaningHub.HubSession.constructor | components/CleaningHub.tsx:39-48 | the wizard starts on the type screen with nothing chosen |
| CleaningHub.HubSession.SelectTier | components/CleaningHub.tsx:176 | records the tier |
| CleaningHub.HubSession.ContinueToExtras | components/CleaningHub.tsx:192-193 | moves on only once a tier is chosen |
| CleaningHub.HubSession.ToggleExtraOnScreen | components/CleaningHub.tsx:223 | applies `ToggleExtra` |
| CleaningHub.HubSession.BackToType | components/CleaningHub.tsx:240 | back to the type screen |
| CleaningHub.HubSession.ContinueToSchedule | components/CleaningHub.tsx:242 | on to the schedule |
| CleaningHub.HubSession.SelectDate | components/CleaningHub.tsx:266 | picking a day clears the hour |
| CleaningHub.HubSession.SelectTime | components/CleaningHub.tsx:289 | records the hour |
| CleaningHub.HubSession.BackToExtras | components/CleaningHub.tsx:302 | back to the extras |
| CleaningHub.HubSession.ContinueToSummary | components/CleaningHub.tsx:304-305 | moves on only with both a day and an hour |
| CleaningHub.HubSession.Reschedule | components/CleaningHub.tsx:371 | back to the schedule |
| CleaningHub.HubSession.Confirm | components/CleaningHub.tsx:101-136 | the guard always holds on the summary; emits `HubBooking` and reaches success |
| Contact.DigitsNumberIsParsedDigits | components/Contact.tsx:26 | reading the digits in place equals stripping non-digits and parsing |
| Contact.BasePriceOfDisplayPrice | components/Contact.tsx:26 | "KES 2,000/session" is worth 2000 |
| Contact.FeeSplit | components/Contact.tsx:26-28 | total is the base price, the fee is 10% rounded, and fee plus payout is the total |
| Contact.FeeSplitExample | components/Contact.tsx:62-64 | 2000 splits into 200 and 1800 |
| Contact.FormatClock | components/Contact.tsx:36 | the formatted time reads back as its hour and minute |
| Contact.EndTime | components/Contact.tsx:30-37 | the end is the start plus the duration on a 24-hour clock |
| Contact.MinuteOfDay | components/Contact.tsx:35 | the minute of the day wraps below 1440 |
| Contact.DefaultEndTime | components/Contact.tsx:22-37 | 16:00 plus the default 60 minutes is 17:00 |
| Contact.EndTimeWrapsAtMidnight | components/Contact.tsx:32-37 | 23:30 plus 90 minutes is 01:00 |
| Contact.ContactBooking | components/Contact.tsx:44-65 | requested, paid to escrow, for the target provider; fee and payout split the base price; end time computed |
| Contact.Checkout.constructor | components/Contact.tsx:15-24 | starts on the details form |
| Contact.Checkout.EditForm | components/Contact.tsx:156 | form edits change only the edited fields |
| Contact.Checkout.StartPayment | components/Contact.tsx:39-42 | details go to M-Pesa iff name, phone, date and start time are filled; otherwise the form stays on details |
| Contact.ConfirmedBookingHasDetails | components/Contact.tsx:44-65 | a booking confirmed from a filled form carries a non-empty customer name, date and start time |
| Contact.Checkout.CancelPayment | components/Contact.tsx:119 | M-Pesa back to details, the form kept |
| Contact.Checkout.ConfirmPayment | components/Contact.tsx:44-71 | M-Pesa to success, the only step that emits a booking |
| ProviderDashboard.MyBookings | components/ProviderDashboard.tsx:23-25 | exactly the bookings assigned to the tasker |
| ProviderDashboard.FinancialsIgnoreOtherTaskers | components/ProviderDashboard.tsx:27-41 | other taskers' bookings never move the three figures |
| ProviderDashboard.FinancialsNonNegative | components/ProviderDashboard.tsx:27-41 | with non-negative amounts every figure is non-negative |
| ProviderDashboard.NextStatus | components/ProviderDashboard.tsx:128-130 | a button exists exactly for Requested, Accepted and In Progress |
| ProviderDashboard.NextStatusAdvancesOnePlace | components/ProviderDashboard.tsx:128-130 | each button moves one place along Requested, Accepted, In Progress, Completed, never out of Completed |
| ProviderDashboard.ActiveJobs | components/ProviderDashboard.tsx:88 | only the tasker's bookings that are neither completed nor cancelled |
| ProviderDashboard.ActiveJobsListsEveryOpenJob | components/ProviderDashboard.tsx:88 | every open job of the tasker is listed |
| ProviderDashboard.ButtonMovesOnlyItsJob | components/ProviderDashboard.tsx:43-48 | a job row has no button iff its status is not Requested, Accepted or In Progress; its button moves that job one place along the status path, changes nothing else of it and no other booking |
| ProviderDashboard.CompletingOneJob | components/ProviderDashboard.tsx:28-38 | completing a job takes its payout out of escrow and adds its fee, and cleared does not move |
| ProviderDashboard.CompletingMovesOutOfEscrow | components/ProviderDashboard.tsx:43-48 | the same, through the store's status update with unique ids |
| AdminDashboard.TreasuryStats | components/AdminDashboard.tsx:43-49 | total is the price sum of completed or escrow bookings; fees are 15% rounded; fees plus payouts is the total |
| AdminDashboard.TreasuryReadsOnlyCountedPrices | components/AdminDashboard.tsx:43-49 | the treasury depends only on which bookings count and their prices, not on the stored fee |
| AdminDashboard.PayoutColumn | components/AdminDashboard.tsx:280 | 85% of the price, rounded |
| AdminDashboard.FilteredBookings | components/AdminDashboard.tsx:51-58 | exactly the bookings matching date exactly and service and tasker case-insensitively |
| AdminDashboard.EmptyFilterShowsAll | components/AdminDashboard.tsx:53-55 | empty fields show every booking |
| AdminDashboard.FilteredBookingsKeepsOrder | components/AdminDashboard.tsx:52 | the search keeps order |
| AdminDashboard.MarkPaid | components/AdminDashboard.tsx:287-290 | only that booking's payment status changes, to released |
| AdminDashboard.ReleasingOneJob | components/ProviderDashboard.tsx:27-41 | releasing one completed escrow booking adds its payout to cleared when it is the tasker's, and leaves escrow and fees unchanged |
| AdminDashboard.MarkPaidReleasesPayout | components/AdminDashboard.tsx:275-290 | the payout moves into the tasker's cleared figure; escrow, fees and the treasury are unchanged |
| AdminDashboard.IdentityQueue | components/AdminDashboard.tsx:318-321 | exactly the applications that are applied or changes-required |
| AdminDashboard.ApprovalLands | components/AdminDashboard.tsx:352-356 | "Approve" through the store: the applications with that id carry the typed feedback (or the welcome message) and the approved status, the others are unchanged; the owner becomes approved in the user list and, when signed in, in the profile; the form the owner reopens starts on screen 1 |
| AdminDashboard.RequestChangesLands | components/AdminDashboard.tsx:359-364 | "Request changes" without typed feedback changes no state; with it, the applications with that id carry the feedback and changes-required, the owner takes that status, and the form the owner reopens starts on the status screen |
| AdminDashboard.IdentityDecisionLands | components/AdminDashboard.tsx:352-364 | through the store, matching applications carry the decision's feedback and status, others are unchanged |
| AdminDashboard.PendingPortfolios | components/AdminDashboard.tsx:61-63 | exactly the users whose portfolio is submitted |
| AdminDashboard.PortfolioActions | components/AdminDashboard.tsx:65-87 | nothing for an unknown user or one without a portfolio; else ends with the user saved with the decided submission status |
| AdminDashboard.PortfolioActionsWithApplication | components/AdminDashboard.tsx:77-84 | with an application, feedback first, changes-required in between for a change request |
| AdminDashboard.ApprovePortfolioLands | components/AdminDashboard.tsx:65-87 | approving a portfolio through the store: the signed-in profile and every record of the user end with the portfolio approved, and the user's application carries the typed feedback or the congratulation |
| AdminDashboard.RequestPortfolioChangesLands | components/AdminDashboard.tsx:421-424 | asking for portfolio changes without typed feedback changes no state; with it the portfolio returns to draft for the profile and every record of the user, and the user's application carries the feedback and changes-required |
| AdminDashboard.ApprovedTaskers | components/AdminDashboard.tsx:446 | exactly the approved providers |
| AdminDashboard.PauseAsWrittenChangesNothing | components/AdminDashboard.tsx:469 | passing the user id as an application id changes no application, user or profile |
| AdminDashboard.Pause | components/AdminDashboard.tsx:469 | corrected: suspends the application the user filed, none when there is none |
| AdminDashboard.PauseSuspendsTasker | App.tsx:141-149 | the corrected Pause suspends the tasker in the user list |
| CategoryDiscovery.FilteredTaskers | components/CategoryDiscovery.tsx:19-40 | exactly the users with a portfolio, approved, live and visible, with an active service in the category or the category preferred |
| CategoryDiscovery.FilteredTaskersKeepsOrder | components/CategoryDiscovery.tsx:20 | the listing keeps order |
| CategoryDiscovery.UnapprovedNeverListed | components/CategoryDiscovery.tsx:21-29 | an applied user or one without a portfolio is never listed |
| CategoryDiscovery.PriceIgnoresActiveFlag | components/CategoryDiscovery.tsx:65-66 | the price shown is that of the first service of the category whether or not it is active: flipping its active flag leaves the price unchanged |
| PublicTaskerProfile.ApprovedModules | components/PublicTaskerProfile.tsx:16-18 | exactly the approved and active services |
| PublicTaskerProfile.LeadingBlanks | components/PublicTaskerProfile.tsx:23-28 | the blanks before day 1 of a Monday-first week |
| PublicTaskerProfile.CalendarDays | components/PublicTaskerProfile.tsx:20-38 | the blanks, then one cell per day numbered from 1 with its status |
| PublicTaskerProfile.BookedIffOccupied | components/PublicTaskerProfile.tsx:30-36 | a day shows booked iff it is not past, not blocked and holds a non-cancelled booking of the tasker; available iff not past, not blocked and free; blocked iff not past and blocked |
| ServiceDetail.AssistantPrice | components/ServiceDetail.tsx:43 | as written: the pricing stored under the category name, else "Market Rate" |
| ServiceDetail.MapAssistants | components/ServiceDetail.tsx:31-44 | one card per application, pointwise, each with the price the card reads as written |
| ServiceDetail.FormBuiltCardsShowMarketRate | components/ServiceDetail.tsx:31-45 | as written, when every application keys its pricing by service id, every card shows "Market Rate" |
| ServiceDetail.UnpricedTaskerShowsMarketRate | components/ServiceDetail.tsx:43 | with the correction, a tasker with no priced service of the category still shows "Market Rate" |
| ServiceDetail.CardComesFromEligible | components/ServiceDetail.tsx:16-45 | every card comes from an approved, assigned application and is verified |
| ServiceDetail.EligibleHasCard | components/ServiceDetail.tsx:16-45 | every approved, assigned application has its card |
| ServiceDetail.AssistantsKeepOrder | components/ServiceDetail.tsx:16-45 | cards keep application order |
| ServiceDetail.NoListNoAssistants | components/ServiceDetail.tsx:20-29 | a service with no assignment list shows no assistants |
| ServiceDetail.EnabledBookingNamesTheChoice | components/ServiceDetail.tsx:85-86 | disabled iff assistants are listed and none is picked; enabled with assistants books the picked one |
| ServiceDetail.FormPricesNeverShown | components/ServiceDetail.tsx:43 | for applications the form builds, the card always shows "Market Rate" |
| ServiceDetail.PricedTaskerShowsTheirPrice | components/ProviderApplicationForm.tsx:240-245 | with the correction, a tasker who priced a service of the category shows that price |
| ProviderApplicationForm.CategoryIn | components/ProviderApplicationForm.tsx:199-205 | the category a service id is filed under, or none when no category lists it |
| ProviderApplicationForm.CategoryNameIsNoServiceId | components/ProviderApplicationForm.tsx:29-127 | no category name is a service id |
| ProviderApplicationForm.RulesAreConsistent | components/ProviderApplicationForm.tsx:136-145 | each rule has 0 < min <= default <= max and a first unit |
| ProviderApplicationForm.DefaultPriceIsValid | components/ProviderApplicationForm.tsx:207-224 | a default price is truthy and within range |
| ProviderApplicationForm.FillStep | components/ProviderApplicationForm.tsx:211-220 | one step of the effect keeps the fill relation |
| ProviderApplicationForm.FillDefaults | components/ProviderApplicationForm.tsx:207-224 | falsy prices of selected catalogue services get the default and first unit; everything else is kept |
| ProviderApplicationForm.FillPricesEverySelected | components/ProviderApplicationForm.tsx:207-224 | after the fill every selected catalogue service has a usable price |
| ProviderApplicationForm.FillIntroducesNoErrors | components/ProviderApplicationForm.tsx:226-234 | every pricing error after the fill was already there |
| ProviderApplicationForm.DigitCommaRun | components/ProviderApplicationForm.tsx:156 | the greedy digit-and-comma run |
| ProviderApplicationForm.LineRun | components/ProviderApplicationForm.tsx:156 | what `.+` takes: a prefix without line terminators that stops only at a line terminator or the end |
| ProviderApplicationForm.MatchHere | components/ProviderApplicationForm.tsx:156 | a match captures a non-empty digit-and-comma run |
| ProviderApplicationForm.MatchPricingFindsFirst | components/ProviderApplicationForm.tsx:156 | the pattern matches iff some position matches, and then its captures are those of the first such position |
| ProviderApplicationForm.DropCommasOfRun | components/ProviderApplicationForm.tsx:158 | removing commas from the run leaves digits |
| ProviderApplicationForm.DigitCommaRunStops | components/ProviderApplicationForm.tsx:156 | the run stops at the space after the number |
| ProviderApplicationForm.LineRunWhole | components/ProviderApplicationForm.tsx:156 | a unit without line breaks is taken whole |
| ProviderApplicationForm.MatchesStoredString | components/ProviderApplicationForm.tsx:156 | a stored string matches at its start with its run and unit |
| ProviderApplicationForm.GroupedKeepsADigit | components/ProviderApplicationForm.tsx:244 | a grouped number keeps a digit without its commas |
| ProviderApplicationForm.PricingStringReadsBack | components/ProviderApplicationForm.tsx:152-163 | parsing a stored price string gives back its price and unit |
| ProviderApplicationForm.PricingStrings | components/ProviderApplicationForm.tsx:240-245 | none iff a selected service has no price, else one string per selected service |
| ProviderApplicationForm.ParsePricingStrings | components/ProviderApplicationForm.tsx:152-163 | a price and unit for exactly the entries that match |
| ProviderApplicationForm.StoredPricingReadsBack | components/ProviderApplicationForm.tsx:165-191 | reopening a submitted application restores every selected service's price and unit |
| ProviderApplicationForm.ExistingApplication | App.tsx:295 | the application handed to the form is one the user filed, and there is none iff the user filed none |
| AdminDashboard.DecisionReachesApplicant | components/ProviderApplicationForm.tsx:149 | after a decision on a user's application the owner's records take the status, the form reopens with the decided application, and it starts on the status screen iff changes were requested |
| ProviderApplicationForm.ApplicationForm.constructor | components/ProviderApplicationForm.tsx:165-191 | the form opens on `InitialStep` with the application's contents and parsed prices, or the profile's contact details |
| ProviderApplicationForm.ApplicationForm.Begin | components/ProviderApplicationForm.tsx:296 | to screen 2 |
| ProviderApplicationForm.ApplicationForm.Next | components/ProviderApplicationForm.tsx:364 | one screen on exactly when the screen's fields are filled |
| ProviderApplicationForm.ApplicationForm.Back | components/ProviderApplicationForm.tsx:363 | screen 2 returns to the opening screen, others one back |
| ProviderApplicationForm.ApplicationForm.ToggleCategory | components/ProviderApplicationForm.tsx:267-272 | toggles the skill |
| ProviderApplicationForm.ApplicationForm.ToggleSpecificService | components/ProviderApplicationForm.tsx:274-279 | toggles the service |
| ProviderApplicationForm.ApplicationForm.RunDefaultPricing | components/ProviderApplicationForm.tsx:207-224 | the data after the effect is a default fill |
| ProviderApplicationForm.ApplicationForm.SetPrice | components/ProviderApplicationForm.tsx:442 | `parseInt(value) \|\| 0` |
| ProviderApplicationForm.ApplicationForm.SetUnit | components/ProviderApplicationForm.tsx:443 | records the unit |
| ProviderApplicationForm.ApplicationForm.EditDetails | components/ProviderApplicationForm.tsx:340 | the text inputs and the terms box |
| ProviderApplicationForm.ApplicationForm.Submit | components/ProviderApplicationForm.tsx:236-265 | nothing, the form staying on screen 6, without the terms, with a pricing error or with a selected service left unpriced; else an `applied` application with the form's skills, experience and availability, submitted now, keeping an existing id and date, and screen 7 |
| TaskerProfileEditor.EmailCheckSound | components/TaskerProfileEditor.tsx:84 | what the check accepts has the pattern's shape |
| TaskerProfileEditor.FirstAtSign | components/TaskerProfileEditor.tsx:84 | the first '@' is found where the plain prefix ends |
| TaskerProfileEditor.EmailCheckComplete | components/TaskerProfileEditor.tsx:84 | every string of the pattern passes |
| TaskerProfileEditor.EmailCheckMatchesPattern | components/TaskerProfileEditor.tsx:84 | valid iff of the pattern's shape |
| TaskerProfileEditor.PhoneIgnoresWhitespace | components/TaskerProfileEditor.tsx:85 | whitespace anywhere in the number is ignored |
| TaskerProfileEditor.PhoneLength | components/TaskerProfileEditor.tsx:85 | a valid number has 13 characters (+254) or 10 (0) |
| TaskerProfileEditor.DefaultSettings | components/TaskerProfileEditor.tsx:37-68 | visible, active, accepting, draft, default grid, the user's name |
| TaskerProfileEditor.SaveForgetsActivation | components/TaskerProfileEditor.tsx:37-68 | as written, the buffer drops a pending activation request and the active flag |
| TaskerProfileEditor.EditorSettings | components/TaskerProfileEditor.tsx:24-68 | corrected: the stored portfolio with its fallbacks, every other field (the activation fields included) kept |
| TaskerProfileEditor.EditorSettingsCorrectsOnlyActivation | components/TaskerProfileEditor.tsx:37-68 | the correction differs from the written buffer only in the activation fields |
| TaskerProfileEditor.ApplyEdit | components/TaskerProfileEditor.tsx:203-222 | a description edit sets the text, a rate edit the price (`parseInt \|\| 0`), a kind edit the price type; the other two editable fields and id, title, category, flags and publish state are kept |
| TaskerProfileEditor.PortfolioEditor.constructor | components/TaskerProfileEditor.tsx:27-70 | as written: starts from the user's contact details and the rebuilt portfolio, which carries the stored submission status and no activation request or active flag |
| TaskerProfileEditor.PortfolioEditor.SetEmail | components/TaskerProfileEditor.tsx:175 | records the e-mail and marks a change |
| TaskerProfileEditor.PortfolioEditor.SetPhone | components/TaskerProfileEditor.tsx:179 | records the phone and marks a change |
| TaskerProfileEditor.PortfolioEditor.SetIdentityText | components/TaskerProfileEditor.tsx:167-184 | records name, headline and bio |
| TaskerProfileEditor.PortfolioEditor.UpdateService | components/TaskerProfileEditor.tsx:107-113 | the edit lands on the services with that id only |
| TaskerProfileEditor.PortfolioEditor.ToggleDay | components/TaskerProfileEditor.tsx:115-121 | flips one day's closed flag and keeps its hours |
| TaskerProfileEditor.PortfolioEditor.SetDayHours | components/TaskerProfileEditor.tsx:238 | sets one day's start or end |
| TaskerProfileEditor.PortfolioEditor.ToggleDeactivated | components/TaskerProfileEditor.tsx:262 | flips the deactivated flag |
| TaskerProfileEditor.PortfolioEditor.Save | components/TaskerProfileEditor.tsx:87-105 | none iff e-mail or phone is invalid; else the user with the new contact and portfolio, the stored submission status kept (draft without a portfolio) and, as written, no activation request and an inactive profile |
| TaskerProfileEditor.JobsDoneCounts | components/TaskerProfileEditor.tsx:77-82 | jobs done is the number of the tasker's completed jobs |
| TaskerProfileEditor.CompletingAddsToMetrics | components/TaskerProfileEditor.tsx:77-82 | completing one of the tasker's open jobs adds one job and its payout |
| TaskerProfileEditor.OwnerGuidance | components/TaskerProfileEditor.tsx:72-75 | the feedback on the first application of the user, none without one |
| SettingsPage.SubmissionCycle | components/Settings.tsx:18-30 | submitting marks the portfolio submitted, so it enters the owner's queue; either decision takes it out again and it can be resubmitted; an approved provider's go-live panel shows "in review" once sent, then "live" on approval or "ready to submit" after a change request |
| SettingsPage.ExactlyOneStatusPanel | components/Settings.tsx:70-189 | each user sees exactly one of the four status panels: the identity notice iff applied, the apply button iff no status, under review, rejected or suspended; the go-live panel only with the tasker tools |
| TaskerActivation.RequestHidesForm | components/TaskerActivation.tsx:25-38 | after a request the status reads "submitted" (or "active" for an active profile) and the form is no longer shown; only the request status and the guidelines flag change |
| TaskerActivation.ActivationPage.constructor | components/TaskerActivation.tsx:12-13 | the checkbox starts from the accepted-guidelines flag |
| TaskerActivation.ActivationPage.SetAgreed | components/TaskerActivation.tsx:13 | records the checkbox |
| TaskerActivation.ActivationPage.SubmitRequest | components/TaskerActivation.tsx:16-36 | none iff not agreed, else the portfolio with the request submitted and guidelines accepted |
| BookManager.UpdateStatus | components/AdminBookManager.tsx:15-17 | only the books with that id change, and only in status; length and order kept |
| BookManager.Listed | components/AdminBookManager.tsx:59-112 | a tab lists exactly the books of its status |
| BookManager.TabsMoveOneStage | components/AdminBookManager.tsx:57-120 | every acting tab moves its books exactly one stage on, and none acts on a returned book |
| BookManager.EveryStageHasOneTab | components/AdminBookManager.tsx:19-28 | each stage but the last has exactly one acting tab |
| BookManager.ButtonAdvancesOneBook | components/AdminBookManager.tsx:72-116 | pressing a tab's button on a listed book advances it one stage and leaves the others |
| BookBoutique.RequestForm.constructor | components/BookBoutique.tsx:13-14 | closed, empty, 14 days |
| BookBoutique.RequestForm.ToggleForm | components/BookBoutique.tsx:46 | opens or closes the form |
| BookBoutique.RequestForm.SetTitle | components/BookBoutique.tsx:61 | records the title |
| BookBoutique.RequestForm.SetAuthor | components/BookBoutique.tsx:65 | records the author |
| BookBoutique.RequestForm.ChooseDuration | components/BookBoutique.tsx:70-71 | one of 7, 14 or 30 days |
| BookBoutique.RequestForm.Submit | components/BookBoutique.tsx:16-31 | none without title or author; else a requested book under the user's or the guest name and e-mail, and the form resets and closes |
| BookBoutique.MyBooks | components/BookBoutique.tsx:33 | exactly the books under the user's e-mail; none without a user |
| BookBoutique.NewRequestHeadsShelf | App.tsx:317 | a signed-in user's new request heads their shelf |
| BookBoutique.LitSegments | components/BookBoutique.tsx:123-126 | stage+1 segments are lit; one for a request, five for a return, one more per desk move |
| AdminCustomerProfile.CountStep | components/AdminCustomerProfile.tsx:42 | one more booking adds one to its title's count only |
| AdminCustomerProfile.CountIsBookedTimes | components/AdminCustomerProfile.tsx:178 | the count is the "Booked N times" filter length |
| AdminCustomerProfile.OrNotAvailable | components/AdminCustomerProfile.tsx:43 | an empty title shows as "N/A" |
| AdminCustomerProfile.CountByTitle | components/AdminCustomerProfile.tsx:41-42 | one entry per booked title holding its count |
| AdminCustomerProfile.FavoriteService | components/AdminCustomerProfile.tsx:40-44 | "N/A" with no bookings; else the most booked title, ties going to the one booked first |
| AdminCustomerProfile.FavouriteIsUnique | components/AdminCustomerProfile.tsx:43 | the winner is unique and is the first booking of its title |
| AdminCustomerProfile.StrictMajorityWins | components/AdminCustomerProfile.tsx:43 | a title booked strictly most often wins |
| AdminCustomerProfile.SegmentIsMonotone | components/AdminCustomerProfile.tsx:108 | the segment never drops as bookings grow |
| AdminCustomerProfile.AverageBookingValue | components/AdminCustomerProfile.tsx:231 | spend per booking (no bookings divide by one), rounded to nearest, halves up |
| AdminCustomerProfile.Flipped | components/AdminCustomerProfile.tsx:270 | the account status always changes |
| AdminCustomerProfile.FlipTwice | components/AdminCustomerProfile.tsx:270 | flipping twice restores it |
| AdminCustomerProfile.ClientControls.constructor | components/AdminCustomerProfile.tsx:25-27 | active, reliable, no attention flag, no notes |
| AdminCustomerProfile.ClientControls.ToggleStatus | components/AdminCustomerProfile.tsx:270 | pause or reactivate |
| AdminCustomerProfile.ClientControls.ToggleReliable | components/AdminCustomerProfile.tsx:200 | flips the reliable flag only |
| AdminCustomerProfile.ClientControls.ToggleAttention | components/AdminCustomerProfile.tsx:204 | flips the attention flag only |
| AdminCustomerProfile.ClientControls.SetNotes | components/AdminCustomerProfile.tsx:215 | records the notes |
| ReviewCenter.TitleNamesTheService | components/ReviewCenter.tsx:22-26 | with unique ids a review names the service it is for |
| ReviewCenter.UntouchedFormNamesFirstService | components/ReviewCenter.tsx:15-26 | a review sent without choosing a service names the first service listed; with no services it names "Unknown Service" |
| ReviewCenter.FilledStarsAreTheRating | components/ReviewCenter.tsx:82-86 | a rating of r fills exactly the first r stars |
| ReviewCenter.ReviewForm.constructor | components/ReviewCenter.tsx:12-18 | closed, first service, five stars |
| ReviewCenter.ReviewForm.ToggleOpen | components/ReviewCenter.tsx:48 | opens or closes |
| ReviewCenter.ReviewForm.SetName | components/ReviewCenter.tsx:64 | records the name |
| ReviewCenter.ReviewForm.ChooseService | components/ReviewCenter.tsx:73 | records the service |
| ReviewCenter.ReviewForm.ChooseRating | components/ReviewCenter.tsx:85 | one to five stars |
| ReviewCenter.ReviewForm.SetComment | components/ReviewCenter.tsx:99 | records the comment |
| ReviewCenter.ReviewForm.Submit | components/ReviewCenter.tsx:20-37 | none without name or comment; else an unverified, unfeatured review with the service's title, and the form resets and closes |
| IntakeQuiz.ProgressPercent | components/IntakeQuiz.tsx:174 | 20% per step, 100% exactly on the last |
| IntakeQuiz.Quiz.constructor | components/IntakeQuiz.tsx:11-22 | step 1 with the initial answers |
| IntakeQuiz.Quiz.Next | components/IntakeQuiz.tsx:36 | one step on unless greyed out on a nameless first step |
| IntakeQuiz.Quiz.Back | components/IntakeQuiz.tsx:37 | one step back, or leave from step 1 |
| IntakeQuiz.Quiz.ToggleSubject | components/IntakeQuiz.tsx:27-34 | the subject is chosen afterwards iff it was not before; no duplicates |
| IntakeQuiz.Quiz.Answer | components/IntakeQuiz.tsx:109 | on the challenge step, records 100 for 15 and 0 otherwise |
| IntakeQuiz.Quiz.SetChildName | components/IntakeQuiz.tsx:50 | records the name |
| IntakeQuiz.Quiz.Finish | components/IntakeQuiz.tsx:198 | hands on the answers |
| IntakeQuiz.TakeQuiz | components/IntakeQuiz.tsx:27-198 | a full pass: no result without a name; else the name, no subjects, and a score of 100 iff the answer is 10 + 5, 0 otherwise |
| IntakeQuiz.BackUndoesNext | components/IntakeQuiz.tsx:36-37 | Back undoes Next; Next stays put iff greyed out |
| IntakeQuiz.NextUndoesBack | components/IntakeQuiz.tsx:36-37 | Next undoes Back unless that lands on a nameless first step |
| CustomerProfile.MyBookings | components/CustomerProfile.tsx:25 | exactly the bookings under the profile's e-mail |
| CustomerProfile.NewBookingHeadsList | App.tsx:115-116 | a new booking of the customer heads their list |
| CustomerProfile.ProfilePage.constructor | components/CustomerProfile.tsx:16 | edits a copy of the profile |
| CustomerProfile.ProfilePage.SetName | components/CustomerProfile.tsx:68 | changes the name only |
| CustomerProfile.ProfilePage.SetPhone | components/CustomerProfile.tsx:82 | changes the phone only |
| CustomerProfile.ProfilePage.SetAddress | components/CustomerProfile.tsx:86 | changes the address only |
| CustomerProfile.ProfilePage.SetCity | components/CustomerProfile.tsx:90 | changes the city only |
| CustomerProfile.ProfilePage.ChoosePreferredTime | components/CustomerProfile.tsx:99-102 | one of three times |
| CustomerProfile.ProfilePage.ToggleNewsletter | components/CustomerProfile.tsx:158 | flips that preference only |
| CustomerProfile.ProfilePage.ToggleReminders | components/CustomerProfile.tsx:162 | flips that preference only |
| CustomerProfile.ProfilePage.SetGateCode | components/CustomerProfile.tsx:141 | changes the gate code only |
| CustomerProfile.ProfilePage.SetPetInfo | components/CustomerProfile.tsx:145 | changes the pet note only |
| CustomerProfile.ProfilePage.SetInstructions | components/CustomerProfile.tsx:149 | changes the instructions only |
| CustomerProfile.ProfilePage.Save | components/CustomerProfile.tsx:20-23 | hands on the copy, whose id and e-mail are the signed-in ones, so the customer's bookings stay theirs |
| Home.FilteredServices | components/Home.tsx:31-33 | "All" shows every service; a chip shows exactly its category's, in order |
| Home.EachServiceUnderOneChip | components/Home.tsx:31-33 | every service shows under its own chip and no other |
| Home.ChipKeepsOrder | components/Home.tsx:33 | the chips keep order |
| Home.EveryCategoryHasAChip | components/Home.tsx:19-29 | "All" and then all eight categories |
| Home.DecisionDecidesApplyBanner | components/Home.tsx:35-85 | after the owner decides the signed-in user's application, the apply call shows iff the decision is not approval |

## Left out

- Persistence in `localStorage`, login, routing between views, alerts, scrolling and all
  presentation constants (icons, colours, headline and photo fields of assistant cards) are not
  modelled.
- The AI helper (`geminiService.ts`, `SupportCenter.tsx`), `ProfileForm.tsx`, `TutoringHub.tsx`
  and the static pages are not part of this model.
- Random ids, clock readings, today's date and calendar arithmetic are parameters; the
  `setTimeout` delays before a booking, a payout or a request is stored are collapsed, and with
  them the `isProcessing` / `isSubmitting` flags.
- Floating point: prices are whole shillings, so `Math.round` of a percentage is exact integer
  arithmetic; `toFixed(0)` on the average booking value is rounded exactly, not via a double.
- `parseInt` is modelled on digit strings only; its precision limit for very long digit strings
  is not.
- The store's handlers are given one at a time; React's batching is modelled only where it
  decides an outcome: in the application submit, two `addLog` calls close over the same log list,
  so only the second entry survives.
- AdminDashboard.PortfolioActions: a change request on a user with an application issues an
  application status update and then a profile update in one click; both `addLog` calls close
  over the same log (App.tsx:133, 150), so React keeps one entry, while `Run` applies the actions
  in turn and keeps two.
- Presentation-only record fields that no logic reads are not part of the records:
  `photoUrl`, `specialStrengths`, `certifications`, `experienceHighlights`, `workingStyle`,
  `introMessage` and `blockedDateReasons` of the tasker portfolio, and `role`, `joinedDate`,
  `status` and `taskerCredentials` of the user profile.
- CleaningHub.HubSession.Confirm ends on the success step, but the store's booking handler also
  switches the view back to Home (App.tsx:115-118) before the hub sets that step, so that step is
  component state that is never displayed. Contact.Checkout.ConfirmPayment shows its success
  step during the collapsed delay and then leaves for Home the same way. The view switch is not
  modelled.
- AdminDashboard.PortfolioActions: the actions are listed in the order the handler issues them;
  whether React applies the application updates before the profile update is not modelled.
- CleaningHub.AvailableDays: the date arithmetic is the caller's `dateAfter`.
- TaskerProfileEditor.PortfolioEditor.ToggleDay requires the day to be in the grid; the source
  would throw on a missing day.
- TaskerProfileEditor.PhoneLength states the validator in general; no concrete phone number is
  evaluated.
- TaskerActivation.ActivationPage.constructor requires a portfolio, as the page's non-null
  assertion does.
- AdminCustomerProfile.FavoriteService: ties go to the title booked first, which is the order
  `Object.entries` gives for titles that are not array-index strings; numeric-looking titles,
  which JavaScript would enumerate first, are not modelled.
- BookBoutique.RequestForm.Submit and ReviewCenter.ReviewForm.Submit model the browser's
  `required` check as "non-empty"; whitespace-only values pass both.
- Contact.Checkout.StartPayment: the date input's `min` (today) is not modelled, since today's
  date is not part of the model; only the four `required` fields guard the step to M-Pesa.
- Text.LowerIgnoresCase: lower-casing folds ASCII letters only; JavaScript's `toLowerCase` also
  folds other letters ("É" to "é", and "İ" to two code units), so AdminDashboard.FilteredBookings
  can miss a match on names outside ASCII.

## Findings

The card pipeline of the service page and the portfolio editor follow the code as written
(`ServiceDetail.AssistantPrice`, `TaskerProfileEditor.EditorSettingsAsWritten`); the corrected
definitions sit beside them with the intended property proved.

| source | as written | input that shows it | evidently intended | confidence | as-written member | corrected member |
|---|---|---|---|---|---|---|
| components/AdminDashboard.tsx:469 | Pause passes the tasker's user id to the handler that matches application ids | a tasker `user_2` whose application is `APP-1234`: no application matches `user_2`, so nothing is suspended | suspend the application the tasker filed | not executed | AdminDashboard.PauseAsWrittenChangesNothing | AdminDashboard.PauseSuspendsTasker |
| components/ServiceDetail.tsx:43 | the card reads `requestedPricing` under the category name, but the form stores it under service ids | an application with `requestedPricing = {lt1: "KES 600 per hour"}` for a tutoring service shows "Market Rate" | show the tasker's price for a service of that category | not executed | ServiceDetail.FormBuiltCardsShowMarketRate | ServiceDetail.PricedTaskerShowsTheirPrice |
| components/TaskerProfileEditor.tsx:37-68 | the editor rebuilds the portfolio field by field without `activationRequestStatus` and `isProfileActive`, and saving stores that | a tasker with a submitted activation request edits their bio and saves: the request disappears | keep the activation fields through an edit | not executed | TaskerProfileEditor.SaveForgetsActivation | TaskerProfileEditor.EditorSettingsCorrectsOnlyActivation |
