/** The entities the marketplace keeps in memory: the enumerations and records of types.ts.
    Fields that only feed presentation (image URLs, photo URLs, free-text extras) are not modelled. */
module Types {

  datatype Option<+T> = None | Some(value: T) {
    /** `x ?? d` / `x || d` for a value that is either present or undefined. */
    function GetOr(default: T): T {
      if Some? then value else default
    }
  }

  /** A JavaScript number as the form code produces it: an integer, or NaN from `parseInt` of no digits. */
  datatype JsNumber = Num(n: int) | NaN

  datatype Category =
    | LearningTutoring
    | KidsChildServices
    | HomeHelpCleaning
    | CreativeHandmade
    | DigitalTechHelp
    | SchoolStudySupport
    | CommunityErrands
    | SpecialProgramsClubs

  /** The category's string literal as types.ts spells it. */
  function CategoryName(c: Category): string {
    match c
    case LearningTutoring => "Learning & Tutoring"
    case KidsChildServices => "Kids & Child Services"
    case HomeHelpCleaning => "Home Help & Cleaning"
    case CreativeHandmade => "Creative & Handmade"
    case DigitalTechHelp => "Digital & Tech Help"
    case SchoolStudySupport => "School & Study Support"
    case CommunityErrands => "Community & Errands"
    case SpecialProgramsClubs => "Special Programs & Clubs"
  }

  /** Every category, in the order types.ts and the category pickers list them. */
  const AllCategories: seq<Category> := [
    LearningTutoring, KidsChildServices, HomeHelpCleaning, CreativeHandmade,
    DigitalTechHelp, SchoolStudySupport, CommunityErrands, SpecialProgramsClubs
  ]

  datatype BookStatus = Requested | Approved | Purchased | Borrowed | Returned

  datatype ProviderStatus = Applied | UnderReview | Approved | Rejected | Suspended | ChangesRequired

  /** The provider status's string literal as types.ts spells it. */
  function ProviderStatusName(s: ProviderStatus): string {
    match s
    case Applied => "applied"
    case UnderReview => "under_review"
    case Approved => "approved"
    case Rejected => "rejected"
    case Suspended => "suspended"
    case ChangesRequired => "changes_required"
  }

  datatype BookingStatus = Requested | Accepted | Declined | Confirmed | InProgress | Completed | Cancelled

  /** The booking status's string literal as types.ts spells it. */
  function BookingStatusName(s: BookingStatus): string {
    match s
    case Requested => "Requested"
    case Accepted => "Accepted"
    case Declined => "Declined"
    case Confirmed => "Confirmed"
    case InProgress => "In Progress"
    case Completed => "Completed"
    case Cancelled => "Cancelled"
  }

  datatype PaymentStatus = Pending | PaidToEscrow | ReleasedToTasker | Refunded

  datatype PublishState = Draft | Submitted | Approved | Rejected

  datatype TaskerSubmissionStatus = Draft | Submitted | Approved

  datatype SessionType = Online | InPerson

  datatype PriceType = PerHour | PerTask

  datatype ExperienceLevel = Beginner | Intermediate | Advanced

  datatype Service = Service(
    id: string,
    title: string,
    price: string,
    durationMinutes: int,
    category: Category,
    isActive: bool,
    maxJobsPerDay: Option<int>,
    allowedProviderIds: Option<seq<string>>)

  datatype Booking = Booking(
    id: string,
    serviceId: string,
    serviceTitle: string,
    customerName: string,
    customerEmail: string,
    customerPhone: Option<string>,
    providerId: Option<string>,
    providerName: Option<string>,
    message: string,
    status: BookingStatus,
    paymentStatus: PaymentStatus,
    date: string,
    startTime: Option<string>,
    endTime: Option<string>,
    sessionType: SessionType,
    createdAt: string,
    totalPrice: int,
    platformFee: int,
    taskerAmount: int,
    addOns: Option<seq<string>>)

  datatype Book = Book(
    id: string,
    title: string,
    author: string,
    customerName: string,
    customerEmail: string,
    status: BookStatus,
    borrowDuration: int,
    requestDate: string)

  datatype ActivityLog = ActivityLog(id: string, timestamp: string, action: string, user: string)

  datatype Review = Review(
    id: string,
    serviceId: string,
    serviceTitle: string,
    customerName: string,
    rating: int,
    comment: string,
    date: string,
    isVerified: bool,
    isFeatured: bool)

  datatype ProviderApplication = ProviderApplication(
    id: string,
    userId: string,
    userName: string,
    userEmail: string,
    userPhone: string,
    skills: seq<string>,
    specificServices: Option<seq<string>>,
    experience: string,
    availability: string,
    requestedPricing: map<string, string>,
    status: ProviderStatus,
    appliedDate: string,
    submissionTimestamp: Option<string>,
    adminFeedback: Option<string>)

  datatype TaskerService = TaskerService(
    id: string,
    title: string,
    description: string,
    category: Category,
    isActive: bool,
    isBookable: bool,
    publishState: PublishState,
    price: int,
    priceType: PriceType)

  datatype DayAvailability = DayAvailability(isClosed: bool, start: string, end: string)

  /** A tasker's portfolio. `activationRequestStatus` and `isProfileActive` are not declared in
      types.ts but are written and read by the activation page; absent counts as None / false. */
  datatype TaskerProfileSettings = TaskerProfileSettings(
    displayName: string,
    headline: string,
    publicBio: string,
    serviceArea: string,
    languages: seq<string>,
    isAgeEligible: bool,
    isPubliclyVisible: bool,
    customRates: map<string, string>,
    pendingApproval: bool,
    weeklySchedule: string,
    experienceLevel: ExperienceLevel,
    yearsExperience: Option<int>,
    offeredServices: seq<TaskerService>,
    availabilityGrid: map<string, DayAvailability>,
    blockedDates: seq<string>,
    isUnavailableMode: bool,
    acceptingNewBookings: bool,
    preferredJobTypes: seq<Category>,
    isDeactivated: bool,
    submissionStatus: TaskerSubmissionStatus,
    acceptedGuidelines: bool,
    activationRequestStatus: Option<string>,
    isProfileActive: bool)

  datatype Preferences = Preferences(
    preferredTime: string,
    newsletter: bool,
    serviceReminders: bool,
    autoApproveCleaners: bool)

  datatype Notes = Notes(gateCode: string, petInfo: string, generalInstructions: string)

  datatype UserProfile = UserProfile(
    id: string,
    name: string,
    email: string,
    phone: string,
    address: string,
    city: string,
    providerStatus: Option<ProviderStatus>,
    bio: Option<string>,
    settings: Option<TaskerProfileSettings>,
    preferences: Preferences,
    notes: Notes)
}
