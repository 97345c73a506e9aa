/**
 * The records the backend keeps in its document store (`users`, `appointments`,
 * `inventory`, `interactions`, `knowledge_base`), as declared in
 * backend/src/types/index.ts. Timestamps that the code compares are instants;
 * free-form values (`metadata`) are string maps.
 */
module BackendTypes {
  import opened Wrappers
  import opened Time

  datatype UserType = NewProspect | ActiveStudent | FormerStudent | Lead

  datatype PaymentStatus = Current | Overdue | Suspended

  datatype LeadSource = FromPhone | FromSms | FromWhatsApp | FromFacebook | FromInstagram | FromWalkin | FromWebsite

  datatype QualificationStatus = Unqualified | Qualified | IntroScheduled | IntroCompleted | Enrolled

  /**
   * A document of the `users` collection. `Student` and `Lead` extend `User` with
   * optional fields; one stored document carries whichever of them were written.
   */
  datatype User = User(
    id: string,
    phone: string,
    email: Option<string>,
    name: Option<string>,
    userType: UserType,
    createdAt: Instant,
    updatedAt: Instant,
    // student fields
    rank: Option<string>,
    lastAttendanceDate: Option<Instant>,
    paymentStatus: Option<PaymentStatus>,
    enrollmentDate: Option<string>,
    // lead fields
    source: Option<LeadSource>,
    interest: Option<string>,
    qualificationStatus: Option<QualificationStatus>)

  predicate IsStudentType(t: UserType) {
    t == ActiveStudent || t == FormerStudent
  }

  datatype AppointmentType = IntroClass | PrivateLesson | RegularClass | BeltTest | Event

  /** The stored spelling of an appointment type. */
  function AppointmentTypeName(t: AppointmentType): string {
    match t
    case IntroClass => "intro_class"
    case PrivateLesson => "private_lesson"
    case RegularClass => "regular_class"
    case BeltTest => "belt_test"
    case Event => "event"
  }

  datatype AppointmentStatus = Scheduled | Confirmed | Completed | NoShow | Cancelled

  /**
   * A document of the `appointments` collection; `duration` is in minutes. The
   * stored `dateTime` is the caller's string, kept here as `parseISO` reads it:
   * `None` is a string that is no date (an Invalid Date, which every comparison
   * rejects).
   */
  datatype Appointment = Appointment(
    id: string,
    userId: string,
    appointmentType: AppointmentType,
    dateTime: Option<Instant>,
    duration: int,
    status: AppointmentStatus,
    notes: Option<string>,
    reminderSent: bool,
    createdAt: Instant)

  datatype TimeSlot = TimeSlot(start: Instant, end: Instant, available: bool, slotType: Option<AppointmentType>)

  datatype StockVariant = StockVariant(size: string, color: string, quantity: int)

  /** A document of the `inventory` collection. */
  datatype InventoryItem = InventoryItem(
    id: string,
    name: string,
    category: string,
    sizes: seq<string>,
    colors: seq<string>,
    stock: seq<StockVariant>,
    price: real,
    sku: Option<string>,
    lowStockThreshold: Option<int>)

  datatype Channel = Voice | Sms | WhatsApp | Facebook | Instagram | Email

  datatype Direction = Inbound | Outbound

  datatype Outcome = Booked | QuestionAnswered | Escalated | Failed | NoAnswer

  datatype Sentiment = Positive | Neutral | Negative

  /** A document of the `interactions` collection; `duration` is in seconds. */
  datatype Interaction = Interaction(
    id: string,
    userId: string,
    channel: Channel,
    direction: Direction,
    outcome: Outcome,
    sentiment: Option<Sentiment>,
    duration: Option<int>,
    summary: Option<string>,
    timestamp: Instant)

  type Metadata = map<string, string>
}
