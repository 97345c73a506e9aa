/**
 * The `calendar_book_appointment` tool of
 * backend/src/tools/scheduling/book-appointment.ts: it books the appointment,
 * reads the user, texts a confirmation to the user's phone, promotes a lead to
 * `intro_scheduled`, and reports success; any failure on the way is reported as
 * `success: false` without an appointment id.
 *
 * ISO parsing is the oracle `parseIso`, the date-fns text of an instant the oracle
 * `display`; the new document id (`None` when the write fails), Twilio's answer
 * (`sid`), the id of the interaction logged by the SMS and whether the promotion's
 * `update` is written (`promoted`) are parameters.
 */
module BookAppointmentTool {
  import opened Wrappers
  import opened Text
  import opened Time
  import opened BackendTypes
  import opened Calendar
  import opened Crm
  import opened Messaging

  datatype BookOutput = BookOutput(success: bool, appointmentId: Option<string>, confirmationMessage: string)

  /**
   * How a tool reads the user an appointment belongs to. `StudentsOnly` is
   * `getStudentProfile`, which the code calls and which answers nothing for leads
   * and prospects; `AnyUser` reads the user whatever its type, which the code's
   * lead branch evidently expects.
   */
  datatype ProfileLookup = StudentsOnly | AnyUser

  function Profile(lookup: ProfileLookup, users: seq<User>, userId: string): (r: Option<User>)
    ensures r.Some? ==> r.value in users && r.value.id == userId
    ensures lookup == StudentsOnly && r.Some? ==> IsStudentType(r.value.userType)
  {
    match lookup
    case StudentsOnly => StudentProfile(users, userId)
    case AnyUser => FindById(users, userId)
  }

  /** `user?.phone`, when it is not empty. */
  function RecipientPhone(profile: Option<User>): Option<string> {
    if profile.Some? && profile.value.phone != "" then Some(profile.value.phone) else None
  }

  /** `user?.name || 'there'`. */
  function GreetingName(profile: Option<User>): string {
    if profile.Some? && profile.value.name.Some? && profile.value.name.value != "" then profile.value.name.value
    else "there"
  }

  /** `type.replace('_', ' ')`: only the first underscore becomes a space. */
  function DisplayTypeName(t: AppointmentType): string {
    ReplaceFirst(AppointmentTypeName(t), "_", " ")
  }

  /**
   * Only the first underscore of a name becomes a space: what follows it is kept
   * verbatim, further underscores included.
   */
  lemma OnlyFirstUnderscoreReplaced(s: string, k: nat)
    requires k < |s| && s[k] == '_' && forall i :: 0 <= i < k ==> s[i] != '_'
    ensures ReplaceFirst(s, "_", " ") == s[..k] + " " + s[k + 1..]
  {
    forall i | 0 <= i < k
      ensures !OccursAt(s, "_", i)
    {
      assert s[i..i + 1][0] == s[i];
    }
    assert s[k..k + 1] == "_";
    ReplaceFirstAt(s, "_", " ", k);
  }

  const ScheduledFor: string := " has been scheduled for "
  const ConfirmationClosing: string := ". We look forward to seeing you at Gracie Barra! Reply CONFIRM to secure your spot."
  const BookedFor: string := "Appointment booked successfully for "
  const SmsSent: string := ". Confirmation sent via SMS."

  /** The text sent to the user: greeting, the type with its first underscore a space, and the date. */
  function ConfirmationText(profile: Option<User>, t: AppointmentType, formatted: string): string {
    "Hi " + (GreetingName(profile) + "! Your " + DisplayTypeName(t) + ScheduledFor + formatted + ConfirmationClosing)
  }

  /** The tool's success message, which claims an SMS whether or not one was sent. */
  function SuccessMessage(formatted: string): string {
    BookedFor + (formatted + SmsSent)
  }

  const FailurePrefix: string := "Failed to book appointment: "

  /** What `format(parseISO(dateTime), …)` throws on an unparseable date. */
  const InvalidTime: string := "RangeError: Invalid time value"

  /** The answer of the `catch` block: no success, no id, and the error after the failure prefix. */
  function Failure(error: string): (o: BookOutput)
    ensures !o.success && o.appointmentId.None? && StartsWith(o.confirmationMessage, FailurePrefix)
  {
    assert (FailurePrefix + error)[..|FailurePrefix|] == FailurePrefix;
    BookOutput(false, None, FailurePrefix + error)
  }

  /** The lead branch runs when the user read is a lead. */
  predicate Promotes(profile: Option<User>) {
    profile.Some? && profile.value.userType == Lead
  }

  /** `{ qualificationStatus: 'intro_scheduled' }`. */
  const IntroScheduledPatch: UserPatch := UserPatch(None, None, None, None, None, Some(IntroScheduled))

  /** The users after `updateUser(userId, { qualificationStatus: 'intro_scheduled' })`. */
  function Promoted(users: seq<User>, userId: string, now: Instant): seq<User> {
    var k := IndexOfUser(users, userId);
    if k == -1 then users else users[k := Merge(users[k], IntroScheduledPatch, now)]
  }

  /**
   * What follows the booking succeeds when, if a phone is known, the SMS goes out
   * and is logged, and, if the user is a lead, the promotion is written.
   */
  predicate Confirms(profile: Option<User>, sid: Option<string>, logId: Option<string>, promoted: bool) {
    && (RecipientPhone(profile).Some? ==> sid.Some? && logId.Some?)
    && (Promotes(profile) ==> promoted)
  }

  /** The booking succeeds when the date parses, the write succeeds and the confirmation succeeds. */
  predicate Succeeds(when: Option<Instant>, newId: Option<string>, profile: Option<User>,
                     sid: Option<string>, logId: Option<string>, promoted: bool)
  {
    when.Some? && newId.Some? && Confirms(profile, sid, logId, promoted)
  }

  /**
   * The tool. The appointment is written first, with the date string as given;
   * only then is the date parsed for the confirmation text, so an unparseable date
   * leaves the appointment stored while the tool reports `success: false`. A failed
   * write, an unparseable date, a failed SMS and a failed promotion each end in
   * `success: false` with no appointment id, keeping what the earlier steps did. On success the
   * confirmation is texted when the user has a phone, a lead is promoted, and the
   * message claims an SMS confirmation in every case.
   */
  method BookAppointment(calendar: CalendarStore, crm: UserStore, messaging: MessagingService, lookup: ProfileLookup,
                         userId: string, dateTime: string, t: AppointmentType, duration: Option<int>,
                         notes: Option<string>, parseIso: string -> Option<Instant>, display: Instant -> string,
                         newId: Option<string>, sid: Option<string>, logId: Option<string>, promoted: bool,
                         now: Instant)
    returns (o: BookOutput)
    requires crm.Valid()
    modifies calendar, crm, messaging
    ensures crm.Valid()
    ensures var when := parseIso(dateTime);
      var profile := Profile(lookup, old(crm.users), userId);
      var ok := Succeeds(when, newId, profile, sid, logId, promoted);
      && (ok ==> o == BookOutput(true, newId, SuccessMessage(display(when.value))))
      && (!ok ==> !o.success && o.appointmentId.None? && StartsWith(o.confirmationMessage, FailurePrefix))
      && crm.users == (if ok && Promotes(profile) then Promoted(old(crm.users), userId, now) else old(crm.users))
    ensures calendar.appointments == old(calendar.appointments)
      + (if newId.Some? then [NewAppointment(newId.value, userId, parseIso(dateTime), t, Some(duration.GetOr(60)), notes, now)]
         else [])
    ensures parseIso(dateTime).None? || newId.None? ==>
      messaging.outbox == old(messaging.outbox) && messaging.log == old(messaging.log)
    ensures var when := parseIso(dateTime);
      var profile := Profile(lookup, old(crm.users), userId);
      var phone := RecipientPhone(profile);
      when.Some? && newId.Some? ==>
        var text := ConfirmationText(profile, t, display(when.value));
        && (phone.None? ==> messaging.outbox == old(messaging.outbox) && messaging.log == old(messaging.log))
        && (phone.Some? ==>
              && messaging.outbox == old(messaging.outbox)
                   + (if sid.Some? then [TextMessage(messaging.fromNumber, phone.value, text)] else [])
              && messaging.log == old(messaging.log)
                   + (if sid.Some? && logId.Some? then [OutboundRecord(logId.value, phone.value, Sms, Some(text), now)] else []))
  {
    var booked := calendar.BookAppointment(userId, parseIso(dateTime), t, Some(duration.GetOr(60)), notes, newId, now);
    if booked.Err? {
      return Failure(booked.error);
    }
    var profile := Profile(lookup, crm.users, userId);
    var when := parseIso(dateTime);
    if when.None? {
      return Failure(InvalidTime);
    }
    var formatted := display(when.value);
    var confirmed := Confirm(crm, messaging, profile, userId, ConfirmationText(profile, t, formatted), sid, logId,
                             promoted, now);
    if confirmed.Err? {
      return Failure(confirmed.error);
    }
    o := BookOutput(true, Some(booked.value), SuccessMessage(formatted));
  }

  /**
   * What follows the booking: the confirmation is texted when the user has a
   * phone, and a lead is then promoted. A failed SMS fails the whole step before
   * any promotion, and a promotion whose `update` throws fails it after the SMS.
   * `profile` is the user just read under `userId`.
   */
  method Confirm(crm: UserStore, messaging: MessagingService, profile: Option<User>, userId: string, text: string,
                 sid: Option<string>, logId: Option<string>, promoted: bool, now: Instant)
    returns (r: Result<()>)
    requires crm.Valid()
    requires profile.Some? ==> profile.value in crm.users && profile.value.id == userId
    modifies crm, messaging
    ensures crm.Valid()
    ensures var ok := Confirms(profile, sid, logId, promoted);
      && (r.Ok? <==> ok)
      && crm.users == (if ok && Promotes(profile) then Promoted(old(crm.users), userId, now) else old(crm.users))
    ensures var phone := RecipientPhone(profile);
      phone.None? ==> messaging.outbox == old(messaging.outbox) && messaging.log == old(messaging.log)
    ensures var phone := RecipientPhone(profile);
      phone.Some? ==>
        && messaging.outbox == old(messaging.outbox) + (if sid.Some? then [TextMessage(messaging.fromNumber, phone.value, text)] else [])
        && messaging.log == old(messaging.log)
             + (if sid.Some? && logId.Some? then [OutboundRecord(logId.value, phone.value, Sms, Some(text), now)] else [])
  {
    var phone := RecipientPhone(profile);
    if phone.Some? {
      var sent := messaging.SendSms(phone.value, text, sid, logId, now);
      if sent.Err? {
        return Err(sent.error);
      }
    }
    if Promotes(profile) {
      // The user was just read, so the update finds it.
      assert IndexOfUser(crm.users, userId) >= 0;
      var updated := crm.UpdateUser(userId, IntroScheduledPatch, promoted, now);
      if updated.Err? {
        return Err(updated.error);
      }
    }
    r := Ok(());
  }

  /**
   * As written the tool reads users through `getStudentProfile`, so a lead who
   * books is neither texted a confirmation nor promoted to `intro_scheduled`,
   * whatever phone the lead has: the lead branch can never run.
   */
  lemma AsWrittenLeadsAreNeverPromoted(users: seq<User>, u: User)
    requires UniqueIds(users) && u in users && u.userType == Lead
    ensures RecipientPhone(Profile(StudentsOnly, users, u.id)).None?
    ensures !Promotes(Profile(StudentsOnly, users, u.id))
  {
    NoProfileForNonStudents(users, u);
  }

  /**
   * Reading the user whatever its type, a lead who books is texted at the lead's
   * phone and promoted: only the qualification status and the update time of
   * that one user change.
   */
  lemma CorrectedLookupPromotesLeads(users: seq<User>, u: User, now: Instant)
    requires UniqueIds(users) && u in users && u.userType == Lead
    ensures Promotes(Profile(AnyUser, users, u.id))
    ensures u.phone != "" ==> RecipientPhone(Profile(AnyUser, users, u.id)) == Some(u.phone)
    ensures var after := Promoted(users, u.id, now);
      && |after| == |users|
      && (forall i :: 0 <= i < |users| && users[i].id != u.id ==> after[i] == users[i])
      && (forall i :: 0 <= i < |users| && users[i].id == u.id ==>
            after[i] == u.(qualificationStatus := Some(IntroScheduled), updatedAt := now))
  {
    var found := FindById(users, u.id);
    UniqueIdsDetermineUser(users, found.value, u);
    var k := IndexOfUser(users, u.id);
    UniqueIdsDetermineUser(users, users[k], u);
    forall i | 0 <= i < |users| && users[i].id == u.id
      ensures i == k
    {
      assert users[i].id == users[k].id;
    }
  }
}
