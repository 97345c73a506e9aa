/**
 * The `crm_identify_user` tool of backend/src/tools/crm/identify-user.ts: the user
 * matched by phone, with the student-only fields taken from the student profile.
 */
module IdentifyUserTool {
  import opened Wrappers
  import opened Time
  import opened Text
  import opened BackendTypes
  import opened Crm

  datatype UserSummary = UserSummary(
    id: string,
    name: Option<string>,
    userType: UserType,
    rank: Option<string>,
    lastAttendanceDate: Option<Instant>,
    paymentStatus: Option<PaymentStatus>,
    email: Option<string>)

  datatype IdentifyOutput = IdentifyOutput(found: bool, user: Option<UserSummary>)

  function Summary(u: User, profile: Option<User>): UserSummary {
    UserSummary(u.id, u.name, u.userType,
                if profile.Some? then profile.value.rank else None,
                if profile.Some? then profile.value.lastAttendanceDate else None,
                if profile.Some? then profile.value.paymentStatus else None,
                u.email)
  }

  /**
   * The tool's answer: not found and no user when nobody has the phone; otherwise
   * found, with id, name, type and email from the matched user.
   */
  function IdentifyUser(users: seq<User>, phone: string): (o: IdentifyOutput)
    ensures o.found <==> Crm.IdentifyUser(users, phone).Some?
    ensures !o.found ==> o.user.None?
    ensures o.found ==>
      var u := Crm.IdentifyUser(users, phone).value;
      && o.user.Some?
      && o.user.value.id == u.id && o.user.value.name == u.name
      && o.user.value.userType == u.userType && o.user.value.email == u.email
  {
    var user := Crm.IdentifyUser(users, phone);
    if user.None? then IdentifyOutput(false, None)
    else IdentifyOutput(true, Some(Summary(user.value, StudentProfile(users, user.value.id))))
  }

  /**
   * Rank, last attendance and payment status come only from a student profile: a
   * matched lead or prospect reports none of them, even when its record has them.
   */
  lemma NonStudentsHaveNoStudentFields(users: seq<User>, phone: string)
    requires UniqueIds(users)
    requires Crm.IdentifyUser(users, phone).Some? && !IsStudentType(Crm.IdentifyUser(users, phone).value.userType)
    ensures var s := IdentifyUser(users, phone).user.value;
      s.rank.None? && s.lastAttendanceDate.None? && s.paymentStatus.None?
  {
    var u := Crm.IdentifyUser(users, phone).value;
    NoProfileForNonStudents(users, u);
  }

  /** Two spellings of a phone that differ only in non-digit characters get the same answer. */
  lemma FormattingDoesNotMatter(users: seq<User>, before: string, separator: string, after: string)
    requires forall i :: 0 <= i < |separator| ==> !IsDigit(separator[i])
    ensures IdentifyUser(users, before + separator + after) == IdentifyUser(users, before + after)
  {
    IdentifyIgnoresFormatting(users, before, separator, after);
  }
}
