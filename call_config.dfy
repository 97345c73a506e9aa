/**
 * The `flow_generate_call_config` flow of
 * backend/src/flows/voice/generate-call-config.ts: it identifies the caller by
 * phone, picks the voice assistant's system prompt from a decision table over the
 * user's type, payment status, attendance and the call's purpose, and returns
 * the prompt with a context record copied from the user and a fixed voice setup.
 *
 * A prompt is represented by which of the six prompts was chosen together with
 * the values interpolated into it (defaults already applied); its fixed wording
 * is not reproduced.
 */
module CallConfigFlow {
  import opened Wrappers
  import opened Text
  import opened Time
  import opened BackendTypes
  import opened Crm

  datatype CallPurpose = GeneralCall | SalesCall | RetentionCall | CollectionCall | SupportCall

  /**
   * The system prompt. `NoPrompt` is the empty string the flow starts from; an
   * absent date is rendered by the prompt's own fallback text.
   */
  datatype VoicePrompt =
    | NoPrompt
    | NewCallerPrompt
    | CollectionPrompt(name: string, lastAttendance: Option<Instant>)
    | RetentionPrompt(name: string, rank: string, lastSeen: Option<Instant>)
    | MemberPrompt(name: string, memberSince: string, rank: string)
    | SalesPrompt(name: string)

  datatype CallContext = CallContext(userId: Option<string>, userName: Option<string>, userType: Option<UserType>,
                                     paymentStatus: Option<PaymentStatus>, lastAttendance: Option<Instant>)

  datatype VoiceConfig = VoiceConfig(voiceId: string, stability: real, similarityBoost: real)

  datatype CallConfig = CallConfig(systemPrompt: VoicePrompt, context: CallContext, voiceConfig: VoiceConfig)

  const DefaultVoice: VoiceConfig := VoiceConfig("ElevenLabs-Default", 0.7, 0.8)

  /** The prompt for a known caller, given the caller's student profile, if any. */
  function KnownCallerPrompt(user: User, student: Option<User>, purpose: Option<CallPurpose>): VoicePrompt {
    if student.Some? then
      var s := student.value;
      if s.paymentStatus == Some(Overdue) && purpose == Some(CollectionCall) then
        CollectionPrompt(OrElse(s.name, "a student"), s.lastAttendanceDate)
      else if s.lastAttendanceDate.Some? && purpose == Some(RetentionCall) then
        RetentionPrompt(OrElse(s.name, "a student"), OrElse(s.rank, "student"), s.lastAttendanceDate)
      else
        MemberPrompt(OrElse(s.name, "a student"), OrElse(s.enrollmentDate, "Unknown"), OrElse(s.rank, "Student"))
    else if user.userType == Lead || user.userType == NewProspect then
      SalesPrompt(OrElse(user.name, "a prospect"))
    else NoPrompt
  }

  function ContextOf(user: Option<User>): CallContext {
    if user.None? then CallContext(None, None, None, None, None)
    else
      var u := user.value;
      CallContext(Some(u.id), u.name, Some(u.userType), u.paymentStatus, u.lastAttendanceDate)
  }

  /** The flow; the call type is accepted and ignored, and the purpose it settles on is not returned. */
  function GenerateCallConfig(users: seq<User>, callerId: string, purpose: Option<CallPurpose>): CallConfig {
    var user := IdentifyUser(users, callerId);
    var prompt :=
      if user.None? then NewCallerPrompt
      else KnownCallerPrompt(user.value, StudentProfile(users, user.value.id), purpose);
    CallConfig(prompt, ContextOf(user), DefaultVoice)
  }

  /** With unique ids, the profile of a stored user is that user exactly when it is a student. */
  lemma ProfileOfStoredUser(users: seq<User>, u: User)
    requires UniqueIds(users) && u in users
    ensures StudentProfile(users, u.id) == if IsStudentType(u.userType) then Some(u) else None
  {
    var found := FindById(users, u.id);
    UniqueIdsDetermineUser(users, found.value, u);
  }

  predicate OverdueCollection(u: User, purpose: Option<CallPurpose>) {
    u.paymentStatus == Some(Overdue) && purpose == Some(CollectionCall)
  }

  predicate RetentionCallFor(u: User, purpose: Option<CallPurpose>) {
    u.lastAttendanceDate.Some? && purpose == Some(RetentionCall)
  }

  /**
   * The decision table, each row both ways: an unknown caller gets the new-caller
   * prompt; a student gets the collection prompt when overdue on a collection
   * call (checked first), else the retention prompt on a retention call when an
   * attendance date is known, else the member prompt; a lead or prospect gets the
   * sales prompt. With unique ids every caller gets a prompt, and the context is
   * copied from the identified user.
   */
  lemma CallConfigTable(users: seq<User>, callerId: string, purpose: Option<CallPurpose>)
    requires UniqueIds(users)
    ensures var u := IdentifyUser(users, callerId);
      var p := GenerateCallConfig(users, callerId, purpose).systemPrompt;
      && (p == NewCallerPrompt <==> u.None?)
      && (p.CollectionPrompt? <==> u.Some? && IsStudentType(u.value.userType) && OverdueCollection(u.value, purpose))
      && (p.RetentionPrompt? <==>
            u.Some? && IsStudentType(u.value.userType) && !OverdueCollection(u.value, purpose)
            && RetentionCallFor(u.value, purpose))
      && (p.MemberPrompt? <==>
            u.Some? && IsStudentType(u.value.userType) && !OverdueCollection(u.value, purpose)
            && !RetentionCallFor(u.value, purpose))
      && (p.SalesPrompt? <==> u.Some? && (u.value.userType == Lead || u.value.userType == NewProspect))
      && p != NoPrompt
    ensures var u := IdentifyUser(users, callerId);
      var c := GenerateCallConfig(users, callerId, purpose).context;
      && (u.None? ==> c == CallContext(None, None, None, None, None))
      && (u.Some? ==> c.userId == Some(u.value.id) && c.userName == u.value.name && c.userType == Some(u.value.userType))
  {
    var u := IdentifyUser(users, callerId);
    if u.Some? {
      ProfileOfStoredUser(users, u.value);
    }
  }

  /**
   * Leads and prospects always get the sales prompt, whatever the purpose: the
   * purpose only steers students.
   */
  lemma PurposeOnlySteersStudents(users: seq<User>, callerId: string, p1: Option<CallPurpose>, p2: Option<CallPurpose>)
    requires UniqueIds(users)
    requires IdentifyUser(users, callerId).Some? && !IsStudentType(IdentifyUser(users, callerId).value.userType)
    ensures GenerateCallConfig(users, callerId, p1) == GenerateCallConfig(users, callerId, p2)
  {
    ProfileOfStoredUser(users, IdentifyUser(users, callerId).value);
  }
}
