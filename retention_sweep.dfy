/**
 * The `flow_retention_sweep` flow of backend/src/flows/retention/retention-sweep.ts:
 * it selects the active students absent for `daysSinceLastAttendance` days (14
 * by default), at most `maxContacts` of them when that is given and not zero,
 * and for each one, in order, texts a comeback message on the chosen channel
 * (none for voice), logs a retention-outreach interaction under the student's id
 * and counts the contact as successful or failed.
 *
 * What the outside world answers for the i-th student is `attempt(i)`: Twilio's
 * sid, the id of the interaction the send logs and the id of the outreach
 * interaction (`None` when that step throws). The one-second pause between
 * students is not modelled.
 */
module RetentionSweepFlow {
  import opened Wrappers
  import opened Seqs
  import opened Text
  import opened Time
  import opened BackendTypes
  import opened Crm
  import opened Messaging

  datatype Outreach = OutreachSms | OutreachWhatsApp | OutreachVoice

  /** `skipped` is part of the output schema, but the flow never produces it. */
  datatype ContactStatus = ContactSuccess | ContactFailed | ContactSkipped

  datatype StudentEntry = StudentEntry(id: string, name: Option<string>, phone: string, daysSinceAttendance: int,
                                       contactStatus: ContactStatus)

  datatype SweepResults = SweepResults(totalStudentsFound: nat, contactsAttempted: nat, contactsSuccessful: nat,
                                       contactsFailed: nat, students: seq<StudentEntry>)

  /** The answers of Twilio and of the two interaction writes for one student. */
  datatype Attempt = Attempt(sid: Option<string>, sendLogId: Option<string>, outreachLogId: Option<string>)

  /** What stays fixed during one sweep. */
  datatype Config = Config(outreach: Outreach, threshold: int, fromNumber: string, now: Instant)

  /** The collections the sweep writes: Twilio's outbox and the interactions. */
  datatype Stores = Stores(outbox: seq<Outgoing>, log: seq<Interaction>)

  datatype Contacted = Contacted(stores: Stores, status: ContactStatus)

  datatype Progress = Progress(stores: Stores, successful: nat, failed: nat, entries: seq<StudentEntry>)

  /** `maxContacts ? absentees.slice(0, maxContacts) : absentees`: zero and absence both mean everyone. */
  function StudentsToContact(absentees: seq<User>, maxContacts: Option<int>): seq<User> {
    if maxContacts.Some? && maxContacts.value != 0 then SliceTo(absentees, maxContacts.value) else absentees
  }

  /** Whole days since the last attendance, rounded down; the threshold itself when no date is known. */
  function DaysSince(u: User, threshold: int, now: Instant): int {
    if u.lastAttendanceDate.Some? then (now - u.lastAttendanceDate.value) / MsPerDay else threshold
  }

  const ComebackClosing: string :=
    "! We noticed you haven't been to class in a while and we miss you at Gracie Barra! \U{1F4AA} Life gets busy, but your training is important. Can we help you get back on the mats? Reply YES if you'd like to schedule your comeback class!"

  function ComebackText(name: Option<string>): string {
    "Hi " + OrElse(name, "there") + ComebackClosing
  }

  function OutreachChannel(o: Outreach): Channel {
    match o
    case OutreachSms => Sms
    case OutreachWhatsApp => WhatsApp
    case OutreachVoice => Voice
  }

  /** The interaction logged for every contact: outbound, under the student's id, summary "Retention outreach". */
  function OutreachRecord(id: string, studentId: string, o: Outreach, now: Instant): Interaction {
    Interaction(id, studentId, OutreachChannel(o), Outbound, QuestionAnswered, None, None, Some("Retention outreach"), now)
  }

  /** The log after the outreach record is written, and the contact's status. */
  function LogOutreach(st: Stores, s: User, att: Attempt, cfg: Config): Contacted {
    if att.outreachLogId.None? then Contacted(st, ContactFailed)
    else Contacted(st.(log := st.log + [OutreachRecord(att.outreachLogId.value, s.id, cfg.outreach, cfg.now)]), ContactSuccess)
  }

  /**
   * One student: a text channel first sends the comeback message (which logs it
   * under the phone); voice sends nothing. Then the outreach is logged. The first
   * step that throws ends the contact as failed, keeping what was already done.
   */
  function Contact(st: Stores, s: User, att: Attempt, cfg: Config): Contacted {
    match cfg.outreach
    case OutreachVoice => LogOutreach(st, s, att, cfg)
    case _ =>
      var channel := if cfg.outreach == OutreachSms then ViaSms else ViaWhatsApp;
      var text := ComebackText(s.name);
      if att.sid.None? then Contacted(st, ContactFailed)
      else
        var st1 := st.(outbox := st.outbox + [TextOn(channel, cfg.fromNumber, s.phone, text)]);
        if att.sendLogId.None? then Contacted(st1, ContactFailed)
        else
          var st2 := st1.(log := st1.log + [OutboundRecord(att.sendLogId.value, s.phone, ChannelOf(channel), Some(text), cfg.now)]);
          LogOutreach(st2, s, att, cfg)
  }

  function Entry(s: User, cfg: Config, status: ContactStatus): StudentEntry {
    StudentEntry(s.id, s.name, s.phone, DaysSince(s, cfg.threshold, cfg.now), status)
  }

  /** The sweep after one more student: the contact's stores, the matching counter bumped, the entry appended. */
  function Next(p: Progress, s: User, att: Attempt, cfg: Config): Progress {
    var c := Contact(p.stores, s, att, cfg);
    var entry := Entry(s, cfg, c.status);
    if c.status == ContactSuccess then Progress(c.stores, p.successful + 1, p.failed, p.entries + [entry])
    else Progress(c.stores, p.successful, p.failed + 1, p.entries + [entry])
  }

  function Sweep(start: Stores, students: seq<User>, attempt: nat -> Attempt, cfg: Config): (p: Progress)
    ensures |p.entries| == |students|
    decreases |students|
  {
    if students == [] then Progress(start, 0, 0, [])
    else
      var n := |students| - 1;
      Next(Sweep(start, students[..n], attempt, cfg), students[n], attempt(n), cfg)
  }

  /** One student against the stores; the status is the entry's. */
  method ContactOne(messaging: MessagingService, s: User, att: Attempt, cfg: Config) returns (status: ContactStatus)
    requires cfg.fromNumber == messaging.fromNumber
    modifies messaging
    ensures var c := Contact(Stores(old(messaging.outbox), old(messaging.log)), s, att, cfg);
      Stores(messaging.outbox, messaging.log) == c.stores && status == c.status
  {
    if cfg.outreach != OutreachVoice {
      var channel := if cfg.outreach == OutreachSms then ViaSms else ViaWhatsApp;
      var sent := messaging.SendText(channel, s.phone, ComebackText(s.name), att.sid, att.sendLogId, cfg.now);
      if sent.Err? {
        return ContactFailed;
      }
    }
    var logged := messaging.LogInteraction(OutreachRecord("", s.id, cfg.outreach, cfg.now), att.outreachLogId);
    if logged.Err? {
      return ContactFailed;
    }
    status := ContactSuccess;
  }

  /** One iteration of the flow's loop: contact the student, then count and record the outcome. */
  method ContactNext(messaging: MessagingService, successful: nat, failed: nat, entries: seq<StudentEntry>, s: User,
                     att: Attempt, cfg: Config)
    returns (successful': nat, failed': nat, entries': seq<StudentEntry>)
    requires cfg.fromNumber == messaging.fromNumber
    modifies messaging
    ensures Progress(Stores(messaging.outbox, messaging.log), successful', failed', entries')
         == Next(Progress(Stores(old(messaging.outbox), old(messaging.log)), successful, failed, entries), s, att, cfg)
  {
    var status := ContactOne(messaging, s, att, cfg);
    successful', failed' := successful, failed;
    if status == ContactSuccess {
      successful' := successful + 1;
    } else {
      failed' := failed + 1;
    }
    entries' := entries + [Entry(s, cfg, status)];
  }

  /**
   * The flow: the threshold defaults to 14 days and the channel to SMS. The
   * results and the new stores are those of the sweep over the selected students.
   */
  method RetentionSweep(crm: UserStore, messaging: MessagingService, days: Option<int>, outreach: Option<Outreach>,
                        maxContacts: Option<int>, attempt: nat -> Attempt, now: Instant)
    returns (results: SweepResults)
    modifies messaging
    ensures var cfg := Config(outreach.GetOr(OutreachSms), days.GetOr(14), messaging.fromNumber, now);
      var absentees := AbsenteeStudents(crm.users, Some(days.GetOr(14)), now);
      var chosen := StudentsToContact(absentees, maxContacts);
      var p := Sweep(Stores(old(messaging.outbox), old(messaging.log)), chosen, attempt, cfg);
      && results == SweepResults(|absentees|, |chosen|, p.successful, p.failed, p.entries)
      && Stores(messaging.outbox, messaging.log) == p.stores
  {
    var cfg := Config(outreach.GetOr(OutreachSms), days.GetOr(14), messaging.fromNumber, now);
    var absentees := AbsenteeStudents(crm.users, Some(days.GetOr(14)), now);
    var chosen := StudentsToContact(absentees, maxContacts);
    var attempted, successful, failed, entries := ContactAll(messaging, chosen, attempt, cfg);
    results := SweepResults(|absentees|, attempted, successful, failed, entries);
  }

  /** The flow's loop over the selected students, in order. */
  method ContactAll(messaging: MessagingService, chosen: seq<User>, attempt: nat -> Attempt, cfg: Config)
    returns (attempted: nat, successful: nat, failed: nat, entries: seq<StudentEntry>)
    requires cfg.fromNumber == messaging.fromNumber
    modifies messaging
    ensures attempted == |chosen|
    ensures Progress(Stores(messaging.outbox, messaging.log), successful, failed, entries)
         == Sweep(Stores(old(messaging.outbox), old(messaging.log)), chosen, attempt, cfg)
  {
    ghost var start := Stores(messaging.outbox, messaging.log);
    attempted, successful, failed, entries := 0, 0, 0, [];
    var k := 0;
    while k < |chosen|
      invariant 0 <= k <= |chosen| && attempted == k
      invariant Progress(Stores(messaging.outbox, messaging.log), successful, failed, entries)
        == Sweep(start, chosen[..k], attempt, cfg)
    {
      assert chosen[..k + 1][..k] == chosen[..k];
      attempted := attempted + 1;
      successful, failed, entries := ContactNext(messaging, successful, failed, entries, chosen[k], attempt(k), cfg);
      k := k + 1;
    }
    assert chosen[..k] == chosen;
  }

  predicate IsSuccess(e: StudentEntry) {
    e.contactStatus == ContactSuccess
  }

  /**
   * The counters add up: `contactsSuccessful` counts the successful entries and
   * successes and failures together are the attempts.
   */
  lemma {:induction false} SweepTally(start: Stores, students: seq<User>, attempt: nat -> Attempt, cfg: Config)
    ensures var p := Sweep(start, students, attempt, cfg);
      && p.successful + p.failed == |students|
      && p.successful == Count(p.entries, IsSuccess)
    decreases |students|
  {
    if students != [] {
      var n := |students| - 1;
      var q := Sweep(start, students[..n], attempt, cfg);
      SweepTally(start, students[..n], attempt, cfg);
      var c := Contact(q.stores, students[n], attempt(n), cfg);
      var e := Entry(students[n], cfg, c.status);
      var p := Sweep(start, students, attempt, cfg);
      assert p.entries == q.entries + [e];
      assert p.successful == q.successful + (if IsSuccess(e) then 1 else 0);
      FilterSnoc(q.entries, e, IsSuccess);
    }
  }

  /**
   * One entry per selected student, in order, carrying its id, name and phone and
   * the whole days since its last attendance; no entry is ever skipped.
   */
  lemma {:induction false} SweepEntries(start: Stores, students: seq<User>, attempt: nat -> Attempt, cfg: Config)
    ensures var p := Sweep(start, students, attempt, cfg);
      forall i :: 0 <= i < |students| ==>
        && p.entries[i].id == students[i].id && p.entries[i].name == students[i].name
        && p.entries[i].phone == students[i].phone
        && p.entries[i].daysSinceAttendance == DaysSince(students[i], cfg.threshold, cfg.now)
        && p.entries[i].contactStatus != ContactSkipped
    decreases |students|
  {
    if students != [] {
      var n := |students| - 1;
      var q := Sweep(start, students[..n], attempt, cfg);
      SweepEntries(start, students[..n], attempt, cfg);
      var c := Contact(q.stores, students[n], attempt(n), cfg);
      var e := Entry(students[n], cfg, c.status);
      var p := Sweep(start, students, attempt, cfg);
      assert p.entries == q.entries + [e];
      assert c.status != ContactSkipped;
      forall i | 0 <= i < |students|
        ensures p.entries[i].id == students[i].id && p.entries[i].name == students[i].name
        ensures p.entries[i].phone == students[i].phone
        ensures p.entries[i].daysSinceAttendance == DaysSince(students[i], cfg.threshold, cfg.now)
        ensures p.entries[i].contactStatus != ContactSkipped
      {
        if i < n {
          assert p.entries[i] == q.entries[i] && students[..n][i] == students[i];
        }
      }
    }
  }

  /**
   * The selection: everyone contacted is an absent active student; a positive
   * `maxContacts` caps the contacts at that many, the first ones found; zero or
   * no cap contacts everyone found; a negative one leaves out that many from the end.
   */
  lemma SelectionBounds(users: seq<User>, threshold: int, maxContacts: Option<int>, now: Instant)
    ensures var absentees := AbsenteeStudents(users, Some(threshold), now);
      var chosen := StudentsToContact(absentees, maxContacts);
      && chosen == absentees[..|chosen|]
      && (forall i :: 0 <= i < |chosen| ==> chosen[i] in users && chosen[i].userType == ActiveStudent)
      && (maxContacts.None? || maxContacts == Some(0) ==> chosen == absentees)
      && (maxContacts.Some? && maxContacts.value > 0 ==> |chosen| == Min(maxContacts.value, |absentees|))
      && (maxContacts.Some? && maxContacts.value < 0 ==>
            |chosen| == if |absentees| + maxContacts.value > 0 then |absentees| + maxContacts.value else 0)
  {
    var absentees := AbsenteeStudents(users, Some(threshold), now);
    var chosen := StudentsToContact(absentees, maxContacts);
    forall i | 0 <= i < |chosen|
      ensures chosen[i] in users && chosen[i].userType == ActiveStudent
    {
      assert chosen[i] == absentees[i];
    }
  }

  /** Dividing a span longer than `days` whole days by the length of a day, rounded down, gives at least `days`. */
  lemma WholeDaysAtLeast(span: int, days: int)
    requires span > days * MsPerDay
    ensures span / MsPerDay >= days
  {
    assert span == (span / MsPerDay) * MsPerDay + span % MsPerDay && 0 <= span % MsPerDay < MsPerDay;
  }

  /**
   * Every student the sweep reports has been away at least the threshold: the
   * whole days since the last attendance are never fewer than the threshold.
   */
  lemma ReportedAbsenceMeetsThreshold(users: seq<User>, threshold: int, maxContacts: Option<int>, now: Instant)
    ensures var chosen := StudentsToContact(AbsenteeStudents(users, Some(threshold), now), maxContacts);
      forall i :: 0 <= i < |chosen| ==> DaysSince(chosen[i], threshold, now) >= threshold
  {
    var absentees := AbsenteeStudents(users, Some(threshold), now);
    var chosen := StudentsToContact(absentees, maxContacts);
    SelectionBounds(users, threshold, maxContacts, now);
    forall i | 0 <= i < |chosen|
      ensures DaysSince(chosen[i], threshold, now) >= threshold
    {
      assert chosen[i] == absentees[i];
      assert IsAbsentee(chosen[i], AbsenceCutoff(Some(threshold), now));
      WholeDaysAtLeast(now - chosen[i].lastAttendanceDate.value, threshold);
    }
  }

  /**
   * A voice sweep hands nothing to Twilio and logs exactly one outreach record
   * per successful contact; a text contact that succeeds has handed over one
   * message to the student's phone and logged twice: the send under the phone,
   * the outreach under the student's id.
   */
  lemma ContactEffects(st: Stores, s: User, att: Attempt, cfg: Config)
    ensures var c := Contact(st, s, att, cfg);
      cfg.outreach == OutreachVoice ==>
        && c.stores.outbox == st.outbox
        && (c.status == ContactSuccess <==> att.outreachLogId.Some?)
        && c.stores.log == st.log + (if att.outreachLogId.Some? then [OutreachRecord(att.outreachLogId.value, s.id, OutreachVoice, cfg.now)] else [])
    ensures var c := Contact(st, s, att, cfg);
      cfg.outreach != OutreachVoice && c.status == ContactSuccess ==>
        && |c.stores.outbox| == |st.outbox| + 1 && c.stores.outbox[|st.outbox|].to == WhatsAppAddressIf(cfg.outreach, s.phone)
        && |c.stores.log| == |st.log| + 2
        && c.stores.log[|st.log|].userId == s.phone && c.stores.log[|st.log| + 1].userId == s.id
  {
  }

  /** The address Twilio is given: the phone, with the WhatsApp prefix on that channel. */
  function WhatsAppAddressIf(o: Outreach, phone: string): string {
    if o == OutreachWhatsApp then WhatsAppAddress(phone) else phone
  }

  /** A voice sweep never texts anyone, whatever Twilio would answer. */
  lemma {:induction false} VoiceSweepSendsNothing(start: Stores, students: seq<User>, attempt: nat -> Attempt, cfg: Config)
    requires cfg.outreach == OutreachVoice
    ensures Sweep(start, students, attempt, cfg).stores.outbox == start.outbox
    decreases |students|
  {
    if students != [] {
      var n := |students| - 1;
      VoiceSweepSendsNothing(start, students[..n], attempt, cfg);
      var q := Sweep(start, students[..n], attempt, cfg);
      ContactEffects(q.stores, students[n], attempt(n), cfg);
    }
  }
}
