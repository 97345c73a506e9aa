/**
 * The `flow_appointment_reminder` flow of
 * backend/src/flows/reminders/appointment-reminder.ts: it fetches the scheduled
 * appointments due within `hoursAhead` hours, and for each one, in order, reads
 * the user, texts a reminder on the chosen channel, marks the reminder sent and
 * logs it; it counts every appointment as sent or failed.
 *
 * What the outside world answers for the i-th due appointment is `attempt(i)`:
 * Twilio's sid, the id of the interaction the send logs, whether the
 * `markReminderSent` update is written, and the id of the reminder interaction
 * (`None` or false when that step throws). The date-fns text of a
 * stored date is the oracle `display` (every due appointment has a date that
 * parses); the clock is `now`. The half-second pause
 * between appointments is not modelled.
 */
module AppointmentReminderFlow {
  import opened Wrappers
  import opened Seqs
  import opened Text
  import opened Time
  import opened BackendTypes
  import opened Calendar
  import opened Crm
  import opened Messaging
  import opened BookAppointmentTool

  datatype ReminderStatus = ReminderSent | ReminderFailed

  /** One entry of `results.appointments`. */
  datatype ReminderEntry = ReminderEntry(id: string, userId: string, userName: Option<string>, dateTime: Option<Instant>,
                                         appointmentType: AppointmentType, reminderStatus: ReminderStatus)

  datatype Results = Results(totalAppointments: nat, remindersSent: nat, remindersFailed: nat,
                             appointments: seq<ReminderEntry>)

  /** The answers of Twilio, of the two interaction writes and of the mark's update for one appointment. */
  datatype Attempt = Attempt(sid: Option<string>, sendLogId: Option<string>, markWritten: bool,
                             reminderLogId: Option<string>)

  /** What stays fixed during one sweep. */
  datatype Config = Config(users: seq<User>, lookup: ProfileLookup, channel: TextChannel, fromNumber: string,
                           display: Option<Instant> -> string, now: Instant)

  /** The three collections the sweep writes: appointments, Twilio's outbox and the interactions. */
  datatype Stores = Stores(appointments: seq<Appointment>, outbox: seq<Outgoing>, log: seq<Interaction>)

  datatype Reminded = Reminded(stores: Stores, status: ReminderStatus)

  /** `${user.name}` prints "undefined" for a user without a name. */
  function NameText(name: Option<string>): string {
    name.GetOr("undefined")
  }

  const ReminderOpening: string := "! Reminder: You have a "
  const ReminderClosing: string :=
    " at Gracie Barra. Reply CONFIRM to secure your spot, or RESCHEDULE if you need to change it. See you on the mats! \U{1F94B}"

  const ReminderScheduledFor: string := " scheduled for "
  const ReminderSentFor: string := "Appointment reminder sent for "

  function ReminderText(name: Option<string>, t: AppointmentType, formatted: string): string {
    "Hi " + (NameText(name) + ReminderOpening + DisplayTypeName(t) + ReminderScheduledFor + formatted + ReminderClosing)
  }

  /** The interaction logged once the reminder is marked: outbound, on the chosen channel, for the appointment's user. */
  function ReminderRecord(id: string, a: Appointment, channel: TextChannel, formatted: string, now: Instant): Interaction {
    Interaction(id, a.userId, ChannelOf(channel), Outbound, QuestionAnswered, None, None,
                Some(ReminderSentFor + formatted), now)
  }

  /**
   * One appointment: without a profile or a phone nothing happens; otherwise the
   * send, the mark and the reminder log run in that order and the first one that
   * throws ends the attempt as failed, keeping what the earlier steps did.
   */
  function Remind(st: Stores, a: Appointment, att: Attempt, profile: Option<User>, cfg: Config): Reminded {
    if profile.None? || profile.value.phone == "" then Reminded(st, ReminderFailed)
    else
      var phone := profile.value.phone;
      var formatted := cfg.display(a.dateTime);
      var text := ReminderText(profile.value.name, a.appointmentType, formatted);
      if att.sid.None? then Reminded(st, ReminderFailed)
      else
        var st1 := st.(outbox := st.outbox + [TextOn(cfg.channel, cfg.fromNumber, phone, text)]);
        if att.sendLogId.None? then Reminded(st1, ReminderFailed)
        else
          var st2 := st1.(log := st1.log
            + [OutboundRecord(att.sendLogId.value, phone, ChannelOf(cfg.channel), Some(text), cfg.now)]);
          var k := IndexOfAppointment(st2.appointments, a.id);
          if k == -1 || !att.markWritten then Reminded(st2, ReminderFailed)
          else
            var st3 := st2.(appointments := st2.appointments[k := st2.appointments[k].(reminderSent := true)]);
            if att.reminderLogId.None? then Reminded(st3, ReminderFailed)
            else
              Reminded(st3.(log := st3.log + [ReminderRecord(att.reminderLogId.value, a, cfg.channel, formatted, cfg.now)]),
                       ReminderSent)
  }

  function Entry(a: Appointment, profile: Option<User>, status: ReminderStatus): ReminderEntry {
    ReminderEntry(a.id, a.userId, if profile.Some? then profile.value.name else None, a.dateTime, a.appointmentType, status)
  }

  /** The stores and the tallies after the first appointments of the sweep. */
  datatype Progress = Progress(stores: Stores, sent: nat, failed: nat, entries: seq<ReminderEntry>)

  /** The sweep after one more appointment: its reminder's stores, the matching tally bumped, the entry appended. */
  function Next(p: Progress, a: Appointment, att: Attempt, cfg: Config): Progress {
    var profile := Profile(cfg.lookup, cfg.users, a.userId);
    var r := Remind(p.stores, a, att, profile, cfg);
    var entry := Entry(a, profile, r.status);
    if r.status == ReminderSent then Progress(r.stores, p.sent + 1, p.failed, p.entries + [entry])
    else Progress(r.stores, p.sent, p.failed + 1, p.entries + [entry])
  }

  function Sweep(start: Stores, due: seq<Appointment>, attempt: nat -> Attempt, cfg: Config): (p: Progress)
    ensures |p.entries| == |due|
    decreases |due|
  {
    if due == [] then Progress(start, 0, 0, [])
    else
      var n := |due| - 1;
      Next(Sweep(start, due[..n], attempt, cfg), due[n], attempt(n), cfg)
  }

  /** One appointment against the stores; the status is the entry's. */
  method RemindOne(calendar: CalendarStore, messaging: MessagingService, a: Appointment, att: Attempt,
                   profile: Option<User>, cfg: Config)
    returns (status: ReminderStatus)
    requires cfg.fromNumber == messaging.fromNumber
    modifies calendar, messaging
    ensures var r := Remind(Stores(old(calendar.appointments), old(messaging.outbox), old(messaging.log)), a, att, profile, cfg);
      Stores(calendar.appointments, messaging.outbox, messaging.log) == r.stores && status == r.status
  {
    if profile.None? || profile.value.phone == "" {
      return ReminderFailed;
    }
    var phone := profile.value.phone;
    var formatted := cfg.display(a.dateTime);
    var text := ReminderText(profile.value.name, a.appointmentType, formatted);
    var sent := messaging.SendText(cfg.channel, phone, text, att.sid, att.sendLogId, cfg.now);
    if sent.Err? {
      return ReminderFailed;
    }
    var marked := calendar.MarkReminderSent(a.id, att.markWritten);
    if marked.Err? {
      return ReminderFailed;
    }
    var logged := messaging.LogInteraction(ReminderRecord("", a, cfg.channel, formatted, cfg.now), att.reminderLogId);
    if logged.Err? {
      return ReminderFailed;
    }
    status := ReminderSent;
  }

  /**
   * The flow: `hoursAhead` defaults to 24 and the channel to SMS. The results
   * and the new stores are those of the sweep over the due appointments, taken
   * from the store before the first reminder.
   */
  method AppointmentReminder(calendar: CalendarStore, crm: UserStore, messaging: MessagingService, lookup: ProfileLookup,
                             hoursAhead: Option<int>, channel: Option<TextChannel>, attempt: nat -> Attempt,
                             display: Option<Instant> -> string, now: Instant)
    returns (results: Results)
    modifies calendar, messaging
    ensures var cfg := Config(crm.users, lookup, channel.GetOr(ViaSms), messaging.fromNumber, display, now);
      var due := AppointmentsForReminder(old(calendar.appointments), now, hoursAhead.GetOr(24));
      var p := Sweep(Stores(old(calendar.appointments), old(messaging.outbox), old(messaging.log)), due, attempt, cfg);
      && results == Results(|due|, p.sent, p.failed, p.entries)
      && Stores(calendar.appointments, messaging.outbox, messaging.log) == p.stores
  {
    var cfg := Config(crm.users, lookup, channel.GetOr(ViaSms), messaging.fromNumber, display, now);
    var due := AppointmentsForReminder(calendar.appointments, now, hoursAhead.GetOr(24));
    var sent, failed, entries := RemindAll(calendar, messaging, due, attempt, cfg);
    results := Results(|due|, sent, failed, entries);
  }

  /** The flow's loop over the due appointments, in order. */
  method RemindAll(calendar: CalendarStore, messaging: MessagingService, due: seq<Appointment>, attempt: nat -> Attempt,
                   cfg: Config)
    returns (sent: nat, failed: nat, entries: seq<ReminderEntry>)
    requires cfg.fromNumber == messaging.fromNumber
    modifies calendar, messaging
    ensures Progress(Stores(calendar.appointments, messaging.outbox, messaging.log), sent, failed, entries)
         == Sweep(Stores(old(calendar.appointments), old(messaging.outbox), old(messaging.log)), due, attempt, cfg)
  {
    ghost var start := Stores(calendar.appointments, messaging.outbox, messaging.log);
    sent, failed, entries := 0, 0, [];
    var k := 0;
    while k < |due|
      invariant 0 <= k <= |due|
      invariant Progress(Stores(calendar.appointments, messaging.outbox, messaging.log), sent, failed, entries)
        == Sweep(start, due[..k], attempt, cfg)
    {
      assert due[..k + 1][..k] == due[..k];
      sent, failed, entries := RemindNext(calendar, messaging, sent, failed, entries, due[k], attempt(k), cfg);
      k := k + 1;
    }
    assert due[..k] == due;
  }

  /** One iteration of the flow's loop: remind, then count and record the outcome. */
  method RemindNext(calendar: CalendarStore, messaging: MessagingService, sent: nat, failed: nat,
                    entries: seq<ReminderEntry>, a: Appointment, att: Attempt, cfg: Config)
    returns (sent': nat, failed': nat, entries': seq<ReminderEntry>)
    requires cfg.fromNumber == messaging.fromNumber
    modifies calendar, messaging
    ensures Progress(Stores(calendar.appointments, messaging.outbox, messaging.log), sent', failed', entries')
         == Next(Progress(Stores(old(calendar.appointments), old(messaging.outbox), old(messaging.log)), sent, failed,
                          entries), a, att, cfg)
  {
    var profile := Profile(cfg.lookup, cfg.users, a.userId);
    var status := RemindOne(calendar, messaging, a, att, profile, cfg);
    sent', failed' := sent, failed;
    if status == ReminderSent {
      sent' := sent + 1;
    } else {
      failed' := failed + 1;
    }
    entries' := entries + [Entry(a, profile, status)];
  }

  predicate IsSent(e: ReminderEntry) {
    e.reminderStatus == ReminderSent
  }

  /**
   * The counters add up: one entry per due appointment; `remindersSent` counts
   * the sent entries and `remindersSent + remindersFailed` is the number of due
   * appointments.
   */
  lemma {:induction false} SweepTally(start: Stores, due: seq<Appointment>, attempt: nat -> Attempt, cfg: Config)
    ensures var p := Sweep(start, due, attempt, cfg);
      && |p.entries| == |due|
      && p.sent + p.failed == |due|
      && p.sent == Count(p.entries, IsSent)
    decreases |due|
  {
    if due != [] {
      var n := |due| - 1;
      var q := Sweep(start, due[..n], attempt, cfg);
      SweepTally(start, due[..n], attempt, cfg);
      var profile := Profile(cfg.lookup, cfg.users, due[n].userId);
      var r := Remind(q.stores, due[n], attempt(n), profile, cfg);
      var e := Entry(due[n], profile, r.status);
      var p := Sweep(start, due, attempt, cfg);
      assert p.entries == q.entries + [e];
      assert p.sent == q.sent + (if IsSent(e) then 1 else 0);
      FilterSnoc(q.entries, e, IsSent);
    }
  }

  /** The entries follow the due appointments in order, each carrying its id, user, date and type. */
  lemma {:induction false} SweepEntries(start: Stores, due: seq<Appointment>, attempt: nat -> Attempt, cfg: Config)
    ensures var p := Sweep(start, due, attempt, cfg);
      && |p.entries| == |due|
      && forall i :: 0 <= i < |due| ==>
           && p.entries[i].id == due[i].id && p.entries[i].userId == due[i].userId
           && p.entries[i].dateTime == due[i].dateTime && p.entries[i].appointmentType == due[i].appointmentType
    decreases |due|
  {
    if due != [] {
      var n := |due| - 1;
      var q := Sweep(start, due[..n], attempt, cfg);
      SweepEntries(start, due[..n], attempt, cfg);
      var profile := Profile(cfg.lookup, cfg.users, due[n].userId);
      var r := Remind(q.stores, due[n], attempt(n), profile, cfg);
      var p := Sweep(start, due, attempt, cfg);
      assert p.entries == q.entries + [Entry(due[n], profile, r.status)];
      forall i | 0 <= i < n
        ensures p.entries[i] == q.entries[i] && due[..n][i] == due[i]
      {
      }
    }
  }

  /**
   * One appointment: with no profile or no phone nothing is sent, marked or
   * logged; a rejected send changes nothing; the appointment is marked only after
   * the message was handed over and its log written; and a sent reminder has
   * handed over exactly one message on the chosen channel to the user's phone,
   * marked the appointment and logged twice.
   */
  lemma RemindSteps(st: Stores, a: Appointment, att: Attempt, profile: Option<User>, cfg: Config)
    ensures profile.None? || profile.value.phone == "" ==> Remind(st, a, att, profile, cfg) == Reminded(st, ReminderFailed)
    ensures att.sid.None? ==> Remind(st, a, att, profile, cfg) == Reminded(st, ReminderFailed)
    ensures !att.markWritten ==>
      Remind(st, a, att, profile, cfg).status == ReminderFailed
      && Remind(st, a, att, profile, cfg).stores.appointments == st.appointments
    ensures var r := Remind(st, a, att, profile, cfg);
      r.stores.appointments != st.appointments ==>
        && att.sid.Some? && att.sendLogId.Some? && att.markWritten && profile.Some? && profile.value.phone != ""
        && IndexOfAppointment(st.appointments, a.id) >= 0
        && r.stores.appointments == st.appointments[IndexOfAppointment(st.appointments, a.id) :=
             st.appointments[IndexOfAppointment(st.appointments, a.id)].(reminderSent := true)]
    ensures var r := Remind(st, a, att, profile, cfg);
      r.status == ReminderSent ==>
        && profile.Some?
        && r.stores.outbox == st.outbox
             + [TextOn(cfg.channel, cfg.fromNumber, profile.value.phone,
                        ReminderText(profile.value.name, a.appointmentType, cfg.display(a.dateTime)))]
        && |r.stores.log| == |st.log| + 2
        && r.stores.log[|st.log| + 1].userId == a.userId
        && r.stores.log[|st.log| + 1].channel == ChannelOf(cfg.channel)
        && exists k :: 0 <= k < |r.stores.appointments| && r.stores.appointments[k].id == a.id
                       && r.stores.appointments[k].reminderSent
  {
    var r := Remind(st, a, att, profile, cfg);
    if r.status == ReminderSent {
      var k := IndexOfAppointment(st.appointments, a.id);
      assert r.stores.appointments[k].id == a.id;
    }
  }

  /**
   * As written the flow reads users through `getStudentProfile`: an appointment
   * of a lead always fails, and nothing is sent, marked or logged for it.
   */
  lemma AsWrittenLeadsAreNeverReminded(st: Stores, a: Appointment, att: Attempt, cfg: Config, u: User)
    requires cfg.lookup == StudentsOnly
    requires UniqueIds(cfg.users) && u in cfg.users && u.userType == Lead && a.userId == u.id
    ensures Remind(st, a, att, Profile(cfg.lookup, cfg.users, a.userId), cfg) == Reminded(st, ReminderFailed)
  {
    NoProfileForNonStudents(cfg.users, u);
  }

  /**
   * Reading the user whatever its type, a lead with a phone is reminded like a
   * student: when every step succeeds the entry is sent.
   */
  lemma CorrectedLookupRemindsLeads(st: Stores, a: Appointment, att: Attempt, cfg: Config, u: User)
    requires cfg.lookup == AnyUser
    requires UniqueIds(cfg.users) && u in cfg.users && u.userType == Lead && u.phone != "" && a.userId == u.id
    requires a in st.appointments
    requires att.sid.Some? && att.sendLogId.Some? && att.markWritten && att.reminderLogId.Some?
    ensures Remind(st, a, att, Profile(cfg.lookup, cfg.users, a.userId), cfg).status == ReminderSent
  {
    var found := FindById(cfg.users, u.id);
    UniqueIdsDetermineUser(cfg.users, found.value, u);
  }

  /**
   * A reminder is never sent twice: after the sweep, the appointment of every
   * sent entry carries `reminderSent`, so it is no longer due for any later sweep.
   */
  lemma {:induction false} SentRemindersStayMarked(start: Stores, due: seq<Appointment>, attempt: nat -> Attempt,
                                                   cfg: Config, i: int)
    requires 0 <= i < |due|
    ensures var p := Sweep(start, due, attempt, cfg);
      p.entries[i].reminderStatus == ReminderSent ==>
        exists k :: 0 <= k < |p.stores.appointments| && p.stores.appointments[k].id == due[i].id
                    && p.stores.appointments[k].reminderSent
    decreases |due|
  {
    var n := |due| - 1;
    var q := Sweep(start, due[..n], attempt, cfg);
    var profile := Profile(cfg.lookup, cfg.users, due[n].userId);
    var r := Remind(q.stores, due[n], attempt(n), profile, cfg);
    var p := Sweep(start, due, attempt, cfg);
    SweepLast(start, due, attempt, cfg);
    if p.entries[i].reminderStatus == ReminderSent {
      if i == n {
        SentIsMarked(q.stores, due[n], attempt(n), profile, cfg);
      } else {
        assert q.entries[i] == p.entries[i];
        SentRemindersStayMarked(start, due[..n], attempt, cfg, i);
        var k :| 0 <= k < |q.stores.appointments| && q.stores.appointments[k].id == due[i].id
                 && q.stores.appointments[k].reminderSent;
        MarksPersist(q.stores, due[n], attempt(n), profile, cfg, k);
      }
    }
  }

  /** The last step of a sweep, spelled out. */
  lemma SweepLast(start: Stores, due: seq<Appointment>, attempt: nat -> Attempt, cfg: Config)
    requires due != []
    ensures var n := |due| - 1;
      var q := Sweep(start, due[..n], attempt, cfg);
      var profile := Profile(cfg.lookup, cfg.users, due[n].userId);
      var r := Remind(q.stores, due[n], attempt(n), profile, cfg);
      var p := Sweep(start, due, attempt, cfg);
      && p.stores == r.stores
      && p.entries == q.entries + [Entry(due[n], profile, r.status)]
  {
  }

  /** A sent reminder has marked its appointment. */
  lemma SentIsMarked(st: Stores, a: Appointment, att: Attempt, profile: Option<User>, cfg: Config)
    ensures var r := Remind(st, a, att, profile, cfg);
      r.status == ReminderSent ==>
        exists k :: 0 <= k < |r.stores.appointments| && r.stores.appointments[k].id == a.id
                    && r.stores.appointments[k].reminderSent
  {
    var r := Remind(st, a, att, profile, cfg);
    if r.status == ReminderSent {
      var k := IndexOfAppointment(st.appointments, a.id);
      assert r.stores.appointments[k].id == a.id;
    }
  }

  /** A later appointment's attempt keeps every appointment's id and never clears a flag. */
  lemma MarksPersist(st: Stores, a: Appointment, att: Attempt, profile: Option<User>, cfg: Config, k: int)
    requires 0 <= k < |st.appointments|
    ensures var after := Remind(st, a, att, profile, cfg).stores.appointments;
      && |after| == |st.appointments|
      && after[k].id == st.appointments[k].id
      && (st.appointments[k].reminderSent ==> after[k].reminderSent)
  {
  }
}
