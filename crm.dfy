/**
 * The `users` collection and the CRM service of
 * backend/src/services/crm.service.ts: phone normalisation, lookup by phone and by
 * id, idempotent lead creation, field updates, and the absentee and delinquent
 * queries the sweeps use. Lookups take the first matching document in store order.
 */
module Crm {
  import opened Wrappers
  import opened Seqs
  import opened Text
  import opened Time
  import opened BackendTypes

  /** `normalizePhone`: `phone.replace(/\D/g, '')`. */
  function NormalizePhone(phone: string): (r: string)
    ensures forall i :: 0 <= i < |r| ==> IsDigit(r[i])
    ensures DigitsOnly(r) == r
  {
    DigitsOnlyIdempotent(phone);
    DigitsOnly(phone)
  }

  /** The first user stored with exactly this phone (the query's `limit(1)`). */
  function FindByPhone(users: seq<User>, phone: string): (r: Option<User>)
    ensures r.None? <==> forall i :: 0 <= i < |users| ==> users[i].phone != phone
    ensures r.Some? ==> exists k :: 0 <= k < |users| && users[k] == r.value
                                 && r.value.phone == phone
                                 && forall i :: 0 <= i < k ==> users[i].phone != phone
  {
    if users == [] then None
    else if users[0].phone == phone then Some(users[0])
    else
      var r := FindByPhone(users[1..], phone);
      if r.Some? then
        var k :| 0 <= k < |users[1..]| && users[1..][k] == r.value && r.value.phone == phone
                 && forall i :: 0 <= i < k ==> users[1..][i].phone != phone;
        assert users[k + 1] == r.value;
        r
      else r
  }

  /** `identifyUser`: lookup by the normalised phone. */
  function IdentifyUser(users: seq<User>, phone: string): Option<User> {
    FindByPhone(users, NormalizePhone(phone))
  }

  /**
   * Formatting does not matter: inserting characters that are not digits into a
   * phone number identifies the same user.
   */
  lemma IdentifyIgnoresFormatting(users: seq<User>, before: string, separator: string, after: string)
    requires forall i :: 0 <= i < |separator| ==> !IsDigit(separator[i])
    ensures IdentifyUser(users, before + separator + after) == IdentifyUser(users, before + after)
  {
    SeparatorVanishes(before, separator, after);
    assert NormalizePhone(before + separator + after) == NormalizePhone(before + after);
  }

  lemma SeparatorVanishes(before: string, separator: string, after: string)
    requires forall i :: 0 <= i < |separator| ==> !IsDigit(separator[i])
    ensures DigitsOnly(before + separator + after) == DigitsOnly(before + after)
  {
    DigitsOnlyConcat(before + separator, after);
    DigitsOnlyConcat(before, separator);
    DigitsOnlyConcat(before, after);
    DigitsOnlyNoDigits(separator);
  }

  function FindById(users: seq<User>, id: string): (r: Option<User>)
    ensures r.None? <==> forall i :: 0 <= i < |users| ==> users[i].id != id
    ensures r.Some? ==> r.value in users && r.value.id == id
  {
    if users == [] then None
    else if users[0].id == id then Some(users[0])
    else FindById(users[1..], id)
  }

  /**
   * `getStudentProfile`: the document with that id, only when it is an active or
   * former student; a missing document and every other type give nothing.
   */
  function StudentProfile(users: seq<User>, userId: string): (r: Option<User>)
    ensures r.Some? ==> r.value in users && r.value.id == userId && IsStudentType(r.value.userType)
    ensures r.None? <==> FindById(users, userId).None? || !IsStudentType(FindById(users, userId).value.userType)
  {
    var u := FindById(users, userId);
    if u.Some? && IsStudentType(u.value.userType) then u else None
  }

  /** Leads and prospects never have a student profile, whatever else is stored. */
  lemma NoProfileForNonStudents(users: seq<User>, u: User)
    requires u in users && !IsStudentType(u.userType)
    requires forall i, j :: 0 <= i < j < |users| ==> users[i].id != users[j].id
    ensures StudentProfile(users, u.id).None?
  {
    var found := FindById(users, u.id);
    if found.Some? {
      UniqueIdsDetermineUser(users, found.value, u);
    }
  }

  lemma UniqueIdsDetermineUser(users: seq<User>, a: User, b: User)
    requires a in users && b in users && a.id == b.id
    requires forall i, j :: 0 <= i < j < |users| ==> users[i].id != users[j].id
    ensures a == b
  {
    var i :| 0 <= i < |users| && users[i] == a;
    var j :| 0 <= j < |users| && users[j] == b;
    assert users[i].id == users[j].id;
  }

  /** The lead record `createLead` writes. */
  function NewLead(id: string, phone: string, name: Option<string>, email: Option<string>, source: LeadSource,
                   interest: Option<string>, now: Instant): User
  {
    User(id, NormalizePhone(phone), email, name, Lead, now, now,
         None, None, None, None, Some(source), interest, Some(Unqualified))
  }

  /** Once a lead exists for a phone, every spelling of that phone identifies it. */
  lemma NewLeadIsIdentified(users: seq<User>, phone: string, other: string, name: Option<string>, email: Option<string>,
                            source: LeadSource, interest: Option<string>, id: string, now: Instant)
    requires IdentifyUser(users, phone).None?
    requires NormalizePhone(other) == NormalizePhone(phone)
    ensures IdentifyUser(users + [NewLead(id, phone, name, email, source, interest, now)], other)
            == Some(NewLead(id, phone, name, email, source, interest, now))
  {
    var lead := NewLead(id, phone, name, email, source, interest, now);
    var after := users + [lead];
    var key := NormalizePhone(phone);
    assert lead.phone == key;
    assert forall i :: 0 <= i < |users| ==> after[i].phone != key;
    FirstMatchAtEnd(users, lead, key);
  }

  lemma {:induction false} FirstMatchAtEnd(users: seq<User>, last: User, phone: string)
    requires forall i :: 0 <= i < |users| ==> users[i].phone != phone
    requires last.phone == phone
    ensures FindByPhone(users + [last], phone) == Some(last)
  {
    if users != [] {
      assert (users + [last])[1..] == users[1..] + [last];
      FirstMatchAtEnd(users[1..], last, phone);
    }
  }

  /** Optional fields a caller of `updateUser` may set; `None` leaves a field as it is. */
  datatype UserPatch = UserPatch(
    name: Option<string>,
    email: Option<string>,
    userType: Option<UserType>,
    lastAttendanceDate: Option<Instant>,
    paymentStatus: Option<PaymentStatus>,
    qualificationStatus: Option<QualificationStatus>)

  /** The `{...data, updatedAt}` merge. */
  function Merge(u: User, patch: UserPatch, now: Instant): User {
    u.(name := if patch.name.Some? then patch.name else u.name,
       email := if patch.email.Some? then patch.email else u.email,
       userType := patch.userType.GetOr(u.userType),
       lastAttendanceDate := if patch.lastAttendanceDate.Some? then patch.lastAttendanceDate else u.lastAttendanceDate,
       paymentStatus := if patch.paymentStatus.Some? then patch.paymentStatus else u.paymentStatus,
       qualificationStatus := if patch.qualificationStatus.Some? then patch.qualificationStatus else u.qualificationStatus,
       updatedAt := now)
  }

  /** Merging keeps the id, phone and creation time, and repeating a merge changes nothing. */
  lemma MergeLaws(u: User, patch: UserPatch, now: Instant, later: Instant)
    ensures Merge(u, patch, now).id == u.id && Merge(u, patch, now).phone == u.phone
    ensures Merge(u, patch, now).createdAt == u.createdAt && Merge(u, patch, now).updatedAt == now
    ensures Merge(Merge(u, patch, now), patch, later) == Merge(u, patch, later)
    ensures patch == UserPatch(None, None, None, None, None, None) ==> Merge(u, patch, now) == u.(updatedAt := now)
  {
  }

  /** An absentee: an active student last seen strictly before the cutoff (a missing date never matches). */
  predicate IsAbsentee(u: User, cutoff: Instant) {
    u.userType == ActiveStudent && u.lastAttendanceDate.Some? && u.lastAttendanceDate.value < cutoff
  }

  /** now − N days, with N = 14 when the argument is absent. */
  function AbsenceCutoff(days: Option<int>, now: Instant): Instant {
    now - days.GetOr(14) * MsPerDay
  }

  /** `getAbsenteeStudents`. */
  function AbsenteeStudents(users: seq<User>, days: Option<int>, now: Instant): (r: seq<User>)
    ensures forall i :: 0 <= i < |r| ==> r[i] in users && IsAbsentee(r[i], AbsenceCutoff(days, now))
    ensures forall i :: 0 <= i < |users| && IsAbsentee(users[i], AbsenceCutoff(days, now)) ==> users[i] in r
  {
    Filter(users, u => IsAbsentee(u, AbsenceCutoff(days, now)))
  }

  /** A longer absence threshold selects fewer students: every one of them is also absent for a shorter one. */
  lemma AbsenteesShrinkWithThreshold(users: seq<User>, shorter: int, longer: int, now: Instant)
    requires shorter <= longer
    ensures forall u :: u in AbsenteeStudents(users, Some(longer), now) ==> u in AbsenteeStudents(users, Some(shorter), now)
  {
    forall u | u in AbsenteeStudents(users, Some(longer), now)
      ensures u in AbsenteeStudents(users, Some(shorter), now)
    {
      assert shorter * MsPerDay <= longer * MsPerDay;
      var k :| 0 <= k < |users| && users[k] == u;
    }
  }

  predicate IsDelinquent(u: User) {
    u.userType == ActiveStudent && u.paymentStatus == Some(Overdue)
  }

  /** `getDelinquentStudents`. */
  function DelinquentStudents(users: seq<User>): (r: seq<User>)
    ensures forall i :: 0 <= i < |r| ==> r[i] in users && IsDelinquent(r[i])
    ensures forall i :: 0 <= i < |users| && IsDelinquent(users[i]) ==> users[i] in r
  {
    Filter(users, IsDelinquent)
  }

  predicate UniqueIds(users: seq<User>) {
    forall i, j :: 0 <= i < j < |users| ==> users[i].id != users[j].id
  }

  class UserStore {
    var users: seq<User>

    /** Document ids are unique within the collection. */
    predicate Valid()
      reads this
    {
      UniqueIds(users)
    }

    predicate Fresh(id: string)
      reads this
    {
      forall i :: 0 <= i < |users| ==> users[i].id != id
    }

    constructor ()
      ensures Valid() && users == []
    {
      users := [];
    }

    /**
     * `createLead`: when a user (of any type) already has the normalised phone, its
     * id is returned and nothing is written; otherwise a lead is appended with the
     * normalised phone, type lead and status unqualified. `newId` is the id the
     * store assigns, `None` when the write fails.
     */
    method CreateLead(phone: string, name: Option<string>, email: Option<string>, source: LeadSource,
                      interest: Option<string>, newId: Option<string>, now: Instant)
      returns (r: Result<string>)
      requires Valid() && (newId.Some? ==> Fresh(newId.value))
      modifies this
      ensures Valid()
      ensures var existing := IdentifyUser(old(users), phone);
        && (existing.Some? ==> r == Ok(existing.value.id) && users == old(users))
        && (existing.None? && newId.None? ==> r.Err? && users == old(users))
        && (existing.None? && newId.Some? ==>
              r == Ok(newId.value) && users == old(users) + [NewLead(newId.value, phone, name, email, source, interest, now)])
      ensures r.Ok? ==> IdentifyUser(users, phone).Some? && IdentifyUser(users, phone).value.id == r.value
    {
      var normalized := NormalizePhone(phone);
      var existing := IdentifyUser(users, normalized);
      assert NormalizePhone(normalized) == normalized;
      if existing.Some? {
        return Ok(existing.value.id);
      }
      if newId.None? {
        return Err("write failed");
      }
      NewLeadIsIdentified(users, phone, phone, name, email, source, interest, newId.value, now);
      users := users + [NewLead(newId.value, phone, name, email, source, interest, now)];
      r := Ok(newId.value);
    }

    /**
     * `updateUser`: merges the patch into the user with that id and refreshes
     * `updatedAt`; updating a missing document fails and writes nothing, and so
     * does a Firestore `update` that throws (`written` is false).
     */
    method UpdateUser(userId: string, patch: UserPatch, written: bool, now: Instant) returns (r: Result<()>)
      requires Valid()
      modifies this
      ensures Valid()
      ensures IndexOfUser(old(users), userId) == -1 || !written ==> r.Err? && users == old(users)
      ensures IndexOfUser(old(users), userId) >= 0 && written ==>
        var k := IndexOfUser(old(users), userId);
        r.Ok? && users == old(users)[k := Merge(old(users)[k], patch, now)]
    {
      var k := IndexOfUser(users, userId);
      if k == -1 {
        return Err("NOT_FOUND");
      }
      if !written {
        return Err("write failed");
      }
      users := users[k := Merge(users[k], patch, now)];
      r := Ok(());
    }
  }

  function IndexOfUser(users: seq<User>, id: string): (r: int)
    ensures -1 <= r < |users|
    ensures r == -1 <==> forall i :: 0 <= i < |users| ==> users[i].id != id
    ensures r >= 0 ==> users[r].id == id
  {
    FirstWhere(users, (u: User) => u.id == id)
  }
}
