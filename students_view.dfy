/**
 * The students screen of src/components/StudentManagement.tsx: the students
 * split by status, those at risk by absences, the qualified and new leads, the
 * tabs that show the first ten, and the warnings on a student's card.
 */
module StudentsView {
  import opened Seqs

  datatype StudentStatus = ActiveStatus | Frozen | Cancelled | Delinquent

  datatype LeadStatus = New | Contacted | Qualified | LessonScheduled | LessonCompleted | Enrolled | Lost

  datatype Student = Student(id: string, name: string, status: StudentStatus, absenceCount: int, accountBalance: real)

  datatype Lead = Lead(id: string, name: string, status: LeadStatus)

  const AtRiskAbsences: int := 3
  const TabLimit: int := 10

  predicate IsActive(s: Student) { s.status == ActiveStatus }
  predicate IsDelinquent(s: Student) { s.status == Delinquent }
  predicate IsFrozen(s: Student) { s.status == Frozen }
  predicate IsCancelled(s: Student) { s.status == Cancelled }
  predicate IsAtRisk(s: Student) { s.absenceCount >= AtRiskAbsences }
  predicate IsQualified(l: Lead) { l.status == Qualified || l.status == LessonScheduled }
  predicate IsNew(l: Lead) { l.status == New }

  function ActiveStudents(students: seq<Student>): seq<Student> { Filter(students, IsActive) }
  function DelinquentStudents(students: seq<Student>): seq<Student> { Filter(students, IsDelinquent) }
  function FrozenStudents(students: seq<Student>): seq<Student> { Filter(students, IsFrozen) }
  function AtRiskStudents(students: seq<Student>): seq<Student> { Filter(students, IsAtRisk) }
  function QualifiedLeads(leads: seq<Lead>): seq<Lead> { Filter(leads, IsQualified) }
  function NewLeads(leads: seq<Lead>): seq<Lead> { Filter(leads, IsNew) }

  /** The active-students tab: the first ten active students. */
  function ActiveTab(students: seq<Student>): (r: seq<Student>)
    ensures |r| == Min(TabLimit, |ActiveStudents(students)|)
    ensures r == ActiveStudents(students)[..|r|]
  {
    SliceTo(ActiveStudents(students), TabLimit)
  }

  /** The leads tab: the first ten leads, whatever their status. */
  function LeadsTab(leads: seq<Lead>): (r: seq<Lead>)
    ensures |r| == Min(TabLimit, |leads|)
    ensures r == leads[..|r|]
  {
    SliceTo(leads, TabLimit)
  }

  /**
   * A student is on a status list exactly when they have that status, so no
   * student is on two of them; and the at-risk list goes by absences alone,
   * whatever the status.
   */
  lemma StatusListsDisjoint(students: seq<Student>, s: Student)
    requires s in students
    ensures s in ActiveStudents(students) <==> s.status == ActiveStatus
    ensures s in DelinquentStudents(students) <==> s.status == Delinquent
    ensures s in FrozenStudents(students) <==> s.status == Frozen
    ensures !(s in ActiveStudents(students) && s in DelinquentStudents(students))
    ensures !(s in ActiveStudents(students) && s in FrozenStudents(students))
    ensures !(s in DelinquentStudents(students) && s in FrozenStudents(students))
    ensures s in AtRiskStudents(students) <==> s.absenceCount >= AtRiskAbsences
  {
    var i :| 0 <= i < |students| && students[i] == s;
  }

  /** The three status lists and the cancelled students account for every student exactly once. */
  lemma {:induction false} StatusListsPartition(students: seq<Student>)
    ensures |ActiveStudents(students)| + |DelinquentStudents(students)| + |FrozenStudents(students)|
            + |Filter(students, IsCancelled)| == |students|
  {
    if students != [] {
      StatusListsPartition(students[1..]);
    }
  }

  /** Lead lists go by status: a lead is qualified when qualified or with a lesson scheduled, new when new, never both. */
  lemma LeadListsFollowStatus(leads: seq<Lead>, l: Lead)
    requires l in leads
    ensures l in QualifiedLeads(leads) <==> l.status == Qualified || l.status == LessonScheduled
    ensures l in NewLeads(leads) <==> l.status == New
    ensures !(l in QualifiedLeads(leads) && l in NewLeads(leads))
  {
    var i :| 0 <= i < |leads| && leads[i] == l;
  }

  /** A `StudentCard` as a tab draws it: the student and the two flags the tab passes. */
  datatype StudentCard = StudentCard(student: Student, showAlert: bool, showBalance: bool)

  function Cards(shown: seq<Student>, showAlert: bool, showBalance: bool): (r: seq<StudentCard>)
    ensures |r| == |shown|
    ensures forall i :: 0 <= i < |r| ==> r[i] == StudentCard(shown[i], showAlert, showBalance)
  {
    if shown == [] then [] else [StudentCard(shown[0], showAlert, showBalance)] + Cards(shown[1..], showAlert, showBalance)
  }

  /** The cards of the three student tabs: active (plain), at risk (`showAlert`) and delinquent (`showBalance`). */
  function ActiveCards(students: seq<Student>): seq<StudentCard> { Cards(ActiveTab(students), false, false) }
  function AtRiskCards(students: seq<Student>): seq<StudentCard> { Cards(AtRiskStudents(students), true, false) }
  function DelinquentCards(students: seq<Student>): seq<StudentCard> { Cards(DelinquentStudents(students), false, true) }

  function AllCards(students: seq<Student>): seq<StudentCard> {
    ActiveCards(students) + AtRiskCards(students) + DelinquentCards(students)
  }

  /** `showBalance && student.accountBalance > 0`: the card's owed-balance warning. */
  predicate ShowsBalanceWarning(c: StudentCard) {
    c.showBalance && c.student.accountBalance > 0.0
  }

  /**
   * Of all the cards the student tabs draw, only those of the delinquent tab can
   * warn of a balance; and a student gets a balance warning on some card exactly
   * when they are delinquent and owe money.
   */
  lemma BalanceWarningOnlyWhenOwed(students: seq<Student>, s: Student)
    requires s in students
    ensures forall c :: c in AllCards(students) && ShowsBalanceWarning(c) ==>
      c in DelinquentCards(students) && c.student.status == Delinquent && c.student.accountBalance > 0.0
    ensures (exists c :: c in AllCards(students) && c.student == s && ShowsBalanceWarning(c))
      <==> s.status == Delinquent && s.accountBalance > 0.0
  {
    var all := AllCards(students);
    var plain := ActiveCards(students) + AtRiskCards(students);
    assert all == plain + DelinquentCards(students);
    assert forall i :: 0 <= i < |plain| ==> !plain[i].showBalance;
    forall c | c in all && ShowsBalanceWarning(c)
      ensures c in DelinquentCards(students) && c.student.status == Delinquent
    {
      assert c !in plain;
      var i :| 0 <= i < |DelinquentCards(students)| && DelinquentCards(students)[i] == c;
      assert c.student == DelinquentStudents(students)[i];
    }
    if s.status == Delinquent && s.accountBalance > 0.0 {
      var j :| 0 <= j < |students| && students[j] == s;
      assert s in DelinquentStudents(students);
      var i :| 0 <= i < |DelinquentStudents(students)| && DelinquentStudents(students)[i] == s;
      assert DelinquentCards(students)[i] == StudentCard(s, false, true);
      assert DelinquentCards(students)[i] in all;
    }
  }
}
