/** Entities, state machines and eligibility rules (internal/domain). */
module Domain {
  import opened Prelude
  import opened Text

  // ----- seat life cycle ---------------------------------------------------

  datatype EnrollmentStatus = Pending | Enrolled | Waitlisted | Dropped | Withdrawn | Completed {
    function Successors(): seq<EnrollmentStatus> {
      match this
      case Pending => [Enrolled, Waitlisted, Withdrawn]
      case Enrolled => [Dropped, Completed]
      case Waitlisted => [Enrolled, Withdrawn]
      case Dropped => []
      case Withdrawn => []
      case Completed => []
    }

    predicate CanTransitionTo(target: EnrollmentStatus) { target in Successors() }

    predicate HoldsSeat() { this == Enrolled || this == Completed }

    predicate Active() { this == Pending || this == Enrolled || this == Waitlisted }

    /** The statuses named by the partial unique index on (student, section). */
    predicate Indexed() { Active() || this == Completed }
  }

  /** One row of the enrollments table; its id is its position in the table. */
  datatype Enrollment = Enrollment(
    student: int, term: nat, section: nat, courseCode: string, credits: int,
    status: EnrollmentStatus, rank: int, requestedAt: int,
    decidedAt: Option<int>, releasedAt: Option<int>, version: int)
  {
    function Transition(target: EnrollmentStatus, now: int): Result<Enrollment> {
      if !status.CanTransitionTo(target) then Err(InvalidTransition)
      else
        var stamped := match target
          case Enrolled => this.(decidedAt := Some(now), rank := 0)
          case Waitlisted => this.(decidedAt := Some(now))
          case Dropped => this.(releasedAt := Some(now), rank := 0)
          case Withdrawn => this.(releasedAt := Some(now), rank := 0)
          case Completed => this.(decidedAt := Some(now))
          case Pending => this;
        Ok(stamped.(status := target))
    }
  }

  /** The seat life cycle: which moves there are, and what each writes. A seat is decided when
      it is granted, queued for or completed, and released when it is dropped or withdrawn. */
  lemma SeatLifeCycle(e: Enrollment, target: EnrollmentStatus, now: int)
    ensures e.Transition(target, now).Ok? <==>
              (e.status, target) in
                {(Pending, Enrolled), (Pending, Waitlisted), (Pending, Withdrawn), (Enrolled, Dropped),
                 (Enrolled, Completed), (Waitlisted, Enrolled), (Waitlisted, Withdrawn)}
    ensures e.Transition(target, now).Ok? ==>
              var m := e.Transition(target, now).value;
              var released := target == Dropped || target == Withdrawn;
              m == e.(status := target, rank := m.rank, decidedAt := m.decidedAt, releasedAt := m.releasedAt)
              && m.releasedAt == (if released then Some(now) else e.releasedAt)
              && m.decidedAt == (if released then e.decidedAt else Some(now))
              && m.rank == (if target == Waitlisted || target == Completed then e.rank else 0)
    ensures e.Transition(target, now).Err? ==> e.Transition(target, now) == Err(InvalidTransition)
  {
  }

  function SeatDelta(from: EnrollmentStatus, to: EnrollmentStatus): int {
    (if to.HoldsSeat() then 1 else 0) - (if from.HoldsSeat() then 1 else 0)
  }

  // ----- catalogue ---------------------------------------------------------

  datatype Term = Term(opensAt: int, closesAt: int, addDropClosesAt: int, creditLimit: int, archived: bool) {
    predicate EnrollmentOpen(now: int) { !archived && opensAt <= now < closesAt }

    predicate DropAllowed(now: int) { !archived && opensAt <= now < addDropClosesAt }

    predicate Valid() { 0 < creditLimit && opensAt < closesAt <= addDropClosesAt }
  }

  datatype Course = Course(code: string, credits: int, prerequisites: seq<string>) {
    predicate Valid() { Trim(code) != "" && 0 < credits <= 12 }
  }

  datatype Meeting = Meeting(weekday: int, startMinute: int, endMinute: int) {
    predicate Valid() {
      0 <= weekday <= 6 && 0 <= startMinute < 1440 && startMinute < endMinute <= 1440
    }

    predicate Occupies(minute: int) { startMinute <= minute < endMinute }

    predicate Overlaps(other: Meeting) {
      weekday == other.weekday && startMinute < other.endMinute && other.startMinute < endMinute
    }
  }

  datatype SectionStatus = Draft | Open | Closed | Cancelled

  datatype Section = Section(
    term: nat, course: nat, status: SectionStatus, capacity: int, seatsTaken: int,
    waitlistLimit: int, waitlistLength: int, version: int, meetings: seq<Meeting>)
  {
    function SeatsAvailable(): int { Max(0, capacity - seatsTaken) }

    predicate AcceptsEnrollment() { status == Open }
  }

  /** Overlap is exactly sharing a minute, so blocks that only touch coexist. */
  lemma OverlapIsSharedMinute(a: Meeting, b: Meeting)
    requires a.Valid() && b.Valid()
    ensures a.Overlaps(b) <==>
              a.weekday == b.weekday && exists minute :: a.Occupies(minute) && b.Occupies(minute)
    ensures a.Overlaps(b) <==> b.Overlaps(a)
  {
    if a.Overlaps(b) {
      var minute := Max(a.startMinute, b.startMinute);
      assert a.Occupies(minute) && b.Occupies(minute);
    }
  }

  /** Some candidate block collides with some held block. */
  predicate Conflicting(candidate: seq<Meeting>, held: seq<Meeting>) {
    exists c :: c in candidate && exists h :: h in held && c.Overlaps(h)
  }

  method FindScheduleConflict(candidate: seq<Meeting>, held: seq<Meeting>)
    returns (pair: Option<(Meeting, Meeting)>)
    ensures pair.Some? <==> Conflicting(candidate, held)
    ensures pair.Some? ==>
              exists i, j :: 0 <= i < |candidate| && 0 <= j < |held|
                && pair == Some((candidate[i], held[j])) && candidate[i].Overlaps(held[j])
                && forall p, q :: 0 <= p < |candidate| && 0 <= q < |held| && (p < i || (p == i && q < j)) ==>
                  !candidate[p].Overlaps(held[q])
  {
    for i := 0 to |candidate|
      invariant forall p, q :: 0 <= p < i && 0 <= q < |held| ==> !candidate[p].Overlaps(held[q])
    {
      for j := 0 to |held|
        invariant forall q :: 0 <= q < j ==> !candidate[i].Overlaps(held[q])
      {
        if candidate[i].Overlaps(held[j]) {
          assert candidate[i] in candidate && held[j] in held;
          return Some((candidate[i], held[j]));
        }
      }
    }
    return None;
  }

  // ----- paperwork ---------------------------------------------------------

  datatype RegistrationStatus = RegDraft | Submitted | Verified | Rejected {
    function Successors(): seq<RegistrationStatus> {
      match this
      case RegDraft => [Submitted]
      case Submitted => [Verified, Rejected]
      case Verified => []
      case Rejected => [Submitted]
    }

    predicate CanTransitionTo(target: RegistrationStatus) { target in Successors() }
  }

  /** What a student hands in. */
  datatype Paperwork = Paperwork(programCode: string, advisorEmail: string, dormPreference: string) {
    predicate WellFormed() {
      Trim(programCode) != "" && |programCode| <= 32 && ValidEmail(advisorEmail)
      && Lower(Trim(dormPreference)) in ["on_campus", "off_campus", "undecided"]
    }
  }

  /** What NormalizeEmail accepts: a local part, a domain, and no white space in between. */
  predicate ValidEmail(raw: string) {
    var email := Lower(Trim(raw));
    (exists at :: 0 < at < |email| - 1 && email[at] == '@' && '@' !in email[..at]) && NoBlank(email)
  }

  predicate NoBlank(s: string) { ' ' !in s && '\t' !in s && '\r' !in s && '\n' !in s }

  /** The first at-sign has text on both sides, and there is no white space left inside. */
  ghost predicate MailShape(t: string) {
    (exists at :: 0 < at < |t| - 1 && t[at] == '@' && forall k :: 0 <= k < at ==> t[k] != '@')
    && forall k :: 0 <= k < |t| ==> t[k] as int !in {32, 9, 13, 10}
  }

  ghost predicate IsEmail(raw: string) { exists t :: IsTrimmed(raw, t) && MailShape(t) }

  lemma LowerKeeps(t: string)
    ensures |Lower(t)| == |t|
    ensures forall k :: 0 <= k < |t| ==>
              (Lower(t)[k] == '@' <==> t[k] == '@') && (White(Lower(t)[k]) <==> White(t[k]))
              && (White(t[k]) ==> Lower(t)[k] == t[k])
  {
  }

  lemma ShapeOfLower(raw: string)
    ensures ValidEmail(raw) <==> MailShape(Trim(raw))
  {
    var t := Trim(raw);
    var email := Lower(t);
    LowerKeeps(t);
    hide Trim, Lower;
    if ValidEmail(raw) {
      var at :| 0 < at < |email| - 1 && email[at] == '@' && '@' !in email[..at];
      assert forall k :: 0 <= k < at ==> email[k] in email[..at];
      assert forall k :: 0 <= k < |email| ==> email[k] in email;
    }
    if MailShape(t) {
      var at :| 0 < at < |t| - 1 && t[at] == '@' && forall k :: 0 <= k < at ==> t[k] != '@';
      assert email[at] == '@' && '@' !in email[..at];
    }
  }

  lemma EmailMeans(raw: string)
    ensures ValidEmail(raw) <==> IsEmail(raw)
  {
    TrimKeepsCore(raw);
    ShapeOfLower(raw);
    hide Trim, IsTrimmed, MailShape, ValidEmail;
    if IsEmail(raw) {
      var t :| IsTrimmed(raw, t) && MailShape(t);
      CoresAgree(raw, t, Trim(raw));
    }
  }

  lemma DormMeans(dorm: string)
    ensures Lower(Trim(dorm)) in ["on_campus", "off_campus", "undecided"] <==>
            Spells(dorm, "on_campus") || Spells(dorm, "off_campus") || Spells(dorm, "undecided")
  {
    hide Trim, Lower, Spells;
    LowerMeans(dorm, "on_campus");
    LowerMeans(dorm, "off_campus");
    LowerMeans(dorm, "undecided");
  }

  /** Which forms may be handed in: a program of at most 32 characters that is not blank, an
      advisor's address, and one of the three dorm preferences. */
  ghost predicate Acceptable(p: Paperwork) {
    (exists k :: 0 <= k < |p.programCode| && !White(p.programCode[k])) && |p.programCode| <= 32
    && IsEmail(p.advisorEmail)
    && (Spells(p.dormPreference, "on_campus") || Spells(p.dormPreference, "off_campus")
        || Spells(p.dormPreference, "undecided"))
  }

  lemma WellFormedMeans(p: Paperwork)
    ensures p.WellFormed() <==> Acceptable(p)
  {
    hide ValidEmail, IsEmail, Spells, Lower, Trim, IsTrimmed;
    TrimMeans(p.programCode, "");
    EmailMeans(p.advisorEmail);
    DormMeans(p.dormPreference);
  }

  datatype Registration = Registration(
    student: int, term: nat, status: RegistrationStatus, paperwork: Paperwork,
    submittedAt: Option<int>, decidedAt: Option<int>, decidedBy: Option<int>, note: string, version: int)
  {
    function Submit(now: int): Result<Registration> {
      if !status.CanTransitionTo(Submitted) then Err(InvalidTransition)
      else if !paperwork.WellFormed() then Err(Validation)
      else Ok(this.(status := Submitted, submittedAt := Some(now), decidedAt := None, decidedBy := None, note := ""))
    }

    function Decide(target: RegistrationStatus, decider: int, text: string, now: int): Result<Registration> {
      if target != Verified && target != Rejected then Err(Validation)
      else if !status.CanTransitionTo(target) then Err(InvalidTransition)
      else if target == Rejected && Trim(text) == "" then Err(Validation)
      else Ok(this.(status := target, decidedAt := Some(now), decidedBy := Some(decider), note := Trim(text)))
    }
  }

  /** The documented paperwork machine: a decision needs a submission, a resubmission
      needs a rejection, and a verified record accepts neither operation. */
  lemma PaperworkMachine(r: Registration, target: RegistrationStatus, decider: int, text: string, now: int)
    ensures r.Submit(now).Ok? <==> (r.status == RegDraft || r.status == Rejected) && r.paperwork.WellFormed()
    ensures r.Decide(target, decider, text, now).Ok? <==>
              r.status == Submitted
              && (target == Verified || (target == Rejected && Trim(text) != ""))
    ensures r.Submit(now).Ok? ==> r.Submit(now).value.status == Submitted && r.Submit(now).value.decidedBy == None
    ensures r.Decide(target, decider, text, now).Ok? ==>
              r.Decide(target, decider, text, now).value.status == target
              && r.Decide(target, decider, text, now).value.decidedBy == Some(decider)
    ensures r.status == Verified ==> r.Submit(now).Err? && r.Decide(target, decider, text, now).Err?
  {
  }

  datatype AcademicRecord = AcademicRecord(student: int, courseCode: string, grade: string) {
    predicate Passing() { Normal(grade) in ["A", "B", "C", "D", "P"] }
  }

  predicate PassingLetter(c: char) { 'A' <= c <= 'D' || 'a' <= c <= 'd' || c == 'P' || c == 'p' }

  /** One of the letters A, B, C, D and P in either case, with nothing but white space around it. */
  ghost predicate PassingGrade(grade: string) {
    exists i: nat :: i < |grade| && Core(grade, i, i + 1) && PassingLetter(grade[i])
  }

  lemma PassingIsLetter(r: AcademicRecord)
    ensures r.Passing() <==> |Trim(r.grade)| == 1 && PassingLetter(Trim(r.grade)[0])
  {
    var n := Normal(r.grade);
    if r.Passing() {
      assert |n| == 1;
    }
    if |Trim(r.grade)| == 1 {
      assert n == [n[0]];
    }
  }

  lemma LetterIsTrimmed(s: string, p: nat)
    requires p < |s| && Core(s, p, p + 1)
    ensures Trim(s) == [s[p]]
  {
    hide Trim, Core;
    assert s[p..p + 1] == [s[p]];
    TrimMeans(s, s[p..p + 1]);
  }

  lemma LetterOfTrimmed(s: string) returns (i: nat)
    requires |Trim(s)| == 1
    ensures i < |s| && Core(s, i, i + 1) && Trim(s) == [s[i]]
  {
    TrimKeepsCore(s);
    hide Trim;
    var a: nat, b: nat :| a <= b <= |s| && Core(s, a, b) && Trim(s) == s[a..b];
    i := a;
  }

  /** Which grades pass. */
  lemma PassingMeans(r: AcademicRecord)
    ensures r.Passing() <==> PassingGrade(r.grade)
  {
    hide AcademicRecord.Passing, Trim, Core;
    PassingIsLetter(r);
    if r.Passing() {
      var i := LetterOfTrimmed(r.grade);
      assert Trim(r.grade)[0] == r.grade[i];
    }
    if PassingGrade(r.grade) {
      var p: nat :| p < |r.grade| && Core(r.grade, p, p + 1) && PassingLetter(r.grade[p]);
      LetterIsTrimmed(r.grade, p);
    }
  }

  /** A failed, withdrawn, incomplete or blank course never counts as passed. */
  lemma OtherGradesFail(r: AcademicRecord)
    requires r.grade == "F" || r.grade == "W" || r.grade == "I" || r.grade == ""
    ensures !r.Passing()
  {
    PassingIsLetter(r);
  }

  /** Every named prerequisite is met by a passing record. */
  predicate Covers(required: seq<string>, completed: seq<AcademicRecord>) {
    forall code :: code in required ==>
      Normal(code) == "" || exists r :: r in completed && r.Passing() && Normal(r.courseCode) == Normal(code)
  }

  predicate Passed(completed: seq<AcademicRecord>, code: string) {
    exists a :: a in completed && a.Passing() && Normal(a.courseCode) == code
  }

  /** The codes no passing record covers, normalised, in catalogue order and with repetitions. */
  function Uncovered(required: seq<string>, completed: seq<AcademicRecord>): seq<string> {
    if required == [] then []
    else
      var code := Normal(required[|required| - 1]);
      Uncovered(required[..|required| - 1], completed)
      + if code != "" && !Passed(completed, code) then [code] else []
  }

  lemma {:induction false} UncoveredMembers(required: seq<string>, completed: seq<AcademicRecord>, code: string)
    ensures code in Uncovered(required, completed) <==>
            code != "" && (exists r :: r in required && Normal(r) == code) && !Passed(completed, code)
  {
    if required != [] {
      var n := |required| - 1;
      UncoveredMembers(required[..n], completed, code);
      assert required == required[..n] + [required[n]];
    }
  }

  /** Some record with a passing grade is for the course of that normalised code. */
  ghost predicate HasCredit(completed: seq<AcademicRecord>, code: string) {
    exists a :: a in completed && PassingGrade(a.grade) && IsNormal(a.courseCode, code)
  }

  lemma PassedMeans(completed: seq<AcademicRecord>, code: string)
    ensures Passed(completed, code) <==> HasCredit(completed, code)
  {
    hide AcademicRecord.Passing, PassingGrade, IsNormal, Normal;
    forall a | a in completed
      ensures a.Passing() <==> PassingGrade(a.grade)
      ensures Normal(a.courseCode) == code <==> IsNormal(a.courseCode, code)
    {
      PassingMeans(a);
      NormalMeans(a.courseCode, code);
    }
  }

  ghost predicate Names(required: seq<string>, code: string) { exists r :: r in required && IsNormal(r, code) }

  lemma UncoveredMeans(required: seq<string>, completed: seq<AcademicRecord>, code: string)
    ensures code in Uncovered(required, completed) <==>
              code != "" && Names(required, code) && !HasCredit(completed, code)
  {
    hide IsNormal, Normal, Passed, HasCredit;
    UncoveredMembers(required, completed, code);
    PassedMeans(completed, code);
    forall r | r in required ensures Normal(r) == code <==> IsNormal(r, code) {
      NormalMeans(r, code);
    }
  }

  /** Nothing is listed exactly when every named prerequisite is covered. */
  lemma NothingUncovered(required: seq<string>, completed: seq<AcademicRecord>)
    ensures Uncovered(required, completed) == [] <==> Covers(required, completed)
  {
    var missing := Uncovered(required, completed);
    if missing == [] {
      forall code | code in required ensures Normal(code) == "" || Passed(completed, Normal(code)) {
        UncoveredMembers(required, completed, Normal(code));
      }
    } else {
      UncoveredMembers(required, completed, missing[0]);
      var r :| r in required && Normal(r) == missing[0];
    }
  }

  lemma PassedSnoc(completed: seq<AcademicRecord>, i: nat, code: string)
    requires i < |completed|
    ensures Passed(completed[..i + 1], code) <==>
            Passed(completed[..i], code) || (completed[i].Passing() && Normal(completed[i].courseCode) == code)
  {
    assert completed[..i + 1] == completed[..i] + [completed[i]];
  }

  method MissingPrerequisites(required: seq<string>, completed: seq<AcademicRecord>) returns (missing: seq<string>)
    ensures missing == Uncovered(required, completed)
    ensures missing == [] <==> Covers(required, completed)
    ensures forall code :: code in missing <==>
              code != "" && Names(required, code) && !HasCredit(completed, code)
  {
    hide Passed;
    var passed: set<string> := {};
    assert forall c :: !Passed(completed[..0], c) by { NonePassed(completed); }
    for i := 0 to |completed|
      invariant forall c :: c in passed <==> Passed(completed[..i], c)
    {
      forall c ensures Passed(completed[..i + 1], c) <==>
        Passed(completed[..i], c) || (completed[i].Passing() && Normal(completed[i].courseCode) == c)
      {
        PassedSnoc(completed, i, c);
      }
      if completed[i].Passing() {
        passed := passed + {Normal(completed[i].courseCode)};
      }
    }
    assert completed[..|completed|] == completed;
    missing := [];
    for i := 0 to |required|
      invariant missing == Uncovered(required[..i], completed)
    {
      assert required[..i + 1][..i] == required[..i];
      var code := Normal(required[i]);
      if code != "" && code !in passed {
        missing := missing + [code];
      }
    }
    assert required[..|required|] == required;
    NothingUncovered(required, completed);
    forall code ensures code in missing <==> code != "" && Names(required, code) && !HasCredit(completed, code) {
      UncoveredMeans(required, completed, code);
    }
  }

  lemma NonePassed(completed: seq<AcademicRecord>)
    ensures forall c :: !Passed(completed[..0], c)
  {
  }
}
