/**
 The services as written: statements issued one after the other against a store,
 inside a transaction that is rolled back on the first refusal. Every method is
 proved against the transaction function of the same name.
 */
module Services {
  import opened Prelude
  import opened Domain
  import opened Tables
  import opened Transactions
  import opened StoreModel
  import opened Batch

  // ----- the eligibility rules, with their loops -------------------------------

  method SumCredits(rows: seq<Enrollment>) returns (total: int)
    ensures total == CreditLoad(rows)
  {
    total := 0;
    for i := 0 to |rows|
      invariant total == CreditLoad(rows[..i])
    {
      assert rows[..i + 1] == rows[..i] + [rows[i]];
      SumAppend(rows[..i], rows[i], CreditsIfActive());
      if rows[i].status.Active() {
        total := total + rows[i].credits;
      }
    }
    assert rows[..|rows|] == rows;
  }

  method CheckEnrollmentEligibility(i: EligibilityInput) returns (r: Result<bool>)
    ensures r == CheckEligibility(i)
  {
    var section := i.view.section;
    if !i.term.EnrollmentOpen(i.now) {
      return Err(WindowClosed);
    }
    if i.paperwork != Verified {
      return Err(RegistrationIncomplete);
    }
    if !section.AcceptsEnrollment() {
      return Err(Conflict);
    }
    for k := 0 to |i.held|
      invariant forall p :: 0 <= p < k ==> !Duplicates(i.held[p], i.sectionId, i.view.course.code)
    {
      var held := i.held[k];
      if !held.status.Active() {
        continue;
      }
      if held.section == i.sectionId {
        assert Duplicates(held, i.sectionId, i.view.course.code);
        return Err(DuplicateEnrollment);
      }
      if held.courseCode != "" && held.courseCode == i.view.course.code {
        assert Duplicates(held, i.sectionId, i.view.course.code);
        return Err(DuplicateEnrollment);
      }
    }
    var missing := MissingPrerequisites(i.view.course.prerequisites, i.completed);
    if missing != [] {
      return Err(PrerequisiteMissing);
    }
    var load := SumCredits(i.held);
    if load + i.view.course.credits > i.term.creditLimit {
      return Err(CreditLimitExceeded);
    }
    var conflict := FindScheduleConflict(section.meetings, i.heldMeetings);
    if conflict.Some? {
      return Err(ScheduleConflict);
    }
    if section.SeatsAvailable() <= 0 {
      if section.waitlistLimit <= 0 || section.waitlistLength >= section.waitlistLimit {
        return Err(WaitlistFull);
      }
      return Ok(true);
    }
    return Ok(false);
  }

  class EnrollmentService {
    const store: Store
    const maxRetries: nat

    constructor (store: Store, maxRetries: nat)
      ensures this.store == store && this.maxRetries == maxRetries
    {
      this.store := store;
      this.maxRetries := maxRetries;
    }

    method RecordRejection(action: AuditAction, subject: AuditSubject)
      modifies store
      ensures store.State() == AppendAudit(old(store.State()), AuditEvent(action, subject, RejectedOutcome))
    {
      store.AppendAudit(AuditEvent(action, subject, RejectedOutcome));
    }

    // ----- claiming ----------------------------------------------------------------

    /** The statements of one claim; on a refusal the tables are left half written. */
    method ClaimOnce(student: int, sectionId: int, now: int) returns (r: Result<ClaimResult>)
      modifies store
      ensures match ClaimTx(old(store.State()), student, sectionId, now)
              case Ok(c) => store.State() == c.db && r == Ok(ClaimResult(c.enrollment, c.waitlisted))
              case Err(e) => r == Err(e)
    {
      var view :- FindSection(store.State(), sectionId);
      var term :- FindTerm(store.State(), view.section.term);
      var waitlist :- CheckEnrollmentEligibility(
        EligibilityOf(store.State(), student, sectionId, view, term, now));
      var enrollment := FreshEnrollment(student, sectionId, view, now);
      if waitlist {
        var rank := NextWaitlistRank(store.enrollments, sectionId);
        var moved :- enrollment.Transition(Waitlisted, now);
        var id :- store.CreateEnrollment(moved.(rank := rank));
        var _ :- store.AdjustWaitlistLength(sectionId, 1);
        store.AppendAudit(AuditEvent(WaitlistAction, OnEnrollment(id), Success));
        return Ok(ClaimResult(id, true));
      }
      var _ :- store.ClaimSeat(sectionId, view.section.version);
      var moved :- enrollment.Transition(Enrolled, now);
      var id :- store.CreateEnrollment(moved);
      store.AppendAudit(AuditEvent(ClaimAction, OnEnrollment(id), Success));
      return Ok(ClaimResult(id, false));
    }

    /** One transaction: commit what ClaimOnce wrote, or restore the tables. */
    method ClaimInTx(student: int, sectionId: int, now: int) returns (r: Result<ClaimResult>)
      modifies store
      ensures match ClaimTx(old(store.State()), student, sectionId, now)
              case Ok(c) => store.State() == c.db && r == Ok(ClaimResult(c.enrollment, c.waitlisted))
              case Err(e) => store.State() == old(store.State()) && r == Err(e)
    {
      var saved := store.State();
      r := ClaimOnce(student, sectionId, now);
      if r.Err? {
        store.Rollback(saved);
      }
    }

    /** Replays the transaction on a version conflict, up to maxRetries times. */
    method Claim(actor: Principal, studentId: int, sectionId: int, now: int) returns (r: Result<ClaimResult>)
      modifies store
      ensures Reply(store.State(), r) == ClaimCall(old(store.State()), actor, studentId, sectionId, now)
    {
      var student :- ClaimGuard(actor, studentId, sectionId);
      var attempts := maxRetries + 1;
      var attempt := 1;
      while attempt <= attempts
        invariant 1 <= attempt <= attempts
        invariant store.State() == old(store.State())
        decreases attempts - attempt
      {
        r := ClaimInTx(student, sectionId, now);
        if r.Ok? {
          return r;
        }
        if r.error == VersionConflict && attempt < attempts {
          attempt := attempt + 1;
          continue;
        }
        RecordRejection(ClaimAction, OnSection(sectionId));
        return r;
      }
      assert false;
    }

    /** Claims several sections one by one; an ineligible one does not hide the others. */
    method BatchClaim(actor: Principal, studentId: int, sectionIds: seq<int>, clock: seq<int>)
      returns (r: Result<seq<BatchItem>>)
      requires |clock| == |sectionIds|
      modifies store
      ensures var was := old(store.State());
        var who := ActingStudent(actor, studentId);
        if |sectionIds| == 0 || |sectionIds| > 20 then r == Err(Validation) && store.State() == was
        else if !actor.CanActOnStudent(who) then r == Err(Forbidden) && store.State() == was
        else
          r.Ok? && |r.value| == |sectionIds| && store.State() == AfterBatch(was, actor, who, sectionIds, clock)
          && forall k :: 0 <= k < |sectionIds| ==> r.value[k] == ItemOf(was, actor, who, sectionIds, clock, k)
    {
      if |sectionIds| == 0 || |sectionIds| > 20 {
        return Err(Validation);
      }
      var who := ActingStudent(actor, studentId);
      if !actor.CanActOnStudent(who) {
        return Err(Forbidden);
      }
      ghost var was := store.State();
      var results: seq<BatchItem> := [];
      for i := 0 to |sectionIds|
        invariant |results| == i
        invariant store.State() == AfterBatch(was, actor, who, sectionIds[..i], clock[..i])
        invariant forall k :: 0 <= k < i ==> results[k] == ItemOf(was, actor, who, sectionIds, clock, k)
      {
        var claimed := Claim(actor, who, sectionIds[i], clock[i]);
        results := results + [BatchItem(sectionIds[i], claimed)];
        assert sectionIds[..i + 1][..i] == sectionIds[..i] && clock[..i + 1][..i] == clock[..i];
      }
      assert sectionIds[..|sectionIds|] == sectionIds && clock[..|sectionIds|] == clock;
      return Ok(results);
    }

    // ----- dropping ------------------------------------------------------------------

    method DropOnce(actor: Principal, id: int, now: int) returns (r: Result<()>)
      modifies store
      ensures match DropTx(old(store.State()), actor, id, now)
              case Ok(db) => store.State() == db && r == Ok(())
              case Err(e) => r == Err(e)
    {
      hide LeaveSection;
      var enrollment :- FindEnrollment(store.State(), id);
      if !actor.CanActOnStudent(enrollment.student) {
        return Err(Forbidden);
      }
      var term :- FindTerm(store.State(), enrollment.term);
      if actor.role != RegistrarRole && !term.DropAllowed(now) {
        return Err(WindowClosed);
      }
      var view :- FindSection(store.State(), enrollment.section);
      r := LeaveOnce(id, enrollment, view.section.version, now);
    }

    /** The writing half of a drop. */
    method LeaveOnce(id: nat, enrollment: Enrollment, sectionVersion: int, now: int) returns (r: Result<()>)
      modifies store
      ensures match LeaveSection(old(store.State()), id, enrollment, sectionVersion, now)
              case Ok(db) => store.State() == db && r == Ok(())
              case Err(e) => r == Err(e)
    {
      var target := Withdrawn;
      if enrollment.status.HoldsSeat() {
        target := Dropped;
      }
      var previous := enrollment.status;
      var expectedVersion := enrollment.version;
      var moved :- enrollment.Transition(target, now);
      var _ :- store.UpdateEnrollment(id, moved, expectedVersion);
      if SeatDelta(previous, target) < 0 {
        var released :- store.ReleaseSeat(enrollment.section, sectionVersion);
        if released.waitlistLength > 0 {
          store.EnqueueJob(JobKind.PromoteWaitlist(enrollment.section), MAX_JOB_ATTEMPTS, now);
        }
      }
      if previous == Waitlisted {
        var _ :- store.AdjustWaitlistLength(enrollment.section, -1);
      }
      store.AppendAudit(AuditEvent(DropAction, OnEnrollment(id), Success));
      return Ok(());
    }

    method Drop(actor: Principal, id: int, now: int) returns (r: Result<()>)
      modifies store
      ensures Reply(store.State(), r) == DropCall(old(store.State()), actor, id, now)
    {
      if id < 0 {
        return Err(Validation);
      }
      var saved := store.State();
      r := DropOnce(actor, id, now);
      if r.Err? {
        store.Rollback(saved);
        RecordRejection(DropAction, OnEnrollment(id));
      }
    }

    // ----- promotion -------------------------------------------------------------------

    method PromoteOnce(sectionId: int, now: int) returns (r: Result<bool>)
      modifies store
      ensures match PromoteTx(old(store.State()), sectionId, now)
              case Ok(p) => store.State() == p.db && r == Ok(p.promoted)
              case Err(e) => r == Err(e)
    {
      var view :- FindSection(store.State(), sectionId);
      if !view.section.AcceptsEnrollment() || view.section.SeatsAvailable() <= 0 {
        return Ok(false);
      }
      var found := HeadOfWaitlist(store.enrollments, sectionId);
      if found.None? {
        return Ok(false);
      }
      var head := store.enrollments[found.value];
      var _ :- store.ClaimSeat(sectionId, view.section.version);
      var expectedVersion := head.version;
      var moved :- head.Transition(Enrolled, now);
      var _ :- store.UpdateEnrollment(found.value, moved, expectedVersion);
      var _ :- store.AdjustWaitlistLength(sectionId, -1);
      store.AppendAudit(AuditEvent(PromoteAction, OnEnrollment(found.value), Success));
      return Ok(true);
    }

    method PromoteWaitlist(sectionId: int, now: int) returns (r: Result<bool>)
      modifies store
      ensures Reply(store.State(), r) == PromoteCall(old(store.State()), sectionId, now)
    {
      if sectionId < 0 {
        return Err(Validation);
      }
      var saved := store.State();
      r := PromoteOnce(sectionId, now);
      if r.Err? {
        store.Rollback(saved);
      }
    }
  }

  class RegistrationService {
    const store: Store

    constructor (store: Store)
      ensures this.store == store
    {
      this.store := store;
    }

    method SubmitOnce(actor: Principal, student: int, termId: int, paperwork: Paperwork, now: int) returns (r: Result<()>)
      modifies store
      ensures match SubmitTx(old(store.State()), actor, student, termId, paperwork, now)
              case Ok(db) => store.State() == db && r == Ok(())
              case Err(e) => r == Err(e)
    {
      if !actor.CanActOnStudent(student) {
        return Err(Forbidden);
      }
      var term :- FindTerm(store.State(), termId);
      if term.archived {
        return Err(WindowClosed);
      }
      var id := FindRegistration(store.registrations, student, termId);
      var registration := Registration(student, termId, RegDraft, paperwork, None, None, None, "", 0);
      if id.Some? {
        registration := store.registrations[id.value];
      }
      registration := registration.(paperwork := paperwork);
      registration :- registration.Submit(now);
      var saved :- store.UpsertRegistration(id, registration);
      store.AppendAudit(AuditEvent(SubmitAction, OnRegistration(saved), Success));
      return Ok(());
    }

    method Submit(actor: Principal, studentId: int, termId: int, paperwork: Paperwork, now: int) returns (r: Result<()>)
      modifies store
      ensures Reply(store.State(), r) == SubmitCall(old(store.State()), actor, studentId, termId, paperwork, now)
    {
      var saved := store.State();
      r := SubmitOnce(actor, ActingStudent(actor, studentId), termId, paperwork, now);
      if r.Err? {
        store.Rollback(saved);
      }
    }

    method DecideOnce(actor: Principal, id: nat, target: RegistrationStatus, note: string, now: int) returns (r: Result<()>)
      requires actor.role == RegistrarRole
      modifies store
      ensures match DecideTx(old(store.State()), actor, id, target, note, now)
              case Ok(db) => store.State() == db && r == Ok(())
              case Err(e) => r == Err(e)
    {
      if id >= |store.registrations| {
        return Err(NotFound);
      }
      var decided :- store.registrations[id].Decide(target, actor.userId, note, now);
      var saved :- store.UpsertRegistration(Some(id), decided);
      store.AppendAudit(AuditEvent(DecideAction, OnRegistration(saved), Success));
      return Ok(());
    }

    method Decide(actor: Principal, id: nat, target: RegistrationStatus, note: string, now: int) returns (r: Result<()>)
      modifies store
      ensures Reply(store.State(), r) == DecideCall(old(store.State()), actor, id, target, note, now)
    {
      if actor.role != RegistrarRole {
        return Err(Forbidden);
      }
      var saved := store.State();
      r := DecideOnce(actor, id, target, note, now);
      if r.Err? {
        store.Rollback(saved);
        store.AppendAudit(AuditEvent(DecideAction, OnRegistration(id), RejectedOutcome));
      }
    }
  }
}
