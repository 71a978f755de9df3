/**
 What each service call answers and leaves in the tables: the checks made before the
 transaction, the first rule that refuses it, the exact effect, and the rejection record.
 */
module Calls {
  import opened Prelude
  import opened Domain
  import opened Tables
  import opened Transactions
  import opened Invariant
  import opened NetEffect
  import opened Admission
  import opened Forms

  /** The tables with one more event about a refused attempt. */
  function Noted(db: Db, action: AuditAction, subject: AuditSubject): Db {
    db.(audit := db.audit + [AuditEvent(action, subject, RejectedOutcome)])
  }

  /** Whose seat or paperwork is meant: a missing student id means the caller. */
  function Meant(actor: Principal, student: int): int { if student > 0 then student else actor.userId }

  /** A student may claim only for themselves, and a refusal by a rule changes nothing but the trail. */
  lemma ClaimCallIsExact(db: Db, actor: Principal, student: int, section: int, now: int)
    requires Inv(db)
    ensures var who := Meant(actor, student);
      var reply := ClaimCall(db, actor, student, section, now);
      if who <= 0 || section < 0 then reply == Reply(db, Err(Validation))
      else if actor.role != RegistrarRole && who != actor.userId then reply == Reply(db, Err(Forbidden))
      else
        match Refusal(db, who, section, now)
        case Some(e) => reply == Reply(Noted(db, ClaimAction, OnSection(section)), Err(e))
        case None =>
          section < |db.sections| && FindSection(db, section).Ok?
          && var waitlist := db.sections[section].seatsTaken == db.sections[section].capacity;
             reply == Reply(AfterClaim(db, who, section, waitlist, now), Ok(ClaimResult(|db.enrollments|, waitlist)))
  {
    hide Inv, Refusal, ClaimTx, AfterClaim;
    AdmissionIsExact(db, Meant(actor, student), section, now);
  }

  /** The first rule that refuses to let the actor leave the row. */
  function LeaveRefusal(db: Db, actor: Principal, id: int, now: int): Option<Error>
    requires 0 <= id < |db.enrollments| ==> db.enrollments[id].term < |db.terms|
  {
    if !(0 <= id < |db.enrollments|) then Some(NotFound)
    else
      var row := db.enrollments[id];
      var term := db.terms[row.term];
      if actor.role != RegistrarRole && actor.userId != row.student then Some(Forbidden)
      else if actor.role != RegistrarRole && (term.archived || now < term.opensAt || term.addDropClosesAt <= now)
      then Some(WindowClosed)
      else if row.status != Enrolled && row.status != Waitlisted then Some(InvalidTransition)
      else None
  }

  lemma RowHasTerm(db: Db, id: nat)
    requires Inv(db) && id < |db.enrollments|
    ensures db.enrollments[id].term < |db.terms| && db.enrollments[id].section < |db.sections|
  {
    assert LinkedRow(db.enrollments[id], db.sections, db.courses);
  }

  lemma DropCallIsExact(db: Db, actor: Principal, id: int, now: int)
    requires Inv(db)
    ensures 0 <= id < |db.enrollments| ==>
              db.enrollments[id].term < |db.terms| && db.enrollments[id].section < |db.sections|
    ensures var reply := DropCall(db, actor, id, now);
      if id < 0 then reply == Reply(db, Err(Validation))
      else
        match LeaveRefusal(db, actor, id, now)
        case Some(e) => reply == Reply(Noted(db, DropAction, OnEnrollment(id)), Err(e))
        case None => reply == Reply(AfterDrop(db, id, now), Ok(()))
  {
    if 0 <= id < |db.enrollments| {
      RowHasTerm(db, id);
    }
    hide Inv, DropTx, AfterDrop;
    DropOutcome(db, actor, id, now);
  }

  /** A student keeps the right to leave a seat or a queue at every instant from the opening of
      a term to the end of add/drop, also after enrollment has closed, when no claim for the
      term is admitted any more; before and after, they have it never. */
  lemma DropOutlivesEnrollment(db: Db, id: nat, now: int)
    requires Inv(db) && id < |db.enrollments|
    requires db.enrollments[id].status == Enrolled || db.enrollments[id].status == Waitlisted
    ensures db.enrollments[id].term < |db.terms| && db.enrollments[id].section < |db.sections|
    ensures var row := db.enrollments[id];
      var term := db.terms[row.term];
      var own := Principal(row.student, StudentRole);
      (DropCall(db, own, id, now).result.Ok? <==> !term.archived && term.opensAt <= now < term.addDropClosesAt)
      && (term.Valid() && !term.archived && term.closesAt <= now < term.addDropClosesAt ==>
            DropCall(db, own, id, now) == Reply(AfterDrop(db, id, now), Ok(()))
            && ClaimTx(db, row.student, row.section, now) == Err(WindowClosed))
  {
    DropCallIsExact(db, Principal(db.enrollments[id].student, StudentRole), id, now);
    assert LinkedRow(db.enrollments[id], db.sections, db.courses);
    AdmissionIsExact(db, db.enrollments[id].student, db.enrollments[id].section, now);
    hide Inv, DropCall, AfterDrop, ClaimTx, AfterClaim;
  }

  lemma PromoteCallIsExact(db: Db, section: int, now: int)
    requires Inv(db)
    ensures var reply := PromoteCall(db, section, now);
      if section < 0 then reply == Reply(db, Err(Validation))
      else if section >= |db.sections| then reply == Reply(db, Err(NotFound))
      else
        var s := db.sections[section];
        if s.status == Open && s.seatsTaken < s.capacity && s.waitlistLength > 0 then
          IsEarliestWaiting(db.enrollments, section, Head(db.enrollments, section))
          && reply == Reply(AfterPromote(db, section, Head(db.enrollments, section), now), Ok(true))
        else reply == Reply(db, Ok(false))
  {
    hide Inv, PromoteTx, AfterPromote;
    PromoteOutcome(db, section, now);
  }

  lemma SubmitCallIsExact(db: Db, actor: Principal, student: int, term: int, form: Paperwork, now: int)
    returns (k: nat)
    requires Inv(db)
    ensures var who := Meant(actor, student);
      var reply := SubmitCall(db, actor, student, term, form, now);
      match SubmitRefusal(db, actor, who, term, form)
      case Some(e) => reply == Reply(db, Err(e))
      case None => RecordFor(db, k, who, term) && reply == Reply(AfterSubmit(db, k, who, term, form, now), Ok(()))
  {
    hide Inv, SubmitTx, SubmitRefusal, RecordFor;
    k := SubmitOutcome(db, actor, Meant(actor, student), term, form, now);
  }

  lemma DecideCallIsExact(db: Db, actor: Principal, id: nat, target: RegistrationStatus, note: string, now: int)
    ensures var reply := DecideCall(db, actor, id, target, note, now);
      match DecideRefusal(db, actor, id, target, note)
      case Some(e) =>
        reply == Reply(if actor.role != RegistrarRole then db else Noted(db, DecideAction, OnRegistration(id)), Err(e))
      case None =>
        reply.result == Ok(()) && id < |db.registrations| == |reply.db.registrations|
        && DecidedAs(db.registrations[id], reply.db.registrations[id], actor, target, note, now)
        && reply.db == db.(registrations := db.registrations[id := reply.db.registrations[id]],
                           audit := db.audit + [AuditEvent(DecideAction, OnRegistration(id), Success)])
  {
    hide DecideTx, DecidedAs;
    DecideOutcome(db, actor, id, target, note, now);
  }
}
