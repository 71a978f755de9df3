/** What a paperwork submission and a registrar's decision come to, read off the records. */
module Forms {
  import opened Prelude
  import opened Text
  import opened Domain
  import opened Tables
  import opened Transactions
  import opened Invariant
  import opened Growth

  /** Record k is the paperwork of that student for that term. */
  predicate IsRecord(db: Db, k: nat, student: int, term: int) {
    k < |db.registrations| && db.registrations[k].student == student && db.registrations[k].term == term
  }

  /** The paperwork is waiting for a decision, or was accepted for good. */
  ghost predicate Sealed(db: Db, student: int, term: int) {
    exists k: nat :: IsRecord(db, k, student, term)
      && (db.registrations[k].status == Submitted || db.registrations[k].status == Verified)
  }

  // ----- submitting ------------------------------------------------------------------------

  /** The first rule that refuses a submission; None when all hold. */
  ghost function SubmitRefusal(db: Db, actor: Principal, student: int, term: int, form: Paperwork): Option<Error> {
    if actor.role != RegistrarRole && actor.userId != student then Some(Forbidden)
    else if !(0 <= term < |db.terms|) then Some(NotFound)
    else if db.terms[term].archived then Some(WindowClosed)
    else if Sealed(db, student, term) then Some(InvalidTransition)
    else if !Acceptable(form) || student <= 0 then Some(Validation)
    else None
  }

  function HandedIn(student: int, term: nat, form: Paperwork, now: int, version: int): Registration {
    Registration(student, term, Submitted, form, Some(now), None, None, "", version)
  }

  /** The tables once the form is record k: the record the student had for the term, or a new one. */
  function AfterSubmit(db: Db, k: nat, student: int, term: nat, form: Paperwork, now: int): Db {
    db.(registrations :=
          if k < |db.registrations| then
            db.registrations[k := HandedIn(student, term, form, now, db.registrations[k].version + 1)]
          else db.registrations + [HandedIn(student, term, form, now, 1)],
        audit := db.audit + [AuditEvent(SubmitAction, OnRegistration(k), Success)])
  }

  ghost predicate RecordFor(db: Db, k: nat, student: int, term: int) {
    IsRecord(db, k, student, term)
    || (k == |db.registrations| && forall i: nat :: i < k ==> !IsRecord(db, i, student, term))
  }

  lemma FoundIsRecord(db: Db, student: int, term: nat) returns (k: nat)
    requires Inv(db)
    ensures RecordFor(db, k, student, term)
    ensures FindRegistration(db.registrations, student, term)
            == if k < |db.registrations| then Some(k) else None
    ensures Sealed(db, student, term) <==>
            k < |db.registrations| && (db.registrations[k].status == Submitted || db.registrations[k].status == Verified)
  {
    hide Linked, Counted, Ranked, Unique, NonePending, Planned, Traced;
    assert Linked(db);
    match FindRegistration(db.registrations, student, term)
    case Some(found) => k := found;
    case None => k := |db.registrations|;
  }

  /** A submission is refused by the first rule that fails; otherwise the one record of the
      student and term holds the form that was handed in, submitted now and undecided. */
  lemma SubmitOutcome(db: Db, actor: Principal, student: int, term: int, form: Paperwork, now: int)
    returns (k: nat)
    requires Inv(db)
    ensures match SubmitRefusal(db, actor, student, term, form)
            case Some(e) => SubmitTx(db, actor, student, term, form, now) == Err(e)
            case None =>
              RecordFor(db, k, student, term)
              && SubmitTx(db, actor, student, term, form, now) == Ok(AfterSubmit(db, k, student, term, form, now))
  {
    WellFormedMeans(form);
    hide Acceptable, Paperwork.WellFormed, Sealed, Inv, FindRegistration;
    k := 0;
    if 0 <= term < |db.terms| {
      k := FoundIsRecord(db, student, term);
    }
  }

  // ----- deciding ----------------------------------------------------------------------------

  predicate BlankText(s: string) { forall k :: 0 <= k < |s| ==> White(s[k]) }

  /** The first rule that refuses a decision; a record without a student cannot be written back. */
  function DecideRefusal(db: Db, actor: Principal, id: int, target: RegistrationStatus, note: string): Option<Error> {
    if actor.role != RegistrarRole then Some(Forbidden)
    else if !(0 <= id < |db.registrations|) then Some(NotFound)
    else if target != Verified && target != Rejected then Some(Validation)
    else if db.registrations[id].status != Submitted then Some(InvalidTransition)
    else if (target == Rejected && BlankText(note)) || db.registrations[id].student <= 0 then Some(Validation)
    else None
  }

  /** The record after a decision: who decided, when, and the note without outer white space. */
  ghost predicate DecidedAs(was: Registration, row: Registration, actor: Principal, target: RegistrationStatus,
    note: string, now: int)
  {
    row == was.(status := target, decidedAt := Some(now), decidedBy := Some(actor.userId), note := row.note,
                version := was.version + 1)
    && IsTrimmed(note, row.note)
  }

  lemma DecideOutcome(db: Db, actor: Principal, id: int, target: RegistrationStatus, note: string, now: int)
    ensures match DecideRefusal(db, actor, id, target, note)
            case Some(e) => DecideTx(db, actor, id, target, note, now) == Err(e)
            case None =>
              0 <= id < |db.registrations|
              && DecideTx(db, actor, id, target, note, now).Ok?
              && var next := DecideTx(db, actor, id, target, note, now).value;
                 |next.registrations| == |db.registrations|
                 && DecidedAs(db.registrations[id], next.registrations[id], actor, target, note, now)
                 && next == db.(registrations := db.registrations[id := next.registrations[id]],
                                audit := db.audit + [AuditEvent(DecideAction, OnRegistration(id), Success)])
  {
    TrimMeans(note, Trim(note));
    hide Trim, IsTrimmed;
  }

  // ----- an example ----------------------------------------------------------------------------

  const FORM := Paperwork("CS", "a@b", "undecided")

  lemma FormIsAcceptable()
    ensures FORM.WellFormed()
  {
    assert Trim("CS") == "CS";
    assert Trim("a@b") == "a@b" && Lower("a@b") == "a@b" && "a@b"[1] == '@' && '@' !in "a@b"[..1];
    assert Trim("undecided") == "undecided" && Lower("undecided") == "undecided";
  }
}
