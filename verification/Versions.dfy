/**
 Optimistic versions: of two writers that read the same version of a row only the first gets
 through, and a statement that refuses says why (internal/storage/sqlite).
 */
module Versions {
  import opened Prelude
  import opened Domain
  import opened Tables

  /** After a seat was claimed or released under a version, that version is gone for every
      other seat statement; the counter moves by exactly one. */
  lemma SecondSeatWriterLoses(db: Db, id: int, version: int)
    ensures ClaimSeat(db, id, version).Ok? ==>
              var next := ClaimSeat(db, id, version).value;
              0 <= id < |db.sections| == |next.sections|
              && next.sections[id].seatsTaken == db.sections[id].seatsTaken + 1 <= db.sections[id].capacity
              && ClaimSeat(next, id, version).Err? && ReleaseSeat(next, id, version).Err?
    ensures ReleaseSeat(db, id, version).Ok? ==>
              var next := ReleaseSeat(db, id, version).value;
              0 <= id < |db.sections| == |next.sections|
              && 0 <= next.sections[id].seatsTaken == db.sections[id].seatsTaken - 1
              && ClaimSeat(next, id, version).Err? && ReleaseSeat(next, id, version).Err?
  {
  }

  lemma SecondEnrollmentWriterLoses(db: Db, id: nat, first: Enrollment, second: Enrollment, version: int)
    ensures UpdateEnrollment(db, id, first, version).Ok? ==>
              UpdateEnrollment(UpdateEnrollment(db, id, first, version).value, id, second, version)
              == Err(VersionConflict)
  {
  }

  /** Both writers took the version from the same stored record. */
  lemma SecondRegistrationWriterLoses(db: Db, k: nat, first: Registration, second: Registration)
    requires 0 < first.student && 0 < second.student && first.version == second.version
    ensures UpsertRegistration(db, Some(k), first).Ok? ==>
              UpsertRegistration(UpsertRegistration(db, Some(k), first).value, Some(k), second) == Err(VersionConflict)
    ensures UpsertRegistration(db, None, first).Ok? && second.student == first.student && second.term == first.term ==>
              UpsertRegistration(UpsertRegistration(db, None, first).value, None, second) == Err(Conflict)
  {
  }

  /** A seat that cannot be claimed: the section is missing, somebody else wrote it, it is not
      open, or it is full, and the first of these that holds is reported. */
  lemma ClaimSeatExplains(db: Db, id: int, version: int)
    ensures match ClaimSeat(db, id, version)
            case Err(NotFound) => !(0 <= id < |db.sections|) || db.sections[id].course >= |db.courses|
            case Err(VersionConflict) => 0 <= id < |db.sections| && db.sections[id].version != version
            case Err(Conflict) =>
              0 <= id < |db.sections| && db.sections[id].version == version && db.sections[id].status != Open
            case Err(CapacityExhausted) =>
              0 <= id < |db.sections| && db.sections[id].version == version && db.sections[id].status == Open
              && db.sections[id].capacity <= db.sections[id].seatsTaken
            case Err(_) => false
            case Ok(_) =>
              0 <= id < |db.sections| && db.sections[id].version == version && db.sections[id].status == Open
              && db.sections[id].seatsTaken < db.sections[id].capacity
  {
  }

  /** The queue counter never leaves its range; a move out of it is refused as a full waitlist. */
  lemma WaitlistCounterBounded(db: Db, id: int, delta: int)
    requires 0 <= id < |db.sections| && delta != 0
    ensures var moved := db.sections[id].waitlistLength + delta;
      match AdjustWaitlistLength(db, id, delta)
      case Ok(next) =>
        |next.sections| == |db.sections| && 0 <= moved <= db.sections[id].waitlistLimit
        && next.sections[id].waitlistLength == moved && next.sections[id].version == db.sections[id].version + 1
      case Err(e) => e == WaitlistFull && !(0 <= moved <= db.sections[id].waitlistLimit)
  {
  }
}
