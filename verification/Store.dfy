/** The store as an object: tables updated in place, one method per SQL statement. */
module StoreModel {
  import opened Prelude
  import opened Domain
  import opened Tables
  import opened Transactions

  class Store {
    var terms: seq<Term>
    var courses: seq<Course>
    var sections: seq<Section>
    var registrations: seq<Registration>
    var records: seq<AcademicRecord>
    var enrollments: seq<Enrollment>
    var jobs: seq<Job>
    var audit: seq<AuditEvent>

    function State(): Db
      reads this
    {
      Db(terms, courses, sections, registrations, records, enrollments, jobs, audit)
    }

    constructor ()
      ensures State() == EMPTY
    {
      terms, courses, sections, registrations := [], [], [], [];
      records, enrollments, jobs, audit := [], [], [], [];
    }

    /** Rolling back restores every table to what it was when the transaction began. */
    method Rollback(saved: Db)
      modifies this
      ensures State() == saved
    {
      terms, courses, sections, registrations := saved.terms, saved.courses, saved.sections, saved.registrations;
      records, enrollments, jobs, audit := saved.records, saved.enrollments, saved.jobs, saved.audit;
    }

    // ----- catalogue -----------------------------------------------------------

    method ClaimSeat(id: int, expectedVersion: int) returns (r: Result<Section>)
      modifies this`sections
      ensures match Tables.ClaimSeat(old(State()), id, expectedVersion)
              case Ok(db) => State() == db && r == Ok(sections[id])
              case Err(e) => State() == old(State()) && r == Err(e)
    {
      if 0 <= id < |sections| && sections[id].version == expectedVersion
         && sections[id].status == Open && sections[id].seatsTaken < sections[id].capacity
      {
        var row := sections[id];
        sections := sections[id := row.(seatsTaken := row.seatsTaken + 1, version := row.version + 1)];
        return Ok(sections[id]);
      }
      if FindSection(State(), id).Err? {
        return Err(NotFound);
      } else if sections[id].version != expectedVersion {
        return Err(VersionConflict);
      } else if !sections[id].AcceptsEnrollment() {
        return Err(Conflict);
      }
      return Err(CapacityExhausted);
    }

    method ReleaseSeat(id: int, expectedVersion: int) returns (r: Result<Section>)
      modifies this`sections
      ensures match Tables.ReleaseSeat(old(State()), id, expectedVersion)
              case Ok(db) => State() == db && r == Ok(sections[id])
              case Err(e) => State() == old(State()) && r == Err(e)
    {
      if 0 <= id < |sections| && sections[id].version == expectedVersion && sections[id].seatsTaken > 0 {
        var row := sections[id];
        sections := sections[id := row.(seatsTaken := row.seatsTaken - 1, version := row.version + 1)];
        return Ok(sections[id]);
      }
      if FindSection(State(), id).Err? {
        return Err(NotFound);
      } else if sections[id].version != expectedVersion {
        return Err(VersionConflict);
      }
      return Err(Conflict);
    }

    method AdjustWaitlistLength(id: int, delta: int) returns (r: Result<Section>)
      modifies this`sections
      ensures match Tables.AdjustWaitlistLength(old(State()), id, delta)
              case Ok(db) => State() == db && r == Ok(sections[id])
              case Err(e) => State() == old(State()) && r == Err(e)
    {
      if delta == 0 {
        return if FindSection(State(), id).Ok? then Ok(sections[id]) else Err(NotFound);
      }
      if 0 <= id < |sections| && 0 <= sections[id].waitlistLength + delta <= sections[id].waitlistLimit {
        var row := sections[id];
        sections := sections[id :=
          row.(waitlistLength := row.waitlistLength + delta, version := row.version + 1)];
        return Ok(sections[id]);
      }
      return Err(WaitlistFull);
    }

    // ----- enrollments -----------------------------------------------------------

    method CreateEnrollment(row: Enrollment) returns (r: Result<nat>)
      modifies this`enrollments
      ensures match Tables.CreateEnrollment(old(State()), row)
              case Ok(db) => State() == db && r == Ok(|old(enrollments)|)
              case Err(e) => State() == old(State()) && r == Err(e)
    {
      if row.status.Indexed() && exists e :: e in enrollments && e.status.Indexed() && SameSeat(e, row) {
        return Err(DuplicateEnrollment);
      }
      var id := |enrollments|;
      enrollments := enrollments + [row.(version := 1)];
      return Ok(id);
    }

    method UpdateEnrollment(id: nat, row: Enrollment, expectedVersion: int) returns (r: Result<()>)
      modifies this`enrollments
      ensures match Tables.UpdateEnrollment(old(State()), id, row, expectedVersion)
              case Ok(db) => State() == db && r == Ok(())
              case Err(e) => State() == old(State()) && r == Err(e)
    {
      if id >= |enrollments| || enrollments[id].version != expectedVersion {
        return Err(VersionConflict);
      }
      enrollments := enrollments[id := enrollments[id].(
        status := row.status, rank := row.rank, decidedAt := row.decidedAt, releasedAt := row.releasedAt,
        version := expectedVersion + 1)];
      return Ok(());
    }

    // ----- registrations ---------------------------------------------------------

    method UpsertRegistration(id: Option<nat>, row: Registration) returns (r: Result<nat>)
      modifies this`registrations
      ensures match Tables.UpsertRegistration(old(State()), id, row)
              case Ok(db) => State() == db && r == Ok(if id.Some? then id.value else |old(registrations)|)
              case Err(e) => State() == old(State()) && r == Err(e)
    {
      if row.student <= 0 {
        return Err(Validation);
      }
      match id
      case None =>
        if FindRegistration(registrations, row.student, row.term).Some? {
          return Err(Conflict);
        }
        var inserted := |registrations|;
        registrations := registrations + [row.(version := 1)];
        return Ok(inserted);
      case Some(k) =>
        if k >= |registrations| || registrations[k].version != row.version {
          return Err(VersionConflict);
        }
        registrations := registrations[k := row.(
          student := registrations[k].student, term := registrations[k].term, version := row.version + 1)];
        return Ok(k);
    }

    // ----- queue and trail ---------------------------------------------------------

    method EnqueueJob(kind: JobKind, maxAttempts: int, runAfter: int)
      modifies this`jobs
      ensures State() == Tables.EnqueueJob(old(State()), kind, maxAttempts, runAfter)
    {
      var budget := maxAttempts;
      if budget <= 0 {
        budget := MAX_JOB_ATTEMPTS;
      }
      jobs := jobs + [Job(kind, Queued, 0, budget, runAfter, None, "")];
    }

    /** Lease the oldest due job of the given kinds, charging one attempt. */
    method ClaimNextJob(kinds: set<JobTag>, workerId: string, now: int) returns (r: Option<nat>)
      modifies this`jobs
      ensures r == NextJob(old(jobs), kinds, now)
      ensures match r
              case Some(j) =>
                jobs == old(jobs)[j := old(jobs)[j].(
                  state := Running, attempts := old(jobs)[j].attempts + 1, lockedAt := Some(now), lockedBy := workerId)]
              case None => jobs == old(jobs)
    {
      r := NextJob(jobs, kinds, now);
      if r.Some? {
        jobs := jobs[r.value := LeaseJob(jobs[r.value], workerId, now)];
      }
    }

    method FinishJob(id: nat, state: JobState, runAfter: Option<int>) returns (r: Result<()>)
      modifies this`jobs
      ensures match Tables.FinishJob(old(State()), id, state, runAfter)
              case Ok(db) => State() == db && r == Ok(())
              case Err(e) => State() == old(State()) && r == Err(e)
    {
      if id >= |jobs| || jobs[id].state != Running {
        return Err(Conflict);
      }
      var row := jobs[id].(state := state, lockedAt := None, lockedBy := "");
      if runAfter.Some? {
        row := row.(runAfter := runAfter.value);
      }
      jobs := jobs[id := row];
      return Ok(());
    }

    /** Requeue every job whose lease expired, and report how many there were. */
    method RequeueStaleJobs(cutoff: int, now: int) returns (count: nat)
      modifies this`jobs
      ensures |jobs| == |old(jobs)|
      ensures forall j :: 0 <= j < |jobs| ==>
                jobs[j] ==
                if old(jobs)[j].state == Running
                   && (old(jobs)[j].lockedAt.None? || old(jobs)[j].lockedAt.value <= cutoff)
                then old(jobs)[j].(state := Queued, runAfter := now, lockedAt := None, lockedBy := "")
                else old(jobs)[j]
      ensures count == |StaleRows(old(jobs), cutoff)|
    {
      count := 0;
      ghost var done: set<nat> := {};
      ghost var was := jobs;
      for i := 0 to |jobs|
        invariant |jobs| == |was|
        invariant forall j :: 0 <= j < i ==>
          jobs[j] == if Stale(was[j], cutoff) then Requeued(was[j], now) else was[j]
        invariant forall j :: i <= j < |jobs| ==> jobs[j] == was[j]
        invariant done == set j: nat | j < i && Stale(was[j], cutoff)
        invariant count == |done|
      {
        if Stale(jobs[i], cutoff) {
          jobs := jobs[i := Requeued(jobs[i], now)];
          count := count + 1;
          done := done + {i};
        }
      }
    }

    method AppendAudit(event: AuditEvent)
      modifies this`audit
      ensures State() == Tables.AppendAudit(old(State()), event)
    {
      audit := audit + [event];
    }
  }
}
