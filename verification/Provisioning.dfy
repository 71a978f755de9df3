/** What may be written into the catalogue, and what it then holds. */
module Provisioning {
  import opened Prelude
  import opened Text
  import opened Domain
  import opened Tables
  import opened Transactions

  /** A term opens before it closes for enrollment, and add/drop outlasts enrollment. */
  lemma TermMeans(db: Db, term: Term)
    ensures ProvisionTerm(db, term) ==
            if 0 < term.creditLimit && term.opensAt < term.closesAt && term.closesAt <= term.addDropClosesAt
            then Ok(db.(terms := db.terms + [term]))
            else Err(Validation)
  {
  }

  /** A course has a code that is not blank nor taken, and between 1 and 12 credits. */
  lemma CourseMeans(db: Db, course: Course)
    ensures ProvisionCourse(db, course) ==
            if (forall k :: 0 <= k < |course.code| ==> White(course.code[k])) || course.credits < 1 || 12 < course.credits
            then Err(Validation)
            else if exists i :: 0 <= i < |db.courses| && db.courses[i].code == course.code then Err(Conflict)
            else Ok(db.(courses := db.courses + [course]))
  {
    TrimMeans(course.code, "");
    hide Trim;
  }

  predicate ProperBlock(m: Meeting) {
    0 <= m.weekday < 7 && 0 <= m.startMinute && m.startMinute < m.endMinute && m.endMinute <= 24 * 60
  }

  /** A section starts empty, with blocks inside the days of the week. */
  lemma SectionMeans(db: Db, term: nat, course: nat, status: SectionStatus, capacity: int, limit: int,
    meetings: seq<Meeting>)
    ensures ProvisionSection(db, term, course, status, capacity, limit, meetings) ==
            if |db.terms| <= term || |db.courses| <= course || capacity < 0 || limit < 0 then Err(Conflict)
            else if exists i :: 0 <= i < |meetings| && !ProperBlock(meetings[i]) then Err(Validation)
            else Ok(db.(sections := db.sections + [Section(term, course, status, capacity, 0, limit, 0, 1, meetings)]))
  {
    assert forall i :: 0 <= i < |meetings| ==> (meetings[i].Valid() <==> ProperBlock(meetings[i]));
  }
}
