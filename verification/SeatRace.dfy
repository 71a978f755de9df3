/**
 The versioned seat update without any transaction isolation: reads and conditional
 updates of any number of claimers and other writers interleave statement by
 statement. The version column alone carries the protocol.
 */
module SeatRace {
  import opened Prelude
  import opened Domain
  import opened Tables
  import opened Transactions

  /** A claimer is about to read, has read a row, has its seat, or has been refused. */
  datatype ClaimPhase = Ready | HasRead(seen: Section, mark: nat) | Won | Refused(error: Error)

  datatype Claimer = Claimer(section: nat, attempt: nat, conflicts: nat, commits: nat, phase: ClaimPhase)

  datatype Writer = ByClaimer(claimer: nat) | ByOther

  datatype Write = SeatClaimed | SeatReleased | OtherWrite

  /** One committed update of a section row. */
  datatype Entry = Entry(section: nat, writer: Writer, write: Write)

  datatype Race = Race(db: Db, claimers: seq<Claimer>, log: seq<Entry>)

  datatype Statement = Release(version: int) | Adjust(delta: int) | SetTo(status: SectionStatus)

  datatype Move =
    | Arrive(section: nat)
    | Read(claimer: nat)
    | TryClaim(claimer: nat)
    | Write(section: nat, statement: Statement)

  function Execute(db: Db, s: nat, statement: Statement): Result<Db> {
    match statement
    case Release(version) => ReleaseSeat(db, s, version)
    case Adjust(delta) => AdjustWaitlistLength(db, s, delta)
    case SetTo(status) => SetSectionStatus(db, s, status)
  }

  function WriteOf(statement: Statement): Write { if statement.Release? then SeatReleased else OtherWrite }

  /** The retry loop of Claim, one statement at a time. */
  function Attempt(race: Race, c: nat, retries: nat): Race
    requires c < |race.claimers| && race.claimers[c].phase.HasRead?
  {
    var k := race.claimers[c];
    match ClaimSeat(race.db, k.section, k.phase.seen.version)
    case Ok(db) =>
      race.(db := db, log := race.log + [Entry(k.section, ByClaimer(c), SeatClaimed)],
            claimers := race.claimers[c := k.(phase := Won, commits := k.commits + 1)])
    case Err(e) =>
      var conflicts := if e == VersionConflict then k.conflicts + 1 else k.conflicts;
      if e == VersionConflict && k.attempt < retries + 1
      then race.(claimers := race.claimers[c :=
        k.(phase := Ready, attempt := k.attempt + 1, conflicts := conflicts)])
      else race.(claimers := race.claimers[c := k.(phase := Refused(e), conflicts := conflicts)])
  }

  function Next(race: Race, move: Move, retries: nat): Race {
    match move
    case Arrive(s) => race.(claimers := race.claimers + [Claimer(s, 1, 0, 0, Ready)])
    case Read(c) =>
      if c < |race.claimers| && race.claimers[c].phase.Ready? then
        var k := race.claimers[c];
        race.(claimers := race.claimers[c := k.(phase :=
          if k.section < |race.db.sections| then HasRead(race.db.sections[k.section], |race.log|)
          else Refused(NotFound))])
      else race
    case TryClaim(c) =>
      if c < |race.claimers| && race.claimers[c].phase.HasRead? then Attempt(race, c, retries) else race
    case Write(s, statement) =>
      match Execute(race.db, s, statement)
      case Ok(db) =>
        if db == race.db then race
        else race.(db := db, log := race.log + [Entry(s, ByOther, WriteOf(statement))])
      case Err(_) => race
  }

  function Play(race: Race, moves: seq<Move>, retries: nat): Race {
    if moves == [] then race else Next(Play(race, moves[..|moves| - 1], retries), moves[|moves| - 1], retries)
  }

  // ----- counting updates --------------------------------------------------------

  function On(s: nat): Entry -> int { (e: Entry) => if e.section == s then 1 else 0 }

  /** Updates of section s by anyone but claimer c. */
  function Foreign(s: nat, c: nat): Entry -> int {
    (e: Entry) => if e.section == s && e.writer != ByClaimer(c) then 1 else 0
  }

  /** Seats taken minus seats given back. */
  function Net(s: nat): Entry -> int {
    (e: Entry) => if e.section != s then 0
      else match e.write case SeatClaimed => 1 case SeatReleased => -1 case OtherWrite => 0
  }

  /** Every committed update moves exactly one row, exactly one version forward. */
  ghost predicate Updates(db: Db, next: Db, s: nat, delta: int) {
    s < |db.sections| && next == db.(sections := next.sections)
    && |next.sections| == |db.sections| && next.sections == db.sections[s := next.sections[s]]
    && next.sections[s].version == db.sections[s].version + 1
    && next.sections[s].capacity == db.sections[s].capacity
    && next.sections[s].seatsTaken == db.sections[s].seatsTaken + delta
    && (0 <= db.sections[s].seatsTaken <= db.sections[s].capacity ==>
          0 <= next.sections[s].seatsTaken <= next.sections[s].capacity)
  }

  lemma ClaimUpdates(db: Db, s: nat, version: int)
    ensures var r := ClaimSeat(db, s, version);
      (r.Ok? ==> Updates(db, r.value, s, 1) && db.sections[s].version == version)
      && (r == Err(VersionConflict) ==> s < |db.sections| && db.sections[s].version != version)
  {
  }

  lemma StatementUpdates(db: Db, s: nat, statement: Statement)
    ensures var r := Execute(db, s, statement);
      r.Ok? ==> r.value == db || Updates(db, r.value, s, if statement.Release? then -1 else 0)
  {
  }

  // ----- the invariant -------------------------------------------------------------

  /** What a claimer knows: its conflicts are paid for by foreign updates, and the version
      it read tells exactly how many updates of the row it has missed since. */
  ghost predicate Informed(k: Claimer, c: nat, db: Db, log: seq<Entry>) {
    k.commits == (if k.phase == Won then 1 else 0)
    && match k.phase
       case Ready => k.conflicts <= Sum(log, Foreign(k.section, c)) && OwnCount(log, c) == 0
       case HasRead(seen, mark) =>
         mark <= |log| && k.section < |db.sections|
         && k.conflicts + Sum(log[mark..], On(k.section)) <= Sum(log, Foreign(k.section, c))
         && db.sections[k.section].version == seen.version + Sum(log[mark..], On(k.section))
         && (db.sections[k.section].version == seen.version ==> db.sections[k.section] == seen)
         && OwnCount(log, c) == 0
       case Won => k.conflicts <= Sum(log, Foreign(k.section, c)) && OwnCount(log, c) == 1
       case Refused(_) => k.conflicts <= Sum(log, Foreign(k.section, c)) && OwnCount(log, c) == 0
  }

  function Own(c: nat): Entry -> int { (e: Entry) => if e.writer == ByClaimer(c) then 1 else 0 }

  function OwnCount(log: seq<Entry>, c: nat): int { Sum(log, Own(c)) }

  ghost predicate LoopState(k: Claimer, retries: nat) {
    1 <= k.attempt <= retries + 1
    && (k.phase.Refused? && k.phase.error == VersionConflict ==>
          k.attempt == retries + 1 && k.conflicts == retries + 1)
    && (!(k.phase.Refused? && k.phase.error == VersionConflict) ==> k.conflicts == k.attempt - 1)
  }

  ghost predicate Fair(race: Race, retries: nat) {
    (forall c :: 0 <= c < |race.claimers| ==>
       Informed(race.claimers[c], c, race.db, race.log) && LoopState(race.claimers[c], retries))
    && (forall i :: 0 <= i < |race.log| && race.log[i].writer.ByClaimer? ==>
          race.log[i].writer.claimer < |race.claimers|)
  }

  ghost predicate Seated(db: Db) {
    forall s :: 0 <= s < |db.sections| ==> 0 <= db.sections[s].seatsTaken <= db.sections[s].capacity
  }

  /** Someone else's committed update leaves a claimer informed. */
  lemma ForeignUpdateInforms(k: Claimer, c: nat, db: Db, log: seq<Entry>, next: Db, e: Entry, delta: int)
    requires Informed(k, c, db, log) && Updates(db, next, e.section, delta) && e.writer != ByClaimer(c)
    ensures Informed(k, c, next, log + [e])
  {
    SumAppend(log, e, Foreign(k.section, c));
    SumAppend(log, e, Own(c));
    if k.phase.HasRead? {
      var mark := k.phase.mark;
      assert (log + [e])[mark..] == log[mark..] + [e];
      SumAppend(log[mark..], e, On(k.section));
      SumNonNegative(log[mark..], On(k.section));
    }
  }

  lemma UpdateKeepsFair(race: Race, retries: nat, db: Db, e: Entry, delta: int)
    requires Fair(race, retries) && Updates(race.db, db, e.section, delta) && e.writer == ByOther
    ensures Fair(race.(db := db, log := race.log + [e]), retries)
  {
    forall c | 0 <= c < |race.claimers| ensures Informed(race.claimers[c], c, db, race.log + [e]) {
      ForeignUpdateInforms(race.claimers[c], c, race.db, race.log, db, e, delta);
    }
  }

  lemma OwnUpdateInforms(k: Claimer, c: nat, db: Db, log: seq<Entry>, next: Db)
    requires Informed(k, c, db, log) && k.phase.HasRead?
    ensures Informed(k.(phase := Won, commits := k.commits + 1), c, next,
                     log + [Entry(k.section, ByClaimer(c), SeatClaimed)])
  {
    var e := Entry(k.section, ByClaimer(c), SeatClaimed);
    SumAppend(log, e, Foreign(k.section, c));
    SumAppend(log, e, Own(c));
    SumNonNegative(log[k.phase.mark..], On(k.section));
  }

  lemma AttemptKeepsFair(race: Race, c: nat, retries: nat)
    requires Fair(race, retries) && c < |race.claimers| && race.claimers[c].phase.HasRead?
    ensures Fair(Attempt(race, c, retries), retries)
  {
    hide Informed;
    var k := race.claimers[c];
    var next := Attempt(race, c, retries);
    ClaimUpdates(race.db, k.section, k.phase.seen.version);
    if ClaimSeat(race.db, k.section, k.phase.seen.version).Ok? {
      var e := Entry(k.section, ByClaimer(c), SeatClaimed);
      OwnUpdateInforms(k, c, race.db, race.log, next.db);
      forall d | 0 <= d < |race.claimers| && d != c ensures Informed(race.claimers[d], d, next.db, next.log) {
        ForeignUpdateInforms(race.claimers[d], d, race.db, race.log, next.db, e, 1);
      }
    } else {
      ConflictInforms(race, c, retries);
    }
  }

  /** A version conflict means the row was updated by somebody else since it was read. */
  lemma ConflictInforms(race: Race, c: nat, retries: nat)
    requires c < |race.claimers| && race.claimers[c].phase.HasRead?
    requires Informed(race.claimers[c], c, race.db, race.log)
    requires ClaimSeat(race.db, race.claimers[c].section, race.claimers[c].phase.seen.version).Err?
    ensures Informed(Attempt(race, c, retries).claimers[c], c, race.db, race.log)
  {
    var k := race.claimers[c];
    ClaimUpdates(race.db, k.section, k.phase.seen.version);
    SumNonNegative(race.log[k.phase.mark..], On(k.section));
  }

  lemma ReadInforms(k: Claimer, c: nat, db: Db, log: seq<Entry>)
    requires Informed(k, c, db, log) && k.phase.Ready? && k.section < |db.sections|
    ensures Informed(k.(phase := HasRead(db.sections[k.section], |log|)), c, db, log)
  {
    assert log[|log|..] == [];
  }

  lemma MoveKeepsFair(race: Race, move: Move, retries: nat)
    requires Fair(race, retries)
    ensures Fair(Next(race, move, retries), retries)
  {
    hide Informed, Attempt, Execute;
    match move
    case Arrive(s) => ArrivalIsFair(race, s, retries);
    case Read(c) =>
      if c < |race.claimers| && race.claimers[c].phase.Ready? {
        if race.claimers[c].section < |race.db.sections| {
          ReadInforms(race.claimers[c], c, race.db, race.log);
        } else {
          RefusalInforms(race.claimers[c], c, race.db, race.log);
        }
      }
    case TryClaim(c) =>
      if c < |race.claimers| && race.claimers[c].phase.HasRead? {
        AttemptKeepsFair(race, c, retries);
      }
    case Write(s, statement) =>
      StatementUpdates(race.db, s, statement);
      if Execute(race.db, s, statement).Ok? && Execute(race.db, s, statement).value != race.db {
        UpdateKeepsFair(race, retries, Execute(race.db, s, statement).value,
                        Entry(s, ByOther, WriteOf(statement)), if statement.Release? then -1 else 0);
      }
  }

  lemma RefusalInforms(k: Claimer, c: nat, db: Db, log: seq<Entry>)
    requires Informed(k, c, db, log) && k.phase.Ready?
    ensures Informed(k.(phase := Refused(NotFound)), c, db, log)
  {
  }

  lemma ArrivalIsFair(race: Race, s: nat, retries: nat)
    requires Fair(race, retries)
    ensures Fair(Next(race, Arrive(s), retries), retries)
  {
    hide Informed;
    var c := |race.claimers|;
    NewcomerInforms(race, s, c);
  }

  lemma NewcomerInforms(race: Race, s: nat, c: nat)
    requires forall i :: 0 <= i < |race.log| ==> race.log[i].writer != ByClaimer(c)
    ensures Informed(Claimer(s, 1, 0, 0, Ready), c, race.db, race.log)
  {
    SumNonNegative(race.log, Foreign(s, c));
    SumNonNegative(race.log, Own(c));
    if OwnCount(race.log, c) > 0 {
      SumPositive(race.log, Own(c));
    }
  }

  lemma {:induction false} PlayIsFair(db: Db, moves: seq<Move>, retries: nat)
    ensures Fair(Play(Race(db, [], []), moves, retries), retries)
  {
    hide Next, Fair;
    if moves == [] {
      EmptyIsFair(db, retries);
    } else {
      PlayIsFair(db, moves[..|moves| - 1], retries);
      MoveKeepsFair(Play(Race(db, [], []), moves[..|moves| - 1], retries), moves[|moves| - 1], retries);
    }
  }

  lemma EmptyIsFair(db: Db, retries: nat)
    ensures Fair(Race(db, [], []), retries)
  {
  }

  // ----- what follows -----------------------------------------------------------------

  /** A claim commits at most once, within retries + 1 attempts, and never falls out of its
      loop: the only way to lose to a version conflict is on the last attempt, after at
      least retries + 1 updates of the section were committed by others. */
  lemma ClaimSettles(db: Db, moves: seq<Move>, retries: nat, c: nat)
    requires c < |Play(Race(db, [], []), moves, retries).claimers|
    ensures var race := Play(Race(db, [], []), moves, retries);
      var k := race.claimers[c];
      1 <= k.attempt <= retries + 1
      && OwnCount(race.log, c) == (if k.phase == Won then 1 else 0)
      && k.conflicts <= Sum(race.log, Foreign(k.section, c))
      && (k.phase == Refused(VersionConflict) ==> retries + 1 <= Sum(race.log, Foreign(k.section, c)))
  {
    PlayIsFair(db, moves, retries);
    var race := Play(Race(db, [], []), moves, retries);
    hide Play;
    assert Informed(race.claimers[c], c, race.db, race.log) && LoopState(race.claimers[c], retries);
    if race.claimers[c].phase.HasRead? {
      SumNonNegative(race.log[race.claimers[c].phase.mark..], On(race.claimers[c].section));
    }
  }

  /** No ABA: as long as the version a claimer read is still current, so is the whole row. */
  lemma UnchangedVersionUnchangedRow(db: Db, moves: seq<Move>, retries: nat, c: nat)
    requires c < |Play(Race(db, [], []), moves, retries).claimers|
    requires Play(Race(db, [], []), moves, retries).claimers[c].phase.HasRead?
    ensures var race := Play(Race(db, [], []), moves, retries);
      var k := race.claimers[c];
      k.section < |race.db.sections| && k.phase.seen.version <= race.db.sections[k.section].version
      && (race.db.sections[k.section].version == k.phase.seen.version <==>
          race.db.sections[k.section] == k.phase.seen)
  {
    PlayIsFair(db, moves, retries);
    var race := Play(Race(db, [], []), moves, retries);
    hide Play;
    assert Informed(race.claimers[c], c, race.db, race.log);
    SumNonNegative(race.log[race.claimers[c].phase.mark..], On(race.claimers[c].section));
  }

  ghost predicate Conserved(start: Db, race: Race) {
    |race.db.sections| == |start.sections|
    && forall s :: 0 <= s < |start.sections| ==>
         race.db.sections[s].capacity == start.sections[s].capacity
         && race.db.sections[s].seatsTaken == start.sections[s].seatsTaken + Sum(race.log, Net(s))
         && race.db.sections[s].version == start.sections[s].version + Sum(race.log, On(s))
  }

  lemma UpdateConserves(start: Db, race: Race, db: Db, e: Entry)
    requires Conserved(start, race) && Seated(race.db) && Updates(race.db, db, e.section, Net(e.section)(e))
    ensures Conserved(start, race.(db := db, log := race.log + [e])) && Seated(db)
  {
    forall s | 0 <= s < |start.sections|
      ensures db.sections[s].capacity == start.sections[s].capacity
      ensures db.sections[s].seatsTaken == start.sections[s].seatsTaken + Sum(race.log + [e], Net(s))
      ensures db.sections[s].version == start.sections[s].version + Sum(race.log + [e], On(s))
    {
      SumAppend(race.log, e, Net(s));
      SumAppend(race.log, e, On(s));
    }
  }

  lemma MoveConserves(start: Db, race: Race, move: Move, retries: nat)
    requires Conserved(start, race) && Seated(race.db)
    ensures Conserved(start, Next(race, move, retries)) && Seated(Next(race, move, retries).db)
  {
    hide Execute, Seated, Conserved, ClaimSeat;
    match move
    case TryClaim(c) =>
      if c < |race.claimers| && race.claimers[c].phase.HasRead? {
        var k := race.claimers[c];
        ClaimUpdates(race.db, k.section, k.phase.seen.version);
        var r := ClaimSeat(race.db, k.section, k.phase.seen.version);
        if r.Ok? {
          var e := Entry(k.section, ByClaimer(c), SeatClaimed);
          UpdateConserves(start, race, r.value, e);
          ClaimersAreIrrelevant(start, race.(db := r.value, log := race.log + [e]), Next(race, move, retries));
        } else {
          ClaimersAreIrrelevant(start, race, Next(race, move, retries));
        }
      }
    case Write(s, statement) =>
      StatementUpdates(race.db, s, statement);
      if Execute(race.db, s, statement).Ok? && Execute(race.db, s, statement).value != race.db {
        UpdateConserves(start, race, Execute(race.db, s, statement).value, Entry(s, ByOther, WriteOf(statement)));
      }
    case _ => ClaimersAreIrrelevant(start, race, Next(race, move, retries));
  }

  lemma ClaimersAreIrrelevant(start: Db, race: Race, next: Race)
    requires next.db == race.db && next.log == race.log && Conserved(start, race)
    ensures Conserved(start, next)
  {
  }

  /** Under any interleaving no section is ever oversold or drops below zero, its seats move
      by exactly the committed claims minus the committed releases, and its version counts
      the committed updates. */
  lemma {:induction false} NeverOversold(db: Db, moves: seq<Move>, retries: nat)
    requires Seated(db)
    ensures var race := Play(Race(db, [], []), moves, retries); Seated(race.db) && Conserved(db, race)
  {
    hide Next, Seated;
    if moves != [] {
      NeverOversold(db, moves[..|moves| - 1], retries);
      MoveConserves(db, Play(Race(db, [], []), moves[..|moves| - 1], retries), moves[|moves| - 1], retries);
    }
  }
}
