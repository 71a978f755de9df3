/**
 Replay protection of mutating requests (internal/service/idempotency.go). Finding the
 stored answer, running the handler, saving its answer, looking again after losing a
 race, and purging are separate steps, so any number of requests interleave between them.
 */
module Idempotency {
  import opened Prelude

  const TTL := 24 * 3600 * 1_000_000_000

  datatype Scope = Scope(actor: int, verb: string, path: string, key: string)

  datatype Snapshot = Snapshot(status: int, body: string)

  /** A stored answer; the primary key of the table is the scope. */
  datatype Row = Row(fingerprint: string, response: Snapshot, createdAt: int, expiresAt: int)

  type KeyTable = map<Scope, Row>

  // ----- fingerprints ----------------------------------------------------------------

  /** What FingerprintPayload feeds to SHA-256: every part followed by a NUL byte. */
  function Framed(parts: seq<string>): string {
    if parts == [] then "" else Framed(parts[..|parts| - 1]) + parts[|parts| - 1] + ['\0']
  }

  method FingerprintPayload(digest: string -> string, parts: seq<string>) returns (r: string)
    ensures r == digest(Framed(parts))
  {
    var fed := "";
    for i := 0 to |parts|
      invariant fed == Framed(parts[..i])
    {
      assert parts[..i + 1][..i] == parts[..i];
      fed := fed + parts[i];
      fed := fed + ['\0'];
    }
    assert parts[..|parts|] == parts;
    return digest(fed);
  }

  function Fingerprint(digest: string -> string, scope: Scope, payload: string): string {
    digest(Framed([scope.verb, scope.path, payload]))
  }

  ghost predicate CollisionFree(digest: string -> string) {
    forall a, b :: digest(a) == digest(b) ==> a == b
  }

  lemma FramedTriple(a: string, b: string, c: string)
    ensures Framed([a, b, c]) == (a + ['\0'] + b + ['\0']) + (c + ['\0'])
  {
    assert [a, b, c][..2] == [a, b] && [a, b][..1] == [a] && [a][..0] == [];
    assert Framed([a]) == a + ['\0'];
    assert Framed([a, b]) == a + ['\0'] + b + ['\0'];
  }

  /** What a payload is known by within its scope. */
  function Mark(digest: string -> string, scope: Scope, payload: string): string {
    digest((scope.verb + ['\0'] + scope.path + ['\0']) + (payload + ['\0']))
  }

  lemma FingerprintIs(digest: string -> string, scope: Scope, payload: string)
    ensures Fingerprint(digest, scope, payload) == Mark(digest, scope, payload)
  {
    FramedTriple(scope.verb, scope.path, payload);
  }

  lemma CancelPrefix(p: string, a: string, b: string)
    requires p + a == p + b
    ensures a == b
  {
    assert (p + a)[|p|..] == a && (p + b)[|p|..] == b;
  }

  /** Within one scope the stored fingerprint identifies the payload, NUL bytes included. */
  lemma SameFingerprintSamePayload(digest: string -> string, scope: Scope, p: string, q: string)
    requires CollisionFree(digest)
    ensures Fingerprint(digest, scope, p) == Fingerprint(digest, scope, q) <==> p == q
  {
    if Fingerprint(digest, scope, p) == Fingerprint(digest, scope, q) {
      FramedTriple(scope.verb, scope.path, p);
      FramedTriple(scope.verb, scope.path, q);
      CancelPrefix(scope.verb + ['\0'] + scope.path + ['\0'], p + ['\0'], q + ['\0']);
      assert p == (p + ['\0'])[..|p|] && q == (q + ['\0'])[..|q|];
    }
  }

  // ----- statements ------------------------------------------------------------------

  function FindRow(table: KeyTable, scope: Scope): Result<Row> {
    if scope.key == "" || scope !in table then Err(NotFound) else Ok(table[scope])
  }

  function SaveRow(table: KeyTable, scope: Scope, row: Row): Result<KeyTable> {
    if scope.key == "" || scope.verb == "" || scope.path == "" then Err(Validation)
    else if scope in table then Err(Conflict)
    else Ok(table[scope := row])
  }

  function ExpiredRows(table: KeyTable, before: int): set<Scope> {
    set s | s in table && table[s].expiresAt <= before
  }

  // ----- requests as interleaved steps -------------------------------------------------

  datatype Outcome = Outcome(response: Snapshot, replayed: bool)

  /** Before the first look, handler running, handler answered but nothing saved, lost the
      race to save, done with an outcome, done with an error. A keyed outcome remembers
      which saved record it came from and when. */
  datatype Phase =
    | Arrived | Executing | Responded(response: Snapshot) | Outrun
    | Answered(outcome: Outcome, source: Option<nat>, at: nat) | Failed(error: Error)

  datatype Request = Request(scope: Scope, payload: string, phase: Phase, runs: nat, lookedAt: Option<nat>)

  /** A record that was committed at some point, with the period in which it was stored. */
  datatype Generation = Generation(scope: Scope, row: Row, owner: nat, savedAt: nat, purgedAt: Option<nat>) {
    predicate StoredAt(t: nat) { savedAt < t && (purgedAt.None? || t < purgedAt.value) }
  }

  datatype World = World(
    table: KeyTable, requests: seq<Request>, generations: seq<Generation>, current: map<Scope, nat>, tick: nat)

  const FRESH := World(map[], [], [], map[], 0)

  datatype Step =
    | Arrive(scope: Scope, payload: string)
    | Look(request: nat, now: int)
    | RunHandler(request: nat, result: Result<Snapshot>)
    | Save(request: nat, now: int)
    | LookAgain(request: nat)
    | Purge(chosen: set<Scope>)

  predicate InPhase(w: World, r: nat, phase: Phase) { r < |w.requests| && w.requests[r].phase == phase }

  function Moved(w: World, r: nat, phase: Phase): World
    requires r < |w.requests|
  {
    w.(requests := w.requests[r := w.requests[r].(phase := phase)])
  }

  function Source(w: World, scope: Scope): Option<nat> {
    if scope in w.current then Some(w.current[scope]) else None
  }

  function Replay(w: World, r: nat, row: Row): World
    requires r < |w.requests|
  {
    Moved(w, r, Answered(Outcome(row.response, true), Source(w, w.requests[r].scope), w.tick))
  }

  function LookStep(digest: string -> string, w: World, r: nat, now: int): World
    requires InPhase(w, r, Arrived)
  {
    var q := w.requests[r];
    if q.scope.key == "" then Moved(w, r, Executing)
    else if q.scope.actor <= 0 then Moved(w, r, Failed(Unauthenticated))
    else
      var looked := w.(requests := w.requests[r := q.(lookedAt := Some(w.tick))]);
      match FindRow(w.table, q.scope)
      case Err(_) => Moved(looked, r, Executing)
      case Ok(row) =>
        if row.fingerprint != Fingerprint(digest, q.scope, q.payload) then Moved(looked, r, Failed(IdempotencyMismatch))
        else if now >= row.expiresAt then Moved(looked, r, Failed(Conflict))
        else Replay(looked, r, row)
  }

  function HandlerStep(w: World, r: nat, result: Result<Snapshot>): World
    requires InPhase(w, r, Executing)
  {
    var q := w.requests[r];
    var ran := w.(requests := w.requests[r := q.(runs := q.runs + 1)]);
    match result
    case Err(e) => Moved(ran, r, Failed(e))
    case Ok(response) =>
      Moved(ran, r, if q.scope.key == "" then Answered(Outcome(response, false), None, w.tick) else Responded(response))
  }

  function SaveStep(digest: string -> string, w: World, r: nat, now: int): World
    requires r < |w.requests| && w.requests[r].phase.Responded?
  {
    var q := w.requests[r];
    var row := Row(Fingerprint(digest, q.scope, q.payload), q.phase.response, now, now + TTL);
    match SaveRow(w.table, q.scope, row)
    case Err(Conflict) => Moved(w, r, Outrun)
    case Err(e) => Moved(w, r, Failed(e))
    case Ok(table) =>
      var g := |w.generations|;
      Moved(w, r, Answered(Outcome(row.response, false), Some(g), w.tick)).(
        table := table, current := w.current[q.scope := g],
        generations := w.generations + [Generation(q.scope, row, r, w.tick, None)])
  }

  function LookAgainStep(digest: string -> string, w: World, r: nat): World
    requires InPhase(w, r, Outrun)
  {
    var q := w.requests[r];
    match FindRow(w.table, q.scope)
    case Err(_) => Moved(w, r, Failed(Conflict))
    case Ok(row) =>
      if row.fingerprint == Fingerprint(digest, q.scope, q.payload) then Replay(w, r, row)
      else Moved(w, r, Failed(Conflict))
  }

  function Retired(g: Generation, table: KeyTable, tick: nat): Generation {
    if g.purgedAt.None? && g.scope !in table then g.(purgedAt := Some(tick)) else g
  }

  /** Which rows count as expired is left open: a purge may delete any of them. */
  function PurgeStep(w: World, chosen: set<Scope>): World {
    var table := w.table - chosen;
    w.(table := table,
       current := map s | s in w.current && s in table :: w.current[s],
       generations := seq(|w.generations|, g requires 0 <= g < |w.generations| =>
         Retired(w.generations[g], table, w.tick)))
  }

  function Act(digest: string -> string, w: World, step: Step): World {
    match step
    case Arrive(scope, payload) => w.(requests := w.requests + [Request(scope, payload, Arrived, 0, None)])
    case Look(r, now) => if InPhase(w, r, Arrived) then LookStep(digest, w, r, now) else w
    case RunHandler(r, result) => if InPhase(w, r, Executing) then HandlerStep(w, r, result) else w
    case Save(r, now) =>
      if r < |w.requests| && w.requests[r].phase.Responded? then SaveStep(digest, w, r, now) else w
    case LookAgain(r) => if InPhase(w, r, Outrun) then LookAgainStep(digest, w, r) else w
    case Purge(chosen) => PurgeStep(w, chosen)
  }

  function Next(digest: string -> string, w: World, step: Step): World {
    var acted := Act(digest, w, step);
    acted.(tick := w.tick + 1)
  }

  /** The worlds a run passes through, the empty one included. */
  ghost predicate Trace(digest: string -> string, worlds: seq<World>, steps: seq<Step>) {
    |worlds| == |steps| + 1 && worlds[0] == FRESH
    && forall k {:trigger steps[k]} :: 0 <= k < |steps| ==> worlds[k + 1] == Next(digest, worlds[k], steps[k])
  }

  /** The worlds some run ends in. */
  ghost predicate Reached(digest: string -> string, w: World) {
    exists worlds, steps :: Trace(digest, worlds, steps) && w == worlds[|steps|]
  }

  // ----- the invariant -----------------------------------------------------------------

  /** The table holds exactly the generations that have not been purged. */
  ghost predicate Mirrored(w: World) {
    w.current.Keys == w.table.Keys
    && (forall s :: s in w.table ==>
          w.current[s] < |w.generations| && w.generations[w.current[s]].scope == s
          && w.generations[w.current[s]].row == w.table[s] && w.generations[w.current[s]].purgedAt.None?)
    && (forall g :: 0 <= g < |w.generations| && w.generations[g].purgedAt.None? ==>
          w.generations[g].scope in w.current && w.current[w.generations[g].scope] == g)
  }

  /** Two generations of one scope are never stored at the same time. */
  ghost predicate Sequential(generations: seq<Generation>) {
    forall g, h :: 0 <= g < h < |generations| && generations[g].scope == generations[h].scope ==>
      generations[g].purgedAt.Some? && generations[g].purgedAt.value < generations[h].savedAt
  }

  ghost predicate Dated(generations: seq<Generation>, tick: nat) {
    forall g :: 0 <= g < |generations| ==>
      generations[g].savedAt < tick
      && (generations[g].purgedAt.Some? ==> generations[g].savedAt < generations[g].purgedAt.value < tick)
  }

  /** A saved record belongs to the one request whose own run produced it. */
  ghost predicate OwnedAt(requests: seq<Request>, generations: seq<Generation>, g: nat)
    requires g < |generations|
  {
    var gen := generations[g];
    gen.owner < |requests| && requests[gen.owner].scope == gen.scope
    && requests[gen.owner].phase == Answered(Outcome(gen.row.response, false), Some(g), gen.savedAt)
  }

  /** Some record of the scope was in the table when step t looked. */
  ghost predicate StoredThen(generations: seq<Generation>, scope: Scope, t: nat) {
    exists g :: 0 <= g < |generations| && generations[g].scope == scope && generations[g].StoredAt(t)
  }

  predicate WentAhead(q: Request) { q.runs > 0 || q.phase == Executing }

  /** A request runs its handler exactly when nothing was stored under its scope as it looked. */
  ghost predicate LookedRight(q: Request, generations: seq<Generation>, tick: nat)
    requires q.lookedAt.Some?
  {
    q.lookedAt.value < tick && q.scope.key != ""
    && (WentAhead(q) <==> !StoredThen(generations, q.scope, q.lookedAt.value))
  }

  /** Where a request's answer came from, and why its handler did or did not run. */
  ghost predicate Explained(digest: string -> string, q: Request, r: nat, generations: seq<Generation>, tick: nat) {
    q.runs <= 1
    && (q.phase == Arrived ==> q.runs == 0 && q.lookedAt.None?)
    && (q.phase == Executing ==> q.runs == 0)
    && (q.phase.Responded? || q.phase.Outrun? ==> q.scope.key != "")
    && (q.scope.key != "" && WentAhead(q) ==> q.lookedAt.Some?)
    && (q.lookedAt.Some? ==> LookedRight(q, generations, tick))
    && (q.phase.Responded? || q.phase.Outrun? ==> WentAhead(q))
    && (q.phase.Answered? ==> Sourced(digest, q, r, generations, tick))
  }

  ghost predicate Sourced(digest: string -> string, q: Request, r: nat, generations: seq<Generation>, tick: nat)
    requires q.phase.Answered?
  {
    if q.scope.key == "" then q.phase.source.None? && !q.phase.outcome.replayed && q.runs == 1
    else
      q.phase.source.Some? && q.phase.source.value < |generations| && q.phase.at < tick
      && var g := generations[q.phase.source.value];
         g.scope == q.scope && g.row.fingerprint == Fingerprint(digest, q.scope, q.payload)
         && g.row.response == q.phase.outcome.response
         && g.savedAt <= q.phase.at && (g.purgedAt.Some? ==> q.phase.at < g.purgedAt.value)
         && (q.phase.outcome.replayed <==> g.owner != r)
         && (!q.phase.outcome.replayed ==> q.runs == 1)
  }

  ghost predicate Agreed(digest: string -> string, w: World) {
    Mirrored(w) && Sequential(w.generations) && Dated(w.generations, w.tick)
    && (forall g :: 0 <= g < |w.generations| ==> OwnedAt(w.requests, w.generations, g))
    && (forall r :: 0 <= r < |w.requests| ==> Explained(digest, w.requests[r], r, w.generations, w.tick))
  }

  // ----- every step keeps it -------------------------------------------------------------

  /** Generations only appear at the current tick, and only get retired at the current tick. */
  ghost predicate Evolves(before: seq<Generation>, after: seq<Generation>, tick: nat) {
    |before| <= |after|
    && (forall g :: 0 <= g < |before| ==>
          after[g] == before[g] || (before[g].purgedAt.None? && after[g] == before[g].(purgedAt := Some(tick))))
    && forall g :: |before| <= g < |after| ==> after[g].savedAt == tick && after[g].purgedAt.None?
  }

  /** What was stored at an earlier moment does not depend on what happens now. */
  lemma PastIsFixed(before: seq<Generation>, after: seq<Generation>, tick: nat, scope: Scope, t: nat)
    requires Evolves(before, after, tick) && t < tick
    ensures StoredThen(before, scope, t) <==> StoredThen(after, scope, t)
  {
    if StoredThen(before, scope, t) {
      var g :| 0 <= g < |before| && before[g].scope == scope && before[g].StoredAt(t);
      assert after[g].scope == scope && after[g].StoredAt(t);
    }
    if StoredThen(after, scope, t) {
      var g :| 0 <= g < |after| && after[g].scope == scope && after[g].StoredAt(t);
      assert before[g].scope == scope && before[g].StoredAt(t);
    }
  }

  lemma BystandersStayExplained(digest: string -> string, q: Request, r: nat,
    before: seq<Generation>, after: seq<Generation>, tick: nat)
    requires Explained(digest, q, r, before, tick) && Evolves(before, after, tick)
    ensures Explained(digest, q, r, after, tick + 1)
  {
    if q.lookedAt.Some? {
      PastIsFixed(before, after, tick, q.scope, q.lookedAt.value);
    }
    hide StoredThen;
  }

  /** A step that moves one unanswered request and touches no record. */
  lemma RequestStepAgrees(digest: string -> string, w: World, r: nat, q: Request)
    requires Agreed(digest, w) && r < |w.requests| && !w.requests[r].phase.Answered?
    requires q.scope == w.requests[r].scope && Explained(digest, q, r, w.generations, w.tick + 1)
    ensures Agreed(digest, w.(requests := w.requests[r := q], tick := w.tick + 1))
  {
    hide Explained;
    var requests := w.requests[r := q];
    forall k | 0 <= k < |requests| ensures Explained(digest, requests[k], k, w.generations, w.tick + 1) {
      if k != r {
        BystandersStayExplained(digest, w.requests[k], k, w.generations, w.generations, w.tick);
      }
    }
    forall g | 0 <= g < |w.generations| ensures OwnedAt(requests, w.generations, g) {
      assert OwnedAt(w.requests, w.generations, g);
    }
  }

  lemma IdleAgrees(digest: string -> string, w: World)
    requires Agreed(digest, w)
    ensures Agreed(digest, w.(tick := w.tick + 1))
  {
    hide Explained;
    forall k | 0 <= k < |w.requests| ensures Explained(digest, w.requests[k], k, w.generations, w.tick + 1) {
      BystandersStayExplained(digest, w.requests[k], k, w.generations, w.generations, w.tick);
    }
  }

  lemma ArrivalAgrees(digest: string -> string, w: World, scope: Scope, payload: string)
    requires Agreed(digest, w)
    ensures Agreed(digest, Next(digest, w, Arrive(scope, payload)))
  {
    IdleAgrees(digest, w);
    hide Explained;
    var next := Next(digest, w, Arrive(scope, payload));
    forall k | 0 <= k < |next.requests| ensures Explained(digest, next.requests[k], k, next.generations, next.tick) {
      if k == |w.requests| {
        NewcomerIsExplained(digest, next.requests[k], k, next.generations, next.tick);
      }
    }
    forall g | 0 <= g < |w.generations| ensures OwnedAt(next.requests, w.generations, g) {
      assert OwnedAt(w.requests, w.generations, g);
    }
  }

  lemma NewcomerIsExplained(digest: string -> string, q: Request, r: nat, generations: seq<Generation>, tick: nat)
    requires q.phase == Arrived && q.runs == 0 && q.lookedAt.None?
    ensures Explained(digest, q, r, generations, tick)
  {
  }

  /** A record is in the table now exactly when some generation of its scope is stored now. */
  lemma TableShowsStored(w: World, scope: Scope)
    requires Mirrored(w) && Dated(w.generations, w.tick)
    ensures StoredThen(w.generations, scope, w.tick) <==> scope in w.table
  {
    if scope in w.table {
      assert w.generations[w.current[scope]].StoredAt(w.tick);
    }
  }

  /** Looking moves the request that looks and nothing else. */
  lemma LookMoves(digest: string -> string, w: World, r: nat, now: int)
    requires InPhase(w, r, Arrived)
    ensures var next := Next(digest, w, Look(r, now));
      r < |next.requests| && next == w.(requests := w.requests[r := next.requests[r]], tick := w.tick + 1)
      && next.requests[r] == LookStep(digest, w, r, now).requests[r]
      && next.requests[r].scope == w.requests[r].scope
  {
  }

  lemma LookAgrees(digest: string -> string, w: World, r: nat, now: int)
    requires Agreed(digest, w) && InPhase(w, r, Arrived)
    ensures Agreed(digest, Next(digest, w, Look(r, now)))
  {
    hide StoredThen, LookStep, Act, Sequential, OwnedAt;
    var q := w.requests[r];
    LookMoves(digest, w, r, now);
    TableShowsStored(w, q.scope);
    if q.scope.key != "" && q.scope in w.table {
      OthersOwn(digest, w, r, w.current[q.scope]);
    }
    LookIsExplained(digest, w, r, now);
    hide Explained, Agreed;
    RequestStepAgrees(digest, w, r, Next(digest, w, Look(r, now)).requests[r]);
  }

  /** An unanswered request owns no record. */
  lemma OthersOwn(digest: string -> string, w: World, r: nat, g: nat)
    requires Agreed(digest, w) && r < |w.requests| && !w.requests[r].phase.Answered? && g < |w.generations|
    ensures w.generations[g].owner != r
  {
    assert OwnedAt(w.requests, w.generations, g);
  }

  lemma LookIsExplained(digest: string -> string, w: World, r: nat, now: int)
    requires Agreed(digest, w) && InPhase(w, r, Arrived)
    requires StoredThen(w.generations, w.requests[r].scope, w.tick) <==> w.requests[r].scope in w.table
    requires w.requests[r].scope.key != "" && w.requests[r].scope in w.table ==>
               w.generations[w.current[w.requests[r].scope]].owner != r
    ensures Explained(digest, LookStep(digest, w, r, now).requests[r], r, w.generations, w.tick + 1)
  {
    hide StoredThen, Sequential, OwnedAt;
    assert Explained(digest, w.requests[r], r, w.generations, w.tick);
  }

  lemma HandlerAgrees(digest: string -> string, w: World, r: nat, result: Result<Snapshot>)
    requires Agreed(digest, w) && InPhase(w, r, Executing)
    ensures Agreed(digest, Next(digest, w, RunHandler(r, result)))
  {
    var next := Next(digest, w, RunHandler(r, result));
    assert Explained(digest, w.requests[r], r, w.generations, w.tick);
    assert next == w.(requests := w.requests[r := next.requests[r]], tick := w.tick + 1);
    hide StoredThen, Agreed;
    RequestStepAgrees(digest, w, r, next.requests[r]);
  }

  lemma LookAgainAgrees(digest: string -> string, w: World, r: nat)
    requires Agreed(digest, w) && InPhase(w, r, Outrun)
    ensures Agreed(digest, Next(digest, w, LookAgain(r)))
  {
    var q := w.requests[r];
    var next := Next(digest, w, LookAgain(r));
    assert Explained(digest, q, r, w.generations, w.tick);
    if q.scope in w.table {
      OthersOwn(digest, w, r, w.current[q.scope]);
    }
    hide StoredThen;
    assert Explained(digest, next.requests[r], r, w.generations, w.tick + 1);
    assert next == w.(requests := w.requests[r := next.requests[r]], tick := w.tick + 1);
    hide Agreed, Explained, Act;
    RequestStepAgrees(digest, w, r, next.requests[r]);
  }

  predicate CanSave(w: World, r: nat) {
    r < |w.requests| && w.requests[r].phase.Responded?
    && w.requests[r].scope.key != "" && w.requests[r].scope.verb != "" && w.requests[r].scope.path != ""
    && w.requests[r].scope !in w.table
  }

  lemma SaveMirrors(digest: string -> string, w: World, r: nat, now: int)
    requires CanSave(w, r) && Mirrored(w)
    ensures Mirrored(SaveStep(digest, w, r, now))
  {
  }

  lemma SaveEvolves(digest: string -> string, w: World, r: nat, now: int)
    requires CanSave(w, r) && Mirrored(w) && Sequential(w.generations) && Dated(w.generations, w.tick)
    ensures var next := SaveStep(digest, w, r, now);
      Sequential(next.generations) && Dated(next.generations, w.tick + 1)
      && Evolves(w.generations, next.generations, w.tick)
  {
    assert SaveStep(digest, w, r, now).generations[..|w.generations|] == w.generations;
  }

  lemma SaveCommits(digest: string -> string, w: World, r: nat, now: int)
    requires Agreed(digest, w) && CanSave(w, r)
    ensures Agreed(digest, Next(digest, w, Save(r, now)))
  {
    var next := Next(digest, w, Save(r, now));
    SaveMirrors(digest, w, r, now);
    SaveEvolves(digest, w, r, now);
    SavedIsExplained(digest, w, r, now);
    assert Mirrored(next);
    hide Explained, Mirrored, Sequential, Dated;
    forall k | 0 <= k < |next.requests| ensures Explained(digest, next.requests[k], k, next.generations, next.tick) {
      if k != r {
        BystandersStayExplained(digest, w.requests[k], k, w.generations, next.generations, w.tick);
      }
    }
    forall h | 0 <= h < |next.generations| ensures OwnedAt(next.requests, next.generations, h) {
      if h < |w.generations| {
        assert OwnedAt(w.requests, w.generations, h);
      }
    }
  }

  lemma SavedIsExplained(digest: string -> string, w: World, r: nat, now: int)
    requires Agreed(digest, w) && CanSave(w, r)
    ensures var next := SaveStep(digest, w, r, now);
      Explained(digest, next.requests[r], r, next.generations, w.tick + 1)
  {
    var q := w.requests[r];
    assert Explained(digest, q, r, w.generations, w.tick);
    PastIsFixed(w.generations, SaveStep(digest, w, r, now).generations, w.tick, q.scope, q.lookedAt.value);
    hide StoredThen;
  }

  lemma SaveAgrees(digest: string -> string, w: World, r: nat, now: int)
    requires Agreed(digest, w) && r < |w.requests| && w.requests[r].phase.Responded?
    ensures Agreed(digest, Next(digest, w, Save(r, now)))
  {
    var q := w.requests[r];
    var next := Next(digest, w, Save(r, now));
    assert Explained(digest, q, r, w.generations, w.tick);
    if CanSave(w, r) {
      SaveCommits(digest, w, r, now);
    } else {
      hide StoredThen, Agreed;
      assert next == w.(requests := w.requests[r := next.requests[r]], tick := w.tick + 1);
      RequestStepAgrees(digest, w, r, next.requests[r]);
    }
  }

  lemma PurgeEvolves(w: World, chosen: set<Scope>)
    requires Mirrored(w) && Sequential(w.generations) && Dated(w.generations, w.tick)
    ensures var next := PurgeStep(w, chosen);
      Evolves(w.generations, next.generations, w.tick) && |next.generations| == |w.generations|
      && Sequential(next.generations) && Dated(next.generations, w.tick + 1)
  {
    PurgeRetires(w, chosen);
    hide PurgeStep, Mirrored;
  }

  lemma PurgeRetires(w: World, chosen: set<Scope>)
    ensures var next := PurgeStep(w, chosen);
      |next.generations| == |w.generations|
      && forall g :: 0 <= g < |w.generations| ==>
           next.generations[g] == w.generations[g]
           || (w.generations[g].purgedAt.None? && next.generations[g] == w.generations[g].(purgedAt := Some(w.tick)))
  {
  }

  lemma PurgeMirrors(w: World, chosen: set<Scope>)
    requires Mirrored(w)
    ensures Mirrored(PurgeStep(w, chosen))
  {
    var next := PurgeStep(w, chosen);
    forall g | 0 <= g < |w.generations|
      ensures next.generations[g] == Retired(w.generations[g], next.table, w.tick)
    {
    }
  }

  lemma PurgeAgrees(digest: string -> string, w: World, chosen: set<Scope>)
    requires Agreed(digest, w)
    ensures Agreed(digest, Next(digest, w, Purge(chosen)))
  {
    var next := Next(digest, w, Purge(chosen));
    PurgeEvolves(w, chosen);
    PurgeMirrors(w, chosen);
    assert Mirrored(next) && next.requests == w.requests;
    hide Explained, PurgeStep, Mirrored, Sequential, Dated;
    forall k | 0 <= k < |next.requests| ensures Explained(digest, next.requests[k], k, next.generations, next.tick) {
      BystandersStayExplained(digest, w.requests[k], k, w.generations, next.generations, w.tick);
    }
    forall g | 0 <= g < |next.generations| ensures OwnedAt(next.requests, next.generations, g) {
      assert OwnedAt(w.requests, w.generations, g);
    }
  }

  lemma StepAgrees(digest: string -> string, w: World, step: Step)
    requires Agreed(digest, w)
    ensures Agreed(digest, Next(digest, w, step))
  {
    hide Agreed, LookStep, HandlerStep, SaveStep, LookAgainStep, PurgeStep;
    IdleAgrees(digest, w);
    match step
    case Arrive(scope, payload) => ArrivalAgrees(digest, w, scope, payload);
    case Look(r, now) => if InPhase(w, r, Arrived) { LookAgrees(digest, w, r, now); }
    case RunHandler(r, result) => if InPhase(w, r, Executing) { HandlerAgrees(digest, w, r, result); }
    case Save(r, now) => if r < |w.requests| && w.requests[r].phase.Responded? { SaveAgrees(digest, w, r, now); }
    case LookAgain(r) => if InPhase(w, r, Outrun) { LookAgainAgrees(digest, w, r); }
    case Purge(chosen) => PurgeAgrees(digest, w, chosen);
  }

  lemma {:induction false} TraceAgrees(digest: string -> string, worlds: seq<World>, steps: seq<Step>, k: nat)
    requires Trace(digest, worlds, steps) && k <= |steps|
    ensures Agreed(digest, worlds[k])
  {
    hide Next;
    if k > 0 {
      TraceAgrees(digest, worlds, steps, k - 1);
      assert worlds[k] == Next(digest, worlds[k - 1], steps[k - 1]);
      StepAgrees(digest, worlds[k - 1], steps[k - 1]);
    }
  }

  lemma ReachedAgrees(digest: string -> string, w: World)
    requires Reached(digest, w)
    ensures Agreed(digest, w)
  {
    hide Agreed, Next;
    var worlds, steps :| Trace(digest, worlds, steps) && w == worlds[|steps|];
    TraceAgrees(digest, worlds, steps, |steps|);
  }

  // ----- what clients can rely on ----------------------------------------------------------

  ghost predicate KeyedAnswer(w: World, r: nat) {
    r < |w.requests| && w.requests[r].phase.Answered? && w.requests[r].scope.key != ""
  }

  /** Every successful keyed outcome is the stored response of a record that was saved for
      this very scope and fingerprint. */
  lemma OutcomeIsSavedRecord(digest: string -> string, w: World, r: nat)
    requires Reached(digest, w) && KeyedAnswer(w, r)
    ensures var q := w.requests[r];
      q.phase.source.Some? && q.phase.source.value < |w.generations|
      && w.generations[q.phase.source.value].scope == q.scope
      && w.generations[q.phase.source.value].row.fingerprint == Fingerprint(digest, q.scope, q.payload)
      && w.generations[q.phase.source.value].row.response == q.phase.outcome.response
  {
    ReachedAgrees(digest, w);
    assert Explained(digest, w.requests[r], r, w.generations, w.tick);
  }

  predicate FreshAnswer(q: Request, g: nat) {
    q.phase.Answered? && q.phase.source == Some(g) && !q.phase.outcome.replayed
  }

  /** Each saved record has exactly one fresh outcome, that of the request whose handler
      produced it and returned success; so no failed run is ever replayed. */
  lemma OneFreshOutcomePerRecord(digest: string -> string, w: World, g: nat, r: nat)
    requires Reached(digest, w) && g < |w.generations| && r < |w.requests|
    ensures (FreshAnswer(w.requests[r], g) <==> r == w.generations[g].owner)
      && (FreshAnswer(w.requests[r], g) ==> w.requests[r].runs == 1)
      && (FreshAnswer(w.requests[r], g) ==> w.requests[r].phase.outcome.response == w.generations[g].row.response)
  {
    ReachedAgrees(digest, w);
    assert Explained(digest, w.requests[r], r, w.generations, w.tick);
    assert OwnedAt(w.requests, w.generations, g);
  }

  /** Two answers of one scope agree unless the first one's record was purged in between. */
  lemma AnswersAgreeBetweenPurges(digest: string -> string, w: World, a: nat, b: nat)
    requires Reached(digest, w) && KeyedAnswer(w, a) && KeyedAnswer(w, b)
    requires w.requests[a].scope == w.requests[b].scope && w.requests[a].phase.at <= w.requests[b].phase.at
    ensures var p, q := w.requests[a].phase, w.requests[b].phase;
      p.source.Some? && p.source.value < |w.generations|
      && (var purged := w.generations[p.source.value].purgedAt;
          purged.None? || q.at < purged.value ==> q.source == p.source && q.outcome.response == p.outcome.response)
  {
    ReachedAgrees(digest, w);
    assert Explained(digest, w.requests[a], a, w.generations, w.tick);
    assert Explained(digest, w.requests[b], b, w.generations, w.tick);
  }

  /** Exactly when a keyed request runs its handler: nothing was stored under its scope when
      it looked. It runs it at most once. */
  lemma RunsExactlyWithoutRecord(digest: string -> string, w: World, r: nat)
    requires Reached(digest, w) && r < |w.requests| && w.requests[r].lookedAt.Some?
    ensures w.requests[r].runs <= 1
      && (WentAhead(w.requests[r]) <==> !StoredThen(w.generations, w.requests[r].scope, w.requests[r].lookedAt.value))
  {
    ReachedAgrees(digest, w);
    hide StoredThen;
    assert Explained(digest, w.requests[r], r, w.generations, w.tick);
  }

  /** After a fresh answer, the handler runs again for that scope only once its record is purged. */
  lemma RerunNeedsPurge(digest: string -> string, w: World, g: nat, r: nat)
    requires Reached(digest, w) && g < |w.generations| && r < |w.requests|
    requires w.requests[r].scope == w.generations[g].scope
    requires w.requests[r].lookedAt.Some? && w.generations[g].savedAt < w.requests[r].lookedAt.value
    ensures WentAhead(w.requests[r]) ==>
        w.generations[g].purgedAt.Some? && w.generations[g].purgedAt.value <= w.requests[r].lookedAt.value
  {
    RunsExactlyWithoutRecord(digest, w, r);
    if WentAhead(w.requests[r]) {
      assert !w.generations[g].StoredAt(w.requests[r].lookedAt.value);
    }
  }

  // ----- how long an answer lasts --------------------------------------------------------------

  const DAY := 86_400_000_000_000

  /** Every stored answer expires a day after it was saved. */
  ghost predicate LastsADay(table: KeyTable) {
    forall s :: s in table ==> table[s].expiresAt == table[s].createdAt + DAY
  }

  lemma StepKeepsDay(digest: string -> string, w: World, step: Step)
    requires LastsADay(w.table)
    ensures LastsADay(Next(digest, w, step).table)
  {
    hide LookStep, HandlerStep, LookAgainStep, Fingerprint;
    match step
    case Look(r, now) => if InPhase(w, r, Arrived) { LookKeepsTable(digest, w, r, now); }
    case RunHandler(r, result) => if InPhase(w, r, Executing) { HandlerKeepsTable(w, r, result); }
    case LookAgain(r) => if InPhase(w, r, Outrun) { LookAgainKeepsTable(digest, w, r); }
    case Arrive(_, _) =>
    case Save(_, _) =>
    case Purge(_) =>
  }

  lemma LookKeepsTable(digest: string -> string, w: World, r: nat, now: int)
    requires InPhase(w, r, Arrived)
    ensures LookStep(digest, w, r, now).table == w.table
  {
    hide Fingerprint;
  }

  lemma HandlerKeepsTable(w: World, r: nat, result: Result<Snapshot>)
    requires InPhase(w, r, Executing)
    ensures HandlerStep(w, r, result).table == w.table
  {
  }

  lemma LookAgainKeepsTable(digest: string -> string, w: World, r: nat)
    requires InPhase(w, r, Outrun)
    ensures LookAgainStep(digest, w, r).table == w.table
  {
    hide Fingerprint;
  }

  lemma {:induction false} TraceLastsADay(digest: string -> string, worlds: seq<World>, steps: seq<Step>, k: nat)
    requires Trace(digest, worlds, steps) && k <= |steps|
    ensures LastsADay(worlds[k].table)
  {
    hide Next, LastsADay;
    if k == 0 {
      NothingExpires();
    } else {
      TraceLastsADay(digest, worlds, steps, k - 1);
      assert worlds[k] == Next(digest, worlds[k - 1], steps[k - 1]);
      StepKeepsDay(digest, worlds[k - 1], steps[k - 1]);
    }
  }

  lemma NothingExpires()
    ensures LastsADay(FRESH.table)
  {
  }

  lemma ReachedLastsADay(digest: string -> string, w: World)
    requires Reached(digest, w)
    ensures LastsADay(w.table)
  {
    hide Next, LastsADay;
    var worlds, steps :| Trace(digest, worlds, steps) && w == worlds[|steps|];
    TraceLastsADay(digest, worlds, steps, |steps|);
  }

  /** Who saved the stored record of a scope. */
  ghost function Saver(w: World, scope: Scope): nat
    requires scope in w.current && w.current[scope] < |w.generations|
  {
    w.generations[w.current[scope]].owner
  }

  lemma StoredBySaver(digest: string -> string, w: World, scope: Scope)
    requires Agreed(digest, w) && scope in w.table
    ensures scope in w.current && w.current[scope] < |w.generations| && Saver(w, scope) < |w.requests|
    ensures w.requests[Saver(w, scope)].scope == scope
    ensures w.table[scope].fingerprint == Mark(digest, scope, w.requests[Saver(w, scope)].payload)
  {
    var g := w.current[scope];
    assert OwnedAt(w.requests, w.generations, g);
    var o := w.generations[g].owner;
    assert Explained(digest, w.requests[o], o, w.generations, w.tick);
    FingerprintIs(digest, scope, w.requests[o].payload);
  }

  /** What a keyed request meets when it looks, in every reachable world: nothing stored lets it
      go ahead, another payload is refused, a record saved a day ago or more is refused, and
      any other record is replayed. */
  lemma LookDecides(digest: string -> string, w: World, r: nat, now: int)
    requires Reached(digest, w) && InPhase(w, r, Arrived) && CollisionFree(digest)
    requires w.requests[r].scope.key != "" && 0 < w.requests[r].scope.actor
    ensures var q := w.requests[r];
      var next := Next(digest, w, Look(r, now));
      |next.requests| == |w.requests| && next.table == w.table
      && var phase := next.requests[r].phase;
         if q.scope !in w.table then phase == Executing
         else
           q.scope in w.current && w.current[q.scope] < |w.generations| && Saver(w, q.scope) < |w.requests|
           && if q.payload != w.requests[Saver(w, q.scope)].payload then phase == Failed(IdempotencyMismatch)
              else if w.table[q.scope].createdAt + DAY <= now then phase == Failed(Conflict)
              else phase.Answered? && phase.outcome == Outcome(w.table[q.scope].response, true)
  {
    ReachedAgrees(digest, w);
    ReachedLastsADay(digest, w);
    var q := w.requests[r];
    FingerprintIs(digest, q.scope, q.payload);
    if q.scope in w.table {
      StoredBySaver(digest, w, q.scope);
      var p := w.requests[Saver(w, q.scope)].payload;
      FingerprintIs(digest, q.scope, p);
      SameFingerprintSamePayload(digest, q.scope, p, q.payload);
    }
    hide Agreed, Reached, Fingerprint, Mark, Saver, CollisionFree, LastsADay;
    assert q.scope in w.table ==> LastsADay(w.table);
  }

  /** The purge of a moment takes exactly the records a request looking at that moment could
      not replay any more. */
  lemma PurgeTakesTheDead(digest: string -> string, w: World, now: int, s: Scope)
    requires Reached(digest, w)
    ensures s in ExpiredRows(w.table, now) <==> s in w.table && w.table[s].createdAt + DAY <= now
    ensures s in PurgeStep(w, ExpiredRows(w.table, now)).table <==> s in w.table && now < w.table[s].createdAt + DAY
  {
    ReachedLastsADay(digest, w);
    hide Reached;
  }

  // ----- where the documentation goes further than the code ---------------------------------

  const ORDER := Scope(7, "POST", "/enrollments", "k1")

  function Asking(phase: Phase, runs: nat, lookedAt: Option<nat>): Request {
    Request(ORDER, "section 3", phase, runs, lookedAt)
  }

  lemma Reaches(digest: string -> string, w: World, step: Step) returns (next: World)
    requires Reached(digest, w)
    ensures next == Next(digest, w, step) && Reached(digest, next)
  {
    hide Next;
    var worlds, steps :| Trace(digest, worlds, steps) && w == worlds[|steps|];
    next := Next(digest, w, step);
    var longer, more := worlds + [next], steps + [step];
    forall k | 0 <= k < |more| ensures longer[k + 1] == Next(digest, longer[k], more[k]) {
      if k < |steps| {
        assert worlds[k + 1] == Next(digest, worlds[k], steps[k]);
      }
    }
    assert Trace(digest, longer, more) && next == longer[|more|];
  }

  const ONE := Snapshot(201, "one")

  const TWO := Snapshot(201, "two")

  lemma BothLook(digest: string -> string) returns (w: World)
    ensures Reached(digest, w)
    ensures w == World(map[], [Asking(Executing, 0, Some(2)), Asking(Executing, 0, Some(3))], [], map[], 4)
  {
    hide Reached;
    ReachedFresh(digest);
    w := Reaches(digest, FRESH, Arrive(ORDER, "section 3"));
    w := Reaches(digest, w, Arrive(ORDER, "section 3"));
    w := Reaches(digest, w, Look(0, 0));
    w := Reaches(digest, w, Look(1, 0));
  }

  lemma BothRun(digest: string -> string) returns (w: World)
    ensures Reached(digest, w)
    ensures w == World(map[], [Asking(Responded(ONE), 1, Some(2)), Asking(Responded(TWO), 1, Some(3))], [], map[], 6)
  {
    hide Reached;
    w := BothLook(digest);
    w := Reaches(digest, w, RunHandler(0, Ok(ONE)));
    w := Reaches(digest, w, RunHandler(1, Ok(TWO)));
  }

  /** "At most once per scope" is more than the code gives: when two requests both look before
      either saves, both run their handlers and the loser's own answer is discarded. */
  lemma TwoRunsOfOneScope(digest: string -> string) returns (w: World)
    ensures Reached(digest, w) && |w.requests| == 2 && w.requests[0].scope == w.requests[1].scope == ORDER
    ensures w.requests[0].runs == 1 && w.requests[0].phase.Answered? && w.requests[0].phase.outcome == Outcome(ONE, false)
    ensures w.requests[1].runs == 1 && w.requests[1].phase.Answered? && w.requests[1].phase.outcome == Outcome(ONE, true)
  {
    hide Reached;
    w := BothRun(digest);
    w := Reaches(digest, w, Save(0, 0));
    w := Reaches(digest, w, Save(1, 0));
    assert w.requests[1] == Asking(Outrun, 1, Some(3));
    w := Reaches(digest, w, LookAgain(1));
  }

  lemma ReachedFresh(digest: string -> string)
    ensures Reached(digest, FRESH)
  {
    assert Trace(digest, [FRESH], []);
  }

  // ----- the service as written ---------------------------------------------------------------

  /** A request alone in the world, about to take a step. */
  function Solo(table: KeyTable, scope: Scope, payload: string, phase: Phase): World {
    World(table, [Request(scope, payload, phase, 0, None)], [], map[], 0)
  }

  /** The rest of one request's moves once its handler is called, when other requests leave
      the table as `during` while it runs and as `after` between a lost save and the second look. */
  function Finish(digest: string -> string, w: World, result: Result<Snapshot>, during: KeyTable, after: KeyTable,
    later: int): World
    requires |w.requests| == 1
  {
    var saved := Next(digest, Next(digest, w, RunHandler(0, result)).(table := during), Save(0, later));
    if saved.requests[0].phase != Outrun then saved else Next(digest, saved.(table := after), LookAgain(0))
  }

  lemma FailedRunFinishes(digest: string -> string, table: KeyTable, scope: Scope, payload: string, e: Error,
    during: KeyTable, after: KeyTable, later: int)
    ensures var done := Finish(digest, Solo(table, scope, payload, Executing), Err(e), during, after, later);
      done.table == during && done.requests[0].phase == Failed(e)
  {
  }

  lemma RunFinishes(digest: string -> string, table: KeyTable, scope: Scope, payload: string, response: Snapshot,
    during: KeyTable, after: KeyTable, later: int)
    requires scope.key != ""
    ensures var done := Finish(digest, Solo(table, scope, payload, Executing), Ok(response), during, after, later);
      var row := Row(Fingerprint(digest, scope, payload), response, later, later + TTL);
      match SaveRow(during, scope, row)
      case Ok(saved) =>
        done.table == saved && done.requests[0].phase == Answered(Outcome(response, false), Some(0), 1)
      case Err(e) =>
        if e == Conflict then done == Next(digest, Raced(after, scope, payload), LookAgain(0))
        else done.table == during && done.requests[0].phase == Failed(e)
  {
    hide Fingerprint, LookStep, PurgeStep, LookAgainStep;
    var w := Next(digest, Solo(table, scope, payload, Executing), RunHandler(0, Ok(response))).(table := during);
    assert w == World(during, [Request(scope, payload, Responded(response), 1, None)], [], map[], 1);
    if SaveRow(during, scope, Row(Fingerprint(digest, scope, payload), response, later, later + TTL)) == Err(Conflict) {
      assert Next(digest, w, Save(0, later)).(table := after) == Raced(after, scope, payload);
    }
  }

  /** A request that ran its handler and lost the race to save. */
  function Raced(table: KeyTable, scope: Scope, payload: string): World {
    World(table, [Request(scope, payload, Outrun, 1, None)], [], map[], 2)
  }

  predicate Replies(phase: Phase, r: Result<Outcome>) {
    match r
    case Ok(outcome) => phase.Answered? && phase.outcome == outcome
    case Err(e) => phase == Failed(e)
  }

  function Fresh(result: Result<Snapshot>): Result<Outcome> {
    match result
    case Ok(response) => Ok(Outcome(response, false))
    case Err(e) => Err(e)
  }

  /** What a keyed request leaves and answers once its handler was called: a failure is not
      stored; a success is stored for a day unless somebody else stored an answer meanwhile,
      which is then replayed if it still is there and is for the same payload. */
  predicate Stored(mark: string, scope: Scope, result: Result<Snapshot>, during: KeyTable, after: KeyTable, later: int,
    table: KeyTable, r: Result<Outcome>)
  {
    if result.Err? then table == during && r == Fresh(result)
    else if scope.verb == "" || scope.path == "" then table == during && r == Err(Validation)
    else if scope !in during then
      table == during[scope := Row(mark, result.value, later, later + DAY)] && r == Fresh(result)
    else
      table == after
      && r == if scope in after && after[scope].fingerprint == mark then Ok(Outcome(after[scope].response, true))
              else Err(Conflict)
  }

  /** The whole request: without a key the handler just runs; with one, a stored answer decides. */
  predicate Served(mark: string, was: KeyTable, scope: Scope, result: Result<Snapshot>, during: KeyTable, after: KeyTable,
    now: int, later: int, table: KeyTable, r: Result<Outcome>)
  {
    if scope.key == "" then table == during && r == Fresh(result)
    else if scope.actor <= 0 then table == was && r == Err(Unauthenticated)
    else if scope !in was then Stored(mark, scope, result, during, after, later, table, r)
    else
      table == was
      && r == if was[scope].fingerprint != mark then Err(IdempotencyMismatch)
              else if was[scope].expiresAt <= now then Err(Conflict)
              else Ok(Outcome(was[scope].response, true))
  }

  class IdempotencyService {
    const digest: string -> string
    var table: KeyTable

    constructor (digest: string -> string)
      ensures this.digest == digest && table == map[]
    {
      this.digest := digest;
      table := map[];
    }

    method SaveIdempotencyRecord(scope: Scope, row: Row) returns (r: Result<()>)
      modifies this`table
      ensures match SaveRow(old(table), scope, row)
              case Ok(next) => r == Ok(()) && table == next
              case Err(e) => r == Err(e) && table == old(table)
    {
      if scope.key == "" {
        return Err(Validation);
      }
      if scope.verb == "" || scope.path == "" {
        return Err(Validation);
      }
      if scope in table {
        return Err(Conflict);
      }
      table := table[scope := row];
      return Ok(());
    }

    method PurgeExpired(now: int) returns (purged: nat)
      modifies this`table
      ensures table == map s | s in old(table) && now < old(table)[s].expiresAt :: old(table)[s]
      ensures purged == |old(table)| - |table|
      ensures forall w: World :: w.table == old(table) ==> PurgeStep(w, ExpiredRows(old(table), now)).table == table
    {
      var kept := map s | s in table && table[s].expiresAt > now :: table[s];
      assert kept.Keys <= table.Keys;
      SubsetSize(kept.Keys, table.Keys);
      purged := |table| - |kept|;
      table := kept;
    }

    /** Run the handler and save what it answered; the loser of a race replays the winner. */
    method RunAndSave(scope: Scope, payload: string, fingerprint: string, result: Result<Snapshot>,
      during: KeyTable, after: KeyTable, later: int) returns (r: Result<Outcome>)
      requires scope.key != "" && fingerprint == Fingerprint(digest, scope, payload)
      modifies this`table
      ensures Stored(Mark(digest, scope, payload), scope, result, during, after, later, table, r)
      ensures var done := Finish(digest, Solo(old(table), scope, payload, Executing), result, during, after, later);
        table == done.table && Replies(done.requests[0].phase, r)
    {
      hide Finish;
      FingerprintIs(digest, scope, payload);
      table := during;
      if result.Err? {
        FailedRunFinishes(digest, old(table), scope, payload, result.error, during, after, later);
        return Err(result.error);
      }
      var record := Row(fingerprint, result.value, later, later + TTL);
      RunFinishes(digest, old(table), scope, payload, result.value, during, after, later);
      var saved := SaveIdempotencyRecord(scope, record);
      if saved.Err? {
        if saved.error == Conflict {
          table := after;
          var stored := FindRow(table, scope);
          if stored.Ok? && stored.value.fingerprint == fingerprint {
            return Ok(Outcome(stored.value.response, true));
          }
        }
        return Err(saved.error);
      }
      return Ok(Outcome(result.value, false));
    }

    /** `result` is what the handler returns if it is called; `during` and `after` are the
        tables other requests leave behind meanwhile. */
    method Execute(scope: Scope, payload: string, result: Result<Snapshot>, during: KeyTable, after: KeyTable,
      now: int, later: int) returns (r: Result<Outcome>)
      modifies this`table
      ensures Served(Mark(digest, scope, payload), old(table), scope, result, during, after, now, later, table, r)
      ensures var looked := Next(digest, Solo(old(table), scope, payload, Arrived), Look(0, now));
        if looked.requests[0].phase != Executing
        then table == old(table) && Replies(looked.requests[0].phase, r)
        else
          var done := Finish(digest, Solo(old(table), scope, payload, Executing), result, during, after, later);
          table == done.table && Replies(done.requests[0].phase, r)
    {
      hide SaveStep, LookAgainStep, PurgeStep, Stored, Mark;
      FingerprintIs(digest, scope, payload);
      if scope.key == "" {
        table := during;
        if result.Err? {
          return Err(result.error);
        }
        return Ok(Outcome(result.value, false));
      }
      if scope.actor <= 0 {
        return Err(Unauthenticated);
      }
      var fingerprint := FingerprintPayload(digest, [scope.verb, scope.path, payload]);
      var existing := FindRow(table, scope);
      if existing.Ok? {
        if existing.value.fingerprint != fingerprint {
          return Err(IdempotencyMismatch);
        }
        if now >= existing.value.expiresAt {
          return Err(Conflict);
        }
        return Ok(Outcome(existing.value.response, true));
      }
      hide Finish;
      r := RunAndSave(scope, payload, fingerprint, result, during, after, later);
    }
  }
}
