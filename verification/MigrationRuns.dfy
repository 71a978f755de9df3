/**
 The start-up migration run (internal/storage/sqlite/migrate.go): each missing script is
 executed and recorded in one transaction, and the process may die between any two.
 */
module MigrationRuns {
  import opened Prelude
  import opened Migration

  /** What survives a crash: the ledger of versions with their checksums, and the scripts
      executed so far, of which the schema is a function. */
  datatype Disk = Disk(ledger: map<int, string>, schema: seq<string>)

  const NEW := Disk(map[], [])

  /** Whether a script executes without error on what earlier scripts built. */
  type Works = (seq<string>, string) -> bool

  function Recorded(disk: Disk, script: Script): Disk {
    Disk(disk.ledger[script.version := script.checksum], disk.schema + [script.text])
  }

  function AfterAll(disk: Disk, scripts: seq<Script>): Disk {
    if scripts == [] then disk
    else Recorded(AfterAll(disk, scripts[..|scripts| - 1]), scripts[|scripts| - 1])
  }

  /** The scripts the ledger does not know yet, in ascending order. */
  function Pending(all: seq<Script>, ledger: map<int, string>): seq<Script> {
    if all == [] then []
    else
      var last := all[|all| - 1];
      Pending(all[..|all| - 1], ledger) + if last.version in ledger then [] else [last]
  }

  predicate Drifted(ledger: map<int, string>, all: seq<Script>) {
    exists v :: v in ledger && !(1 <= v <= |all| && all[v - 1].checksum == ledger[v])
  }

  datatype Outcome = Completed(applied: seq<int>, alreadyCurrent: bool, version: int) | Died | Failed(error: Error)

  function Versions(scripts: seq<Script>): seq<int> { seq(|scripts|, i requires 0 <= i < |scripts| => scripts[i].version) }

  /** k of the pending scripts were committed, in order, before the run ended. */
  ghost predicate StoppedAt(before: Disk, pending: seq<Script>, works: Works, lifetime: Option<nat>,
    after: Disk, outcome: Outcome, k: nat)
  {
    k <= |pending| && after == AfterAll(before, pending[..k])
    && (lifetime.Some? ==> k <= lifetime.value)
    && match outcome
       case Completed(applied, current, _) => k == |pending| && applied == Versions(pending) && current == (pending == [])
       case Died => k < |pending| && lifetime == Some(k)
       case Failed(e) => e != MigrationDrift && k < |pending| && !works(after.schema, pending[k].text)
  }

  /** One run of Migrate from one disk to another. */
  ghost predicate Ran(before: Disk, all: seq<Script>, works: Works, lifetime: Option<nat>, after: Disk, outcome: Outcome) {
    if Drifted(before.ledger, all) then outcome == Failed(MigrationDrift) && after == before
    else
      (outcome.Completed? ==> outcome.version == |all|)
      && exists k :: StoppedAt(before, Pending(all, before.ledger), works, lifetime, after, outcome, k)
  }

  class Database {
    var ledger: map<int, string>
    var schema: seq<string>

    function State(): Disk
      reads this
    {
      Disk(ledger, schema)
    }

    constructor ()
      ensures State() == NEW
    {
      ledger, schema := map[], [];
    }

    /** Script and ledger row commit together or not at all. */
    method ApplyMigration(script: Script, works: Works) returns (r: Result<()>)
      modifies this
      ensures r.Ok? <==> works(old(schema), script.text) && script.version !in old(ledger)
      ensures r.Ok? ==> State() == Recorded(old(State()), script)
      ensures r.Err? ==> State() == old(State()) && r.error != MigrationDrift
    {
      var saved := State();
      if !works(schema, script.text) {
        return Err(Validation);
      }
      schema := schema + [script.text];
      if script.version in ledger {
        ledger, schema := saved.ledger, saved.schema;
        return Err(Conflict);
      }
      ledger := ledger[script.version := script.checksum];
      return Ok(());
    }

    /** Compare every recorded checksum with the shipped script, in no particular order. */
    method CheckDrift(all: seq<Script>) returns (drift: bool)
      requires forall v :: v in ledger ==> 1 <= v
      ensures drift == Drifted(ledger, all)
    {
      var unchecked: set<int> := ledger.Keys;
      while exists v :: v in unchecked
        invariant unchecked <= ledger.Keys
        invariant forall v :: v in ledger && v !in unchecked ==> v <= |all| && all[v - 1].checksum == ledger[v]
        decreases |unchecked|
      {
        var version :| version in unchecked;
        unchecked := unchecked - {version};
        if version > |all| {
          return true;
        }
        if all[version - 1].checksum != ledger[version] {
          return true;
        }
      }
      return false;
    }

    /** `lifetime` is how many transactions the process lives to commit. */
    method Migrate(all: seq<Script>, works: Works, lifetime: Option<nat>) returns (outcome: Outcome)
      requires Contiguous(all)
      requires forall v :: v in ledger ==> 1 <= v
      modifies this
      ensures Ran(old(State()), all, works, lifetime, State(), outcome)
    {
      hide Pending, AfterAll, Recorded, Drifted;
      ghost var before := State();
      var applied := ledger;
      var drift := CheckDrift(all);
      if drift {
        return Failed(MigrationDrift);
      }
      var done: seq<int> := [];
      ghost var pending := Pending(all, applied);
      NothingPending(all, applied, before);
      for i := 0 to |all|
        invariant |done| <= |pending| && pending[..|done|] == Pending(all[..i], applied)
        invariant State() == AfterAll(before, pending[..|done|]) && done == Versions(pending[..|done|])
        invariant lifetime.Some? ==> |done| <= lifetime.value
      {
        NextPending(all, applied, i, before);
        if all[i].version in applied {
          continue;
        }
        ghost var k := |done|;
        if lifetime == Some(|done|) {
          assert StoppedAt(before, pending, works, lifetime, State(), Died, k);
          return Died;
        }
        var r := ApplyMigration(all[i], works);
        if r.Err? {
          LedgerIsOld(all, applied, before, i);
          assert StoppedAt(before, pending, works, lifetime, State(), Failed(r.error), k);
          return Failed(r.error);
        }
        done := done + [all[i].version];
      }
      assert all[..|all|] == all && pending[..|pending|] == pending;
      outcome := Completed(done, done == [], |all|);
      assert StoppedAt(before, pending, works, lifetime, State(), outcome, |done|);
    }
  }

  lemma NothingPending(all: seq<Script>, ledger: map<int, string>, disk: Disk)
    ensures Pending(all[..0], ledger) == [] && AfterAll(disk, []) == disk
  {
  }

  lemma {:induction false} PendingVersions(all: seq<Script>, ledger: map<int, string>, s: Script)
    ensures s in Pending(all, ledger) ==> s in all && s.version !in ledger
  {
    if all != [] {
      PendingVersions(all[..|all| - 1], ledger, s);
    }
  }

  lemma {:induction false} LedgerAfterAll(disk: Disk, scripts: seq<Script>, v: int)
    ensures v in AfterAll(disk, scripts).ledger <==> v in disk.ledger || exists s :: s in scripts && s.version == v
  {
    if scripts != [] {
      LedgerAfterAll(disk, scripts[..|scripts| - 1], v);
      assert scripts == scripts[..|scripts| - 1] + [scripts[|scripts| - 1]];
    }
  }

  /** The run only records versions below the script it is about to apply. */
  lemma LedgerIsOld(all: seq<Script>, ledger: map<int, string>, disk: Disk, i: nat)
    requires Contiguous(all) && i < |all| && all[i].version !in ledger && disk.ledger == ledger
    ensures all[i].version !in AfterAll(disk, Pending(all[..i], ledger)).ledger
  {
    var before := Pending(all[..i], ledger);
    LedgerAfterAll(disk, before, all[i].version);
    forall s | s in before ensures s.version != all[i].version {
      PendingVersions(all[..i], ledger, s);
    }
  }

  lemma {:induction false} PendingPrefix(all: seq<Script>, ledger: map<int, string>, i: nat)
    requires i <= |all|
    ensures Pending(all[..i], ledger) <= Pending(all, ledger)
  {
    if i < |all| {
      PendingPrefix(all[..|all| - 1], ledger, i);
      assert all[..|all| - 1][..i] == all[..i];
    } else {
      assert all[..i] == all;
    }
  }

  lemma NextPending(all: seq<Script>, ledger: map<int, string>, i: nat, disk: Disk)
    requires i < |all|
    ensures var was := Pending(all[..i], ledger);
      var next := Pending(all[..i + 1], ledger);
      var pending := Pending(all, ledger);
      next == was + (if all[i].version in ledger then [] else [all[i]])
      && |next| <= |pending| && pending[..|was|] == was && pending[..|next|] == next
      && (all[i].version !in ledger ==>
            pending[|was|] == all[i] && AfterAll(disk, next) == Recorded(AfterAll(disk, was), all[i]))
  {
    var was := Pending(all[..i], ledger);
    var next := Pending(all[..i + 1], ledger);
    assert all[..i + 1][..i] == all[..i];
    PendingPrefix(all, ledger, i);
    PendingPrefix(all, ledger, i + 1);
    if all[i].version !in ledger {
      assert next[..|next| - 1] == was;
    }
  }

  // ----- crashes, restarts and releases -------------------------------------------------------

  datatype Attempt = Attempt(all: seq<Script>, works: Works, lifetime: Option<nat>, outcome: Outcome)

  function ChecksumOf(full: seq<Script>, v: int): string
    requires 1 <= v <= |full|
  {
    full[v - 1].checksum
  }

  /** The disk on which exactly the first k scripts have run, once each and in order. */
  function Through(full: seq<Script>, k: nat): Disk
    requires k <= |full|
  {
    Disk(map v | 1 <= v <= k :: ChecksumOf(full, v), seq(k, i requires 0 <= i < k => full[i].text))
  }

  /** Every process start, in order, on the same disk. Each release ships a beginning of `full`. */
  ghost predicate History(full: seq<Script>, disks: seq<Disk>, attempts: seq<Attempt>) {
    Contiguous(full) && |disks| == |attempts| + 1 && disks[0] == NEW
    && forall i :: 0 <= i < |attempts| ==>
         attempts[i].all <= full
         && Ran(disks[i], attempts[i].all, attempts[i].works, attempts[i].lifetime, disks[i + 1], attempts[i].outcome)
  }

  lemma KnownBelow(full: seq<Script>, k: nat, n: nat)
    requires Contiguous(full) && k <= |full| && n < |full|
    ensures full[n].version in Through(full, k).ledger <==> n < k
  {
  }

  lemma {:induction false} PendingIsRest(full: seq<Script>, all: seq<Script>, k: nat)
    requires Contiguous(full) && all <= full && k <= |full|
    ensures Pending(all, Through(full, k).ledger) == if k <= |all| then all[k..] else []
  {
    hide Contiguous, Through;
    if all != [] {
      var n := |all| - 1;
      assert all[..n] <= full && all[n] == full[n];
      PendingIsRest(full, all[..n], k);
      KnownBelow(full, k, n);
      if k <= n {
        SuffixSnoc(all, k);
      }
    }
  }

  lemma SuffixSnoc(all: seq<Script>, k: nat)
    requires k < |all|
    ensures all[k..] == all[..|all| - 1][k..] + [all[|all| - 1]]
  {
  }

  lemma ThroughNext(full: seq<Script>, n: nat)
    requires Contiguous(full) && n < |full|
    ensures Recorded(Through(full, n), full[n]) == Through(full, n + 1)
  {
    assert Through(full, n + 1).schema == Through(full, n).schema + [full[n].text];
    assert Through(full, n + 1).ledger == Through(full, n).ledger[n + 1 := full[n].checksum];
  }

  lemma {:induction false} ThroughMore(full: seq<Script>, all: seq<Script>, k: nat, m: nat)
    requires Contiguous(full) && all <= full && k + m <= |all|
    ensures AfterAll(Through(full, k), all[k..][..m]) == Through(full, k + m)
  {
    hide Contiguous, Through, Recorded;
    if m > 0 {
      ThroughMore(full, all, k, m - 1);
      ThroughNext(full, k + m - 1);
      assert all[k..][..m][..m - 1] == all[k..][..m - 1] && all[k..][..m][m - 1] == full[k + m - 1];
    }
  }

  /** The part of a run that is not refused for drift. */
  lemma StopAdvances(full: seq<Script>, k: nat, a: Attempt, after: Disk, m: nat)
    requires Contiguous(full) && a.all <= full && k <= |a.all|
    requires StoppedAt(Through(full, k), a.all[k..], a.works, a.lifetime, after, a.outcome, m)
    ensures k + m <= |a.all| && after == Through(full, k + m) && |after.schema| == k + m
    ensures a.outcome.Completed? <==> k + m == |a.all|
    ensures a.outcome.Completed? ==> a.outcome.applied == seq(|a.all| - k, i => k + i + 1)
    ensures a.outcome.Completed? ==> a.outcome.alreadyCurrent == (k == |a.all|)
    ensures a.outcome != Failed(MigrationDrift)
  {
    ThroughMore(full, a.all, k, m);
    hide AfterAll, Through;
    ThroughSize(full, k + m);
    if a.outcome.Completed? {
      RestVersions(full, a.all, k);
    }
  }

  lemma ThroughSize(full: seq<Script>, k: nat)
    requires k <= |full|
    ensures |Through(full, k).schema| == k
  {
  }

  lemma RestVersions(full: seq<Script>, all: seq<Script>, k: nat)
    requires Contiguous(full) && all <= full && k <= |all|
    ensures Versions(all[k..]) == seq(|all| - k, i => k + i + 1)
  {
    forall i | 0 <= i < |all| - k ensures all[k..][i].version == k + i + 1 {
      assert all[k + i] == full[k + i];
    }
  }

  /** One run from a beginning of the sequence leads to a beginning that is no shorter; it
      completes exactly at the end of its own list, and a newer disk is reported, not touched. */
  lemma RunAdvances(full: seq<Script>, k: nat, a: Attempt, after: Disk)
    requires Contiguous(full) && a.all <= full && k <= |full|
    requires Ran(Through(full, k), a.all, a.works, a.lifetime, after, a.outcome)
    ensures k <= |after.schema| <= |full| && after == Through(full, |after.schema|)
    ensures k > |a.all| <==> a.outcome == Failed(MigrationDrift)
    ensures k > |a.all| ==> after == Through(full, k)
    ensures k <= |a.all| ==> |after.schema| <= |a.all| && (a.outcome.Completed? <==> |after.schema| == |a.all|)
    ensures a.outcome.Completed? ==>
              a.outcome.applied == seq(|a.all| - k, i => k + i + 1)
              && a.outcome.alreadyCurrent == (k == |a.all|) && a.outcome.version == |a.all|
  {
    NoDriftWithin(full, a.all, k);
    ThroughSize(full, k);
    PendingIsRest(full, a.all, k);
    hide Drifted, Through, Pending, StoppedAt, Contiguous;
    if k <= |a.all| {
      var m :| StoppedAt(Through(full, k), a.all[k..], a.works, a.lifetime, after, a.outcome, m);
      StopAdvances(full, k, a, after, m);
    }
  }

  lemma NoDriftWithin(full: seq<Script>, all: seq<Script>, k: nat)
    requires Contiguous(full) && all <= full && k <= |full|
    ensures Drifted(Through(full, k).ledger, all) <==> k > |all|
  {
    if k > |all| {
      assert k in Through(full, k).ledger;
    }
  }

  /** However often the process dies in between, the disk always holds an initial part of the
      scripts, each run exactly once and in ascending order. */
  lemma {:induction false} AlwaysAPrefix(full: seq<Script>, disks: seq<Disk>, attempts: seq<Attempt>, i: nat)
    requires History(full, disks, attempts) && i < |disks|
    ensures |disks[i].schema| <= |full| && disks[i] == Through(full, |disks[i].schema|)
  {
    if i == 0 {
      assert Through(full, 0) == NEW;
    } else {
      AlwaysAPrefix(full, disks, attempts, i - 1);
      RunAdvances(full, |disks[i - 1].schema|, attempts[i - 1], disks[i]);
    }
  }

  /** A completed run, whatever crashes came before it, leaves what one uninterrupted run of
      the same list on a new disk leaves; and running that list again applies nothing. */
  lemma CompletedIsUninterrupted(full: seq<Script>, disks: seq<Disk>, attempts: seq<Attempt>, i: nat,
    works: Works, lifetime: Option<nat>, straight: Disk, again: Disk, first: Outcome, second: Outcome)
    requires History(full, disks, attempts) && i < |attempts| && attempts[i].outcome.Completed?
    requires Ran(NEW, attempts[i].all, works, None, straight, first) && first.Completed?
    requires Ran(disks[i + 1], attempts[i].all, works, lifetime, again, second)
    ensures disks[i + 1] == straight == again == Through(full, |attempts[i].all|)
    ensures second == Completed([], true, |attempts[i].all|)
  {
    var a := attempts[i];
    AlwaysAPrefix(full, disks, attempts, i);
    RunAdvances(full, |disks[i].schema|, a, disks[i + 1]);
    assert Through(full, 0) == NEW;
    RunAdvances(full, 0, Attempt(a.all, works, None, first), straight);
    RunAdvances(full, |a.all|, Attempt(a.all, works, lifetime, second), again);
  }

  lemma DriftOfThrough(full: seq<Script>, k: nat, shipped: seq<Script>)
    requires Contiguous(full) && k <= |full|
    ensures Drifted(Through(full, k).ledger, shipped) <==>
            |shipped| < k || exists v :: 0 <= v < k && shipped[v].checksum != full[v].checksum
  {
    var ledger := Through(full, k).ledger;
    if |shipped| < k {
      assert k in ledger;
    } else if v :| 0 <= v < k && shipped[v].checksum != full[v].checksum {
      assert v + 1 in ledger;
    }
  }

  /** After any crashes and releases, a binary that ships another list of scripts is refused,
      and nothing is touched, exactly when its list is shorter than what has been applied or
      the checksum of an applied script has changed. */
  lemma ChangedScriptsAreRefused(full: seq<Script>, disks: seq<Disk>, attempts: seq<Attempt>, i: nat,
    shipped: seq<Script>, works: Works, lifetime: Option<nat>, after: Disk, outcome: Outcome)
    requires History(full, disks, attempts) && i < |disks| && Contiguous(shipped)
    requires Ran(disks[i], shipped, works, lifetime, after, outcome)
    ensures |disks[i].schema| <= |full|
    ensures outcome == Failed(MigrationDrift) <==>
            |shipped| < |disks[i].schema|
            || exists v :: 0 <= v < |disks[i].schema| && shipped[v].checksum != full[v].checksum
    ensures outcome == Failed(MigrationDrift) ==> after == disks[i]
  {
    AlwaysAPrefix(full, disks, attempts, i);
    DriftOfThrough(full, |disks[i].schema|, shipped);
    hide Drifted, AfterAll, Pending, Through;
  }
}
