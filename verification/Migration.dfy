/**
 Versioned schema scripts (internal/migrations/migrations.go) and the start-up run that
 applies the missing ones (internal/storage/sqlite/migrate.go), under crashes.
 */
module Migration {
  import opened Prelude
  import opened Domain
  import opened Text
  import opened PasswordCodec

  datatype Script = Script(version: int, name: string, text: string, checksum: string)

  datatype File = File(name: string, isDir: bool, content: string)

  // ----- the embedded scripts ----------------------------------------------------------

  const SUFFIX := ".sql"

  predicate IsScript(file: File) {
    !file.isDir && |file.name| >= |SUFFIX| && file.name[|file.name| - |SUFFIX|..] == SUFFIX
  }

  /** <version>_<name>.sql, with a positive version and a name that is not blank. */
  function ParseName(filename: string): Result<(int, string)>
    requires |filename| >= |SUFFIX|
  {
    var stem := filename[..|filename| - |SUFFIX|];
    var bar := Reach(stem, '_');
    if bar == |stem| then Err(Validation)
    else
      var version :- Atoi(stem[..bar]);
      if version <= 0 || Trim(stem[bar + 1..]) == "" then Err(Validation) else Ok((version, stem[bar + 1..]))
  }

  function Load(digest: string -> string, file: File): Result<Script>
    requires IsScript(file)
  {
    var parsed :- ParseName(file.name);
    Ok(Script(parsed.0, parsed.1, file.content, digest(file.content)))
  }

  /** <digits>_<name>.sql with a positive number and a name that is not blank. */
  ghost predicate Named(filename: string, version: int, name: string) {
    0 < version && (exists k :: 0 <= k < |name| && !White(name[k]))
    && exists digits :: Numbered(filename, digits, version, name)
  }

  predicate Numbered(filename: string, digits: string, version: int, name: string) {
    filename == digits + ("_" + (name + ".sql")) && '_' !in digits && Atoi(digits) == Ok(version)
  }

  lemma StemOf(filename: string, digits: string, name: string)
    requires filename == digits + ("_" + (name + ".sql"))
    ensures |filename| >= 4 && filename[|filename| - 4..] == ".sql"
    ensures filename[..|filename| - 4] == digits + ['_'] + name
  {
  }

  lemma ParseNameReads(filename: string, digits: string, version: int, name: string)
    requires Numbered(filename, digits, version, name) && 0 < version && Trim(name) != ""
    ensures |filename| >= 4 && ParseName(filename) == Ok((version, name))
  {
    StemOf(filename, digits, name);
    hide Atoi, Trim;
    var stem := filename[..|filename| - 4];
    ReachStops(digits, name, '_');
    assert stem[..|digits|] == digits && stem[|digits| + 1..] == name;
  }

  lemma NameIsNumbered(filename: string, version: int, name: string) returns (digits: string)
    requires |filename| >= 4 && filename[|filename| - 4..] == ".sql"
    requires ParseName(filename) == Ok((version, name))
    ensures Numbered(filename, digits, version, name) && 0 < version && Trim(name) != ""
  {
    hide Atoi, Trim;
    var stem := filename[..|filename| - 4];
    var bar := Reach(stem, '_');
    digits := stem[..bar];
    assert filename == stem + ".sql" && stem == digits + ("_" + stem[bar + 1..]);
    assert filename == digits + ("_" + (name + ".sql"));
  }

  /** Exactly which file names are scripts, and what they say. */
  lemma NameMeans(filename: string, version: int, name: string)
    requires |filename| >= 4 && filename[|filename| - 4..] == ".sql"
    ensures ParseName(filename) == Ok((version, name)) <==> Named(filename, version, name)
  {
    hide ParseName, Numbered, Trim;
    TrimMeans(name, "");
    if ParseName(filename) == Ok((version, name)) {
      var digits := NameIsNumbered(filename, version, name);
    }
    if Named(filename, version, name) {
      var digits :| Numbered(filename, digits, version, name);
      ParseNameReads(filename, digits, version, name);
    }
  }

  /** The script is the file's: its number, name and text, and the digest of that very text. */
  ghost predicate Describes(file: File, m: Script, digest: string -> string) {
    Named(file.name, m.version, m.name) && m.text == file.content && m.checksum == digest(file.content)
  }

  predicate Contiguous(s: seq<Script>) { forall i :: 0 <= i < |s| ==> s[i].version == i + 1 }

  predicate Ascending(s: seq<Script>) { forall i, j :: 0 <= i < j < |s| ==> s[i].version < s[j].version }

  predicate Distinct(s: seq<Script>) { forall i, j :: 0 <= i < j < |s| ==> s[i].version != s[j].version }

  function Insert(m: Script, s: seq<Script>): (r: seq<Script>)
    requires Ascending(s) && forall x :: x in s ==> x.version != m.version
    ensures Ascending(r) && |r| == |s| + 1 && forall x :: x in r <==> x == m || x in s
  {
    if s == [] || m.version < s[0].version then [m] + s
    else
      var rest := Insert(m, s[1..]);
      assert forall k :: 0 <= k < |rest| ==> rest[k] in rest;
      assert forall x :: x in s[1..] ==> s[0].version < x.version;
      [s[0]] + rest
  }

  /** sort.Slice on the version, once duplicates have been refused. */
  function SortByVersion(s: seq<Script>): (r: seq<Script>)
    requires Distinct(s)
    ensures Ascending(r) && |r| == |s| && forall x :: x in r <==> x in s
  {
    if s == [] then []
    else
      assert s == s[..|s| - 1] + [s[|s| - 1]];
      Insert(s[|s| - 1], SortByVersion(s[..|s| - 1]))
  }

  function ScriptTest(): File -> bool { (f: File) => IsScript(f) }

  /** The scripts among the embedded files, in directory order. */
  function ScriptFiles(files: seq<File>): (r: seq<File>)
    ensures forall f :: f in r <==> f in files && IsScript(f)
  {
    Filter(files, ScriptTest())
  }

  function VersionOf(file: File): int {
    if IsScript(file) && ParseName(file.name).Ok? then ParseName(file.name).value.0 else 0
  }

  /** n script files whose versions are distinct and lie in 1..n, hence are exactly 1..n. */
  ghost predicate WellNumbered(wanted: seq<File>) {
    wanted != []
    && (forall i :: 0 <= i < |wanted| ==> 1 <= VersionOf(wanted[i]) <= |wanted|)
    && forall i, j :: 0 <= i < j < |wanted| ==> VersionOf(wanted[i]) != VersionOf(wanted[j])
  }

  /** Ascending versions between 1 and n leave no gap. */
  lemma {:induction false} NoGap(s: seq<Script>, i: nat)
    requires Ascending(s) && i < |s|
    requires forall k :: 0 <= k < |s| ==> 1 <= s[k].version <= |s|
    ensures i + 1 <= s[i].version
  {
    if i > 0 {
      NoGap(s, i - 1);
    }
  }

  lemma {:induction false} NoExcess(s: seq<Script>, i: nat)
    requires Ascending(s) && i < |s|
    requires forall k :: 0 <= k < |s| ==> 1 <= s[k].version <= |s|
    ensures s[i].version <= i + 1
    decreases |s| - i
  {
    if i + 1 < |s| {
      NoExcess(s, i + 1);
    }
  }

  lemma {:induction false} EarlierFilesFirst(files: seq<File>, k: nat)
    requires k <= |files|
    ensures ScriptFiles(files[..k]) <= ScriptFiles(files)
  {
    if k < |files| {
      EarlierFilesFirst(files[..|files| - 1], k);
      assert files[..|files| - 1][..k] == files[..k];
    } else {
      assert files[..k] == files;
    }
  }

  lemma NextFile(files: seq<File>, i: nat)
    requires i < |files|
    ensures ScriptFiles(files[..i + 1])
            == ScriptFiles(files[..i]) + if IsScript(files[i]) then [files[i]] else []
  {
    assert files[..i + 1][..i] == files[..i];
  }

  /** Versions 1..n in any order sort to 1, 2, ..., n. */
  lemma SortedIsContiguous(found: seq<Script>)
    requires Distinct(found) && forall k :: 0 <= k < |found| ==> 1 <= found[k].version <= |found|
    ensures Contiguous(SortByVersion(found))
  {
    var sorted := SortByVersion(found);
    forall k | 0 <= k < |sorted| ensures 1 <= sorted[k].version <= |sorted| {
      assert sorted[k] in found;
    }
    forall i | 0 <= i < |sorted| ensures sorted[i].version == i + 1 {
      NoGap(sorted, i);
      NoExcess(sorted, i);
    }
  }

  lemma ContiguousBounds(found: seq<Script>)
    requires Distinct(found) && Contiguous(SortByVersion(found))
    ensures forall k :: 0 <= k < |found| ==> 1 <= found[k].version <= |found|
  {
    forall k | 0 <= k < |found| ensures 1 <= found[k].version <= |found| {
      var sorted := SortByVersion(found);
      assert found[k] in sorted;
      var j :| 0 <= j < |sorted| && sorted[j] == found[k];
    }
  }

  predicate LoadedFrom(found: seq<Script>, wanted: seq<File>, digest: string -> string) {
    |found| == |wanted|
    && forall k :: 0 <= k < |found| ==> IsScript(wanted[k]) && Load(digest, wanted[k]) == Ok(found[k])
  }

  /** The versions of loaded scripts are those of their files. */
  lemma LoadedVersions(found: seq<Script>, wanted: seq<File>, digest: string -> string)
    requires LoadedFrom(found, wanted, digest)
    ensures forall k :: 0 <= k < |found| ==> found[k].version == VersionOf(wanted[k])
  {
  }

  lemma LoadedMembers(found: seq<Script>, wanted: seq<File>, digest: string -> string)
    requires LoadedFrom(found, wanted, digest) && forall f :: f in wanted ==> IsScript(f)
    ensures forall m :: m in found <==> exists f :: f in wanted && Load(digest, f) == Ok(m)
  {
    forall m ensures m in found <==> exists f :: f in wanted && Load(digest, f) == Ok(m) {
      if m in found {
        var k :| 0 <= k < |found| && found[k] == m;
        assert wanted[k] in wanted;
      }
      if f :| f in wanted && Load(digest, f) == Ok(m) {
        var k :| 0 <= k < |wanted| && wanted[k] == f;
        assert found[k] == m;
      }
    }
  }

  /** Two files of one version, or one without a version, spoil the numbering. */
  lemma SpoiltNumbering(wanted: seq<File>, k: nat, j: nat)
    requires k <= j < |wanted|
    requires VersionOf(wanted[j]) == 0 || (k < j && VersionOf(wanted[k]) == VersionOf(wanted[j]))
    ensures !WellNumbered(wanted)
  {
  }

  /** The versions loaded so far. */
  function Seen(found: seq<Script>): set<int> { set m | m in found :: m.version }

  lemma SeenSnoc(found: seq<Script>, m: Script)
    requires Distinct(found) && m.version !in Seen(found)
    ensures Seen(found + [m]) == Seen(found) + {m.version} && Distinct(found + [m])
  {
    assert forall k :: 0 <= k < |found| ==> found[k] in found;
  }

  lemma LoadedSnoc(found: seq<Script>, wanted: seq<File>, m: Script, file: File, digest: string -> string)
    requires LoadedFrom(found, wanted, digest) && IsScript(file) && Load(digest, file) == Ok(m)
    ensures LoadedFrom(found + [m], wanted + [file], digest)
  {
  }

  /** The next script file, seen from the whole directory. */
  lemma NextScript(files: seq<File>, i: nat, found: seq<Script>, digest: string -> string)
    requires i < |files| && IsScript(files[i]) && LoadedFrom(found, ScriptFiles(files[..i]), digest)
    ensures |found| < |ScriptFiles(files)| && ScriptFiles(files)[|found|] == files[i]
    ensures ScriptFiles(files[..i + 1]) == ScriptFiles(files[..i]) + [files[i]]
    ensures forall k :: 0 <= k < |found| ==> found[k].version == VersionOf(ScriptFiles(files)[k])
  {
    NextFile(files, i);
    EarlierFilesFirst(files, i + 1);
    LoadedVersions(found, ScriptFiles(files[..i]), digest);
    hide ScriptFiles, Load, VersionOf;
    var wanted := ScriptFiles(files);
    assert forall k :: 0 <= k < |found| ==> wanted[k] == ScriptFiles(files[..i + 1])[k];
  }

  /** A name without a version, or a version met before, means the numbering is spoilt. */
  lemma Refused(files: seq<File>, i: nat, found: seq<Script>, digest: string -> string)
    requires i < |files| && IsScript(files[i]) && LoadedFrom(found, ScriptFiles(files[..i]), digest)
    requires ParseName(files[i].name).Err? || ParseName(files[i].name).value.0 in Seen(found)
    ensures !WellNumbered(ScriptFiles(files))
  {
    NextScript(files, i, found, digest);
    NameGivesVersion(files[i]);
    hide ScriptFiles, Load, VersionOf, WellNumbered, LoadedFrom, ParseName;
    if ParseName(files[i].name).Err? {
      SpoiltNumbering(ScriptFiles(files), |found|, |found|);
    } else {
      var m :| m in found && m.version == ParseName(files[i].name).value.0;
      var k :| 0 <= k < |found| && found[k] == m;
      SpoiltNumbering(ScriptFiles(files), k, |found|);
    }
  }

  /** Read and parse the scripts in directory order, refusing a version seen before. */
  method LoadAll(files: seq<File>, digest: string -> string) returns (r: Result<seq<Script>>)
    ensures r.Ok? ==> LoadedFrom(r.value, ScriptFiles(files), digest) && Distinct(r.value)
    ensures r.Err? ==> !WellNumbered(ScriptFiles(files))
  {
    hide ParseName, WellNumbered, ScriptFiles, LoadedFrom, Distinct, Seen;
    var found: seq<Script> := [];
    var seen: set<int> := {};
    NothingLoaded(files, digest);
    for i := 0 to |files|
      invariant LoadedFrom(found, ScriptFiles(files[..i]), digest) && Distinct(found) && seen == Seen(found)
    {
      NextFile(files, i);
      if !IsScript(files[i]) {
        assert ScriptFiles(files[..i]) + [] == ScriptFiles(files[..i]);
        continue;
      }
      var parsed := ParseName(files[i].name);
      if parsed.Err? {
        Refused(files, i, found, digest);
        return Err(parsed.error);
      }
      if parsed.value.0 in seen {
        Refused(files, i, found, digest);
        return Err(Conflict);
      }
      var m := Script(parsed.value.0, parsed.value.1, files[i].content, digest(files[i].content));
      SeenSnoc(found, m);
      LoadedSnoc(found, ScriptFiles(files[..i]), m, files[i], digest);
      seen := seen + {parsed.value.0};
      found := found + [m];
    }
    assert files[..|files|] == files;
    return Ok(found);
  }

  lemma NothingLoaded(files: seq<File>, digest: string -> string)
    ensures LoadedFrom([], ScriptFiles(files[..0]), digest) && Distinct([]) && Seen([]) == {}
  {
  }

  lemma NameGivesVersion(file: File)
    requires IsScript(file)
    ensures VersionOf(file) == if ParseName(file.name).Ok? then ParseName(file.name).value.0 else 0
  {
  }

  lemma NumberingMeans(found: seq<Script>, wanted: seq<File>, digest: string -> string)
    requires LoadedFrom(found, wanted, digest) && Distinct(found)
    ensures WellNumbered(wanted) <==> wanted != [] && Contiguous(SortByVersion(found))
  {
    hide SortByVersion, Contiguous, VersionOf;
    LoadedVersions(found, wanted, digest);
    if WellNumbered(wanted) {
      SortedIsContiguous(found);
    }
    if Contiguous(SortByVersion(found)) {
      ContiguousBounds(found);
    }
  }

  lemma LoadMeans(file: File, m: Script, digest: string -> string)
    ensures IsScript(file) && Load(digest, file) == Ok(m) <==> !file.isDir && Describes(file, m, digest)
  {
    hide ParseName, Named;
    if Named(file.name, m.version, m.name) {
      EndsInSql(file.name, m.version, m.name);
    }
    if |file.name| >= 4 && file.name[|file.name| - 4..] == ".sql" {
      NameMeans(file.name, m.version, m.name);
    }
  }

  lemma EndsInSql(filename: string, version: int, name: string)
    requires Named(filename, version, name)
    ensures |filename| >= 4 && filename[|filename| - 4..] == ".sql"
  {
    var digits :| Numbered(filename, digits, version, name);
    StemOf(filename, digits, name);
  }

  lemma ScriptDescribed(files: seq<File>, digest: string -> string, m: Script)
    ensures (exists f :: f in ScriptFiles(files) && Load(digest, f) == Ok(m)) <==>
            (exists f :: f in files && !f.isDir && Describes(f, m, digest))
  {
    hide Load, Describes, IsScript, ScriptFiles;
    if f :| f in ScriptFiles(files) && Load(digest, f) == Ok(m) {
      LoadMeans(f, m, digest);
    }
    if f :| f in files && !f.isDir && Describes(f, m, digest) {
      LoadMeans(f, m, digest);
      assert f in ScriptFiles(files);
    }
  }

  /** Every embedded script, ordered by version; refused unless the versions are exactly 1..n. */
  method All(files: seq<File>, digest: string -> string) returns (r: Result<seq<Script>>)
    ensures r.Ok? <==> WellNumbered(ScriptFiles(files))
    ensures r.Ok? ==>
              Contiguous(r.value) && |r.value| == |ScriptFiles(files)|
              && forall m :: m in r.value <==> exists f :: f in files && !f.isDir && Describes(f, m, digest)
  {
    hide WellNumbered, ScriptFiles, Load, Describes;
    var found :- LoadAll(files, digest);
    NumberingMeans(found, ScriptFiles(files), digest);
    LoadedMembers(found, ScriptFiles(files), digest);
    if found == [] {
      return Err(NotFound);
    }
    var sorted := SortByVersion(found);
    for i := 0 to |sorted|
      invariant forall k :: 0 <= k < i ==> sorted[k].version == k + 1
    {
      if sorted[i].version != i + 1 {
        return Err(Validation);
      }
    }
    forall m ensures m in sorted <==> exists f :: f in files && !f.isDir && Describes(f, m, digest) {
      ScriptDescribed(files, digest, m);
    }
    return Ok(sorted);
  }
}
