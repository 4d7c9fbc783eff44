/** The migration runner of internal/store/migrate.go: numbered files, one transaction each, restartable. */
module Migrations {
  import opened Basics
  import opened Decimal

  // ---------------------------------------------------------------- file names

  predicate IsBlank(c: char) {
    c == ' ' || c == '\t' || c == '\U{B}' || c == '\U{C}' || c == '\r'
  }

  function SkipBlanks(s: string): string {
    if s != "" && IsBlank(s[0]) then SkipBlanks(s[1..]) else s
  }

  /** Digits, at most so many, and an underscore. */
  function ParseDigits(body: string, width: nat): Option<nat> {
    var k := if DigitRun(body) < width then DigitRun(body) else width;
    if k == 0 || |body| <= k || body[k] != '_' then None else Some(Atoi(body[..k]))
  }

  /** fmt.Sscanf with "%06d_": blanks, a sign and digits within six characters, then an underscore. */
  function ParseVersion(name: string): Option<int> {
    var s := SkipBlanks(name);
    var negative, signed := s != "" && s[0] == '-', s != "" && s[0] in "+-";
    match if signed then ParseDigits(s[1..], 5) else ParseDigits(s, 6)
    case None => None
    case Some(n) => var v: int := n; Some(if negative then -v else v)
  }

  predicate HasSuffix(s: string, suffix: string) {
    |suffix| <= |s| && s[|s| - |suffix|..] == suffix
  }

  const UP_SUFFIX := ".up.sql"

  function UpFiles(names: seq<string>): seq<string> {
    if names == [] then []
    else
      var last := names[|names| - 1];
      UpFiles(names[..|names| - 1]) + if HasSuffix(last, UP_SUFFIX) then [last] else []
  }

  function InsertName(name: string, sorted: seq<string>): seq<string> {
    if sorted == [] || !Less(sorted[0], name) then [name] + sorted
    else [sorted[0]] + InsertName(name, sorted[1..])
  }

  /** sort.Strings */
  function SortNames(names: seq<string>): seq<string> {
    if names == [] then [] else InsertName(names[0], SortNames(names[1..]))
  }

  datatype File = File(name: string, version: int)

  /** The files the loop gets past the version test of its first statement, in loop order. */
  function Numbered(names: seq<string>): seq<File> {
    if names == [] then []
    else
      (match ParseVersion(names[0]) case Some(v) => [File(names[0], v)] case None => []) + Numbered(names[1..])
  }

  function Plan(names: seq<string>): seq<File> {
    Numbered(SortNames(UpFiles(names)))
  }

  // ---------------------------------------------------------------- one run

  /** The recorded versions (a primary key) and the scripts that were committed, in order. */
  datatype Schema = Schema(versions: set<int>, history: seq<string>)

  const FRESH := Schema({}, [])

  /** What may go wrong in a run: the statements before the loop, or anything about some files. */
  datatype Faults = Faults(setup: bool, files: set<string>)

  const NO_FAULTS := Faults(false, {})

  /** COALESCE(MAX(version), 0) */
  ghost function Current(versions: set<int>): (v: int)
    ensures versions == {} ==> v == 0
    ensures versions != {} ==> v in versions && forall x | x in versions :: x <= v
  {
    if versions == {} then 0 else
      MaxExists(versions);
      var m :| m in versions && forall x | x in versions :: x <= m; m
  }

  method Pick<T>(s: set<T>) returns (x: T)
    requires s != {}
    ensures x in s
  {
    x :| x in s;
  }

  lemma Member<T>(s: set<T>) returns (x: T)
    requires s != {}
    ensures x in s
  {
    x :| x in s;
  }

  lemma {:induction false} MaxExists(s: set<int>)
    requires s != {}
    ensures exists m :: m in s && forall x | x in s :: x <= m
    decreases |s|
  {
    var k := Member(s);
    var rest := s - {k};
    var top := k;
    if rest != {} {
      MaxExists(rest);
      var m :| m in rest && forall x | x in rest :: x <= m;
      top := if m < k then k else m;
    }
    forall x | x in s ensures x <= top {
      assert x == k || x in rest;
    }
    assert top in s;
  }

  /** The loop: the version it compares with is read once, before the first file. */
  function ApplyFiles(files: seq<File>, db: Schema, current: int, faults: set<string>): (Schema, bool) {
    if files == [] then (db, true)
    else
      var f := files[0];
      if f.version <= current then ApplyFiles(files[1..], db, current, faults)
      else if f.name in faults || f.version in db.versions then (db, false)
      else ApplyFiles(files[1..], Schema(db.versions + {f.version}, db.history + [f.name]), current, faults)
  }

  ghost function Run(files: seq<File>, db: Schema, faults: Faults): (Schema, bool) {
    if faults.setup then (db, false) else ApplyFiles(files, db, Current(db.versions), faults.files)
  }

  class Database {
    var versions: set<int>
    var history: seq<string>

    function Contents(): Schema
      reads this
    {
      Schema(versions, history)
    }

    constructor ()
      ensures Contents() == FRESH
    {
      versions, history := {}, [];
    }

    method MaxVersion() returns (v: int)
      ensures v == Current(versions)
    {
      if versions == {} {
        return 0;
      }
      v := Pick(versions);
      var rest := versions - {v};
      while rest != {}
        invariant rest <= versions && v in versions
        invariant forall x | x in versions && x !in rest :: x <= v
      {
        var x := Pick(rest);
        if x > v {
          v := x;
        }
        rest := rest - {x};
      }
    }

    /** runMigrations; a failed transaction is rolled back and ends the run. */
    method RunMigrations(names: seq<string>, faults: Faults) returns (ok: bool)
      modifies this
      ensures (Contents(), ok) == Run(Plan(names), old(Contents()), faults)
    {
      if faults.setup {
        return false;
      }
      var currentVersion := MaxVersion();
      var upFiles: seq<string> := [];
      for i := 0 to |names|
        invariant upFiles == UpFiles(names[..i])
      {
        assert names[..i + 1][..i] == names[..i];
        if HasSuffix(names[i], UP_SUFFIX) {
          upFiles := upFiles + [names[i]];
        }
      }
      assert names[..|names|] == names;
      upFiles := SortNames(upFiles);
      for i := 0 to |upFiles|
        invariant ApplyFiles(Numbered(upFiles[i..]), Contents(), currentVersion, faults.files)
               == ApplyFiles(Numbered(upFiles), old(Contents()), currentVersion, faults.files)
      {
        NextFile(upFiles, i);
        var version := ParseVersion(upFiles[i]);
        if version.None? || version.value <= currentVersion {
          continue;
        }
        if upFiles[i] in faults.files || version.value in versions {
          return false;
        }
        versions, history := versions + {version.value}, history + [upFiles[i]];
      }
      return true;
    }
  }

  lemma NextFile(names: seq<string>, i: nat)
    requires i < |names|
    ensures Numbered(names[i..])
         == (match ParseVersion(names[i]) case Some(v) => [File(names[i], v)] case None => [])
           + Numbered(names[i + 1..])
    ensures ParseVersion(names[i]).Some? ==>
              Numbered(names[i..])[0] == File(names[i], ParseVersion(names[i]).value)
              && Numbered(names[i..])[1..] == Numbered(names[i + 1..])
    ensures ParseVersion(names[i]).None? ==> Numbered(names[i..]) == Numbered(names[i + 1..])
  {
    assert names[i..][0] == names[i] && names[i..][1..] == names[i + 1..];
  }

  // ---------------------------------------------------------------- restarts

  /** The versions of the plan grow strictly and are positive. */
  ghost predicate Increasing(files: seq<File>) {
    && (forall i | 0 <= i < |files| :: files[i].version > 0)
    && (forall i, j | 0 <= i < j < |files| :: files[i].version < files[j].version)
  }

  ghost predicate DistinctNames(files: seq<File>) {
    forall i, j | 0 <= i < j < |files| :: files[i].name != files[j].name
  }

  /** The schema in which exactly the first k files of the plan were applied, in order. */
  function UpTo(files: seq<File>, k: nat): Schema
    requires k <= |files|
  {
    if k == 0 then FRESH
    else
      var before := UpTo(files, k - 1);
      Schema(before.versions + {files[k - 1].version}, before.history + [files[k - 1].name])
  }

  lemma {:induction false} VersionsUpTo(files: seq<File>, k: nat)
    requires k <= |files|
    ensures forall v :: v in UpTo(files, k).versions <==> exists i :: 0 <= i < k && files[i].version == v
  {
    if k > 0 {
      VersionsUpTo(files, k - 1);
    }
  }

  lemma CurrentUpTo(files: seq<File>, k: nat)
    requires k <= |files| && Increasing(files[..k])
    ensures Current(UpTo(files, k).versions) == if k == 0 then 0 else files[k - 1].version
  {
    VersionsUpTo(files, k);
    if k > 0 {
      var vs := UpTo(files, k).versions;
      assert files[k - 1].version in vs;
      forall v | v in vs ensures v <= files[k - 1].version {
        var i :| 0 <= i < k && files[i].version == v;
        assert files[..k][i] == files[i] && files[..k][k - 1] == files[k - 1];
      }
    }
  }

  /** Files at or below the current version are passed over. */
  lemma {:induction false} AppliedAreSkipped(files: seq<File>, j: nat, k: nat, faults: set<string>)
    requires j <= k <= |files| && Increasing(files)
    ensures var db := UpTo(files, k);
            ApplyFiles(files[j..], db, Current(db.versions), faults)
              == ApplyFiles(files[k..], db, Current(db.versions), faults)
    decreases k - j
  {
    if j < k {
      assert files[..k][..] == files[..k];
      CurrentUpTo(files, k);
      assert files[j..][0] == files[j] && files[j..][1..] == files[j + 1..];
      AppliedAreSkipped(files, j + 1, k, faults);
    }
  }

  /** From a prefix the loop goes on to a longer prefix, and to the whole plan if nothing fails. */
  lemma {:induction false} PrefixGrows(files: seq<File>, k: nat, current: int, faults: set<string>) returns (end: nat)
    requires k <= |files| && Increasing(files)
    requires k < |files| ==> current < files[k].version
    ensures k <= end <= |files|
    ensures ApplyFiles(files[k..], UpTo(files, k), current, faults) == (UpTo(files, end), end == |files|)
    ensures faults == {} ==> end == |files|
    decreases |files| - k
  {
    end := k;
    if k < |files| {
      assert files[k..][0] == files[k] && files[k..][1..] == files[k + 1..];
      VersionsUpTo(files, k);
      if files[k].name !in faults {
        assert UpTo(files, k + 1)
          == Schema(UpTo(files, k).versions + {files[k].version}, UpTo(files, k).history + [files[k].name]);
        end := PrefixGrows(files, k + 1, current, faults);
      }
    }
  }

  lemma RunFromPrefix(files: seq<File>, k: nat, faults: Faults) returns (end: nat)
    requires k <= |files| && Increasing(files)
    ensures k <= end <= |files|
    ensures Run(files, UpTo(files, k), faults).0 == UpTo(files, end)
    ensures faults == NO_FAULTS ==> end == |files| && Run(files, UpTo(files, k), faults).1
  {
    end := k;
    if !faults.setup {
      CurrentUpTo(files, k);
      AppliedAreSkipped(files, 0, k, faults.files);
      assert files[0..] == files;
      end := PrefixGrows(files, k, Current(UpTo(files, k).versions), faults.files);
    }
  }

  /** Any number of runs, each with its own faults, on a database that starts fresh. */
  ghost function Runs(files: seq<File>, schedule: seq<Faults>): Schema {
    if schedule == [] then FRESH
    else Run(files, Runs(files, schedule[..|schedule| - 1]), schedule[|schedule| - 1]).0
  }

  /** With an increasing plan, what was applied is always a prefix of the plan. */
  lemma {:induction false} AlwaysAPrefix(files: seq<File>, schedule: seq<Faults>) returns (k: nat)
    requires Increasing(files)
    ensures k <= |files| && Runs(files, schedule) == UpTo(files, k)
  {
    if schedule == [] {
      k := 0;
    } else {
      k := AlwaysAPrefix(files, schedule[..|schedule| - 1]);
      k := RunFromPrefix(files, k, schedule[|schedule| - 1]);
    }
  }

  /** However runs failed before, one run without faults applies the whole plan. */
  ghost predicate Completes(files: seq<File>) {
    forall schedule ::
      Run(files, Runs(files, schedule), NO_FAULTS) == (UpTo(files, |files|), true)
  }

  /**
   * A single run without faults succeeds, and however runs failed before, one without faults ends as the
   * single run does.
   */
  ghost predicate RestartSafe(files: seq<File>) {
    && Run(files, FRESH, NO_FAULTS).1
    && forall schedule :: Run(files, Runs(files, schedule), NO_FAULTS) == Run(files, FRESH, NO_FAULTS)
  }

  lemma IncreasingCompletes(files: seq<File>)
    requires Increasing(files)
    ensures Completes(files)
  {
    forall schedule ensures Run(files, Runs(files, schedule), NO_FAULTS) == (UpTo(files, |files|), true) {
      var k := AlwaysAPrefix(files, schedule);
      var end := RunFromPrefix(files, k, NO_FAULTS);
    }
  }

  /** A file at or below the current version is not applied by this run. */
  lemma {:induction false} SkippedStaysOut(
    files: seq<File>, db: Schema, current: int, faults: set<string>, name: string)
    requires name !in db.history
    requires forall f | f in files && f.name == name :: f.version <= current
    ensures name !in ApplyFiles(files, db, current, faults).0.history
  {
    if files != [] {
      var f := files[0];
      if f.version <= current {
        SkippedStaysOut(files[1..], db, current, faults, name);
      } else if f.name !in faults && f.version !in db.versions {
        SkippedStaysOut(files[1..], Schema(db.versions + {f.version}, db.history + [f.name]), current, faults, name);
      }
    }
  }

  /** A fault at the first file out of order stops the first run just before it. */
  lemma {:induction false} StopsBefore(files: seq<File>, i: nat, j: nat)
    requires i <= j < |files| && Increasing(files[..j]) && files[j].version > 0 && DistinctNames(files)
    ensures ApplyFiles(files[i..], UpTo(files, i), 0, {files[j].name}) == (UpTo(files, j), false)
    decreases j - i
  {
    assert files[i..][0] == files[i] && files[i..][1..] == files[i + 1..];
    if i < j {
      VersionsUpTo(files, i);
      assert files[..j][i] == files[i];
      forall k | 0 <= k < i ensures files[k].version != files[i].version {
        assert files[..j][k] == files[k];
      }
      StopsBefore(files, i + 1, j);
    }
  }

  lemma {:induction false} FirstOutOfOrder(files: seq<File>, k: nat) returns (j: nat)
    requires k <= |files| && Increasing(files[..k]) && !Increasing(files)
    ensures k <= j < |files| && Increasing(files[..j])
    ensures files[j].version <= 0 || (j > 0 && files[j].version <= files[j - 1].version)
    decreases |files| - k
  {
    assert files[..|files|] == files;
    j := k;
    if files[k].version > 0 && (k > 0 ==> files[k].version > files[k - 1].version) {
      var longer := files[..k + 1];
      forall a, b | 0 <= a < b < |longer| ensures longer[a].version < longer[b].version {
        assert longer[a] == files[..k][a];
        if b < k {
          assert longer[b] == files[..k][b];
        } else if a < k - 1 {
          assert files[..k][a].version < files[..k][k - 1].version;
        }
      }
      forall a | 0 <= a < |longer| ensures longer[a].version > 0 {
        if a < k {
          assert longer[a] == files[..k][a];
        }
      }
      j := FirstOutOfOrder(files, k + 1);
    }
  }

  lemma {:induction false} HistoryUpTo(files: seq<File>, k: nat)
    requires k <= |files|
    ensures |UpTo(files, k).history| == k && forall i | 0 <= i < k :: UpTo(files, k).history[i] == files[i].name
  {
    if k > 0 {
      HistoryUpTo(files, k - 1);
    }
  }

  /** Out of order, some failures leave a file out for good. */
  lemma OutOfOrderStaysOut(files: seq<File>) returns (schedule: seq<Faults>, f: File)
    requires DistinctNames(files) && !Increasing(files)
    ensures f in files && f.name !in Run(files, Runs(files, schedule), NO_FAULTS).0.history
  {
    assert Increasing(files[..0]);
    var j := FirstOutOfOrder(files, 0);
    f := files[j];
    schedule := if f.version <= 0 then [] else [Faults(false, {f.name})];
    var db := Runs(files, schedule);
    HistoryUpTo(files, j);
    if f.version > 0 {
      assert files[0..] == files && UpTo(files, 0) == FRESH;
      StopsBefore(files, 0, j);
      assert schedule[..0] == [] && Runs(files, []) == FRESH;
      assert db == UpTo(files, j);
      CurrentUpTo(files, j);
    }
    forall g | g in files && g.name == f.name ensures g == f {
      var i :| 0 <= i < |files| && files[i] == g;
    }
    SkippedStaysOut(files, db, Current(db.versions), {}, f.name);
  }

  lemma CompletesIffIncreasing(files: seq<File>)
    requires DistinctNames(files)
    ensures Completes(files) <==> Increasing(files)
  {
    if Increasing(files) {
      IncreasingCompletes(files);
    } else {
      var schedule, f := OutOfOrderStaysOut(files);
      HistoryUpTo(files, |files|);
      assert f.name in UpTo(files, |files|).history;
      assert Run(files, Runs(files, schedule), NO_FAULTS) != (UpTo(files, |files|), true);
    }
  }

  // ---------------------------------------------------------------- versions that are not positive

  /** The files that a run can apply at all: the current version is never below 0. */
  function Positive(files: seq<File>): seq<File> {
    if files == [] then []
    else (if files[0].version > 0 then [files[0]] else []) + Positive(files[1..])
  }

  predicate AllPositive(versions: set<int>) {
    forall v | v in versions :: v > 0
  }

  lemma {:induction false} OnlyPositiveAreApplied(files: seq<File>, db: Schema, current: int, faults: set<string>)
    requires current >= 0 && AllPositive(db.versions)
    ensures ApplyFiles(files, db, current, faults) == ApplyFiles(Positive(files), db, current, faults)
    ensures AllPositive(ApplyFiles(files, db, current, faults).0.versions)
  {
    if files != [] {
      var f, rest := files[0], files[1..];
      if f.version > 0 {
        assert Positive(files)[0] == f && Positive(files)[1..] == Positive(rest);
      } else {
        assert Positive(files) == Positive(rest);
      }
      if f.version <= current {
        OnlyPositiveAreApplied(rest, db, current, faults);
      } else if f.name !in faults && f.version !in db.versions {
        OnlyPositiveAreApplied(rest, Schema(db.versions + {f.version}, db.history + [f.name]), current, faults);
      }
    }
  }

  lemma RunIsOfPositive(files: seq<File>, db: Schema, faults: Faults)
    requires AllPositive(db.versions)
    ensures Run(files, db, faults) == Run(Positive(files), db, faults)
    ensures AllPositive(Run(files, db, faults).0.versions)
  {
    OnlyPositiveAreApplied(files, db, Current(db.versions), faults.files);
  }

  lemma {:induction false} RunsAreOfPositive(files: seq<File>, schedule: seq<Faults>)
    ensures Runs(files, schedule) == Runs(Positive(files), schedule)
    ensures AllPositive(Runs(files, schedule).versions)
  {
    if schedule != [] {
      var front := schedule[..|schedule| - 1];
      RunsAreOfPositive(files, front);
      RunIsOfPositive(files, Runs(files, front), schedule[|schedule| - 1]);
    }
  }

  lemma PrependDistinct(f: File, rest: seq<File>)
    requires DistinctNames(rest) && forall g | g in rest :: g.name != f.name
    ensures DistinctNames([f] + rest)
  {
    var all := [f] + rest;
    forall i, j | 0 <= i < j < |all| ensures all[i].name != all[j].name {
      assert all[j] == rest[j - 1] && rest[j - 1] in rest;
    }
  }

  lemma {:induction false} PositiveFiles(files: seq<File>)
    ensures forall f :: f in Positive(files) <==> f in files && f.version > 0
    ensures DistinctNames(files) ==> DistinctNames(Positive(files))
  {
    if files != [] {
      PositiveFiles(files[1..]);
      assert forall f :: f in files <==> f == files[0] || f in files[1..];
      if DistinctNames(files) {
        HeadStaysDistinct(files);
      }
    }
  }

  lemma HeadStaysDistinct(files: seq<File>)
    requires files != [] && DistinctNames(files) && DistinctNames(Positive(files[1..]))
    requires forall f | f in Positive(files[1..]) :: f in files[1..]
    ensures DistinctNames(Positive(files))
  {
    forall f | f in files[1..] ensures f.name != files[0].name {
      var i :| 0 <= i < |files[1..]| && files[1..][i] == f;
      assert files[i + 1] == f;
    }
    PrependDistinct(files[0], Positive(files[1..]));
    assert [] + Positive(files[1..]) == Positive(files[1..]);
  }

  /** A run that succeeds has applied every file above the current version. */
  lemma {:induction false} SuccessAppliesAll(files: seq<File>, db: Schema, current: int, f: File)
    requires ApplyFiles(files, db, current, {}).1
    ensures f in files && f.version > current ==> f.name in ApplyFiles(files, db, current, {}).0.history
    ensures forall n | n in db.history :: n in ApplyFiles(files, db, current, {}).0.history
  {
    if files != [] {
      var g := files[0];
      assert f in files ==> f == g || f in files[1..];
      if g.version <= current {
        SuccessAppliesAll(files[1..], db, current, f);
      } else {
        var next := Schema(db.versions + {g.version}, db.history + [g.name]);
        assert g.name in next.history;
        SuccessAppliesAll(files[1..], next, current, f);
      }
    }
  }

  lemma PositiveRestartSafeIff(files: seq<File>)
    requires DistinctNames(files) && forall f | f in files :: f.version > 0
    ensures RestartSafe(files) <==> Increasing(files)
  {
    assert Runs(files, []) == FRESH;
    if Increasing(files) {
      IncreasingCompletes(files);
    } else {
      var schedule, f := OutOfOrderStaysOut(files);
      if Run(files, FRESH, NO_FAULTS).1 {
        SuccessAppliesAll(files, FRESH, 0, f);
        assert Run(files, Runs(files, schedule), NO_FAULTS) != Run(files, FRESH, NO_FAULTS);
      }
    }
  }

  lemma RestartSafeIsOfPositive(files: seq<File>)
    ensures RestartSafe(files) <==> RestartSafe(Positive(files))
  {
    RunIsOfPositive(files, FRESH, NO_FAULTS);
    forall schedule
      ensures Run(files, Runs(files, schedule), NO_FAULTS)
              == Run(Positive(files), Runs(Positive(files), schedule), NO_FAULTS)
    {
      RunsAreOfPositive(files, schedule);
      RunIsOfPositive(files, Runs(files, schedule), NO_FAULTS);
    }
  }

  predicate DistinctStrings(names: seq<string>) {
    forall i, j | 0 <= i < j < |names| :: names[i] != names[j]
  }

  lemma {:induction false} DistinctMeansOnce(names: seq<string>)
    ensures DistinctStrings(names) <==> forall n :: multiset(names)[n] <= 1
  {
    if names != [] {
      var front, last := names[..|names| - 1], names[|names| - 1];
      DistinctMeansOnce(front);
      assert names == front + [last];
      if DistinctStrings(names) {
        assert last !in front;
      } else if DistinctStrings(front) {
        var i :| 0 <= i < |front| && names[i] == last;
        assert front[i] == last && last in multiset(front);
        assert multiset(names)[last] == multiset(front)[last] + 1;
      } else {
        var n :| multiset(front)[n] > 1;
        assert multiset(names)[n] > 1;
      }
    }
  }

  lemma {:induction false} UpFilesOnce(names: seq<string>)
    ensures multiset(UpFiles(names)) <= multiset(names)
  {
    if names != [] {
      UpFilesOnce(names[..|names| - 1]);
      assert names == names[..|names| - 1] + [names[|names| - 1]];
    }
  }

  lemma {:induction false} InsertKeepsNames(name: string, sorted: seq<string>)
    ensures multiset(InsertName(name, sorted)) == multiset(sorted) + multiset{name}
  {
    if sorted != [] && Less(sorted[0], name) {
      InsertKeepsNames(name, sorted[1..]);
      assert sorted == [sorted[0]] + sorted[1..];
    }
  }

  lemma {:induction false} SortKeepsNames(names: seq<string>)
    ensures multiset(SortNames(names)) == multiset(names)
  {
    if names != [] {
      SortKeepsNames(names[1..]);
      InsertKeepsNames(names[0], SortNames(names[1..]));
      assert names == [names[0]] + names[1..];
    }
  }

  /** The names in byte order. */
  ghost predicate InByteOrder(names: seq<string>) {
    forall i, j | 0 <= i < j < |names| :: !Less(names[j], names[i])
  }

  lemma HeadThenOrdered(head: string, tail: seq<string>)
    requires InByteOrder(tail) && forall n | n in tail :: !Less(n, head)
    ensures InByteOrder([head] + tail)
  {
    var all := [head] + tail;
    forall i, j | 0 <= i < j < |all| ensures !Less(all[j], all[i]) {
      assert all[j] == tail[j - 1] && tail[j - 1] in tail;
      if i > 0 {
        assert all[i] == tail[i - 1];
      }
    }
  }

  lemma {:induction false} InsertKeepsOrder(name: string, sorted: seq<string>)
    requires InByteOrder(sorted)
    ensures InByteOrder(InsertName(name, sorted))
  {
    if sorted != [] {
      var head, rest := sorted[0], sorted[1..];
      forall n | n in rest ensures !Less(n, head) {
        var i :| 0 <= i < |rest| && rest[i] == n;
        assert sorted[i + 1] == n;
      }
      if Less(head, name) {
        forall i, j | 0 <= i < j < |rest| ensures !Less(rest[j], rest[i]) {
          assert sorted[i + 1] == rest[i] && sorted[j + 1] == rest[j];
        }
        InsertKeepsOrder(name, rest);
        InsertKeepsNames(name, rest);
        LessIsAnOrder(head, head, name);
        forall n | n in InsertName(name, rest) ensures !Less(n, head) {
          assert n in multiset(InsertName(name, rest));
        }
        HeadThenOrdered(head, InsertName(name, rest));
      } else {
        forall n | n in sorted ensures !Less(n, name) {
          assert n == head || n in rest;
          if Less(n, name) {
            LessIsAnOrder(n, head, name);
          }
        }
        HeadThenOrdered(name, sorted);
      }
    }
  }

  /** The sort puts exactly the names it is given into byte order. */
  lemma {:induction false} SortOrders(names: seq<string>)
    ensures InByteOrder(SortNames(names)) && multiset(SortNames(names)) == multiset(names)
  {
    SortKeepsNames(names);
    if names != [] {
      SortOrders(names[1..]);
      InsertKeepsOrder(names[0], SortNames(names[1..]));
    }
  }

  lemma {:induction false} NumberedKeepsDistinct(names: seq<string>)
    requires DistinctStrings(names)
    ensures DistinctNames(Numbered(names))
    ensures forall f | f in Numbered(names) :: f.name in names
  {
    if names != [] {
      NumberedKeepsDistinct(names[1..]);
      assert names == [names[0]] + names[1..];
      forall n | n in names[1..] ensures n != names[0] {
        var i :| 0 <= i < |names[1..]| && names[1..][i] == n;
        assert names[i + 1] == n;
      }
      var rest := Numbered(names[1..]);
      forall i, j | 0 <= i < j < |Numbered(names)| ensures Numbered(names)[i].name != Numbered(names)[j].name {
        if ParseVersion(names[0]).Some? {
          assert Numbered(names)[j] == rest[j - 1] && rest[j - 1] in rest;
          if i > 0 {
            assert Numbered(names)[i] == rest[i - 1];
          }
        } else {
          assert Numbered(names) == rest;
        }
      }
    }
  }

  lemma PlanIsDistinct(names: seq<string>)
    requires DistinctStrings(names)
    ensures DistinctNames(Plan(names))
  {
    DistinctMeansOnce(names);
    UpFilesOnce(names);
    SortKeepsNames(UpFiles(names));
    DistinctMeansOnce(SortNames(UpFiles(names)));
    NumberedKeepsDistinct(SortNames(UpFiles(names)));
  }

  /**
   * In a directory, whose names are distinct: any failed runs followed by one without faults end as a
   * single run does, which succeeds, exactly when the positive versions of the plan strictly increase.
   */
  lemma RestartSafeIffIncreasing(names: seq<string>)
    requires DistinctStrings(names)
    ensures RestartSafe(Plan(names)) <==> Increasing(Positive(Plan(names)))
  {
    PlanIsDistinct(names);
    PositiveFiles(Plan(names));
    RestartSafeIsOfPositive(Plan(names));
    PositiveRestartSafeIff(Positive(Plan(names)));
  }

  /** They apply the whole plan exactly when, besides, no version of the plan is 0 or negative. */
  lemma WholePlanIffIncreasing(names: seq<string>)
    requires DistinctStrings(names)
    ensures Completes(Plan(names)) <==> Increasing(Plan(names))
  {
    PlanIsDistinct(names);
    CompletesIffIncreasing(Plan(names));
  }

  // ---------------------------------------------------------------- padded names are increasing

  /** Six digits and an underscore. */
  predicate Padded(name: string) {
    |name| > 6 && AllDigits(name[..6]) && name[6] == '_'
  }

  function Number(name: string): nat
    requires Padded(name)
  {
    Atoi(name[..6])
  }

  lemma PaddedParses(name: string)
    requires Padded(name)
    ensures ParseVersion(name) == Some(Number(name))
  {
    assert name == name[..6] + name[6..];
    DigitRunOfConcat(name[..6], name[6..]);
    assert IsDigit(name[..6][0]) && name[..6][0] == name[0];
    assert SkipBlanks(name) == name;
  }

  /** Byte order on padded names is the order of their numbers. */
  lemma PaddedOrder(a: string, b: string)
    requires Padded(a) && Padded(b) && Number(a) != Number(b)
    ensures Less(a, b) <==> Number(a) < Number(b)
  {
    assert a == a[..6] + a[6..] && b == b[..6] + b[6..];
    FixedWidthOrder(a[..6], b[..6]);
    LessOfConcat(a[..6], b[..6], a[6..], b[6..]);
  }

  /** Names with numbers that increase. */
  ghost predicate NumbersIncrease(names: seq<string>) {
    && (forall n | n in names :: Padded(n) && Number(n) > 0)
    && (forall i, j | 0 <= i < j < |names| :: Padded(names[i]) && Padded(names[j]) ==>
          Number(names[i]) < Number(names[j]))
  }

  ghost predicate WellNumbered(names: seq<string>) {
    && (forall n | n in names :: Padded(n) && Number(n) > 0)
    && (forall i, j | 0 <= i < j < |names| :: Padded(names[i]) && Padded(names[j]) ==>
          Number(names[i]) != Number(names[j]))
  }

  lemma {:induction false} InsertIncreases(name: string, sorted: seq<string>)
    requires NumbersIncrease(sorted) && Padded(name) && Number(name) > 0
    requires forall n | n in sorted :: Padded(n) && Number(n) != Number(name)
    ensures NumbersIncrease(InsertName(name, sorted))
    ensures forall n :: n in InsertName(name, sorted) <==> n in sorted || n == name
  {
    if sorted == [] {
    } else {
      PaddedOrder(sorted[0], name);
      var rest := sorted[1..];
      assert forall n :: n in sorted <==> n == sorted[0] || n in rest;
      forall n | n in rest ensures Number(sorted[0]) < Number(n) {
        var i :| 0 <= i < |rest| && rest[i] == n;
        assert sorted[i + 1] == n;
      }
      if Less(sorted[0], name) {
        forall i, j | 0 <= i < j < |rest| ensures Number(rest[i]) < Number(rest[j]) {
          assert sorted[i + 1] == rest[i] && sorted[j + 1] == rest[j];
        }
        InsertIncreases(name, rest);
        HeadThenIncreasing(sorted[0], InsertName(name, rest));
      } else {
        forall n | n in sorted ensures Number(name) < Number(n) {
        }
        HeadThenIncreasing(name, sorted);
      }
    }
  }

  lemma HeadThenIncreasing(head: string, tail: seq<string>)
    requires Padded(head) && Number(head) > 0 && NumbersIncrease(tail)
    requires forall n | n in tail :: Padded(n) && Number(head) < Number(n)
    ensures NumbersIncrease([head] + tail)
  {
    var all := [head] + tail;
    assert forall n :: n in all <==> n == head || n in tail;
    forall i, j | 0 <= i < j < |all| ensures Number(all[i]) < Number(all[j]) {
      assert all[j] == tail[j - 1] && tail[j - 1] in tail;
      if i > 0 {
        assert all[i] == tail[i - 1];
      }
    }
  }

  lemma {:induction false} SortingIncreases(names: seq<string>)
    requires WellNumbered(names)
    ensures NumbersIncrease(SortNames(names))
    ensures forall n :: n in SortNames(names) <==> n in names
  {
    if names != [] {
      var rest := names[1..];
      assert names == [names[0]] + rest;
      forall i, j | 0 <= i < j < |rest| ensures Padded(rest[i]) && Padded(rest[j]) ==>
        Number(rest[i]) != Number(rest[j]) {
        assert names[i + 1] == rest[i] && names[j + 1] == rest[j];
      }
      SortingIncreases(rest);
      forall n | n in SortNames(rest) ensures Padded(n) && Number(n) != Number(names[0]) {
        var i :| 0 <= i < |rest| && rest[i] == n;
        assert names[i + 1] == n && names[0] in names;
      }
      InsertIncreases(names[0], SortNames(rest));
    }
  }

  lemma {:induction false} NumberedInOrder(names: seq<string>)
    requires NumbersIncrease(names)
    ensures |Numbered(names)| == |names|
    ensures forall i | 0 <= i < |names| :: Padded(names[i]) && Numbered(names)[i] == File(names[i], Number(names[i]))
  {
    if names != [] {
      var rest := names[1..];
      assert names[0] in names;
      PaddedParses(names[0]);
      forall n | n in rest ensures Padded(n) && Number(n) > 0 {
        assert n in names;
      }
      forall i, j | 0 <= i < j < |rest| ensures Padded(rest[i]) && Padded(rest[j]) ==>
        Number(rest[i]) < Number(rest[j]) {
        assert names[i + 1] == rest[i] && names[j + 1] == rest[j];
      }
      NumberedInOrder(rest);
    }
  }

  /**
   * For up files with six-digit zero-padded distinct positive numbers: the loop meets them in the
   * order of their numbers, so any runs that fail anywhere, followed by one that does not, apply every
   * file once, in that order, as a single run does.
   */
  lemma PaddedNamesAreRestartSafe(names: seq<string>, schedule: seq<Faults>)
    requires WellNumbered(UpFiles(names))
    ensures var files := Plan(names);
            && (forall n :: n in UpFiles(names) <==> exists f :: f in files && f.name == n)
            && Increasing(files)
            && Run(files, Runs(files, schedule), NO_FAULTS) == Run(files, FRESH, NO_FAULTS)
                  == (UpTo(files, |files|), true)
  {
    PaddedPlan(names);
    IncreasingCompletes(Plan(names));
    assert Runs(Plan(names), []) == FRESH;
  }

  lemma PaddedPlan(names: seq<string>)
    requires WellNumbered(UpFiles(names))
    ensures Increasing(Plan(names))
    ensures forall n :: n in UpFiles(names) <==> exists f :: f in Plan(names) && f.name == n
  {
    var sorted, files := SortNames(UpFiles(names)), Plan(names);
    SortingIncreases(UpFiles(names));
    NumberedInOrder(sorted);
    forall n ensures n in UpFiles(names) <==> exists f :: f in files && f.name == n {
      if n in sorted {
        var i :| 0 <= i < |sorted| && sorted[i] == n;
        assert files[i] in files && files[i].name == n;
      }
      if f :| f in files && f.name == n {
        var i :| 0 <= i < |files| && files[i] == f;
        assert sorted[i] in sorted;
      }
    }
  }
}
