/** Collecting migrations from several file systems. */
module MigrationLoader {
  import opened Common

  const ENGINE_MIN_VERSION := 1
  const ENGINE_MAX_VERSION := 999
  const APP_MIN_VERSION := 1000
  const MAX_INT32 := 0x7FFF_FFFF
  const SUFFIX := ".up.sql"

  datatype Kind = Engine | App | Unknown(text: string)

  datatype Migration = Migration(version: int, name: string, sql: string, checksum: string, kind: Kind)

  /** A directory entry; the body is None when reading the file fails. */
  datatype File = File(name: string, isDir: bool, body: Option<string>)

  /** A source without a file system is skipped; its directory may be unreadable. */
  datatype Source = NoFS(kind: Kind) | Unreadable(kind: Kind) | Listing(kind: Kind, entries: seq<File>)

  datatype LoadError = ReadDir | BadVersion | OutOfRange | DuplicateVersion | ReadFile

  // ---------------------------------------------------------------- file names

  predicate IsDigit(c: char) {
    '0' <= c <= '9'
  }

  predicate IsNameChar(c: char) {
    'a' <= c <= 'z' || 'A' <= c <= 'Z' || IsDigit(c) || c == '_' || c == '-'
  }

  function DigitRun(s: string): (n: nat)
    ensures n <= |s|
  {
    if s != [] && IsDigit(s[0]) then 1 + DigitRun(s[1..]) else 0
  }

  /** ^(\d+)_([a-zA-Z0-9_-]+)\.up\.sql$ : digits, an underscore, a name, the suffix. */
  function Match(file: string): Option<(string, string)> {
    var n := DigitRun(file);
    if 0 < n && n + 1 + |SUFFIX| < |file| && file[n] == '_' && file[|file| - |SUFFIX|..] == SUFFIX
       && forall i :: n < i < |file| - |SUFFIX| ==> IsNameChar(file[i])
    then Some((file[..n], file[n + 1..|file| - |SUFFIX|])) else None
  }

  function Value(digits: string): nat
    requires forall i :: 0 <= i < |digits| ==> IsDigit(digits[i])
  {
    if digits == [] then 0
    else
      var n := |digits| - 1;
      assert IsDigit(digits[n]);
      10 * Value(digits[..n]) + (digits[n] - '0') as int
  }

  lemma DigitRunDigits(s: string)
    ensures forall i :: 0 <= i < DigitRun(s) ==> IsDigit(s[i])
  {
  }

  /** The number a matching file name starts with. */
  function VersionOf(file: string): (v: nat)
    requires Match(file).Some?
  {
    DigitRunDigits(file);
    Value(file[..DigitRun(file)])
  }

  lemma {:induction false} DigitRunOf(digits: string, rest: string)
    requires (forall i :: 0 <= i < |digits| ==> IsDigit(digits[i])) && rest != "" && !IsDigit(rest[0])
    ensures DigitRun(digits + rest) == |digits|
  {
    if digits == "" {
      assert digits + rest == rest;
    } else {
      assert (digits + rest)[1..] == digits[1..] + rest;
      DigitRunOf(digits[1..], rest);
    }
  }

  ghost predicate IsMigrationName(file: string, digits: string, name: string) {
    && digits != ""
    && (forall i :: 0 <= i < |digits| ==> IsDigit(digits[i]))
    && name != ""
    && (forall i :: 0 <= i < |name| ==> IsNameChar(name[i]))
    && file == digits + "_" + name + SUFFIX
  }

  lemma NameMatches(file: string, digits: string, name: string)
    requires IsMigrationName(file, digits, name)
    ensures Match(file) == Some((digits, name))
  {
    var rest := "_" + name + SUFFIX;
    assert file == digits + rest;
    DigitRunOf(digits, rest);
    assert file[|file| - |SUFFIX|..] == SUFFIX;
    forall i | |digits| < i < |file| - |SUFFIX| ensures IsNameChar(file[i]) {
      assert file[i] == name[i - |digits| - 1];
    }
  }

  lemma MatchedName(file: string)
    requires Match(file).Some?
    ensures IsMigrationName(file, Match(file).value.0, Match(file).value.1)
  {
    DigitRunDigits(file);
    var n := DigitRun(file);
    assert file == file[..n] + [file[n]] + file[n + 1..|file| - |SUFFIX|] + file[|file| - |SUFFIX|..];
  }

  /** The file names that are loaded are exactly digits, an underscore, a name and the suffix, in one way only. */
  lemma MatchExactly(file: string, digits: string, name: string)
    ensures Match(file) == Some((digits, name)) <==> IsMigrationName(file, digits, name)
    ensures IsMigrationName(file, digits, name) ==> VersionOf(file) == Value(digits)
  {
    if Match(file).Some? { MatchedName(file); }
    if IsMigrationName(file, digits, name) { NameMatches(file, digits, name); }
  }

  predicate ValidVersion(kind: Kind, version: int) {
    match kind
    case Engine => ENGINE_MIN_VERSION <= version <= ENGINE_MAX_VERSION
    case App => APP_MIN_VERSION <= version
    case Unknown(_) => false
  }

  // ---------------------------------------------------------------- what loading should give

  /** What one directory entry contributes, on its own. */
  datatype Verdict = Skip | Bad(error: LoadError) | Good(migration: Migration)

  function Judge(kind: Kind, f: File, sum: string -> string): Verdict {
    if f.isDir || Match(f.name).None? then Skip
    else
      var version := VersionOf(f.name);
      if version > MAX_INT32 then Bad(BadVersion)
      else if !ValidVersion(kind, version) then Bad(OutOfRange)
      else if f.body.None? then Bad(ReadFile)
      else Good(Migration(version, Match(f.name).value.1, f.body.value, sum(f.body.value), kind))
  }

  /** The entry is a migration file of the given digits and name. */
  ghost predicate IsMigrationFile(f: File, digits: string, name: string) {
    !f.isDir && IsMigrationName(f.name, digits, name)
  }

  /**
   A file contributes exactly what its name and body say: the version its digits spell, the name, the body,
   and the checksum of the body. It is an error exactly if the version is too large or out of the range of
   its kind, or the body cannot be read; anything else in the directory is skipped.
   */
  lemma JudgeExactly(kind: Kind, f: File, sum: string -> string)
    ensures forall digits, name :: IsMigrationFile(f, digits, name) ==>
              && (Judge(kind, f, sum).Bad? <==>
                    Value(digits) > MAX_INT32 || !ValidVersion(kind, Value(digits)) || f.body.None?)
              && (Judge(kind, f, sum).Good? ==>
                    Judge(kind, f, sum).migration
                    == Migration(Value(digits), name, f.body.value, sum(f.body.value), kind))
    ensures Judge(kind, f, sum).Skip? <==> forall digits, name :: !IsMigrationFile(f, digits, name)
  {
    forall digits, name | IsMigrationFile(f, digits, name)
      ensures Match(f.name) == Some((digits, name)) && VersionOf(f.name) == Value(digits)
    {
      MatchExactly(f.name, digits, name);
    }
    if Match(f.name).Some? {
      MatchedName(f.name);
      assert !f.isDir ==> IsMigrationFile(f, Match(f.name).value.0, Match(f.name).value.1);
    }
  }

  function FromEntries(kind: Kind, entries: seq<File>, sum: string -> string): seq<Migration> {
    if entries == [] then []
    else
      var n := |entries| - 1;
      FromEntries(kind, entries[..n], sum)
      + match Judge(kind, entries[n], sum) case Good(m) => [m] case _ => []
  }

  function FromSource(s: Source, sum: string -> string): seq<Migration> {
    match s case Listing(kind, entries) => FromEntries(kind, entries, sum) case _ => []
  }

  /** The migrations of all matching files, in the order they are met. */
  function Expected(sources: seq<Source>, sum: string -> string): seq<Migration> {
    if sources == [] then [] else Expected(sources[..|sources|-1], sum) + FromSource(sources[|sources|-1], sum)
  }

  /** Some entry contributes m. */
  ghost predicate Lists(kind: Kind, entries: seq<File>, sum: string -> string, m: Migration) {
    exists k :: 0 <= k < |entries| && Judge(kind, entries[k], sum) == Good(m)
  }

  ghost predicate Carries(s: Source, sum: string -> string, m: Migration) {
    s.Listing? && Lists(s.kind, s.entries, sum, m)
  }

  lemma ListsSnoc(kind: Kind, entries: seq<File>, sum: string -> string, m: Migration)
    requires entries != []
    ensures var n := |entries| - 1;
            Lists(kind, entries, sum, m) <==>
              Lists(kind, entries[..n], sum, m) || Judge(kind, entries[n], sum) == Good(m)
  {
    var n := |entries| - 1;
    assert forall k :: 0 <= k < n ==> entries[..n][k] == entries[k];
  }

  lemma {:induction false} EntriesExactly(kind: Kind, entries: seq<File>, sum: string -> string, m: Migration)
    ensures m in FromEntries(kind, entries, sum) <==> Lists(kind, entries, sum, m)
    decreases |entries|
  {
    if entries != [] {
      EntriesExactly(kind, entries[..|entries|-1], sum, m);
      ListsSnoc(kind, entries, sum, m);
    }
  }

  lemma CarriesSnoc(sources: seq<Source>, sum: string -> string, m: Migration)
    requires sources != []
    ensures var n := |sources| - 1;
            (exists i :: 0 <= i < |sources| && Carries(sources[i], sum, m)) <==>
            (exists i :: 0 <= i < n && Carries(sources[..n][i], sum, m)) || Carries(sources[n], sum, m)
  {
    var n := |sources| - 1;
    assert forall i :: 0 <= i < n ==> sources[..n][i] == sources[i];
    if i :| 0 <= i < n && Carries(sources[i], sum, m) { assert Carries(sources[..n][i], sum, m); }
  }

  /** What is loaded is exactly what some file of some source contributes. */
  lemma {:induction false} ExpectedExactly(sources: seq<Source>, sum: string -> string, m: Migration)
    ensures m in Expected(sources, sum) <==> exists i :: 0 <= i < |sources| && Carries(sources[i], sum, m)
    decreases |sources|
  {
    if sources != [] {
      var n := |sources| - 1;
      ExpectedExactly(sources[..n], sum, m);
      CarriesSnoc(sources, sum, m);
      if sources[n].Listing? { EntriesExactly(sources[n].kind, sources[n].entries, sum, m); }
    }
  }

  ghost predicate Clean(s: Source, sum: string -> string) {
    && !s.Unreadable?
    && (s.Listing? ==> forall i :: 0 <= i < |s.entries| ==> !Judge(s.kind, s.entries[i], sum).Bad?)
  }

  ghost predicate DistinctVersions(ms: seq<Migration>) {
    forall i, j :: 0 <= i < j < |ms| ==> ms[i].version != ms[j].version
  }

  /** Loading succeeds exactly on clean sources that never share a version. */
  ghost predicate Loadable(sources: seq<Source>, sum: string -> string) {
    && (forall i :: 0 <= i < |sources| ==> Clean(sources[i], sum))
    && DistinctVersions(Expected(sources, sum))
  }

  ghost predicate Ascending(ms: seq<Migration>) {
    forall i, j :: 0 <= i < j < |ms| ==> ms[i].version < ms[j].version
  }

  // ---------------------------------------------------------------- loading

  function Insert(m: Migration, sorted: seq<Migration>): (r: seq<Migration>)
    ensures multiset(r) == multiset(sorted) + multiset{m}
    ensures forall x :: x in r <==> x == m || x in sorted
  {
    if sorted == [] || m.version <= sorted[0].version then [m] + sorted
    else
      assert sorted == [sorted[0]] + sorted[1..];
      [sorted[0]] + Insert(m, sorted[1..])
  }

  lemma {:induction false} InsertAscending(m: Migration, sorted: seq<Migration>)
    requires Ascending(sorted) && forall x :: x in sorted ==> x.version != m.version
    ensures Ascending(Insert(m, sorted))
  {
    if sorted == [] {
    } else if m.version <= sorted[0].version {
      assert sorted[0] in sorted;
    } else {
      InsertAscending(m, sorted[1..]);
      var rest := Insert(m, sorted[1..]);
      forall j | 0 <= j < |rest| ensures sorted[0].version < rest[j].version {
        assert rest[j] in rest;
      }
    }
  }

  /** sort.Slice by version. */
  function Sorted(ms: seq<Migration>): (r: seq<Migration>)
    ensures multiset(r) == multiset(ms)
    ensures forall x :: x in r <==> x in ms
  {
    if ms == [] then []
    else
      var n := |ms| - 1;
      assert ms == ms[..n] + [ms[n]];
      Insert(ms[n], Sorted(ms[..n]))
  }

  lemma {:induction false} SortedAscending(ms: seq<Migration>)
    requires DistinctVersions(ms)
    ensures Ascending(Sorted(ms))
    decreases |ms|
  {
    if ms != [] {
      var n := |ms| - 1;
      SortedAscending(ms[..n]);
      InsertAscending(ms[n], Sorted(ms[..n]));
    }
  }

  lemma ExpectedSnoc(kind: Kind, entries: seq<File>, i: nat, sum: string -> string)
    requires i < |entries|
    ensures FromEntries(kind, entries[..i + 1], sum)
            == FromEntries(kind, entries[..i], sum)
               + match Judge(kind, entries[i], sum) case Good(m) => [m] case _ => []
  {
    assert entries[..i + 1][..i] == entries[..i];
  }

  lemma ExpectedSource(sources: seq<Source>, i: nat, sum: string -> string)
    requires i < |sources|
    ensures Expected(sources[..i + 1], sum) == Expected(sources[..i], sum) + FromSource(sources[i], sum)
  {
    assert sources[..i + 1][..i] == sources[..i];
  }

  lemma {:induction false} ExpectedPrefix(sources: seq<Source>, i: nat, sum: string -> string)
    requires i <= |sources|
    ensures Expected(sources[..i], sum) <= Expected(sources, sum)
    decreases |sources| - i
  {
    if i < |sources| {
      ExpectedSource(sources, i, sum);
      ExpectedPrefix(sources, i + 1, sum);
    } else {
      assert sources[..i] == sources;
    }
  }

  lemma {:induction false} EntriesPrefix(kind: Kind, entries: seq<File>, i: nat, sum: string -> string)
    requires i <= |entries|
    ensures FromEntries(kind, entries[..i], sum) <= FromEntries(kind, entries, sum)
    decreases |entries| - i
  {
    if i < |entries| {
      ExpectedSnoc(kind, entries, i, sum);
      EntriesPrefix(kind, entries, i + 1, sum);
    } else {
      assert entries[..i] == entries;
    }
  }

  function Versions(ms: seq<Migration>): set<int> {
    set i | 0 <= i < |ms| :: ms[i].version
  }

  lemma AddVersion(all: seq<Migration>, m: Migration)
    requires DistinctVersions(all) && m.version !in Versions(all)
    ensures DistinctVersions(all + [m])
    ensures Versions(all + [m]) == Versions(all) + {m.version}
  {
    var next := all + [m];
    assert next[|all|] == m;
    forall i | 0 <= i < |all| ensures next[i] == all[i] && all[i].version in Versions(next) {
      assert next[i].version in Versions(next);
    }
    assert next[|all|].version in Versions(next);
  }

  /** An entry that is bad, or brings a version already met, makes the sources unloadable. */
  lemma Unfit(before: seq<Migration>, kind: Kind, entries: seq<File>, i: nat, sum: string -> string)
    requires i < |entries|
    requires var all := before + FromEntries(kind, entries[..i], sum);
             var verdict := Judge(kind, entries[i], sum);
             verdict.Bad? || (verdict.Good? && verdict.migration.version in Versions(all))
    ensures !Fits(before, kind, entries, sum)
  {
    if Judge(kind, entries[i], sum).Good? {
      ExpectedSnoc(kind, entries, i, sum);
      EntriesPrefix(kind, entries, i + 1, sum);
      var all := before + FromEntries(kind, entries[..i], sum);
      var whole := before + FromEntries(kind, entries, sum);
      var k :| 0 <= k < |all| && all[k].version == Judge(kind, entries[i], sum).migration.version;
      assert whole[k] == all[k];
      assert whole[|all|] == Judge(kind, entries[i], sum).migration;
    }
  }

  ghost predicate Fits(before: seq<Migration>, kind: Kind, entries: seq<File>, sum: string -> string) {
    && Clean(Listing(kind, entries), sum)
    && DistinctVersions(before + FromEntries(kind, entries, sum))
  }

  /** One entry, checked in the order of the source code. */
  method LoadEntry(kind: Kind, f: File, sum: string -> string, seen: set<int>)
    returns (r: Result<Option<Migration>, LoadError>)
    ensures r.Ok? && r.value.None? <==> Judge(kind, f, sum).Skip?
    ensures r.Ok? && r.value.Some? <==> Judge(kind, f, sum).Good? && Judge(kind, f, sum).migration.version !in seen
    ensures r.Ok? && r.value.Some? ==> r.value.value == Judge(kind, f, sum).migration
    ensures r.Err? && Judge(kind, f, sum).Good? ==> Judge(kind, f, sum).migration.version in seen
  {
    if f.isDir || Match(f.name).None? { return Ok(None); }
    var version := VersionOf(f.name);
    if version > MAX_INT32 { return Err(BadVersion); }
    if !ValidVersion(kind, version) { return Err(OutOfRange); }
    if version in seen { return Err(DuplicateVersion); }
    if f.body.None? { return Err(ReadFile); }
    return Ok(Some(Migration(version, Match(f.name).value.1, f.body.value, sum(f.body.value), kind)));
  }

  /** The first i entries are fine, and all of them have been appended. */
  ghost predicate EntriesSoFar(before: seq<Migration>, kind: Kind, entries: seq<File>, sum: string -> string, i: nat,
                               all: seq<Migration>, seen: set<int>)
  {
    && i <= |entries|
    && all == before + FromEntries(kind, entries[..i], sum)
    && seen == Versions(all) && DistinctVersions(all)
    && forall k :: 0 <= k < i ==> !Judge(kind, entries[k], sum).Bad?
  }

  /** One source: its entries are checked and appended one by one. */
  method LoadEntries(kind: Kind, entries: seq<File>, sum: string -> string, before: seq<Migration>,
                     seenBefore: set<int>)
    returns (error: Option<LoadError>, all: seq<Migration>, seen: set<int>)
    requires seenBefore == Versions(before) && DistinctVersions(before)
    ensures error.None? <==> Fits(before, kind, entries, sum)
    ensures error.None? ==>
              all == before + FromEntries(kind, entries, sum) && seen == Versions(all) && DistinctVersions(all)
  {
    all, seen := before, seenBefore;
    assert before + [] == before;
    for i := 0 to |entries|
      invariant EntriesSoFar(before, kind, entries, sum, i, all, seen)
    {
      var r := LoadEntry(kind, entries[i], sum, seen);
      if r.Err? {
        Unfit(before, kind, entries, i, sum);
        return Some(r.error), all, seen;
      }
      NextEntry(before, kind, entries, sum, i, all, seen, r.value);
      if r.value.Some? {
        seen, all := seen + {r.value.value.version}, all + [r.value.value];
      }
    }
    assert entries[..|entries|] == entries;
    return None, all, seen;
  }

  lemma NextEntry(before: seq<Migration>, kind: Kind, entries: seq<File>, sum: string -> string, i: nat,
                  all: seq<Migration>, seen: set<int>, found: Option<Migration>)
    requires EntriesSoFar(before, kind, entries, sum, i, all, seen) && i < |entries|
    requires found.None? ==> Judge(kind, entries[i], sum).Skip?
    requires found.Some? ==> Judge(kind, entries[i], sum) == Good(found.value) && found.value.version !in seen
    ensures EntriesSoFar(before, kind, entries, sum, i + 1, if found.Some? then all + [found.value] else all,
                         if found.Some? then seen + {found.value.version} else seen)
  {
    AppendFound(before, all, kind, entries, i, sum, found);
  }

  lemma AppendFound(before: seq<Migration>, all: seq<Migration>, kind: Kind, entries: seq<File>, i: nat,
                    sum: string -> string, found: Option<Migration>)
    requires i < |entries| && all == before + FromEntries(kind, entries[..i], sum) && DistinctVersions(all)
    requires found.None? ==> Judge(kind, entries[i], sum).Skip?
    requires found.Some? ==> Judge(kind, entries[i], sum) == Good(found.value) && found.value.version !in Versions(all)
    ensures var more := if found.Some? then all + [found.value] else all;
            && more == before + FromEntries(kind, entries[..i + 1], sum)
            && DistinctVersions(more)
            && (found.Some? ==> Versions(more) == Versions(all) + {found.value.version})
  {
    ExpectedSnoc(kind, entries, i, sum);
    if found.Some? { AddVersion(all, found.value); }
  }

  lemma SourceFits(sources: seq<Source>, i: nat, sum: string -> string)
    requires i < |sources| && Loadable(sources, sum)
    ensures Clean(sources[i], sum)
    ensures sources[i].Listing? ==> Fits(Expected(sources[..i], sum), sources[i].kind, sources[i].entries, sum)
  {
    ExpectedSource(sources, i, sum);
    ExpectedPrefix(sources, i + 1, sum);
    var part, whole := Expected(sources[..i + 1], sum), Expected(sources, sum);
    forall a, b | 0 <= a < b < |part| ensures part[a].version != part[b].version {
      assert part[a] == whole[a] && part[b] == whole[b];
    }
  }

  /** The first i sources are fine, and their migrations have been collected. */
  ghost predicate SourcesSoFar(sources: seq<Source>, sum: string -> string, i: nat, all: seq<Migration>,
                               seen: set<int>) {
    && i <= |sources|
    && all == Expected(sources[..i], sum)
    && seen == Versions(all)
    && DistinctVersions(all)
    && forall k :: 0 <= k < i ==> Clean(sources[k], sum)
  }

  lemma NextSource(sources: seq<Source>, sum: string -> string, i: nat, all: seq<Migration>, seen: set<int>,
                   more: seq<Migration>, seenMore: set<int>)
    requires SourcesSoFar(sources, sum, i, all, seen) && i < |sources| && Clean(sources[i], sum)
    requires more == all + FromSource(sources[i], sum) && DistinctVersions(more) && seenMore == Versions(more)
    ensures SourcesSoFar(sources, sum, i + 1, more, seenMore)
  {
    ExpectedSource(sources, i, sum);
  }

  lemma BlockingSource(sources: seq<Source>, sum: string -> string, i: nat)
    requires i < |sources|
    requires sources[i].Unreadable?
             || (sources[i].Listing? && !Fits(Expected(sources[..i], sum), sources[i].kind, sources[i].entries, sum))
    ensures !Loadable(sources, sum)
  {
    if Loadable(sources, sum) { SourceFits(sources, i, sum); }
  }

  lemma AllSources(sources: seq<Source>, sum: string -> string, all: seq<Migration>, seen: set<int>)
    requires SourcesSoFar(sources, sum, |sources|, all, seen)
    ensures Loadable(sources, sum) && all == Expected(sources, sum)
  {
    assert sources[..|sources|] == sources;
  }

  /** The loop over the sources, before sorting. */
  method CollectSources(sources: seq<Source>, sum: string -> string) returns (r: Result<seq<Migration>, LoadError>)
    ensures r.Ok? <==> Loadable(sources, sum)
    ensures r.Ok? ==> r.value == Expected(sources, sum)
  {
    var all: seq<Migration>, seen: set<int> := [], {};
    for i := 0 to |sources|
      invariant SourcesSoFar(sources, sum, i, all, seen)
    {
      if sources[i].Unreadable? {
        BlockingSource(sources, sum, i);
        return Err(ReadDir);
      }
      var before, seenBefore := all, seen;
      if sources[i].Listing? {
        var error;
        error, all, seen := LoadEntries(sources[i].kind, sources[i].entries, sum, before, seenBefore);
        if error.Some? {
          BlockingSource(sources, sum, i);
          return Err(error.value);
        }
      }
      assert before + [] == before;
      NextSource(sources, sum, i, before, seenBefore, all, seen);
    }
    AllSources(sources, sum, all, seen);
    return Ok(all);
  }

  /**
   loadSources: succeeds exactly on loadable sources, and then gives their migrations in strictly
   ascending version order, each exactly once.
   */
  method LoadSources(sources: seq<Source>, sum: string -> string) returns (r: Result<seq<Migration>, LoadError>)
    ensures r.Ok? <==> Loadable(sources, sum)
    ensures r.Ok? ==> r.value == Sorted(Expected(sources, sum))
    ensures r.Ok? ==> Ascending(r.value) && multiset(r.value) == multiset(Expected(sources, sum))
  {
    r := CollectSources(sources, sum);
    if r.Ok? {
      SortedAscending(r.value);
      r := Ok(Sorted(r.value));
    }
  }

  // ---------------------------------------------------------------- canonicity

  /** Engine versions all come before application versions. */
  lemma {:induction false} EngineFirst(sources: seq<Source>, sum: string -> string, ms: seq<Migration>, i: nat, j: nat)
    requires Ascending(ms) && multiset(ms) == multiset(Expected(sources, sum)) && i < j < |ms|
    ensures !(ms[i].kind.App? && ms[j].kind.Engine?)
  {
    assert ms[i] in multiset(ms) && ms[j] in multiset(ms);
    assert ms[i] in Expected(sources, sum) && ms[j] in Expected(sources, sum);
    ExpectedInRange(sources, sum, ms[i]);
    ExpectedInRange(sources, sum, ms[j]);
  }

  lemma {:induction false} ExpectedInRange(sources: seq<Source>, sum: string -> string, m: Migration)
    requires m in Expected(sources, sum)
    ensures ValidVersion(m.kind, m.version)
    decreases |sources|
  {
    var n := |sources| - 1;
    if m in FromSource(sources[n], sum) {
      EntriesInRange(sources[n].kind, sources[n].entries, sum, m);
    } else {
      ExpectedInRange(sources[..n], sum, m);
    }
  }

  lemma {:induction false} EntriesInRange(kind: Kind, entries: seq<File>, sum: string -> string, m: Migration)
    requires m in FromEntries(kind, entries, sum)
    ensures ValidVersion(m.kind, m.version)
    decreases |entries|
  {
    var n := |entries| - 1;
    if m in FromEntries(kind, entries[..n], sum) {
      EntriesInRange(kind, entries[..n], sum, m);
    }
  }

  lemma WithoutOne<T>(a: seq<T>, b: seq<T>, k: nat)
    requires multiset(a) == multiset(b) && a != [] && k < |b| && b[k] == a[|a|-1]
    ensures multiset(a[..|a|-1]) == multiset(Without(b, k))
  {
    var x, rest := b[k], Without(b, k);
    assert multiset(a) == multiset(a[..|a|-1]) + multiset{x} by { assert a == a[..|a|-1] + [x]; }
    assert multiset(b) == multiset(rest) + multiset{x} by { assert b == b[..k] + [x] + b[k + 1..]; }
    assert multiset(rest) == multiset(b) - multiset{x};
    assert multiset(a[..|a|-1]) == multiset(a) - multiset{x};
  }

  lemma LargestIsLast(a: seq<Migration>, b: seq<Migration>)
    requires Ascending(a) && Ascending(b) && multiset(a) == multiset(b) && a != [] && b != []
    ensures a[|a|-1] == b[|b|-1]
  {
    assert a[|a|-1] in multiset(b) && b[|b|-1] in multiset(a);
    var i :| 0 <= i < |b| && b[i] == a[|a|-1];
    var j :| 0 <= j < |a| && a[j] == b[|b|-1];
  }

  lemma {:induction false} AscendingUnique(a: seq<Migration>, b: seq<Migration>)
    requires Ascending(a) && Ascending(b) && multiset(a) == multiset(b)
    ensures a == b
    decreases |a|
  {
    assert |a| == |multiset(a)| == |multiset(b)| == |b|;
    if a != [] {
      var n := |a| - 1;
      LargestIsLast(a, b);
      WithoutOne(a, b, n);
      assert Without(b, n) == b[..n];
      AscendingUnique(a[..n], b[..n]);
    }
  }

  lemma ExpectedMultiset(sources: seq<Source>, sum: string -> string)
    requires sources != []
    ensures multiset(Expected(sources, sum))
            == multiset(Expected(sources[..|sources|-1], sum)) + multiset(FromSource(sources[|sources|-1], sum))
  {
  }

  function Without<T>(s: seq<T>, k: nat): seq<T>
    requires k < |s|
  {
    s[..k] + s[k + 1..]
  }

  lemma WithoutInner<T>(s: seq<T>, k: nat)
    requires k < |s| - 1
    ensures var n := |s| - 1;
            |Without(s, k)| == n && Without(s, k)[n - 1] == s[n] && Without(s, k)[..n - 1] == Without(s[..n], k)
              && s[..n][k] == s[k]
  {
  }

  lemma Reordered<T>(all: multiset<T>, before: multiset<T>, last: multiset<T>, rest: multiset<T>, hit: multiset<T>)
    requires all == before + last && before == rest + hit
    ensures all == rest + last + hit
  {
  }

  lemma {:induction false} ExpectedWithout(sources: seq<Source>, k: nat, sum: string -> string)
    requires k < |sources|
    ensures multiset(Expected(sources, sum))
            == multiset(Expected(Without(sources, k), sum)) + multiset(FromSource(sources[k], sum))
    decreases |sources|
  {
    var n := |sources| - 1;
    ExpectedMultiset(sources, sum);
    if k == n {
      assert Without(sources, k) == sources[..n];
    } else {
      WithoutInner(sources, k);
      ExpectedWithout(sources[..n], k, sum);
      ExpectedMultiset(Without(sources, k), sum);
      Reordered(multiset(Expected(sources, sum)), multiset(Expected(sources[..n], sum)),
                multiset(FromSource(sources[n], sum)), multiset(Expected(Without(sources[..n], k), sum)),
                multiset(FromSource(sources[k], sum)));
    }
  }

  lemma {:induction false} ExpectedPermuted(a: seq<Source>, b: seq<Source>, sum: string -> string)
    requires multiset(a) == multiset(b)
    ensures multiset(Expected(a, sum)) == multiset(Expected(b, sum))
    decreases |a|
  {
    assert |a| == |multiset(a)| == |multiset(b)| == |b|;
    if a != [] {
      var n := |a| - 1;
      assert a[n] in multiset(b);
      var k :| 0 <= k < |b| && b[k] == a[n];
      WithoutOne(a, b, k);
      ExpectedWithout(b, k, sum);
      ExpectedPermuted(a[..n], Without(b, k), sum);
    }
  }

  lemma {:induction false} DistinctByMultiset(a: seq<Migration>, b: seq<Migration>)
    requires multiset(a) == multiset(b) && DistinctVersions(a)
    ensures DistinctVersions(b)
  {
    forall i, j | 0 <= i < j < |b| && b[i].version == b[j].version ensures false {
      SplitTwo(b, i, j);
      assert b[i] in multiset(a) && b[j] in multiset(a);
      var x :| 0 <= x < |a| && a[x] == b[i];
      var y :| 0 <= y < |a| && a[y] == b[j];
      assert b[i] == b[j];
      OnceByDistinct(a, x);
    }
  }

  lemma SplitTwo(b: seq<Migration>, i: nat, j: nat)
    requires i < j < |b|
    ensures b[i] == b[j] ==> multiset(b)[b[i]] >= 2
  {
    assert b == b[..i] + [b[i]] + b[i + 1..j] + [b[j]] + b[j + 1..];
  }

  lemma OnceByDistinct(a: seq<Migration>, x: nat)
    requires DistinctVersions(a) && x < |a|
    ensures multiset(a)[a[x]] == 1
  {
    assert a == a[..x] + [a[x]] + a[x + 1..];
    assert a[x] !in a[..x] && a[x] !in a[x + 1..];
  }

  /** Whether loading succeeds does not depend on the order of the sources. */
  lemma LoadableInAnyOrder(a: seq<Source>, b: seq<Source>, sum: string -> string)
    requires multiset(a) == multiset(b)
    ensures Loadable(a, sum) <==> Loadable(b, sum)
  {
    ExpectedPermuted(a, b, sum);
    LoadableOneWay(a, b, sum);
    LoadableOneWay(b, a, sum);
  }

  /** Nor does the list it gives. */
  lemma SourceOrderIrrelevant(a: seq<Source>, b: seq<Source>, sum: string -> string, ra: seq<Migration>,
                              rb: seq<Migration>)
    requires multiset(a) == multiset(b)
    requires Ascending(ra) && multiset(ra) == multiset(Expected(a, sum))
    requires Ascending(rb) && multiset(rb) == multiset(Expected(b, sum))
    ensures ra == rb
  {
    ExpectedPermuted(a, b, sum);
    AscendingUnique(ra, rb);
  }

  lemma LoadableOneWay(a: seq<Source>, b: seq<Source>, sum: string -> string)
    requires multiset(a) == multiset(b) && multiset(Expected(a, sum)) == multiset(Expected(b, sum))
    ensures Loadable(a, sum) ==> Loadable(b, sum)
  {
    if Loadable(a, sum) {
      DistinctByMultiset(Expected(a, sum), Expected(b, sum));
      forall i | 0 <= i < |b| ensures Clean(b[i], sum) {
        assert b[i] in multiset(a);
        var k :| 0 <= k < |a| && a[k] == b[i];
      }
    }
  }
}
