/** Forward-only migrations: which file sets are accepted, and what any sequence of runs,
    with failures and restarts, leaves in the database. */
module Migrations {
  import opened Text
  import opened Wrappers

  datatype Entry = Entry(name: string, isDir: bool, body: string)

  datatype Migration = Migration(version: nat, name: string, sql: string)

  datatype Refusal = BadName(name: string) | BadVersion(name: string) | DuplicateVersion(version: nat) | Gap(want: nat)

  predicate IsNameChar(c: char) { 'a' <= c <= 'z' || IsDigit(c) || c == '_' }

  /** NNNN_lower_snake_name.sql */
  predicate WellNamed(name: string) {
    && |name| >= 10
    && (forall i :: 0 <= i < 4 ==> IsDigit(name[i]))
    && name[4] == '_' && name[|name| - 4..] == ".sql"
    && forall i :: 5 <= i < |name| - 4 ==> IsNameChar(name[i])
  }

  function DigitValue(c: char): nat
    requires IsDigit(c)
  {
    c as nat - '0' as nat
  }

  function VersionOf(name: string): nat
    requires WellNamed(name)
  {
    DigitValue(name[0]) * 1000 + DigitValue(name[1]) * 100 + DigitValue(name[2]) * 10 + DigitValue(name[3])
  }

  /** A version as four digits. */
  function Padded(n: nat): string
    requires n < 10000
  {
    (if n < 10 then "000" else if n < 100 then "00" else if n < 1000 then "0" else "") + Decimal(n)
  }

  ghost predicate Named(name: string, n: nat, stem: string) {
    && n < 10000 && stem != "" && (forall c :: c in stem ==> IsNameChar(c))
    && name == Padded(n) + "_" + stem + ".sql"
  }

  lemma PaddedIs(n: nat)
    requires n < 10000
    ensures Padded(n) == [Digit(n / 1000), Digit(n / 100 % 10), Digit(n / 10 % 10), Digit(n % 10)]
  {
    if n < 10 {
      assert Decimal(n) == [Digit(n)];
    } else if n < 100 {
      assert Decimal(n) == Decimal(n / 10) + [Digit(n % 10)];
    } else if n < 1000 {
      assert Decimal(n) == Decimal(n / 10) + [Digit(n % 10)];
      assert Decimal(n / 10) == Decimal(n / 100) + [Digit(n / 10 % 10)];
    } else {
      assert Decimal(n) == Decimal(n / 10) + [Digit(n % 10)];
      assert Decimal(n / 10) == Decimal(n / 100) + [Digit(n / 10 % 10)];
      assert Decimal(n / 100) == Decimal(n / 1000) + [Digit(n / 100 % 10)];
    }
  }

  lemma FourDigits(a: nat, b: nat, c: nat, d: nat)
    requires a < 10 && b < 10 && c < 10 && d < 10
    ensures var n := a * 1000 + b * 100 + c * 10 + d;
            n < 10000 && n / 1000 == a && n / 100 % 10 == b && n / 10 % 10 == c && n % 10 == d
  {
    var n := a * 1000 + b * 100 + c * 10 + d;
    Divides(n, 1000, a, b * 100 + c * 10 + d);
    Divides(n, 100, a * 10 + b, c * 10 + d);
    Divides(n, 10, a * 100 + b * 10 + c, d);
    Divides(a * 10 + b, 10, a, b);
    Divides(a * 100 + b * 10 + c, 10, a * 10 + b, c);
  }

  lemma Divides(n: nat, unit: nat, q: nat, r: nat)
    requires r < unit && (unit == 10 || unit == 100 || unit == 1000) && n == q * unit + r
    ensures n / unit == q && n % unit == r
  {}

  lemma NameParts(name: string, n: nat, stem: string)
    requires Named(name, n, stem)
    ensures WellNamed(name) && VersionOf(name) == n
  {
    PaddedIs(n);
    assert name[|name| - 4..] == ".sql";
    assert forall i :: 5 <= i < |name| - 4 ==> name[i] == stem[i - 5];
    Summed(n);
    assert name[..4] == Padded(n);
    DigitsBack(name, n / 1000, n / 100 % 10, n / 10 % 10, n % 10);
  }

  lemma Summed(n: nat)
    requires n < 10000
    ensures n == n / 1000 * 1000 + n / 100 % 10 * 100 + n / 10 % 10 * 10 + n % 10 && n / 1000 < 10
  {
    assert n / 100 == n / 1000 * 10 + n / 100 % 10 && n / 10 == n / 100 * 10 + n / 10 % 10;
  }

  lemma DigitsBack(name: string, a: nat, b: nat, c: nat, d: nat)
    requires a < 10 && b < 10 && c < 10 && d < 10 && WellNamed(name)
    requires name[..4] == [Digit(a), Digit(b), Digit(c), Digit(d)]
    ensures VersionOf(name) == a * 1000 + b * 100 + c * 10 + d
  {
    assert name[0] == name[..4][0] && name[1] == name[..4][1] && name[2] == name[..4][2] && name[3] == name[..4][3];
  }

  lemma PartsOf(name: string) returns (stem: string)
    requires WellNamed(name)
    ensures Named(name, VersionOf(name), stem)
  {
    var a, b, c, d := DigitValue(name[0]), DigitValue(name[1]), DigitValue(name[2]), DigitValue(name[3]);
    FourDigits(a, b, c, d);
    PaddedIs(VersionOf(name));
    stem := name[5..|name| - 4];
    assert name[..4] == Padded(VersionOf(name));
    assert name == name[..4] + [name[4]] + stem + name[|name| - 4..];
  }

  /** A name is read back exactly: it is accepted if and only if it is a version printed with
      four digits, an underscore, a lower-case stem and the suffix; and then that is its version. */
  lemma NamedIff(name: string)
    ensures WellNamed(name) <==> exists n, stem :: Named(name, n, stem)
    ensures forall n, stem :: Named(name, n, stem) ==> VersionOf(name) == n
  {
    if WellNamed(name) { var stem := PartsOf(name); }
    forall n, stem | Named(name, n, stem) ensures WellNamed(name) && VersionOf(name) == n { NameParts(name, n, stem); }
  }

  // ---- Loading ----

  predicate Sorted(ms: seq<Migration>) {
    forall i, j :: 0 <= i < j < |ms| ==> ms[i].version <= ms[j].version
  }

  /** sort.Slice by version. */
  function SortInsert(ms: seq<Migration>, m: Migration): (r: seq<Migration>)
    requires Sorted(ms)
    ensures Sorted(r) && multiset(r) == multiset(ms) + multiset{m}
    ensures |r| == |ms| + 1
  {
    if ms == [] || ms[|ms| - 1].version <= m.version then ms + [m]
    else
      var last := ms[|ms| - 1];
      var r := SortInsert(ms[..|ms| - 1], m);
      assert ms == ms[..|ms| - 1] + [last];
      SortedLast(ms, m, r);
      r + [last]
  }

  lemma SortedLast(ms: seq<Migration>, m: Migration, r: seq<Migration>)
    requires ms != [] && Sorted(ms) && m.version < ms[|ms| - 1].version
    requires multiset(r) == multiset(ms[..|ms| - 1]) + multiset{m}
    ensures forall i :: 0 <= i < |r| ==> r[i].version <= ms[|ms| - 1].version
  {
    forall i | 0 <= i < |r| ensures r[i].version <= ms[|ms| - 1].version {
      assert r[i] in multiset(r);
      assert r[i] in ms[..|ms| - 1] || r[i] == m;
    }
  }

  function Sort(ms: seq<Migration>): (r: seq<Migration>)
    ensures Sorted(r) && multiset(r) == multiset(ms) && |r| == |ms|
  {
    if ms == [] then []
    else
      assert ms == ms[..|ms| - 1] + [ms[|ms| - 1]];
      SortInsert(Sort(ms[..|ms| - 1]), ms[|ms| - 1])
  }

  ghost predicate Contiguous(ms: seq<Migration>) {
    forall i :: 0 <= i < |ms| ==> ms[i].version == i + 1
  }

  function Files(entries: seq<Entry>): seq<Entry> {
    if entries == [] then []
    else Files(entries[..|entries| - 1]) + if entries[|entries| - 1].isDir then [] else [entries[|entries| - 1]]
  }

  /** The file set a release should ship: well named, and each version from 1 to n once. */
  ghost predicate Complete(files: seq<Entry>) {
    && (forall i :: 0 <= i < |files| ==> WellNamed(files[i].name) && 1 <= VersionOf(files[i].name) <= |files|)
    && (forall i, j :: 0 <= i < j < |files| ==> VersionOf(files[i].name) != VersionOf(files[j].name))
  }

  function Loaded(files: seq<Entry>): seq<Migration>
    requires forall i :: 0 <= i < |files| ==> WellNamed(files[i].name)
  {
    seq(|files|, i requires 0 <= i < |files| => Migration(VersionOf(files[i].name), files[i].name, files[i].body))
  }

  function Versions(ms: seq<Migration>): set<nat> { set m | m in ms :: m.version }

  lemma VersionsSnoc(ms: seq<Migration>, m: Migration)
    ensures Versions(ms + [m]) == Versions(ms) + {m.version}
  {
    assert m in ms + [m];
    forall v | v in Versions(ms) ensures v in Versions(ms + [m]) {
      var x :| x in ms && x.version == v;
      assert x in ms + [m];
    }
  }

  ghost predicate Readable(files: seq<Entry>, ms: seq<Migration>) {
    && (forall k :: 0 <= k < |files| ==> WellNamed(files[k].name) && VersionOf(files[k].name) >= 1)
    && ms == Loaded(files)
    && forall a, b :: 0 <= a < b < |ms| ==> ms[a].version != ms[b].version
  }

  /** Reads every file: its name must match, and no version may occur twice. */
  method ReadEntries(entries: seq<Entry>) returns (r: Result<seq<Migration>, Refusal>)
    ensures r.Ok? ==> Readable(Files(entries), r.value)
    ensures r.Err? ==> !Complete(Files(entries))
  {
    var ms: seq<Migration> := [];
    var seen: set<nat> := {};
    ghost var files := Files(entries);
    for i := 0 to |entries|
      invariant Readable(Files(entries[..i]), ms) && seen == Versions(ms)
    {
      var e := entries[i];
      ghost var fs := Files(entries[..i]);
      assert entries[..i + 1][..i] == entries[..i];
      if e.isDir { continue; }
      FilesPrefix(entries, i + 1);
      BadIncomplete(files, fs, e);
      if !WellNamed(e.name) { return Err(BadName(e.name)); }
      var v := VersionOf(e.name);
      if v < 1 { return Err(BadVersion(e.name)); }
      if v in seen {
        RepeatedIncomplete(files, fs, ms, e);
        return Err(DuplicateVersion(v));
      }
      VersionsSnoc(ms, Migration(v, e.name, e.body));
      ReadableSnoc(fs, ms, e);
      seen := seen + {v};
      ms := ms + [Migration(v, e.name, e.body)];
    }
    assert entries[..|entries|] == entries;
    r := Ok(ms);
  }

  lemma BadIncomplete(files: seq<Entry>, fs: seq<Entry>, e: Entry)
    requires fs + [e] <= files
    ensures !WellNamed(e.name) || VersionOf(e.name) < 1 ==> !Complete(files)
  {
    assert e == (fs + [e])[|fs|] == files[|fs|];
  }

  lemma RepeatedIncomplete(files: seq<Entry>, fs: seq<Entry>, ms: seq<Migration>, e: Entry)
    requires fs + [e] <= files && Readable(fs, ms) && WellNamed(e.name) && VersionOf(e.name) in Versions(ms)
    ensures !Complete(files)
  {
    var m :| m in ms && m.version == VersionOf(e.name);
    var k :| 0 <= k < |ms| && ms[k] == m;
    assert fs[k] == (fs + [e])[k] == files[k];
    assert e == (fs + [e])[|fs|] == files[|fs|];
  }

  lemma ReadableSnoc(files: seq<Entry>, ms: seq<Migration>, e: Entry)
    requires Readable(files, ms) && WellNamed(e.name) && VersionOf(e.name) >= 1 && VersionOf(e.name) !in Versions(ms)
    ensures Readable(files + [e], ms + [Migration(VersionOf(e.name), e.name, e.body)])
  {
    forall a | 0 <= a < |ms| ensures ms[a].version != VersionOf(e.name) { assert ms[a] in ms; }
  }

  /** A file set is accepted if and only if its versions are distinct and exactly 1..n. */
  method LoadMigrations(entries: seq<Entry>) returns (r: Result<seq<Migration>, Refusal>)
    ensures r.Ok? <==> Complete(Files(entries))
    ensures r.Ok? ==> Contiguous(r.value) && multiset(r.value) == multiset(Loaded(Files(entries)))
  {
    r := ReadEntries(entries);
    if r.Err? { return; }
    ghost var files := Files(entries);
    var sorted := Sort(r.value);
    var gap := FirstGap(sorted);
    if gap.Some? {
      NotContiguous(files, r.value, sorted);
      return Err(Gap(gap.value));
    }
    ContiguousComplete(files, r.value, sorted);
    r := Ok(sorted);
  }

  method FirstGap(sorted: seq<Migration>) returns (gap: Option<nat>)
    ensures gap.None? <==> Contiguous(sorted)
    ensures gap.Some? ==> 1 <= gap.value <= |sorted| && sorted[gap.value - 1].version != gap.value
                          && Contiguous(sorted[..gap.value - 1])
  {
    for i := 0 to |sorted|
      invariant Contiguous(sorted[..i])
    {
      if sorted[i].version != i + 1 { return Some(i + 1); }
    }
    assert sorted[..|sorted|] == sorted;
    gap := None;
  }

  lemma {:induction false} FilesPrefix(entries: seq<Entry>, i: nat)
    requires i <= |entries|
    ensures Files(entries[..i]) <= Files(entries)
  {
    if i < |entries| {
      FilesPrefix(entries[..|entries| - 1], i);
      assert entries[..|entries| - 1][..i] == entries[..i];
    } else {
      assert entries[..i] == entries;
    }
  }

  lemma ContiguousComplete(files: seq<Entry>, ms: seq<Migration>, sorted: seq<Migration>)
    requires forall k :: 0 <= k < |files| ==> WellNamed(files[k].name)
    requires ms == Loaded(files) && multiset(sorted) == multiset(ms) && |sorted| == |ms| && Contiguous(sorted)
    requires forall a, b :: 0 <= a < b < |ms| ==> ms[a].version != ms[b].version
    ensures Complete(files)
  {
    forall i | 0 <= i < |files| ensures 1 <= VersionOf(files[i].name) <= |files| {
      assert ms[i] in multiset(ms);
      assert ms[i] in sorted;
    }
    forall i, j | 0 <= i < j < |files| ensures VersionOf(files[i].name) != VersionOf(files[j].name) {
      assert ms[i].version != ms[j].version;
    }
  }

  /** Sorted, distinct and within 1..n is 1, 2, ..., n. */
  lemma NotContiguous(files: seq<Entry>, ms: seq<Migration>, sorted: seq<Migration>)
    requires forall k :: 0 <= k < |files| ==> WellNamed(files[k].name)
    requires ms == Loaded(files) && multiset(sorted) == multiset(ms) && |sorted| == |ms| && Sorted(sorted)
    requires !Contiguous(sorted)
    ensures !Complete(files)
  {
    if Complete(files) {
      forall i, j | 0 <= i < j < |sorted| ensures sorted[i].version < sorted[j].version {
        DistinctStays(ms, sorted, i, j);
      }
      forall i | 0 <= i < |sorted| ensures 1 <= sorted[i].version <= |sorted| {
        assert sorted[i] in multiset(ms);
        var k :| 0 <= k < |ms| && ms[k] == sorted[i];
        assert ms[k].version == VersionOf(files[k].name);
      }
      StrictIsExact(sorted);
    }
  }

  lemma DistinctStays(ms: seq<Migration>, sorted: seq<Migration>, i: nat, j: nat)
    requires i < j < |sorted| && multiset(sorted) == multiset(ms)
    requires forall a, b :: 0 <= a < b < |ms| ==> ms[a].version != ms[b].version
    ensures sorted[i].version != sorted[j].version
  {
    if sorted[i].version == sorted[j].version {
      var x, y := sorted[i], sorted[j];
      assert x in multiset(ms) && y in multiset(ms);
      var a :| 0 <= a < |ms| && ms[a] == x;
      var b :| 0 <= b < |ms| && ms[b] == y;
      assert a == b;
      OccursTwice(sorted, i, j);
      OccursOnce(ms, a);
      assert false;
    }
  }

  lemma OccursTwice(s: seq<Migration>, i: nat, j: nat)
    requires i < j < |s| && s[i] == s[j]
    ensures multiset(s)[s[i]] >= 2
  {
    assert s == s[..j] + [s[j]] + s[j + 1..];
    assert s[i] in s[..j];
  }

  lemma OccursOnce(s: seq<Migration>, i: nat)
    requires i < |s| && forall k :: 0 <= k < |s| && k != i ==> s[k] != s[i]
    ensures multiset(s)[s[i]] == 1
  {
    assert s == s[..i] + [s[i]] + s[i + 1..];
    assert s[i] !in s[..i] && s[i] !in s[i + 1..];
  }

  lemma StrictIsExact(ms: seq<Migration>)
    requires forall i, j :: 0 <= i < j < |ms| ==> ms[i].version < ms[j].version
    requires forall i :: 0 <= i < |ms| ==> 1 <= ms[i].version <= |ms|
    ensures Contiguous(ms)
  {
    if ms != [] {
      AtLeast(ms, 0);
      forall i | 0 <= i < |ms| ensures ms[i].version == i + 1 {
        AtLeast(ms, i);
        AtMost(ms, i);
      }
    }
  }

  lemma {:induction false} AtLeast(ms: seq<Migration>, i: nat)
    requires i < |ms|
    requires forall a, b :: 0 <= a < b < |ms| ==> ms[a].version < ms[b].version
    requires forall a :: 0 <= a < |ms| ==> ms[a].version >= 1
    ensures ms[i].version >= i + 1
  {
    if i == 0 {
    } else {
      AtLeast(ms, i - 1);
    }
  }

  lemma {:induction false} AtMost(ms: seq<Migration>, i: nat)
    requires i < |ms|
    requires forall a, b :: 0 <= a < b < |ms| ==> ms[a].version < ms[b].version
    requires forall a :: 0 <= a < |ms| ==> ms[a].version <= |ms|
    ensures ms[i].version <= i + 1
    decreases |ms| - i
  {
    if i + 1 >= |ms| {
    } else {
      AtMost(ms, i + 1);
    }
  }

  // ---- Applying ----

  /** The schema as the scripts executed so far, and the recorded versions. */
  class Schema {
    var scripts: seq<string>
    var versions: seq<nat>

    constructor ()
      ensures scripts == [] && versions == []
    {
      scripts, versions := [], [];
    }

    /** The recorded versions are exactly 1..v, one for each executed script. */
    ghost predicate Recorded()
      reads this
    {
      |versions| == |scripts| && forall i :: 0 <= i < |versions| ==> versions[i] == i + 1
    }

    /** The schema is the first v scripts of a file set, in order. */
    ghost predicate AppliedPrefix(ms: seq<Migration>)
      reads this
    {
      Recorded() && scripts <= Scripts(ms)
    }

    /** The highest recorded version, or 0. */
    method SchemaVersion() returns (v: nat)
      ensures forall i :: 0 <= i < |versions| ==> versions[i] <= v
      ensures if versions == [] then v == 0 else v in versions
    {
      v := 0;
      for i := 0 to |versions|
        invariant forall k :: 0 <= k < i ==> versions[k] <= v
        invariant if i == 0 then v == 0 else v in versions[..i]
      {
        if versions[i] > v || i == 0 { v := versions[i]; }
        assert versions[..i + 1] == versions[..i] + [versions[i]];
      }
      assert versions[..|versions|] == versions;
    }

    /** Script and version record are one transaction; a failure rolls both back. */
    method ApplyOne(m: Migration, succeeds: bool)
      modifies this
      ensures scripts == old(scripts) + if succeeds then [m.sql] else []
      ensures versions == old(versions) + if succeeds then [m.version] else []
    {
      if !succeeds { return; }
      scripts, versions := scripts + [m.sql], versions + [m.version];
    }

    /** One run over a file set: `outcomes` says which attempts succeed. It applies the
        pending migrations in order and stops at the first failure; a database that is ahead
        of the file set is left alone. */
    method Migrate(ms: seq<Migration>, outcomes: nat -> bool) returns (ok: bool, applied: nat)
      requires Contiguous(ms) && Recorded()
      modifies this
      ensures Recorded() && |versions| == |old(versions)| + applied
      ensures |old(versions)| >= |ms| ==> applied == 0
      ensures |old(versions)| <= |ms| ==> |versions| <= |ms|
      ensures scripts == old(scripts) + if applied == 0 then [] else Scripts(ms)[|old(versions)|..|versions|]
      ensures ok <==> |versions| >= |ms|
      ensures !ok ==> !outcomes(|versions| + 1)
      ensures forall v :: |old(versions)| < v <= |versions| ==> outcomes(v)
    {
      var current := SchemaVersion();
      assert versions != [] ==> versions[|versions| - 1] == |versions|;
      assert current == |versions|;
      applied := 0;
      for i := 0 to |ms|
        invariant Recorded() && current == |old(versions)| && |versions| == current + applied
        invariant if i <= current then applied == 0 else current + applied == i
        invariant scripts == old(scripts) + if i <= current then [] else Scripts(ms)[current..i]
        invariant forall v :: current < v <= |versions| ==> outcomes(v)
      {
        if ms[i].version <= current { continue; }
        ApplyOne(ms[i], outcomes(ms[i].version));
        if !outcomes(ms[i].version) { return false, applied; }
        applied := applied + 1;
        ScriptsNext(ms, current, i);
      }
      ok := true;
    }
  }

  /** A run of the program: the file set it ships and which attempts succeed. */
  datatype Release = Release(ms: seq<Migration>, outcomes: nat -> bool)

  /** The length of the longest file set any of the runs shipped. */
  function Longest(releases: seq<Release>): (n: nat)
    ensures forall i :: 0 <= i < |releases| ==> |releases[i].ms| <= n
    ensures releases != [] ==> exists i :: 0 <= i < |releases| && |releases[i].ms| == n
  {
    if releases == [] then 0
    else
      var n := Longest(releases[..|releases| - 1]);
      if |releases[|releases| - 1].ms| > n then |releases[|releases| - 1].ms| else n
  }

  /** Any sequence of runs, upgrades and downgrades, whose file sets are all beginnings of one
      history, with failures and restarts between any two commits: the database always holds
      exactly scripts 1..v of that history, each once, in order. A last run that succeeds
      leaves at least its own scripts, and exactly those when no earlier run shipped more, as
      one clean run would. */
  method MigrateRepeatedly(releases: seq<Release>, ghost history: seq<Migration>) returns (schema: Schema, ok: bool)
    requires Contiguous(history) && forall i :: 0 <= i < |releases| ==> releases[i].ms <= history
    ensures schema.AppliedPrefix(history)
    ensures releases != [] && ok ==>
              var last := releases[|releases| - 1].ms;
              && Scripts(last) <= schema.scripts
              && (|last| == Longest(releases) ==> schema.scripts == Scripts(last))
    ensures releases == [] ==> schema.scripts == []
  {
    schema := new Schema();
    ok := true;
    for i := 0 to |releases|
      invariant fresh(schema) && schema.AppliedPrefix(history) && (i == 0 ==> schema.scripts == [])
      invariant i > 0 && ok ==> |schema.versions| >= |releases[i - 1].ms|
      invariant |schema.versions| <= Longest(releases[..i])
    {
      var applied: nat;
      ghost var before := schema.scripts;
      assert releases[..i + 1][..i] == releases[..i];
      ok, applied := schema.Migrate(releases[i].ms, releases[i].outcomes);
      PrefixGrows(before, schema.scripts, releases[i].ms, history);
    }
    assert releases[..|releases|] == releases;
  }

  lemma PrefixGrows(before: seq<string>, after: seq<string>, ms: seq<Migration>, history: seq<Migration>)
    requires before <= Scripts(history) && ms <= history && |before| <= |after|
    requires after == before || (|after| <= |ms| && after == before + Scripts(ms)[|before|..|after|])
    ensures after <= Scripts(history)
  {}

  lemma ScriptsNext(ms: seq<Migration>, from: nat, i: nat)
    requires from <= i < |ms|
    ensures Scripts(ms)[from..i + 1] == Scripts(ms)[from..i] + [ms[i].sql]
  {}

  function Scripts(ms: seq<Migration>): (r: seq<string>)
    ensures |r| == |ms| && forall i :: 0 <= i < |ms| ==> r[i] == ms[i].sql
  {
    seq(|ms|, i requires 0 <= i < |ms| => ms[i].sql)
  }
}
