/**
 * The migration runner, a resumable loop over an immutable checksum ledger, and the manifest whose
 * order and floor readiness must agree with it.
 */
module Migrations {
  import opened Options

  // ------------------------------------------------------------------ names and their order

  /** JavaScript's string comparison: lexicographic on code units. */
  predicate Less(a: string, b: string) {
    b != "" && (a == "" || a[0] < b[0] || (a[0] == b[0] && Less(a[1..], b[1..])))
  }

  predicate StartsWith(s: string, prefix: string) {
    |s| >= |prefix| && s[..|prefix|] == prefix
  }

  predicate EndsWith(s: string, suffix: string) {
    |s| >= |suffix| && s[|s| - |suffix|..] == suffix
  }

  predicate IsSql(name: string) {
    EndsWith(name, ".sql")
  }

  predicate AllDigits(s: string) {
    forall c <- s :: '0' <= c <= '9'
  }

  predicate FourDigits(version: string) {
    |version| == 4 && AllDigits(version)
  }

  predicate LineTerminator(c: char) {
    c == '\n' || c == '\r' || c == '\U{2028}' || c == '\U{2029}'
  }

  /** /^\d{4}_.*\.sql$/ */
  predicate Numbered(name: string) {
    |name| >= 9 && AllDigits(name[..4]) && name[4] == '_' && IsSql(name) && forall c <- name :: !LineTerminator(c)
  }

  ghost predicate Increasing(s: seq<string>) {
    forall i, j :: 0 <= i < j < |s| ==> Less(s[i], s[j])
  }

  lemma {:induction false} LessTransitive(a: string, b: string, c: string)
    requires Less(a, b) && Less(b, c)
    ensures Less(a, c)
  {
    if a != "" && a[0] == b[0] && b[0] == c[0] { LessTransitive(a[1..], b[1..], c[1..]); }
  }

  lemma {:induction false} LessTotal(a: string, b: string)
    ensures a == b || Less(a, b) || Less(b, a)
    ensures !(Less(a, b) && Less(b, a)) && !Less(a, a)
  {
    if a != "" && b != "" {
      LessTotal(a[1..], b[1..]);
      assert a == [a[0]] + a[1..] && b == [b[0]] + b[1..];
    }
    LessIrreflexive(a);
  }

  lemma {:induction false} LessIrreflexive(a: string)
    ensures !Less(a, a)
  {
    if a != "" { LessIrreflexive(a[1..]); }
  }

  /** Names that start with smaller text of the same length are smaller. */
  lemma {:induction false} PrefixDecides(a: string, b: string, n: nat)
    requires n <= |a| && n <= |b| && Less(a[..n], b[..n])
    ensures Less(a, b)
  {
    if a[0] == b[0] {
      assert a[..n][1..] == a[1..][..n - 1] && b[..n][1..] == b[1..][..n - 1];
      PrefixDecides(a[1..], b[1..], n - 1);
    }
  }

  // ------------------------------------------------------------------ the directory listing

  /** A directory: readdirSync's listing in whatever order, and each file's text. */
  datatype Dir = Dir(listing: seq<string>, text: map<string, string>)

  ghost predicate RealDir(d: Dir) {
    && (forall i, j :: 0 <= i < j < |d.listing| ==> d.listing[i] != d.listing[j])
    && (forall f :: f in d.listing <==> f in d.text)
  }

  function InsertName(sorted: seq<string>, name: string): seq<string> {
    if sorted == [] || Less(name, sorted[0]) then [name] + sorted
    else [sorted[0]] + InsertName(sorted[1..], name)
  }

  /** `.filter((f) => f.endsWith(".sql")).sort()`. */
  function SortedSql(listing: seq<string>): seq<string> {
    if listing == [] then []
    else
      var rest := SortedSql(listing[1..]);
      if IsSql(listing[0]) then InsertName(rest, listing[0]) else rest
  }

  lemma {:induction false} InsertNameKeeps(sorted: seq<string>, name: string)
    requires Increasing(sorted) && name !in sorted
    ensures Increasing(InsertName(sorted, name))
    ensures forall x :: x in InsertName(sorted, name) <==> x == name || x in sorted
  {
    if sorted == [] || Less(name, sorted[0]) {
      forall j | 0 <= j < |sorted| ensures Less(name, sorted[j]) {
        if j > 0 { LessTransitive(name, sorted[0], sorted[j]); }
      }
    } else {
      var rest := InsertName(sorted[1..], name);
      InsertNameKeeps(sorted[1..], name);
      LessTotal(name, sorted[0]);
      assert InsertName(sorted, name) == [sorted[0]] + rest;
      forall j | 0 <= j < |rest| ensures Less(sorted[0], rest[j]) {
        assert rest[j] in rest;
        if rest[j] != name {
          var k :| 0 <= k < |sorted[1..]| && sorted[1..][k] == rest[j];
          assert sorted[k + 1] == rest[j];
        }
      }
    }
  }

  lemma {:induction false} SortedSqlIs(listing: seq<string>)
    requires forall i, j :: 0 <= i < j < |listing| ==> listing[i] != listing[j]
    ensures Increasing(SortedSql(listing))
    ensures forall x :: x in SortedSql(listing) <==> x in listing && IsSql(x)
  {
    if listing != [] {
      SortedSqlIs(listing[1..]);
      if IsSql(listing[0]) {
        assert listing[0] !in listing[1..];
        InsertNameKeeps(SortedSql(listing[1..]), listing[0]);
      }
      assert listing == [listing[0]] + listing[1..];
    }
  }

  lemma NonemptyTransfers(a: seq<string>, b: seq<string>)
    requires a != [] && forall x :: x in a ==> x in b
    ensures b != []
  {
    assert a[0] in b;
  }

  lemma {:induction false} IncreasingIsUnique(a: seq<string>, b: seq<string>)
    requires Increasing(a) && Increasing(b) && forall x :: x in a <==> x in b
    ensures a == b
  {
    if a != [] { NonemptyTransfers(a, b); }
    if b != [] { NonemptyTransfers(b, a); }
    if a != [] {
      assert a[0] in b;
      assert b[0] in a;
      var i :| 0 <= i < |b| && b[i] == a[0];
      var j :| 0 <= j < |a| && a[j] == b[0];
      LessTotal(a[0], b[0]);
      assert a[0] == b[0];
      forall x ensures x in a[1..] <==> x in b[1..] {
        LessIrreflexive(a[0]);
        if x in a[1..] { assert x in a && Less(a[0], x); assert x in b; }
        if x in b[1..] { assert x in b && Less(b[0], x); assert x in a; }
        assert a == [a[0]] + a[1..] && b == [b[0]] + b[1..];
      }
      IncreasingIsUnique(a[1..], b[1..]);
    }
  }

  // ------------------------------------------------------------------ the manifest

  datatype Entry = Entry(version: string, filename: string)

  /** What manifest.json parses to; migrations is None when it is not an array. */
  datatype Manifest = Manifest(schemaVersion: int, migrations: Option<seq<Entry>>)

  datatype ManifestError =
    | Unreadable | UnsupportedSchema(schemaVersion: int) | NotAnArray
    | NotFourDigits(version: string) | DuplicateVersion(version: string) | DuplicateFilename(filename: string)
    | PrefixMismatch(filename: string) | MissingFile(filename: string)
    | NotIncreasing(version: string, previous: string) | Unregistered(filename: string)

  ghost predicate EntryOk(e: Entry, d: Dir) {
    FourDigits(e.version) && StartsWith(e.filename, e.version + "_") && IsSql(e.filename) && e.filename in d.listing
  }

  /** The manifest's own rules and its agreement with the directory. */
  ghost predicate ManifestValid(manifest: Option<Manifest>, d: Dir) {
    && manifest.Some? && manifest.value.schemaVersion == 1 && manifest.value.migrations.Some?
    && var entries := manifest.value.migrations.value;
       && (forall i :: 0 <= i < |entries| ==> EntryOk(entries[i], d))
       && Increasing(Versions(entries))
       && (forall f <- d.listing :: Numbered(f) ==> f in Filenames(entries))
  }

  function Versions(entries: seq<Entry>): seq<string> {
    seq(|entries|, i requires 0 <= i < |entries| => entries[i].version)
  }

  function Filenames(entries: seq<Entry>): seq<string> {
    seq(|entries|, i requires 0 <= i < |entries| => entries[i].filename)
  }

  /** What the loop has established about the first n entries when it has reported nothing. */
  ghost predicate PrefixOk(entries: seq<Entry>, d: Dir, n: nat)
    requires n <= |entries|
  {
    && (forall i :: 0 <= i < n ==> EntryOk(entries[i], d))
    && (forall i :: 0 < i < n ==> Less(entries[i - 1].version, entries[i].version))
  }

  lemma {:induction false} AdjacentIsPairwise(entries: seq<Entry>, i: nat, j: nat)
    requires i < j < |entries| && forall k :: 0 < k < |entries| ==> Less(entries[k - 1].version, entries[k].version)
    ensures Less(entries[i].version, entries[j].version)
  {
    if i + 1 < j {
      AdjacentIsPairwise(entries, i, j - 1);
      LessTransitive(entries[i].version, entries[j - 1].version, entries[j].version);
    }
  }

  /** A name has one version: the same file listed twice is the same version twice. */
  lemma FilenameGivesVersion(a: Entry, b: Entry, d: Dir)
    requires EntryOk(a, d) && EntryOk(b, d) && a.filename == b.filename
    ensures a.version == b.version
  {
    assert a.version == a.filename[..5][..4] && b.version == b.filename[..5][..4];
  }

  lemma PrefixHasNoDuplicates(entries: seq<Entry>, d: Dir, n: nat)
    requires n < |entries| && PrefixOk(entries, d, n + 1)
    ensures forall i :: 0 <= i < n ==> entries[i].version != entries[n].version && entries[i].filename != entries[n].filename
  {
    forall i | 0 <= i < n ensures entries[i].version != entries[n].version && entries[i].filename != entries[n].filename {
      AdjacentIsPairwise(entries[..n + 1], i, n);
      LessIrreflexive(entries[n].version);
      if entries[i].filename == entries[n].filename { FilenameGivesVersion(entries[i], entries[n], d); }
    }
  }

  /** What the validator says of entry n, in the order of its checks. */
  function EntryErrors(entries: seq<Entry>, n: nat, d: Dir): seq<ManifestError>
    requires n < |entries|
  {
    var e := entries[n];
    (if FourDigits(e.version) then [] else [NotFourDigits(e.version)])
    + (if exists i :: 0 <= i < n && entries[i].version == e.version then [DuplicateVersion(e.version)] else [])
    + (if exists i :: 0 <= i < n && entries[i].filename == e.filename then [DuplicateFilename(e.filename)] else [])
    + (if StartsWith(e.filename, e.version + "_") && IsSql(e.filename) then [] else [PrefixMismatch(e.filename)])
    + (if e.filename in d.listing then [] else [MissingFile(e.filename)])
    + (if n > 0 && entries[n - 1].version != "" && !Less(entries[n - 1].version, e.version)
       then [NotIncreasing(e.version, entries[n - 1].version)] else [])
  }

  function EntriesErrors(entries: seq<Entry>, n: nat, d: Dir): seq<ManifestError>
    requires n <= |entries|
  {
    if n == 0 then [] else EntriesErrors(entries, n - 1, d) + EntryErrors(entries, n - 1, d)
  }

  function UnregisteredErrors(listing: seq<string>, registered: seq<string>): seq<ManifestError> {
    if listing == [] then []
    else
      var last := listing[|listing| - 1];
      UnregisteredErrors(listing[..|listing| - 1], registered)
      + if Numbered(last) && last !in registered then [Unregistered(last)] else []
  }

  /** Everything the validator reports, in order. */
  function Report(manifest: Option<Manifest>, d: Dir): seq<ManifestError> {
    if manifest.None? then [Unreadable]
    else
      var schema := if manifest.value.schemaVersion != 1 then [UnsupportedSchema(manifest.value.schemaVersion)] else [];
      if manifest.value.migrations.None? then schema + [NotAnArray]
      else
        var entries := manifest.value.migrations.value;
        schema + EntriesErrors(entries, |entries|, d) + UnregisteredErrors(d.listing, Filenames(entries))
  }

  /** The versions and the names of the first n entries. */
  function SeenVersions(entries: seq<Entry>, n: nat): set<string>
    requires n <= |entries|
  {
    set i | 0 <= i < n :: entries[i].version
  }

  function SeenFilenames(entries: seq<Entry>, n: nat): set<string>
    requires n <= |entries|
  {
    set i | 0 <= i < n :: entries[i].filename
  }

  lemma SeenOneMore(entries: seq<Entry>, n: nat)
    requires n < |entries|
    ensures SeenVersions(entries, n + 1) == SeenVersions(entries, n) + {entries[n].version}
    ensures SeenFilenames(entries, n + 1) == SeenFilenames(entries, n) + {entries[n].filename}
  {
  }

  /** The checks of one entry against what was seen before it. */
  method CheckEntry(entries: seq<Entry>, n: nat, d: Dir, seenVersions: set<string>, seenFilenames: set<string>, previous: string)
    returns (errors: seq<ManifestError>)
    requires n < |entries| && seenVersions == SeenVersions(entries, n) && seenFilenames == SeenFilenames(entries, n)
    requires previous == if n == 0 then "" else entries[n - 1].version
    ensures errors == EntryErrors(entries, n, d)
  {
    var e := entries[n];
    errors := if FourDigits(e.version) then [] else [NotFourDigits(e.version)];
    errors := errors + if e.version in seenVersions then [DuplicateVersion(e.version)] else [];
    errors := errors + if e.filename in seenFilenames then [DuplicateFilename(e.filename)] else [];
    errors := errors + if StartsWith(e.filename, e.version + "_") && IsSql(e.filename) then [] else [PrefixMismatch(e.filename)];
    errors := errors + if e.filename in d.listing then [] else [MissingFile(e.filename)];
    errors := errors + if previous != "" && !Less(previous, e.version) then [NotIncreasing(e.version, previous)] else [];
  }

  /** The loop over the entries. */
  method CheckEntries(entries: seq<Entry>, d: Dir) returns (errors: seq<ManifestError>, seenFilenames: set<string>)
    ensures errors == EntriesErrors(entries, |entries|, d) && seenFilenames == SeenFilenames(entries, |entries|)
  {
    errors := [];
    var seenVersions: set<string> := {};
    seenFilenames := {};
    var previous := "";
    for n := 0 to |entries|
      invariant seenVersions == SeenVersions(entries, n) && seenFilenames == SeenFilenames(entries, n)
      invariant previous == if n == 0 then "" else entries[n - 1].version
      invariant errors == EntriesErrors(entries, n, d)
    {
      var found := CheckEntry(entries, n, d, seenVersions, seenFilenames, previous);
      errors := errors + found;
      SeenOneMore(entries, n);
      seenVersions := seenVersions + {entries[n].version};
      seenFilenames := seenFilenames + {entries[n].filename};
      previous := entries[n].version;
    }
  }

  /** The loop over the directory. */
  method CheckRegistered(listing: seq<string>, entries: seq<Entry>, seenFilenames: set<string>) returns (errors: seq<ManifestError>)
    requires seenFilenames == SeenFilenames(entries, |entries|)
    ensures errors == UnregisteredErrors(listing, Filenames(entries))
  {
    errors := [];
    assert forall i :: 0 <= i < |entries| ==> Filenames(entries)[i] == entries[i].filename;
    assert forall f :: f in seenFilenames <==> f in Filenames(entries);
    for k := 0 to |listing|
      invariant errors == UnregisteredErrors(listing[..k], Filenames(entries))
    {
      assert listing[..k + 1][..k] == listing[..k];
      if Numbered(listing[k]) && listing[k] !in seenFilenames { errors := errors + [Unregistered(listing[k])]; }
    }
    assert listing[..|listing|] == listing;
  }

  method CheckAll(manifest: Option<Manifest>, d: Dir) returns (errors: seq<ManifestError>)
    ensures errors == Report(manifest, d)
  {
    if manifest.None? { return [Unreadable]; }
    errors := if manifest.value.schemaVersion != 1 then [UnsupportedSchema(manifest.value.schemaVersion)] else [];
    if manifest.value.migrations.None? { return errors + [NotAnArray]; }
    var found, seenFilenames := CheckEntries(manifest.value.migrations.value, d);
    var stray := CheckRegistered(d.listing, manifest.value.migrations.value, seenFilenames);
    errors := errors + found + stray;
  }

  /** validateMigrationManifest: its report, which is empty exactly when the manifest is valid. */
  method Validate(manifest: Option<Manifest>, d: Dir) returns (errors: seq<ManifestError>)
    ensures errors == Report(manifest, d)
    ensures errors == [] <==> ManifestValid(manifest, d)
  {
    errors := CheckAll(manifest, d);
    ReportsNothingIff(manifest, d);
  }

  /** What each kind of error says of the manifest and the directory. */
  ghost predicate IsFault(e: ManifestError, entries: seq<Entry>, d: Dir) {
    match e
    case NotFourDigits(v) => !FourDigits(v) && exists i :: 0 <= i < |entries| && entries[i].version == v
    case DuplicateVersion(v) => exists i, j :: 0 <= i < j < |entries| && entries[i].version == entries[j].version == v
    case DuplicateFilename(f) => exists i, j :: 0 <= i < j < |entries| && entries[i].filename == entries[j].filename == f
    case PrefixMismatch(f) =>
      exists i :: 0 <= i < |entries| && entries[i].filename == f && !(StartsWith(f, entries[i].version + "_") && IsSql(f))
    case MissingFile(f) => f !in d.listing && exists i :: 0 <= i < |entries| && entries[i].filename == f
    case NotIncreasing(v, p) =>
      p != "" && !Less(p, v) && exists i :: 0 < i < |entries| && entries[i].version == v && entries[i - 1].version == p
    case Unregistered(f) =>
      f in d.listing && Numbered(f) && forall i :: 0 <= i < |entries| ==> entries[i].filename != f
    case _ => false
  }

  lemma {:induction false} EntriesErrorsIff(entries: seq<Entry>, n: nat, d: Dir, e: ManifestError)
    requires n <= |entries|
    ensures e in EntriesErrors(entries, n, d) <==> exists i :: 0 <= i < n && e in EntryErrors(entries, i, d)
  {
    if n > 0 { EntriesErrorsIff(entries, n - 1, d, e); }
  }

  lemma {:induction false} UnregisteredIff(listing: seq<string>, registered: seq<string>, e: ManifestError)
    ensures e in UnregisteredErrors(listing, registered) <==>
            e.Unregistered? && e.filename in listing && Numbered(e.filename) && e.filename !in registered
  {
    if listing != [] {
      var n := |listing| - 1;
      UnregisteredIff(listing[..n], registered, e);
      assert listing == listing[..n] + [listing[n]];
    }
  }

  lemma EntryFault(entries: seq<Entry>, n: nat, d: Dir, e: ManifestError)
    requires n < |entries| && e in EntryErrors(entries, n, d)
    ensures IsFault(e, entries, d) && !e.Unregistered?
  {
  }

  /** The entry a fault of the entries is reported at. */
  lemma FaultAt(entries: seq<Entry>, d: Dir, e: ManifestError) returns (n: nat)
    requires IsFault(e, entries, d) && !e.Unregistered?
    ensures n < |entries| && e in EntryErrors(entries, n, d)
  {
    match e
    case NotFourDigits(v) => n :| 0 <= n < |entries| && entries[n].version == v;
    case DuplicateVersion(v) =>
      var i, j :| 0 <= i < j < |entries| && entries[i].version == entries[j].version == v;
      n := j;
    case DuplicateFilename(f) =>
      var i, j :| 0 <= i < j < |entries| && entries[i].filename == entries[j].filename == f;
      n := j;
    case PrefixMismatch(f) =>
      n :| 0 <= n < |entries| && entries[n].filename == f && !(StartsWith(f, entries[n].version + "_") && IsSql(f));
    case MissingFile(f) => n :| 0 <= n < |entries| && entries[n].filename == f;
    case NotIncreasing(v, p) => n :| 0 < n < |entries| && entries[n].version == v && entries[n - 1].version == p;
  }

  lemma EntriesFaultIff(entries: seq<Entry>, d: Dir, e: ManifestError)
    ensures e in EntriesErrors(entries, |entries|, d) <==> IsFault(e, entries, d) && !e.Unregistered?
  {
    EntriesErrorsIff(entries, |entries|, d, e);
    if e in EntriesErrors(entries, |entries|, d) {
      var n :| 0 <= n < |entries| && e in EntryErrors(entries, n, d);
      EntryFault(entries, n, d, e);
    }
    if IsFault(e, entries, d) && !e.Unregistered? {
      var n := FaultAt(entries, d, e);
    }
  }

  lemma StrayFaultIff(entries: seq<Entry>, d: Dir, e: ManifestError)
    ensures e in UnregisteredErrors(d.listing, Filenames(entries)) <==> IsFault(e, entries, d) && e.Unregistered?
  {
    UnregisteredIff(d.listing, Filenames(entries), e);
    if e.Unregistered? {
      assert forall i :: 0 <= i < |entries| ==> Filenames(entries)[i] == entries[i].filename;
    }
  }

  /** The validator reports every fault of a readable list and nothing else. */
  lemma ReportedIff(manifest: Manifest, d: Dir, e: ManifestError)
    requires manifest.migrations.Some?
    ensures e in Report(Some(manifest), d) <==>
            || (e == UnsupportedSchema(manifest.schemaVersion) && manifest.schemaVersion != 1)
            || IsFault(e, manifest.migrations.value, d)
  {
    EntriesFaultIff(manifest.migrations.value, d, e);
    StrayFaultIff(manifest.migrations.value, d, e);
  }

  /** A manifest that is no list is reported as unreadable, or by its schema version and as no array. */
  lemma UnlistedReports(manifest: Option<Manifest>, d: Dir)
    requires manifest.None? || manifest.value.migrations.None?
    ensures manifest.None? ==> Report(manifest, d) == [Unreadable]
    ensures manifest.Some? ==>
              Report(manifest, d) == if manifest.value.schemaVersion == 1 then [NotAnArray]
                                     else [UnsupportedSchema(manifest.value.schemaVersion), NotAnArray]
  {
  }

  lemma ConcatEmpty(a: seq<ManifestError>, b: seq<ManifestError>)
    ensures a + b == [] <==> a == [] && b == []
  {
    if a + b == [] { assert |a + b| == 0; }
  }

  lemma {:induction false} EntriesOkIff(entries: seq<Entry>, n: nat, d: Dir)
    requires n <= |entries|
    ensures EntriesErrors(entries, n, d) == [] <==> PrefixOk(entries, d, n)
  {
    if n > 0 {
      EntriesOkIff(entries, n - 1, d);
      ConcatEmpty(EntriesErrors(entries, n - 1, d), EntryErrors(entries, n - 1, d));
      if PrefixOk(entries, d, n - 1) { EntryOkIff(entries, n - 1, d); }
    }
  }

  /** Given the entries before it, an entry is reported nothing of exactly when it is in order. */
  lemma EntryOkIff(entries: seq<Entry>, n: nat, d: Dir)
    requires n < |entries| && PrefixOk(entries, d, n)
    ensures PrefixOk(entries, d, n + 1) ==> EntryErrors(entries, n, d) == []
    ensures EntryErrors(entries, n, d) == [] ==> PrefixOk(entries, d, n + 1)
  {
    if PrefixOk(entries, d, n + 1) { PrefixHasNoDuplicates(entries, d, n); }
  }

  lemma {:induction false} AllRegisteredIff(listing: seq<string>, registered: seq<string>)
    ensures UnregisteredErrors(listing, registered) == [] <==> forall f <- listing :: Numbered(f) ==> f in registered
  {
    if listing != [] {
      var n := |listing| - 1;
      AllRegisteredIff(listing[..n], registered);
      assert listing == listing[..n] + [listing[n]];
    }
  }

  lemma ReportsNothingIff(manifest: Option<Manifest>, d: Dir)
    ensures Report(manifest, d) == [] <==> ManifestValid(manifest, d)
  {
    if manifest.Some? && manifest.value.migrations.Some? {
      var entries := manifest.value.migrations.value;
      EntriesOkIff(entries, |entries|, d);
      PrefixIsIncreasing(entries, d);
      AllRegisteredIff(d.listing, Filenames(entries));
    }
  }

  lemma PrefixIsIncreasing(entries: seq<Entry>, d: Dir)
    ensures PrefixOk(entries, d, |entries|) <==>
            (forall i :: 0 <= i < |entries| ==> EntryOk(entries[i], d)) && Increasing(Versions(entries))
  {
    var v := Versions(entries);
    if PrefixOk(entries, d, |entries|) {
      forall i, j | 0 <= i < j < |v| ensures Less(v[i], v[j]) { AdjacentIsPairwise(entries, i, j); }
    }
    if Increasing(v) {
      forall i | 0 < i < |entries| ensures Less(entries[i - 1].version, entries[i].version) {
        assert Less(v[i - 1], v[i]);
      }
    }
  }

  // ------------------------------------------------------------------ manifest order and file order

  /** Registered names are in the runner's order, because each starts with its version. */
  lemma FilenamesIncrease(manifest: Manifest, d: Dir)
    requires ManifestValid(Some(manifest), d)
    ensures Increasing(Filenames(manifest.migrations.value))
  {
    var entries := manifest.migrations.value;
    var v, f := Versions(entries), Filenames(entries);
    forall i, j | 0 <= i < j < |f| ensures Less(f[i], f[j]) {
      assert EntryOk(entries[i], d) && EntryOk(entries[j], d);
      assert f[i][..4] == f[i][..5][..4] == v[i];
      assert f[j][..4] == f[j][..5][..4] == v[j];
      assert Less(v[i], v[j]);
      PrefixDecides(f[i], f[j], 4);
    }
  }

  /** Only the names in the given set, in order. */
  function Restrict(names: seq<string>, keep: seq<string>): seq<string> {
    if names == [] then []
    else (if names[0] in keep then [names[0]] else []) + Restrict(names[1..], keep)
  }

  lemma {:induction false} RestrictHas(names: seq<string>, keep: seq<string>, x: string)
    ensures x in Restrict(names, keep) <==> x in names && x in keep
  {
    if names != [] {
      RestrictHas(names[1..], keep, x);
      assert names == [names[0]] + names[1..];
    }
  }

  lemma {:induction false} RestrictIs(names: seq<string>, keep: seq<string>)
    requires Increasing(names)
    ensures Increasing(Restrict(names, keep))
    ensures (forall x <- names :: x in keep) ==> Restrict(names, keep) == names
  {
    if names != [] {
      RestrictIs(names[1..], keep);
      var rest := Restrict(names[1..], keep);
      forall j | 0 <= j < |rest| ensures Less(names[0], rest[j]) {
        RestrictHas(names[1..], keep, rest[j]);
        var k :| 0 <= k < |names[1..]| && names[1..][k] == rest[j];
        assert names[k + 1] == rest[j];
      }
    }
  }

  /**
   * Under a valid manifest the runner visits the registered files in manifest order, and nothing
   * else, if and only if the directory holds no .sql file that is neither numbered nor registered:
   * the validator looks for NNNN_*.sql only, the runner runs every *.sql.
   */
  lemma RunnerOrderIsManifestOrder(manifest: Manifest, d: Dir)
    requires RealDir(d) && ManifestValid(Some(manifest), d)
    ensures var registered := Filenames(manifest.migrations.value);
            && Restrict(SortedSql(d.listing), registered) == registered
            && (SortedSql(d.listing) == registered <==>
                  forall f <- d.listing :: IsSql(f) ==> Numbered(f) || f in registered)
  {
    var entries := manifest.migrations.value;
    var registered, files := Filenames(entries), SortedSql(d.listing);
    SortedSqlIs(d.listing);
    FilenamesIncrease(manifest, d);
    RestrictIs(files, registered);
    forall x ensures x in Restrict(files, registered) <==> x in files && x in registered { RestrictHas(files, registered, x); }
    forall x | x in registered ensures x in files {
      var i :| 0 <= i < |registered| && registered[i] == x;
      assert EntryOk(entries[i], d);
    }
    IncreasingIsUnique(Restrict(files, registered), registered);
    if forall f <- d.listing :: IsSql(f) ==> Numbered(f) || f in registered {
      forall x | x in files ensures x in registered {}
    }
  }

  /** Concretely: one registered migration and a stray script. The manifest is valid, and the runner's list has both. */
  lemma StrayScriptIsListed()
    ensures var m := Manifest(1, Some([Entry("0001", "0001_a.sql")]));
            var d := Dir(["0001_a.sql", "notes.sql"], map["0001_a.sql" := "CREATE", "notes.sql" := "DROP"]);
            && RealDir(d) && ManifestValid(Some(m), d)
            && SortedSql(d.listing) == ["0001_a.sql", "notes.sql"]
            && Filenames(m.migrations.value) == ["0001_a.sql"]
  {
    var a, b := "0001_a.sql", "notes.sql";
    var m := Manifest(1, Some([Entry("0001", a)]));
    var d := Dir([a, b], map[a := "CREATE", b := "DROP"]);
    assert a[0] == '0' && b[0] == 'n' && |a| == 10 && |b| == 9;
    assert a[6..] == ".sql" && b[5..] == ".sql" && a[..5] == "0001" + "_";
    assert EntryOk(Entry("0001", a), d);
    assert !Numbered(b) by { assert b[..4][0] == 'n'; }
    var none: seq<string> := [];
    assert [a, b][1..] == [b] && [b][1..] == none;
    assert SortedSql([b]) == [b];
    assert Less(a, b);
    assert Filenames([Entry("0001", a)]) == [a];
    assert a in Filenames([Entry("0001", a)]);
  }

  // ------------------------------------------------------------------ the runner

  /** SHA-256 as an injective symbol. */
  datatype Digest = Sha256(text: string)

  datatype LedgerRow = LedgerRow(filename: string, checksum: Digest)

  /** schema_migrations, and the scripts the database has committed. */
  datatype State = State(ledger: seq<LedgerRow>, executed: seq<string>)

  /** What the database does to a file: its script may fail, or the ledger insert after it may. */
  datatype Fault = NoFault | ScriptFails | RecordFails

  datatype RunResult =
    | Applied(applied: seq<string>, skipped: seq<string>)
    | Modified(filename: string) // checksum mismatch on an applied file
    | Crashed(filename: string)

  function Recorded(ledger: seq<LedgerRow>, filename: string): Option<Digest> {
    if ledger == [] then None
    else if ledger[0].filename == filename then Some(ledger[0].checksum)
    else Recorded(ledger[1..], filename)
  }

  /** The run over the files still to visit. */
  function RunFiles(files: seq<string>, d: Dir, fault: string -> Fault, s: State, applied: seq<string>, skipped: seq<string>): (State, RunResult)
    requires forall f <- files :: f in d.text
  {
    if files == [] then (s, Applied(applied, skipped))
    else
      var f := files[0];
      var checksum := Sha256(d.text[f]);
      var prior := Recorded(s.ledger, f);
      if prior.Some? then
        if prior.value != checksum then (s, Modified(f))
        else RunFiles(files[1..], d, fault, s, applied, skipped + [f])
      else if fault(f).ScriptFails? then (s, Crashed(f))
      else
        var ran := s.(executed := s.executed + [d.text[f]]);
        if fault(f).RecordFails? then (ran, Crashed(f))
        else RunFiles(files[1..], d, fault, ran.(ledger := s.ledger + [LedgerRow(f, checksum)]), applied + [f], skipped)
  }

  function RunAll(d: Dir, fault: string -> Fault, s: State): (State, RunResult)
    requires forall f <- SortedSql(d.listing) :: f in d.text
  {
    RunFiles(SortedSql(d.listing), d, fault, s, [], [])
  }

  class SchemaDatabase {
    var ledger: seq<LedgerRow>
    var executed: seq<string>

    constructor ()
      ensures ledger == [] && executed == []
    {
      ledger, executed := [], [];
    }

    /** applyMigrations. */
    method ApplyMigrations(d: Dir, fault: string -> Fault) returns (result: RunResult)
      requires RealDir(d)
      requires forall f <- SortedSql(d.listing) :: f in d.text
      modifies this
      ensures (State(ledger, executed), result) == RunAll(d, fault, old(State(ledger, executed)))
    {
      var files := SortedSql(d.listing);
      var applied: seq<string> := [];
      var skipped: seq<string> := [];
      assert files[0..] == files;
      for i := 0 to |files|
        invariant RunAll(d, fault, old(State(ledger, executed))) ==
                  RunFiles(files[i..], d, fault, State(ledger, executed), applied, skipped)
      {
        var filename := files[i];
        assert filename in files && files[i..][0] == filename && files[i..][1..] == files[i + 1..];
        var sql := d.text[filename];
        var checksum := Sha256(sql);
        var prior := Recorded(ledger, filename);
        if prior.Some? {
          if prior.value != checksum { return Modified(filename); }
          skipped := skipped + [filename];
        } else {
          if fault(filename).ScriptFails? { return Crashed(filename); }
          executed := executed + [sql];
          if fault(filename).RecordFails? { return Crashed(filename); }
          ledger := ledger + [LedgerRow(filename, checksum)];
          applied := applied + [filename];
        }
      }
      result := Applied(applied, skipped);
    }
  }

  // ------------------------------------------------------------------ what a run leaves

  /** The rows for the files the ledger does not have yet. */
  function NewRows(files: seq<string>, d: Dir, ledger: seq<LedgerRow>): seq<LedgerRow>
    requires forall f <- files :: f in d.text
  {
    if files == [] then []
    else (if Recorded(ledger, files[0]).None? then [LedgerRow(files[0], Sha256(d.text[files[0]]))] else [])
         + NewRows(files[1..], d, ledger)
  }

  function ScriptsOf(rows: seq<LedgerRow>): seq<string> {
    seq(|rows|, i requires 0 <= i < |rows| => rows[i].checksum.text)
  }

  lemma {:induction false} RecordedAppend(ledger: seq<LedgerRow>, r: LedgerRow, filename: string)
    ensures Recorded(ledger + [r], filename) ==
            if Recorded(ledger, filename).Some? then Recorded(ledger, filename)
            else if r.filename == filename then Some(r.checksum) else None
  {
    if ledger == [] {
      assert ledger + [r] == [r];
    } else {
      assert (ledger + [r])[1..] == ledger[1..] + [r];
      RecordedAppend(ledger[1..], r, filename);
    }
  }

  lemma {:induction false} NewRowsIgnoreOthers(files: seq<string>, d: Dir, ledger: seq<LedgerRow>, r: LedgerRow)
    requires (forall f <- files :: f in d.text) && r.filename !in files
    ensures NewRows(files, d, ledger + [r]) == NewRows(files, d, ledger)
  {
    if files != [] {
      RecordedAppend(ledger, r, files[0]);
      NewRowsIgnoreOthers(files[1..], d, ledger, r);
    }
  }

  /** How many files the run gets past before it stops. */
  function Passed(files: seq<string>, d: Dir, fault: string -> Fault, ledger: seq<LedgerRow>): (n: nat)
    requires forall f <- files :: f in d.text
    ensures n <= |files|
  {
    if files == [] then 0
    else
      var f := files[0];
      var prior := Recorded(ledger, f);
      if prior.Some? then
        if prior.value != Sha256(d.text[f]) then 0 else 1 + Passed(files[1..], d, fault, ledger)
      else if !fault(f).NoFault? then 0
      else 1 + Passed(files[1..], d, fault, ledger + [LedgerRow(f, Sha256(d.text[f]))])
  }

  /** The run stopped at file n for the reason it gives, or went through them all. */
  ghost predicate StopsAt(files: seq<string>, n: nat, d: Dir, fault: string -> Fault, ledger: seq<LedgerRow>, result: RunResult)
    requires forall f <- files :: f in d.text
  {
    && n <= |files|
    && match result
       case Applied(_, _) => n == |files|
       case Modified(f) =>
         n < |files| && files[n] == f && Recorded(ledger, f).Some? && Recorded(ledger, f) != Some(Sha256(d.text[f]))
       case Crashed(f) => n < |files| && files[n] == f && Recorded(ledger, f).None? && !fault(f).NoFault?
  }

  lemma {:induction false} RunStopsAt(files: seq<string>, d: Dir, fault: string -> Fault, s: State, applied: seq<string>, skipped: seq<string>)
    requires Increasing(files) && forall f <- files :: f in d.text
    ensures var (after, result) := RunFiles(files, d, fault, s, applied, skipped);
            StopsAt(files, Passed(files, d, fault, s.ledger), d, fault, s.ledger, result)
  {
    if files != [] {
      var f := files[0];
      var prior := Recorded(s.ledger, f);
      var rest := files[1..];
      if prior == Some(Sha256(d.text[f])) {
        RunStopsAt(rest, d, fault, s, applied, skipped + [f]);
      } else if prior.None? && fault(f).NoFault? {
        var row := LedgerRow(f, Sha256(d.text[f]));
        RunStopsAt(rest, d, fault, State(s.ledger + [row], s.executed + [d.text[f]]), applied + [f], skipped);
        var n := Passed(rest, d, fault, s.ledger + [row]);
        if n < |rest| {
          LessIrreflexive(f);
          assert rest[n] == files[n + 1] != f;
          RecordedAppend(s.ledger, row, rest[n]);
        }
      }
    }
  }

  lemma NewRowsHead(files: seq<string>, d: Dir, ledger: seq<LedgerRow>, m: nat)
    requires files != [] && m < |files| && Increasing(files) && forall f <- files :: f in d.text
    ensures forall f <- files[1..][..m] :: f in d.text
    ensures forall f <- files[..m + 1] :: f in d.text
    ensures var row := LedgerRow(files[0], Sha256(d.text[files[0]]));
            NewRows(files[..m + 1], d, ledger) ==
            if Recorded(ledger, files[0]).None? then [row] + NewRows(files[1..][..m], d, ledger + [row])
            else NewRows(files[1..][..m], d, ledger)
  {
    assert files[..m + 1][1..] == files[1..][..m];
    LessIrreflexive(files[0]);
    assert files[0] !in files[1..][..m];
    NewRowsIgnoreOthers(files[1..][..m], d, ledger, LedgerRow(files[0], Sha256(d.text[files[0]])));
  }

  /** The same about the ledger a run leaves. */
  lemma LedgerHead(files: seq<string>, d: Dir, ledger: seq<LedgerRow>, m: nat)
    requires files != [] && m < |files| && Increasing(files) && forall f <- files :: f in d.text
    ensures (forall f <- files[1..][..m] :: f in d.text) && (forall f <- files[..m + 1] :: f in d.text)
    ensures var row := LedgerRow(files[0], Sha256(d.text[files[0]]));
            var next := if Recorded(ledger, files[0]).None? then ledger + [row] else ledger;
            ledger + NewRows(files[..m + 1], d, ledger) == next + NewRows(files[1..][..m], d, next)
  {
    NewRowsHead(files, d, ledger, m);
    var row := LedgerRow(files[0], Sha256(d.text[files[0]]));
    if Recorded(ledger, files[0]).None? {
      Associates(ledger, row, NewRows(files[1..][..m], d, ledger + [row]));
    }
  }

  lemma Associates(ledger: seq<LedgerRow>, row: LedgerRow, more: seq<LedgerRow>)
    ensures ledger + ([row] + more) == ledger + [row] + more
  {
  }

  /** A run stopped between a script and its ledger row has committed that script as well. */
  function Unrecorded(d: Dir, fault: string -> Fault, result: RunResult): seq<string> {
    if result.Crashed? && fault(result.filename).RecordFails? && result.filename in d.text then [d.text[result.filename]] else []
  }

  /** The first step of a run that gets past its first file. */
  lemma RunHead(files: seq<string>, d: Dir, fault: string -> Fault, s: State, applied: seq<string>, skipped: seq<string>)
    requires (forall f <- files :: f in d.text) && Passed(files, d, fault, s.ledger) > 0
    ensures var f, rest := files[0], files[1..];
            var row := LedgerRow(f, Sha256(d.text[f]));
            if Recorded(s.ledger, f).Some?
            then && RunFiles(files, d, fault, s, applied, skipped) == RunFiles(rest, d, fault, s, applied, skipped + [f])
                 && Passed(rest, d, fault, s.ledger) == Passed(files, d, fault, s.ledger) - 1
            else && RunFiles(files, d, fault, s, applied, skipped)
                    == RunFiles(rest, d, fault, State(s.ledger + [row], s.executed + [d.text[f]]), applied + [f], skipped)
                 && Passed(rest, d, fault, s.ledger + [row]) == Passed(files, d, fault, s.ledger) - 1
  {
  }

  /** A run that gets past no file changes no row, and commits at most the unrecorded script. */
  lemma RunStuck(files: seq<string>, d: Dir, fault: string -> Fault, s: State, applied: seq<string>, skipped: seq<string>)
    requires (forall f <- files :: f in d.text) && Passed(files, d, fault, s.ledger) == 0
    ensures var (after, result) := RunFiles(files, d, fault, s, applied, skipped);
            after.ledger == s.ledger && after.executed == s.executed + Unrecorded(d, fault, result)
  {
    assert s.executed + [] == s.executed;
  }

  /** A run that stops at file n leaves exactly the old ledger plus a row for each file before n that had none. */
  lemma {:induction false} RunLeaves(files: seq<string>, d: Dir, fault: string -> Fault, s: State, applied: seq<string>, skipped: seq<string>)
    requires Increasing(files) && forall f <- files :: f in d.text
    ensures var n := Passed(files, d, fault, s.ledger);
            && (forall f <- files[..n] :: f in d.text)
            && RunFiles(files, d, fault, s, applied, skipped).0.ledger == s.ledger + NewRows(files[..n], d, s.ledger)
  {
    var n := Passed(files, d, fault, s.ledger);
    if n > 0 {
      var f, rest := files[0], files[1..];
      LedgerHead(files, d, s.ledger, n - 1);
      RunHead(files, d, fault, s, applied, skipped);
      if Recorded(s.ledger, f).Some? {
        RunLeaves(rest, d, fault, s, applied, skipped + [f]);
      } else {
        var row := LedgerRow(f, Sha256(d.text[f]));
        RunLeaves(rest, d, fault, State(s.ledger + [row], s.executed + [d.text[f]]), applied + [f], skipped);
      }
    } else {
      RunStuck(files, d, fault, s, applied, skipped);
      assert s.ledger + [] == s.ledger;
    }
  }

  /** The files with and without a row in the ledger, in order. */
  function Split(files: seq<string>, ledger: seq<LedgerRow>, recorded: bool): seq<string> {
    if files == [] then []
    else (if Recorded(ledger, files[0]).Some? == recorded then [files[0]] else []) + Split(files[1..], ledger, recorded)
  }

  lemma {:induction false} SplitIgnoresOthers(files: seq<string>, ledger: seq<LedgerRow>, r: LedgerRow, recorded: bool)
    requires r.filename !in files
    ensures Split(files, ledger + [r], recorded) == Split(files, ledger, recorded)
  {
    if files != [] {
      RecordedAppend(ledger, r, files[0]);
      SplitIgnoresOthers(files[1..], ledger, r, recorded);
    }
  }

  lemma {:induction false} SplitIs(files: seq<string>, ledger: seq<LedgerRow>, recorded: bool)
    requires Increasing(files)
    ensures Increasing(Split(files, ledger, recorded))
    ensures forall f :: f in Split(files, ledger, recorded) <==> f in files && Recorded(ledger, f).Some? == recorded
  {
    if files != [] {
      var rest := Split(files[1..], ledger, recorded);
      SplitIs(files[1..], ledger, recorded);
      assert files == [files[0]] + files[1..];
      forall j | 0 <= j < |rest| ensures Less(files[0], rest[j]) {
        assert rest[j] in rest;
        var k :| 0 <= k < |files[1..]| && files[1..][k] == rest[j];
        assert files[k + 1] == rest[j];
      }
    }
  }

  /** What both lists say of the first file, and of the rest against the ledger its turn leaves. */
  lemma SplitHead(files: seq<string>, d: Dir, ledger: seq<LedgerRow>, recorded: bool)
    requires files != [] && Increasing(files) && files[0] in d.text
    ensures var row := LedgerRow(files[0], Sha256(d.text[files[0]]));
            var next := if Recorded(ledger, files[0]).Some? then ledger else ledger + [row];
            Split(files, ledger, recorded) ==
            (if Recorded(ledger, files[0]).Some? == recorded then [files[0]] else []) + Split(files[1..], next, recorded)
  {
    LessIrreflexive(files[0]);
    assert files[0] !in files[1..];
    SplitIgnoresOthers(files[1..], ledger, LedgerRow(files[0], Sha256(d.text[files[0]])), recorded);
  }

  lemma {:induction false} RunTellsFrom(files: seq<string>, d: Dir, fault: string -> Fault, s: State, applied: seq<string>, skipped: seq<string>)
    requires Increasing(files) && forall f <- files :: f in d.text
    requires RunFiles(files, d, fault, s, applied, skipped).1.Applied?
    ensures RunFiles(files, d, fault, s, applied, skipped).1 ==
            Applied(applied + Split(files, s.ledger, false), skipped + Split(files, s.ledger, true))
  {
    if files == [] {
      assert applied + [] == applied && skipped + [] == skipped;
    } else {
      var f, rest := files[0], files[1..];
      RunStopsAt(files, d, fault, s, applied, skipped);
      RunHead(files, d, fault, s, applied, skipped);
      SplitHead(files, d, s.ledger, false);
      SplitHead(files, d, s.ledger, true);
      if Recorded(s.ledger, f).Some? {
        RunTellsFrom(rest, d, fault, s, applied, skipped + [f]);
        JoinsOne(skipped, f, Split(rest, s.ledger, true));
        JoinsOne(applied, f, Split(rest, s.ledger, false));
      } else {
        var next := s.ledger + [LedgerRow(f, Sha256(d.text[f]))];
        RunTellsFrom(rest, d, fault, State(next, s.executed + [d.text[f]]), applied + [f], skipped);
        JoinsOne(applied, f, Split(rest, next, false));
        JoinsOne(skipped, f, Split(rest, next, true));
      }
    }
  }

  lemma JoinsOne(a: seq<string>, x: string, b: seq<string>)
    ensures a + [x] + b == a + ([x] + b) && [] + b == b
  {
  }

  /** A finished run reports as applied exactly the files that had no row, and as skipped the others, each in order. */
  lemma RunTells(d: Dir, fault: string -> Fault, s: State)
    requires RealDir(d) && forall f <- SortedSql(d.listing) :: f in d.text
    ensures var result := RunAll(d, fault, s).1;
            result.Applied? ==>
              && Increasing(result.applied) && Increasing(result.skipped)
              && (forall f :: f in result.applied <==> f in d.listing && IsSql(f) && Recorded(s.ledger, f).None?)
              && (forall f :: f in result.skipped <==> f in d.listing && IsSql(f) && Recorded(s.ledger, f).Some?)
  {
    SortedSqlIs(d.listing);
    var files := SortedSql(d.listing);
    if RunAll(d, fault, s).1.Applied? { RunTellsFrom(files, d, fault, s, [], []); }
    SplitIs(files, s.ledger, false);
    SplitIs(files, s.ledger, true);
    assert [] + Split(files, s.ledger, false) == Split(files, s.ledger, false);
    assert [] + Split(files, s.ledger, true) == Split(files, s.ledger, true);
  }

  /** The first step again, on the scripts committed. */
  lemma ScriptsHead(files: seq<string>, d: Dir, s: State, m: nat)
    requires files != [] && m < |files| && Increasing(files) && forall f <- files :: f in d.text
    ensures (forall f <- files[1..][..m] :: f in d.text) && (forall f <- files[..m + 1] :: f in d.text)
    ensures var f, row := files[0], LedgerRow(files[0], Sha256(d.text[files[0]]));
            var next := if Recorded(s.ledger, f).None? then State(s.ledger + [row], s.executed + [d.text[f]]) else s;
            s.executed + ScriptsOf(NewRows(files[..m + 1], d, s.ledger))
            == next.executed + ScriptsOf(NewRows(files[1..][..m], d, next.ledger))
  {
    NewRowsHead(files, d, s.ledger, m);
    var row := LedgerRow(files[0], Sha256(d.text[files[0]]));
    if Recorded(s.ledger, files[0]).None? {
      ScriptsPrepend(s.executed, row, NewRows(files[1..][..m], d, s.ledger + [row]));
    }
  }

  /** It has committed the scripts of exactly the rows it added, once each, and at most the unrecorded one besides. */
  lemma {:induction false} RunExecutes(files: seq<string>, d: Dir, fault: string -> Fault, s: State, applied: seq<string>, skipped: seq<string>)
    requires Increasing(files) && forall f <- files :: f in d.text
    ensures var n := Passed(files, d, fault, s.ledger);
            var (after, result) := RunFiles(files, d, fault, s, applied, skipped);
            && (forall f <- files[..n] :: f in d.text)
            && after.executed == s.executed + ScriptsOf(NewRows(files[..n], d, s.ledger)) + Unrecorded(d, fault, result)
  {
    var n := Passed(files, d, fault, s.ledger);
    if n > 0 {
      var f, rest := files[0], files[1..];
      RunHead(files, d, fault, s, applied, skipped);
      ScriptsHead(files, d, s, n - 1);
      if Recorded(s.ledger, f).Some? {
        RunExecutes(rest, d, fault, s, applied, skipped + [f]);
      } else {
        var next := State(s.ledger + [LedgerRow(f, Sha256(d.text[f]))], s.executed + [d.text[f]]);
        RunExecutes(rest, d, fault, next, applied + [f], skipped);
      }
    } else {
      RunStuck(files, d, fault, s, applied, skipped);
      assert s.executed + ScriptsOf([]) == s.executed;
    }
  }

  lemma ScriptsPrepend(executed: seq<string>, row: LedgerRow, more: seq<LedgerRow>)
    ensures executed + [row.checksum.text] + ScriptsOf(more) == executed + ScriptsOf([row] + more)
  {
    assert ScriptsOf([row] + more) == [row.checksum.text] + ScriptsOf(more);
  }

  /** Old rows never change, whatever the directory and the faults, over any sequence of runs. */
  datatype Run = Run(d: Dir, fault: string -> Fault)

  ghost predicate RealRun(r: Run) {
    RealDir(r.d)
  }

  lemma SqlFilesHaveText(d: Dir)
    requires RealDir(d)
    ensures Increasing(SortedSql(d.listing)) && forall f <- SortedSql(d.listing) :: f in d.text
  {
    SortedSqlIs(d.listing);
  }

  ghost function AfterRuns(s: State, runs: seq<Run>): State
    requires forall r <- runs :: RealRun(r)
  {
    if runs == [] then s
    else
      var last := runs[|runs| - 1];
      assert last in runs && RealRun(last);
      SqlFilesHaveText(last.d);
      RunAll(last.d, last.fault, AfterRuns(s, runs[..|runs| - 1])).0
  }

  /** schema_migrations.filename is a primary key. */
  ghost predicate KeyedLedger(ledger: seq<LedgerRow>) {
    forall i, j :: 0 <= i < j < |ledger| ==> ledger[i].filename != ledger[j].filename
  }

  lemma {:induction false} RecordedIff(ledger: seq<LedgerRow>, filename: string)
    ensures Recorded(ledger, filename).Some? <==> exists i :: 0 <= i < |ledger| && ledger[i].filename == filename
  {
    if ledger != [] {
      RecordedIff(ledger[1..], filename);
      if i :| 0 <= i < |ledger| && ledger[i].filename == filename {
        if i > 0 { assert ledger[1..][i - 1].filename == filename; }
      }
    }
  }

  lemma {:induction false} NewRowsAreOf(files: seq<string>, d: Dir, ledger: seq<LedgerRow>)
    requires forall f <- files :: f in d.text
    ensures forall r <- NewRows(files, d, ledger) :: r.filename in files && r == LedgerRow(r.filename, Sha256(d.text[r.filename]))
  {
    if files != [] {
      NewRowsAreOf(files[1..], d, ledger);
      assert files == [files[0]] + files[1..];
    }
  }

  lemma KeyedAppend(ledger: seq<LedgerRow>, row: LedgerRow)
    requires KeyedLedger(ledger) && Recorded(ledger, row.filename).None?
    ensures KeyedLedger(ledger + [row])
  {
    RecordedIff(ledger, row.filename);
  }

  lemma {:induction false} NewRowsAreNew(files: seq<string>, d: Dir, ledger: seq<LedgerRow>)
    requires Increasing(files) && (forall f <- files :: f in d.text) && KeyedLedger(ledger)
    ensures KeyedLedger(ledger + NewRows(files, d, ledger))
  {
    if files == [] {
      assert ledger + [] == ledger;
    } else {
      var row := LedgerRow(files[0], Sha256(d.text[files[0]]));
      LedgerHead(files, d, ledger, |files| - 1);
      assert files[..|files|] == files && files[1..][..|files| - 1] == files[1..];
      if Recorded(ledger, files[0]).None? {
        KeyedAppend(ledger, row);
        NewRowsAreNew(files[1..], d, ledger + [row]);
      } else {
        NewRowsAreNew(files[1..], d, ledger);
      }
    }
  }

  /** The ledger is immutable history: over any sequence of runs it only grows, one row per file. */
  lemma {:induction false} LedgerIsAppendOnly(s: State, runs: seq<Run>)
    requires (forall r <- runs :: RealRun(r)) && KeyedLedger(s.ledger)
    ensures s.ledger <= AfterRuns(s, runs).ledger && KeyedLedger(AfterRuns(s, runs).ledger)
  {
    if runs != [] {
      var last := runs[|runs| - 1];
      assert last in runs;
      var before := AfterRuns(s, runs[..|runs| - 1]);
      LedgerIsAppendOnly(s, runs[..|runs| - 1]);
      SqlFilesHaveText(last.d);
      var files := SortedSql(last.d.listing);
      var n := Passed(files, last.d, last.fault, before.ledger);
      RunLeaves(files, last.d, last.fault, before, [], []);
      assert forall f <- files[..n] :: f in files;
      NewRowsAreNew(files[..n], last.d, before.ledger);
    }
  }

  // ------------------------------------------------------------------ success, and running again

  lemma {:induction false} RecordedStays(ledger: seq<LedgerRow>, more: seq<LedgerRow>, filename: string)
    requires Recorded(ledger, filename).Some?
    ensures Recorded(ledger + more, filename) == Recorded(ledger, filename)
  {
    if more == [] {
      assert ledger + more == ledger;
    } else {
      var n := |more| - 1;
      RecordedStays(ledger, more[..n], filename);
      RecordedAppend(ledger + more[..n], more[n], filename);
      assert ledger + more[..n] + [more[n]] == ledger + more;
    }
  }

  /** A finished run has recorded every file under its current checksum. */
  lemma {:induction false} SuccessRecordsAll(files: seq<string>, d: Dir, fault: string -> Fault, s: State, applied: seq<string>, skipped: seq<string>)
    requires Increasing(files) && forall f <- files :: f in d.text
    requires RunFiles(files, d, fault, s, applied, skipped).1.Applied?
    ensures forall f <- files :: Recorded(RunFiles(files, d, fault, s, applied, skipped).0.ledger, f) == Some(Sha256(d.text[f]))
  {
    if files != [] {
      var f := files[0];
      var rest := files[1..];
      var row := LedgerRow(f, Sha256(d.text[f]));
      var fresher := Recorded(s.ledger, f).None?;
      var next := if fresher then State(s.ledger + [row], s.executed + [d.text[f]]) else s;
      var a, b := if fresher then applied + [f] else applied, if fresher then skipped else skipped + [f];
      SuccessRecordsAll(rest, d, fault, next, a, b);
      RunLeaves(rest, d, fault, next, a, b);
      RecordedAppend(s.ledger, row, f);
      var more := NewRows(rest[..Passed(rest, d, fault, next.ledger)], d, next.ledger);
      RecordedStays(next.ledger, more, f);
      assert files == [f] + rest;
    }
  }

  lemma {:induction false} RecordedFilesAreSkipped(files: seq<string>, d: Dir, fault: string -> Fault, s: State, applied: seq<string>, skipped: seq<string>)
    requires forall f <- files :: f in d.text
    requires forall f <- files :: Recorded(s.ledger, f) == Some(Sha256(d.text[f]))
    ensures RunFiles(files, d, fault, s, applied, skipped) == (s, Applied(applied, skipped + files))
  {
    if files == [] {
      assert skipped + files == skipped;
    } else {
      RecordedFilesAreSkipped(files[1..], d, fault, s, applied, skipped + [files[0]]);
      assert skipped + [files[0]] + files[1..] == skipped + files;
    }
  }

  /** Running again on the same directory applies nothing and changes nothing. */
  lemma SecondRunAppliesNothing(d: Dir, fault: string -> Fault, again: string -> Fault, s: State)
    requires RealDir(d) && forall f <- SortedSql(d.listing) :: f in d.text
    requires RunAll(d, fault, s).1.Applied?
    ensures RunAll(d, again, RunAll(d, fault, s).0) == (RunAll(d, fault, s).0, Applied([], SortedSql(d.listing)))
  {
    SortedSqlIs(d.listing);
    SuccessRecordsAll(SortedSql(d.listing), d, fault, s, [], []);
    RecordedFilesAreSkipped(SortedSql(d.listing), d, again, RunAll(d, fault, s).0, [], []);
    assert [] + SortedSql(d.listing) == SortedSql(d.listing);
  }

  lemma {:induction false} NewRowsConcat(front: seq<string>, back: seq<string>, d: Dir, ledger: seq<LedgerRow>)
    requires (forall f <- front :: f in d.text) && (forall f <- back :: f in d.text)
    ensures NewRows(front + back, d, ledger) == NewRows(front, d, ledger) + NewRows(back, d, ledger)
  {
    if front == [] {
      assert front + back == back;
    } else {
      assert (front + back)[1..] == front[1..] + back;
      NewRowsConcat(front[1..], back, d, ledger);
    }
  }

  /** Rows of other files make no difference to what is still to be recorded. */
  lemma {:induction false} NewRowsIgnoreAll(files: seq<string>, d: Dir, ledger: seq<LedgerRow>, rows: seq<LedgerRow>)
    requires (forall f <- files :: f in d.text) && forall i :: 0 <= i < |rows| ==> rows[i].filename !in files
    ensures NewRows(files, d, ledger + rows) == NewRows(files, d, ledger)
  {
    if rows == [] {
      assert ledger + rows == ledger;
    } else {
      var n := |rows| - 1;
      NewRowsIgnoreAll(files, d, ledger, rows[..n]);
      NewRowsIgnoreOthers(files, d, ledger + rows[..n], rows[n]);
      assert ledger + rows[..n] + [rows[n]] == ledger + rows;
    }
  }

  lemma {:induction false} NewRowsName(files: seq<string>, d: Dir, ledger: seq<LedgerRow>)
    requires forall f <- files :: f in d.text
    ensures forall i :: 0 <= i < |NewRows(files, d, ledger)| ==> NewRows(files, d, ledger)[i].filename in files
  {
    if files != [] {
      NewRowsName(files[1..], d, ledger);
      assert files == [files[0]] + files[1..];
    }
  }

  /** After their new rows, the files have none left. */
  lemma {:induction false} NewRowsTwice(files: seq<string>, d: Dir, ledger: seq<LedgerRow>)
    requires Increasing(files) && forall f <- files :: f in d.text
    ensures NewRows(files, d, ledger + NewRows(files, d, ledger)) == []
  {
    if files != [] {
      var head, rest := files[0], files[1..];
      var row := LedgerRow(head, Sha256(d.text[head]));
      var more := NewRows(rest, d, ledger);
      LessIrreflexive(head);
      assert head !in rest;
      if Recorded(ledger, head).None? {
        NewRowsIgnoreOthers(rest, d, ledger, row);
        NewRowsTwice(rest, d, ledger + [row]);
        assert ledger + [row] + more == ledger + NewRows(files, d, ledger);
        RecordedAppend(ledger, row, head);
        RecordedStays(ledger + [row], more, head);
      } else {
        NewRowsTwice(rest, d, ledger);
        RecordedStays(ledger, more, head);
        assert NewRows(files, d, ledger) == more;
      }
    }
  }

  lemma NewRowsSplit(front: seq<string>, back: seq<string>, d: Dir, ledger: seq<LedgerRow>)
    requires Increasing(front + back) && forall f <- front + back :: f in d.text
    ensures (forall f <- front :: f in d.text) && (forall f <- back :: f in d.text)
    ensures NewRows(front + back, d, ledger) == NewRows(front, d, ledger) + NewRows(back, d, ledger)
    ensures NewRows(back, d, ledger + NewRows(front, d, ledger)) == NewRows(back, d, ledger)
    ensures NewRows(front, d, ledger + NewRows(front, d, ledger)) == []
  {
    var all := front + back;
    assert forall f <- front :: f in all;
    assert forall f <- back :: f in all;
    NewRowsConcat(front, back, d, ledger);
    forall i, j | 0 <= i < j < |front| ensures Less(front[i], front[j]) { assert Less(all[i], all[j]); }
    NewRowsTwice(front, d, ledger);
    NewRowsName(front, d, ledger);
    forall f | f in front ensures f !in back {
      var i :| 0 <= i < |front| && front[i] == f;
      forall j | 0 <= j < |back| ensures back[j] != f {
        LessIrreflexive(f);
        assert Less(all[i], all[|front| + j]);
      }
    }
    NewRowsIgnoreAll(back, d, ledger, NewRows(front, d, ledger));
  }

  /** Visiting everything again after the front adds what visiting everything once would have. */
  lemma NewRowsResume(front: seq<string>, back: seq<string>, d: Dir, ledger: seq<LedgerRow>)
    requires Increasing(front + back) && forall f <- front + back :: f in d.text
    ensures forall f <- front :: f in d.text
    ensures var mid := ledger + NewRows(front, d, ledger);
            mid + NewRows(front + back, d, mid) == ledger + NewRows(front + back, d, ledger)
  {
    assert forall f <- front :: f in front + back;
    NewRowsSplit(front, back, d, ledger);
    var a, b := NewRows(front, d, ledger), NewRows(back, d, ledger);
    NewRowsSplit(front, back, d, ledger + a);
    assert ledger + a + ([] + b) == ledger + (a + b);
  }

  /** A finished run's ledger, from the ledger it started on. */
  lemma FinishedRunLeaves(d: Dir, fault: string -> Fault, s: State)
    requires RealDir(d) && (forall f <- SortedSql(d.listing) :: f in d.text)
    requires RunAll(d, fault, s).1.Applied?
    ensures RunAll(d, fault, s).0.ledger == s.ledger + NewRows(SortedSql(d.listing), d, s.ledger)
  {
    var files := SortedSql(d.listing);
    SortedSqlIs(d.listing);
    RunLeaves(files, d, fault, s, [], []);
    RunStopsAt(files, d, fault, s, [], []);
    assert files[..|files|] == files;
  }

  /** If some run goes through after another, an undisturbed run would have gone through at once. */
  lemma UndisturbedRunFinishes(d: Dir, first: string -> Fault, second: string -> Fault, s: State)
    requires RealDir(d) && forall f <- SortedSql(d.listing) :: f in d.text
    requires RunAll(d, second, RunAll(d, first, s).0).1.Applied?
    ensures RunAll(d, _ => NoFault, s).1.Applied?
  {
    var files := SortedSql(d.listing);
    SortedSqlIs(d.listing);
    var mid := RunAll(d, first, s).0;
    var result := RunAll(d, _ => NoFault, s).1;
    RunStopsAt(files, d, _ => NoFault, s, [], []);
    if result.Modified? {
      var f := result.filename;
      assert f in files;
      RunLeaves(files, d, first, s, [], []);
      RecordedStays(s.ledger, NewRows(files[..Passed(files, d, first, s.ledger)], d, s.ledger), f);
      FinishedRunLeaves(d, second, mid);
      RecordedStays(mid.ledger, NewRows(files, d, mid.ledger), f);
      SuccessRecordsAll(files, d, second, mid, [], []);
    }
  }

  /**
   * Resumability: a run that stopped, for whatever reason, and a later run that finishes leave the
   * ledger that one undisturbed run would have left.
   */
  lemma ResumeReachesTheSameLedger(d: Dir, first: string -> Fault, second: string -> Fault, s: State)
    requires RealDir(d) && forall f <- SortedSql(d.listing) :: f in d.text
    requires RunAll(d, second, RunAll(d, first, s).0).1.Applied?
    ensures RunAll(d, second, RunAll(d, first, s).0).0.ledger == RunAll(d, _ => NoFault, s).0.ledger
  {
    var files := SortedSql(d.listing);
    SortedSqlIs(d.listing);
    var mid := RunAll(d, first, s).0;
    var n := Passed(files, d, first, s.ledger);
    var front, back := files[..n], files[n..];
    RunLeaves(files, d, first, s, [], []);
    FinishedRunLeaves(d, second, mid);
    UndisturbedRunFinishes(d, first, second, s);
    FinishedRunLeaves(d, _ => NoFault, s);
    assert front + back == files;
    NewRowsResume(front, back, d, s.ledger);
  }

  // ------------------------------------------------------------------ resuming is not repeating nothing

  lemma ScriptsConcat(a: seq<LedgerRow>, b: seq<LedgerRow>)
    ensures ScriptsOf(a + b) == ScriptsOf(a) + ScriptsOf(b)
  {
  }

  /** A finished run's committed scripts, from the state it started on. */
  lemma FinishedRunExecutes(d: Dir, fault: string -> Fault, s: State)
    requires RealDir(d) && (forall f <- SortedSql(d.listing) :: f in d.text)
    requires RunAll(d, fault, s).1.Applied?
    ensures RunAll(d, fault, s).0.executed == s.executed + ScriptsOf(NewRows(SortedSql(d.listing), d, s.ledger))
  {
    var files := SortedSql(d.listing);
    SortedSqlIs(d.listing);
    RunExecutes(files, d, fault, s, [], []);
    RunStopsAt(files, d, fault, s, [], []);
    assert files[..|files|] == files;
    var scripts := s.executed + ScriptsOf(NewRows(files, d, s.ledger));
    assert scripts + [] == scripts;
  }

  /** The rows of the files a run got past, and of the rest, together make up a whole run's. */
  lemma RowsOfParts(files: seq<string>, n: nat, d: Dir, ledger: seq<LedgerRow>)
    requires Increasing(files) && n <= |files| && forall f <- files :: f in d.text
    ensures (forall f <- files[..n] :: f in d.text) && (forall f <- files[n..] :: f in d.text)
    ensures var a, b := NewRows(files[..n], d, ledger), NewRows(files[n..], d, ledger);
            NewRows(files, d, ledger) == a + b && NewRows(files, d, ledger + a) == b
  {
    var front, back := files[..n], files[n..];
    assert front + back == files;
    NewRowsSplit(front, back, d, ledger);
    NewRowsConcat(front, back, d, ledger + NewRows(front, d, ledger));
    assert [] + NewRows(back, d, ledger) == NewRows(back, d, ledger);
  }

  /** A run that stopped anywhere: what it recorded and committed, and what is left for a later one. */
  lemma StoppedRun(d: Dir, first: string -> Fault, s: State) returns (done: seq<LedgerRow>, left: seq<LedgerRow>)
    requires RealDir(d) && forall f <- SortedSql(d.listing) :: f in d.text
    ensures var (mid, result) := RunAll(d, first, s);
            && mid.ledger == s.ledger + done
            && mid.executed == s.executed + ScriptsOf(done) + Unrecorded(d, first, result)
            && NewRows(SortedSql(d.listing), d, mid.ledger) == left
            && NewRows(SortedSql(d.listing), d, s.ledger) == done + left
  {
    var files := SortedSql(d.listing);
    SortedSqlIs(d.listing);
    var n := Passed(files, d, first, s.ledger);
    RowsOfParts(files, n, d, s.ledger);
    RunLeaves(files, d, first, s, [], []);
    RunExecutes(files, d, first, s, [], []);
    done, left := NewRows(files[..n], d, s.ledger), NewRows(files[n..], d, s.ledger);
  }

  lemma ResumedFrom(d: Dir, second: string -> Fault, executed: seq<string>, mid: State,
                    done: seq<LedgerRow>, left: seq<LedgerRow>, repeated: seq<string>)
    requires RealDir(d) && forall f <- SortedSql(d.listing) :: f in d.text
    requires RunAll(d, second, mid).1.Applied?
    requires mid.executed == executed + ScriptsOf(done) + repeated && NewRows(SortedSql(d.listing), d, mid.ledger) == left
    ensures RunAll(d, second, mid).0.executed == executed + ScriptsOf(done) + repeated + ScriptsOf(left)
  {
    FinishedRunExecutes(d, second, mid);
  }

  lemma ResumedExecutes(d: Dir, first: string -> Fault, second: string -> Fault, s: State)
      returns (before: seq<string>, after: seq<string>)
    requires RealDir(d) && forall f <- SortedSql(d.listing) :: f in d.text
    requires RunAll(d, second, RunAll(d, first, s).0).1.Applied?
    ensures RunAll(d, second, RunAll(d, first, s).0).0.executed
         == before + Unrecorded(d, first, RunAll(d, first, s).1) + after
    ensures s.executed + ScriptsOf(NewRows(SortedSql(d.listing), d, s.ledger)) == before + after
  {
    var done, left := StoppedRun(d, first, s);
    ResumedFrom(d, second, s.executed, RunAll(d, first, s).0, done, left, Unrecorded(d, first, RunAll(d, first, s).1));
    ScriptsConcat(done, left);
    before, after := s.executed + ScriptsOf(done), ScriptsOf(left);
    assert before + after == s.executed + (ScriptsOf(done) + ScriptsOf(left));
  }

  /**
   * What resuming repeats, exactly: a run that stopped and a later one that finishes have committed
   * the scripts one undisturbed run would have committed if and only if the first did not stop
   * between a script and its ledger row.
   */
  lemma ResumeExecutesTheSameIff(d: Dir, first: string -> Fault, second: string -> Fault, s: State)
    requires RealDir(d) && forall f <- SortedSql(d.listing) :: f in d.text
    requires RunAll(d, second, RunAll(d, first, s).0).1.Applied?
    ensures RunAll(d, second, RunAll(d, first, s).0).0.executed == RunAll(d, _ => NoFault, s).0.executed
            <==> Unrecorded(d, first, RunAll(d, first, s).1) == []
  {
    var before, after := ResumedExecutes(d, first, second, s);
    UndisturbedRunFinishes(d, first, second, s);
    FinishedRunExecutes(d, _ => NoFault, s);
    var repeated := Unrecorded(d, first, RunAll(d, first, s).1);
    assert |before + repeated + after| == |before + after| + |repeated|;
    if repeated == [] { assert before + repeated + after == before + after; }
  }

  lemma OneFile(name: string, text: string)
    requires IsSql(name)
    ensures var d := Dir([name], map[name := text]); RealDir(d) && SortedSql(d.listing) == [name]
  {
    var none: seq<string> := [];
    assert [name][1..] == none;
  }

  lemma OneFileRun(name: string, text: string, fault: string -> Fault, executed: seq<string>)
    requires IsSql(name) && !fault(name).ScriptFails?
    ensures var d := Dir([name], map[name := text]);
            && SortedSql(d.listing) == [name]
            && RunAll(d, fault, State([], executed)) ==
               if fault(name).RecordFails? then (State([], executed + [text]), Crashed(name))
               else (State([LedgerRow(name, Sha256(text))], executed + [text]), Applied([name], []))
  {
    OneFile(name, text);
    var d := Dir([name], map[name := text]);
    var none: seq<string> := [];
    var noRows: seq<LedgerRow> := [];
    var done := State([LedgerRow(name, Sha256(text))], executed + [text]);
    assert [name][1..] == none && none + [name] == [name];
    assert noRows + [LedgerRow(name, Sha256(text))] == [LedgerRow(name, Sha256(text))];
    assert Recorded(noRows, name).None? && d.text[name] == text;
    assert RunFiles(none, d, fault, done, [name], none) == (done, Applied([name], none));
    assert !fault(name).RecordFails? ==>
             RunFiles([name], d, fault, State(noRows, executed), none, none) == RunFiles(none, d, fault, done, [name], none);
  }

  /** Concretely: the ledger insert fails after the script, the run is repeated, and the script is committed twice. */
  lemma UnrecordedScriptRunsTwice(name: string, text: string)
    requires IsSql(name)
    ensures var d := Dir([name], map[name := text]);
            && SortedSql(d.listing) == [name]
            && var mid := RunAll(d, _ => RecordFails, State([], [])).0;
               var (resumed, result) := RunAll(d, _ => NoFault, mid);
               && result.Applied? && resumed.executed == [text, text]
               && RunAll(d, _ => NoFault, State([], [])).0.executed == [text]
  {
    OneFileRun(name, text, _ => RecordFails, []);
    OneFileRun(name, text, _ => NoFault, []);
    var none: seq<string> := [];
    assert none + [text] == [text];
    OneFileRun(name, text, _ => NoFault, [text]);
    assert [text] + [text] == [text, text];
  }

  // ------------------------------------------------------------------ readiness

  datatype Readiness = Readiness(pass: bool, missing: seq<string>, databaseAheadOfBuild: bool)

  /** The leading four digits of a recorded file name. */
  function VersionPrefix(filename: string): Option<string> {
    if |filename| >= 4 && AllDigits(filename[..4]) then Some(filename[..4]) else None
  }

  ghost function AppliedVersions(ledger: seq<LedgerRow>): set<string> {
    set i | 0 <= i < |ledger| && VersionPrefix(ledger[i].filename).Some? :: VersionPrefix(ledger[i].filename).value
  }

  function Missing(required: seq<string>, applied: set<string>): seq<string> {
    if required == [] then []
    else (if required[0] !in applied then [required[0]] else []) + Missing(required[1..], applied)
  }

  /** evaluateMigrationReadiness. */
  ghost function Evaluate(applied: set<string>, required: seq<string>): Readiness {
    var highest := if required == [] then "0000" else required[|required| - 1];
    var missing := Missing(required, applied);
    Readiness(missing == [], missing, exists v :: v in applied && FourDigits(v) && Less(highest, v))
  }

  lemma {:induction false} MissingIs(required: seq<string>, applied: set<string>)
    ensures Missing(required, applied) == [] <==> forall v <- required :: v in applied
  {
    if required != [] {
      MissingIs(required[1..], applied);
      assert required == [required[0]] + required[1..];
    }
  }

  lemma {:induction false} MissingAre(required: seq<string>, applied: set<string>)
    ensures forall v :: v in Missing(required, applied) <==> v in required && v !in applied
    ensures Increasing(required) ==> Increasing(Missing(required, applied))
  {
    if required != [] {
      MissingAre(required[1..], applied);
      assert required == [required[0]] + required[1..];
      var rest := Missing(required[1..], applied);
      if Increasing(required) {
        assert Increasing(required[1..]);
        forall j | 0 <= j < |rest| ensures Less(required[0], rest[j]) {
          assert rest[j] in rest;
          var k :| 0 <= k < |required[1..]| && required[1..][k] == rest[j];
          assert required[k + 1] == rest[j];
        }
      }
    }
  }

  /**
   * Readiness against a ledger: it passes exactly when every required version begins the name of a
   * recorded file, lists exactly the others, in order, as missing, and finds the database ahead of
   * the build exactly when a recorded four-digit version is beyond the last required one.
   */
  lemma ReadinessIs(ledger: seq<LedgerRow>, required: seq<string>)
    requires Increasing(required) && forall v <- required :: FourDigits(v)
    ensures var readiness := Evaluate(AppliedVersions(ledger), required);
            && (readiness.pass <==> forall v <- required :: BeginsARecordedName(ledger, v))
            && Increasing(readiness.missing)
            && (forall v :: v in readiness.missing <==> v in required && !BeginsARecordedName(ledger, v))
            && (readiness.databaseAheadOfBuild <==>
                  exists v :: && BeginsARecordedName(ledger, v)
                              && if required == [] then Less("0000", v) else Less(required[|required| - 1], v))
  {
    MissingIs(required, AppliedVersions(ledger));
    MissingAre(required, AppliedVersions(ledger));
    forall v ensures v in AppliedVersions(ledger) <==> BeginsARecordedName(ledger, v) {
      AppliedIff(ledger, v);
    }
  }

  ghost predicate BeginsARecordedName(ledger: seq<LedgerRow>, v: string) {
    FourDigits(v) && exists i :: 0 <= i < |ledger| && StartsWith(ledger[i].filename, v)
  }

  lemma AppliedIff(ledger: seq<LedgerRow>, v: string)
    ensures v in AppliedVersions(ledger) <==> BeginsARecordedName(ledger, v)
  {
    if BeginsARecordedName(ledger, v) {
      var i :| 0 <= i < |ledger| && StartsWith(ledger[i].filename, v);
      assert VersionPrefix(ledger[i].filename) == Some(v);
    }
    if v in AppliedVersions(ledger) {
      var i :| 0 <= i < |ledger| && VersionPrefix(ledger[i].filename) == Some(v);
      assert StartsWith(ledger[i].filename, v);
    }
  }

  /** Readiness never turns back: what passes still passes when more has been applied. */
  lemma PassIsMonotone(applied: set<string>, more: set<string>, required: seq<string>)
    requires applied <= more && Evaluate(applied, required).pass
    ensures Evaluate(more, required).pass
    ensures Evaluate(applied, required).databaseAheadOfBuild ==> Evaluate(more, required).databaseAheadOfBuild
  {
    MissingIs(required, applied);
    MissingIs(required, more);
  }

  lemma FinishedRunKeepsKeys(d: Dir, fault: string -> Fault, s: State)
    requires RealDir(d) && KeyedLedger(s.ledger) && forall f <- SortedSql(d.listing) :: f in d.text
    requires RunAll(d, fault, s).1.Applied?
    ensures KeyedLedger(RunAll(d, fault, s).0.ledger)
  {
    SortedSqlIs(d.listing);
    FinishedRunLeaves(d, fault, s);
    NewRowsAreNew(SortedSql(d.listing), d, s.ledger);
  }

  /** A recorded file of the manifest makes its version an applied one, in any longer ledger too. */
  lemma RecordedVersionIsApplied(e: Entry, d: Dir, ledger: seq<LedgerRow>, longer: seq<LedgerRow>)
    requires EntryOk(e, d) && Recorded(ledger, e.filename).Some? && ledger <= longer
    ensures e.version in AppliedVersions(longer)
  {
    RecordedIff(ledger, e.filename);
    var k :| 0 <= k < |ledger| && ledger[k].filename == e.filename;
    assert longer[k] == ledger[k];
    assert e.filename[..4] == e.filename[..5][..4] == e.version;
    assert VersionPrefix(longer[k].filename) == Some(e.version);
  }

  /** With a valid manifest, a finished run leaves the database ready, and so does every later run. */
  lemma FinishedRunIsReady(manifest: Manifest, d: Dir, fault: string -> Fault, s: State, later: seq<Run>)
    requires RealDir(d) && ManifestValid(Some(manifest), d) && KeyedLedger(s.ledger) && forall r <- later :: RealRun(r)
    requires (forall f <- SortedSql(d.listing) :: f in d.text) && RunAll(d, fault, s).1.Applied?
    ensures var ledger := AfterRuns(RunAll(d, fault, s).0, later).ledger;
            Evaluate(AppliedVersions(ledger), Versions(manifest.migrations.value)).pass
  {
    var entries := manifest.migrations.value;
    var done := RunAll(d, fault, s).0;
    SortedSqlIs(d.listing);
    SuccessRecordsAll(SortedSql(d.listing), d, fault, s, [], []);
    FinishedRunKeepsKeys(d, fault, s);
    LedgerIsAppendOnly(done, later);
    var ledger := AfterRuns(done, later).ledger;
    forall i | 0 <= i < |entries| ensures entries[i].version in AppliedVersions(ledger) {
      assert EntryOk(entries[i], d) && entries[i].filename in SortedSql(d.listing);
      RecordedVersionIsApplied(entries[i], d, done.ledger, ledger);
    }
    assert forall v <- Versions(entries) :: exists i :: 0 <= i < |entries| && entries[i].version == v;
    MissingIs(Versions(entries), AppliedVersions(ledger));
  }
}
