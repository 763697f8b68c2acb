/**
  Publishing the derived lexical index beside concurrent appends. A fingerprint and a builder read the ledger
  one file at a time, so neither sees a moment of the ledger; what they see is tied to the history of a ledger
  that only grows.
 */
module LexicalIndex {
  import opened Common
  import opened Ledger
  import opened CanonicalIo
  import opened IngestProtocol
  import opened IngestTheorems
  import Fingerprint

  // ----- Scans of a growing ledger -----

  /** A history of the canonical ledger, moment by moment. */
  ghost predicate Growing(history: seq<Ledger>) {
    forall i, j {:trigger Grows(history[i], history[j])} | 0 <= i <= j < |history| :: Grows(history[i], history[j])
  }

  /** What a reader saw between two moments. */
  datatype Scan = Scan(from: nat, to: nat, seen: Ledger)

  /** The file was looked for at one moment of the scan and, if it was there, read at a later one. */
  ghost predicate SeenFile(history: seq<Ledger>, scan: Scan, target: Target, looked: nat, read: nat) {
    && scan.from <= looked <= read <= scan.to < |history|
    && (target in scan.seen.files <==> target in history[looked].files)
    && (target in scan.seen.files ==>
          target in history[read].files && scan.seen.files[target] == history[read].files[target])
  }

  ghost predicate SeenSometime(history: seq<Ledger>, scan: Scan, target: Target) {
    exists looked, read :: SeenFile(history, scan, target, looked, read)
  }

  ghost predicate Scanned(history: seq<Ledger>, scan: Scan) {
    scan.from <= scan.to < |history| && forall target :: SeenSometime(history, scan, target)
  }

  lemma SameLedger(a: Ledger, b: Ledger)
    requires forall t :: (t in a.files <==> t in b.files) && (t in a.files ==> a.files[t] == b.files[t])
    ensures a == b
  {
    assert a.files.Keys == b.files.Keys;
    assert a.files == b.files;
  }

  lemma GrowsAt(history: seq<Ledger>, i: nat, j: nat, target: Target)
    requires Growing(history) && i <= j < |history|
    ensures FileGrows(history[i], history[j], target)
  {
    assert Grows(history[i], history[j]);
  }

  /** The content of a file that is the same at two moments is the same between them. */
  lemma Sandwiched(history: seq<Ledger>, i: nat, m: nat, j: nat, target: Target)
    requires Growing(history) && i <= m <= j < |history|
    requires target in history[i].files && target in history[j].files && history[i].files[target] == history[j].files[target]
    ensures target in history[m].files && history[m].files[target] == history[i].files[target]
  {
    GrowsAt(history, i, m, target);
    GrowsAt(history, m, j, target);
  }

  /** Two scans with one result, one after the other: the ledger did not move between them. */
  lemma NothingMovedBetween(history: seq<Ledger>, first: Scan, second: Scan, m: nat)
    requires Growing(history) && Scanned(history, first) && Scanned(history, second)
    requires first.seen == second.seen && first.to <= m <= second.from
    ensures history[m] == first.seen
  {
    forall t ensures (t in history[m].files <==> t in first.seen.files)
        && (t in first.seen.files ==> history[m].files[t] == first.seen.files[t])
    {
      assert SeenSometime(history, first, t) && SeenSometime(history, second, t);
      var looked1: nat, read1: nat :| SeenFile(history, first, t, looked1, read1);
      var looked2: nat, read2: nat :| SeenFile(history, second, t, looked2, read2);
      if t in first.seen.files {
        Sandwiched(history, read1, m, read2, t);
      } else {
        GrowsAt(history, m, looked2, t);
      }
    }
    SameLedger(history[m], first.seen);
  }

  /**
    A builder that ran between two scans with equal fingerprints read exactly the fingerprinted ledger, which
    was the ledger at every moment from the end of the first scan to the beginning of the second.
   */
  lemma BuilderSawTheFingerprint(history: seq<Ledger>, first: Scan, build: Scan, second: Scan)
    requires Growing(history) && Scanned(history, first) && Scanned(history, build) && Scanned(history, second)
    requires Sha256(first.seen) == Sha256(second.seen) && first.to <= build.from && build.to <= second.from
    ensures build.seen == first.seen
    ensures forall m | first.to <= m <= second.from :: history[m] == first.seen
  {
    forall m | first.to <= m <= second.from ensures history[m] == first.seen {
      NothingMovedBetween(history, first, second, m);
    }
    forall t ensures (t in build.seen.files <==> t in first.seen.files)
        && (t in build.seen.files ==> build.seen.files[t] == first.seen.files[t])
    {
      assert SeenSometime(history, build, t);
      var looked: nat, read: nat :| SeenFile(history, build, t, looked, read);
      assert history[looked] == first.seen && history[read] == first.seen;
    }
    SameLedger(build.seen, first.seen);
  }

  /** If a scan saw what the ledger was at any moment at all, the ledger was that at a moment of the scan. */
  lemma ScanMeetsMoment(history: seq<Ledger>, scan: Scan, m: nat) returns (k: nat)
    requires Growing(history) && Scanned(history, scan) && m < |history| && history[m] == scan.seen
    ensures scan.from <= k <= scan.to && history[k] == scan.seen
  {
    k := if m < scan.from then scan.from else if m > scan.to then scan.to else m;
    forall t ensures (t in history[k].files <==> t in scan.seen.files)
        && (t in scan.seen.files ==> history[k].files[t] == scan.seen.files[t])
    {
      assert SeenSometime(history, scan, t);
      var looked: nat, read: nat :| SeenFile(history, scan, t, looked, read);
      if t in scan.seen.files {
        if m < k { Sandwiched(history, m, k, read, t); }
        if k < m { Sandwiched(history, read, k, m, t); }
      } else {
        if m < k { GrowsAt(history, k, looked, t); }
        if k < m { GrowsAt(history, k, m, t); }
      }
    }
    SameLedger(history[k], scan.seen);
  }

  // ----- The index files -----

  /** A database file: the fingerprint recorded in it, what it was built from, and what its checks say. */
  datatype Database = Database(
    fingerprint: Option<Digest<Ledger>>, built: Ledger, readable: bool, integrity: bool, schema: bool, searchable: bool)

  datatype HealthStatus = Succeeded | StaleHealth | FailedHealth | Partially

  datatype Health = Health(status: HealthStatus, revision: Option<Digest<Ledger>>)

  datatype IndexState = Missing | Corrupt | Stale | Current

  predicate FailedNow(health: Option<Health>, now: Digest<Ledger>) {
    health.Some? && health.value.revision == Some(now) && !health.value.status.Succeeded?
  }

  function StateOfIndex(database: Option<Database>, health: Option<Health>, now: Digest<Ledger>): IndexState {
    if database.None? then Missing
    else if !database.value.readable then Corrupt
    else if database.value.integrity && database.value.schema && database.value.fingerprint == Some(now) && !FailedNow(health, now)
    then Current
    else Stale
  }

  /** A database that can be read, is whole, and has the tables and the version of this release. */
  predicate Serviceable(database: Database) {
    database.readable && database.integrity && database.schema
  }

  /** The verification of a database against an expected fingerprint. */
  predicate Verifies(database: Option<Database>, expected: Digest<Ledger>) {
    database.Some? && database.value.readable && database.value.integrity && database.value.schema
    && database.value.searchable && database.value.fingerprint == Some(expected)
  }

  /** A database that carries a fingerprint was built from a moment of the ledger, and carries its fingerprint. */
  ghost predicate DatabaseOk(history: seq<Ledger>, database: Option<Database>) {
    database.Some? && database.value.fingerprint.Some? ==>
      database.value.fingerprint == Some(Sha256(database.value.built)) && Was(history, database.value.built)
  }

  ghost predicate Was(history: seq<Ledger>, ledger: Ledger) {
    exists m | 0 <= m < |history| :: history[m] == ledger
  }

  /** The database holds the ledger as it was at some moment of the scan. */
  ghost predicate PresentDuring(history: seq<Ledger>, scan: Scan, built: Ledger) {
    exists k :: scan.from <= k <= scan.to < |history| && history[k] == built
  }

  lemma CurrentIsPresent(history: seq<Ledger>, scan: Scan, database: Option<Database>, health: Option<Health>)
    requires Growing(history) && Scanned(history, scan) && DatabaseOk(history, database)
    requires StateOfIndex(database, health, Sha256(scan.seen)) == Current
    ensures database.value.built == scan.seen && PresentDuring(history, scan, database.value.built)
    ensures Serviceable(database.value) && database.value.fingerprint == Some(Sha256(scan.seen))
  {
    var m :| 0 <= m < |history| && history[m] == database.value.built;
    var k := ScanMeetsMoment(history, scan, m);
  }

  // ----- Building and publishing -----

  /** What the builder left in the staging file. */
  datatype Staged = Staged(built: Scan, readable: bool, integrity: bool, schema: bool, searchable: bool)

  /** What happens to one call: each scan and the build may raise, and so may the writes at the end. */
  datatype Course = Course(
    atStatus: Option<Scan>, scan: Option<Scan>, sourcesValid: bool, staged: Option<Staged>, after: Option<Scan>,
    synced: bool, published: bool, healthWritten: bool, failureWritten: bool)

  predicate BuildsWell(c: Course)
    requires c.scan.Some?
  {
    && c.staged.Some? && c.after.Some? && c.after.value.seen == c.scan.value.seen && c.synced && c.published
    && c.staged.value.readable && c.staged.value.integrity && c.staged.value.schema && c.staged.value.searchable
  }

  /**
    A call that ends well: its scans and its last write succeed and the sources are valid; a current database
    verifies, any other is replaced by one that was built from an unchanged ledger and verifies.
   */
  predicate GoesWell(database: Option<Database>, health: Option<Health>, c: Course) {
    && c.atStatus.Some? && c.scan.Some? && c.sourcesValid && c.healthWritten
    && (if StateOfIndex(database, health, Sha256(c.atStatus.value.seen)) == Current
        then database.value.searchable && database.value.fingerprint == Some(Sha256(c.scan.value.seen))
        else BuildsWell(c))
  }

  ghost predicate ScannedIf(history: seq<Ledger>, scan: Option<Scan>) {
    scan.Some? ==> Scanned(history, scan.value)
  }

  /** The scans of a call are made one after the other, in the history so far. */
  ghost predicate CourseOk(history: seq<Ledger>, c: Course) {
    && ScannedIf(history, c.atStatus) && ScannedIf(history, c.scan) && ScannedIf(history, c.after)
    && (c.staged.Some? ==> Scanned(history, c.staged.value.built))
    && (c.scan.Some? && c.staged.Some? ==> c.scan.value.to <= c.staged.value.built.from)
    && (c.staged.Some? && c.after.Some? ==> c.staged.value.built.to <= c.after.value.from)
  }

  class Index {
    var database: Option<Database>
    var health: Option<Health>

    constructor ()
      ensures database == None && health == None
    {
      database, health := None, None;
    }

    /** `Current` is reported only when the database was built from the ledger as it was during this very check. */
    method IndexStatus(ghost history: seq<Ledger>, scan: Scan) returns (state: IndexState)
      requires Growing(history) && Scanned(history, scan) && DatabaseOk(history, database)
      ensures state == StateOfIndex(database, health, Sha256(scan.seen))
      ensures state == Missing <==> database == None
      ensures state == Corrupt <==> database.Some? && !database.value.readable
      ensures state == Current <==>
        && database.Some? && database.value.readable && database.value.integrity && database.value.schema
        && database.value.fingerprint == Some(Sha256(scan.seen))
        && (health.Some? && health.value.revision == Some(Sha256(scan.seen)) ==> health.value.status == Succeeded)
      ensures state == Current ==> PresentDuring(history, scan, database.value.built)
    {
      var failed := health.Some? && health.value.revision == Some(Sha256(scan.seen))
                    && health.value.status in [Partially, FailedHealth, StaleHealth];
      if database.None? {
        return Missing;
      }
      if !database.value.readable {
        return Corrupt;
      }
      var db := database.value;
      if db.integrity && db.fingerprint == Some(Sha256(scan.seen)) && db.schema && !failed {
        CurrentIsPresent(history, scan, database, health);
        return Current;
      }
      return Stale;
    }

    /** Everything under the error handler: whether it succeeded, and the status found at its start. */
    method TryEnsure(ghost history: seq<Ledger>, c: Course) returns (ok: bool, before: Option<IndexState>)
      requires Growing(history) && CourseOk(history, c) && DatabaseOk(history, database)
      modifies this
      ensures DatabaseOk(history, database)
      ensures database == old(database) || PublishedBy(history, c, database)
      ensures before.Some? <==> c.atStatus.Some?
      ensures before.Some? ==> before.value == StateOfIndex(old(database), old(health), Sha256(c.atStatus.value.seen))
      ensures ok ==> c.scan.Some? && StateOfIndex(database, health, Sha256(c.scan.value.seen)) == Current
      ensures ok ==> database.Some? && Serviceable(database.value) && database.value.searchable
      ensures ok ==> database.value.fingerprint == Some(Sha256(c.scan.value.seen))
      ensures ok ==> health == Some(Health(Succeeded, Some(Sha256(c.scan.value.seen))))
      ensures ok <==> GoesWell(old(database), old(health), c)
      ensures !ok ==> health == old(health)
    {
      ok, before := false, None;
      if c.atStatus.None? {
        return;
      }
      var state := IndexStatus(history, c.atStatus.value);
      before := Some(state);
      if c.scan.None? || !c.sourcesValid {
        return;
      }
      var fingerprint := Sha256(c.scan.value.seen);
      if state == Current {
        if !Verifies(database, fingerprint) || !c.healthWritten {
          return;
        }
        health := Some(Health(Succeeded, Some(fingerprint)));
        ok := true;
        return;
      }
      if c.staged.None? || c.after.None? || Sha256(c.after.value.seen) != fingerprint {
        return;
      }
      var staged := c.staged.value;
      BuilderSawTheFingerprint(history, c.scan.value, staged.built, c.after.value);
      assert history[c.scan.value.to] == staged.built.seen;
      var candidate := Some(Database(
        Some(fingerprint), staged.built.seen, staged.readable, staged.integrity, staged.schema, staged.searchable));
      if !Verifies(candidate, fingerprint) || !c.synced || !c.published {
        return;
      }
      database := candidate;
      if !c.healthWritten {
        return;
      }
      health := Some(Health(Succeeded, Some(fingerprint)));
      ok := true;
    }

    /**
      A call leaves the old database in place or replaces it, all at once, by one that was built from the ledger
      at a moment of the call. After a success the index is current for the fingerprint of the call; after a
      failure that could be recorded it is not, even if the database was replaced.
     */
    method EnsureLexicalIndex(ghost history: seq<Ledger>, c: Course) returns (ok: bool)
      requires Growing(history) && CourseOk(history, c) && DatabaseOk(history, database)
      modifies this
      ensures DatabaseOk(history, database)
      ensures database == old(database) || PublishedBy(history, c, database)
      ensures ok ==> c.scan.Some? && StateOfIndex(database, health, Sha256(c.scan.value.seen)) == Current
      ensures ok ==> database.Some? && Serviceable(database.value) && database.value.searchable
      ensures ok ==> database.value.fingerprint == Some(Sha256(c.scan.value.seen))
      ensures ok ==> health == Some(Health(Succeeded, Some(Sha256(c.scan.value.seen))))
      ensures ok <==> GoesWell(old(database), old(health), c)
      ensures !ok && c.failureWritten && c.atStatus.Some? && c.scan.Some? ==>
        StateOfIndex(database, health, Sha256(c.scan.value.seen)) != Current
      ensures !ok && c.failureWritten ==> health.Some?
      ensures !ok && c.failureWritten ==>
        (health.value.status == StaleHealth <==>
          c.atStatus.Some? && old(database).Some? && old(database).value.readable && old(database).value.integrity)
      ensures !ok && c.failureWritten ==> health.value.status != Succeeded
      ensures !ok && !c.failureWritten ==> health == old(health)
    {
      var before;
      ghost var first := database;
      var integrity := database.Some? && database.value.integrity;
      ok, before := TryEnsure(history, c);
      if !ok && c.failureWritten {
        var usable := database.Some? && before.Some? && before.value in [Current, Stale] && integrity;
        var revision := if c.atStatus.Some? && c.scan.Some? then Some(Sha256(c.scan.value.seen)) else None;
        health := Some(Health(if usable then StaleHealth else FailedHealth, revision));
      }
    }
  }

  /** The database is new: it verifies, and is exactly the ledger at every moment between its two fingerprints. */
  ghost predicate PublishedBy(history: seq<Ledger>, c: Course, database: Option<Database>) {
    && c.scan.Some? && c.after.Some?
    && database.Some? && database.value.readable && database.value.integrity && database.value.schema
    && database.value.searchable && database.value.fingerprint == Some(Sha256(c.scan.value.seen))
    && database.value.built == c.scan.value.seen
    && c.scan.value.to <= c.after.value.from < |history|
    && forall m | c.scan.value.to <= m <= c.after.value.from :: history[m] == database.value.built
  }

  // ----- Any number of builders beside any number of writers -----

  /** The project as its readers see it: the history so far, and the published database. */
  datatype World = World(history: seq<Ledger>, database: Option<Database>)

  datatype Change = Appended(ledger: Ledger) | Published(course: Course, database: Database) | Removed

  ghost predicate Allowed(w: World, change: Change) {
    match change
    case Appended(ledger) => w.history != [] && Grows(w.history[|w.history| - 1], ledger)
    case Published(course, database) => CourseOk(w.history, course) && PublishedBy(w.history, course, Some(database))
    case Removed => true
  }

  function Changed(w: World, change: Change): World {
    match change
    case Appended(ledger) => w.(history := w.history + [ledger])
    case Published(_, database) => w.(database := Some(database))
    case Removed => w.(database := None)
  }

  function After(w: World, changes: seq<Change>): World
    decreases |changes|
  {
    if changes == [] then w else After(Changed(w, changes[0]), changes[1..])
  }

  ghost predicate AllAllowed(w: World, changes: seq<Change>)
    decreases |changes|
  {
    changes == [] || (Allowed(w, changes[0]) && AllAllowed(Changed(w, changes[0]), changes[1..]))
  }

  lemma GrowsReflexive(ledger: Ledger)
    ensures Grows(ledger, ledger)
  {
    forall t ensures FileGrows(ledger, ledger, t) {}
  }

  lemma GrowingMore(history: seq<Ledger>, ledger: Ledger)
    requires Growing(history) && history != [] && Grows(history[|history| - 1], ledger)
    ensures Growing(history + [ledger])
  {
    var more := history + [ledger];
    forall i, j | 0 <= i <= j < |more| ensures Grows(more[i], more[j]) {
      if j == |history| && i < j {
        assert Grows(history[i], history[|history| - 1]);
        GrowsTransitive(history[i], history[|history| - 1], ledger);
      } else if i == |history| {
        GrowsReflexive(ledger);
      }
    }
  }

  lemma ChangeKeeps(w: World, change: Change)
    requires Growing(w.history) && DatabaseOk(w.history, w.database) && Allowed(w, change)
    ensures var w' := Changed(w, change); Growing(w'.history) && DatabaseOk(w'.history, w'.database)
  {
    match change
    case Appended(ledger) =>
      GrowingMore(w.history, ledger);
      if w.database.Some? && w.database.value.fingerprint.Some? {
        var m :| 0 <= m < |w.history| && w.history[m] == w.database.value.built;
        assert (w.history + [ledger])[m] == w.database.value.built;
      }
    case Published(course, database) =>
      assert w.history[course.scan.value.to] == database.built;
    case Removed =>
  }

  lemma {:induction false} ChangesKeep(w: World, changes: seq<Change>)
    requires Growing(w.history) && DatabaseOk(w.history, w.database) && AllAllowed(w, changes)
    ensures var w' := After(w, changes); Growing(w'.history) && DatabaseOk(w'.history, w'.database)
    decreases |changes|
  {
    if changes != [] {
      ChangeKeeps(w, changes[0]);
      ChangesKeep(Changed(w, changes[0]), changes[1..]);
    }
  }

  /**
    From a project without an index, with builders publishing at any time and writers appending at any time: a
    status check that finds the index current proves that the database was built from a ledger identical to the
    one that was there during the check.
   */
  lemma CurrentMeansPresentLedger(first: Ledger, changes: seq<Change>, scan: Scan, health: Option<Health>)
    requires AllAllowed(World([first], None), changes)
    requires var w := After(World([first], None), changes);
      Scanned(w.history, scan) && StateOfIndex(w.database, health, Sha256(scan.seen)) == Current
    ensures var w := After(World([first], None), changes);
      && w.database.value.built == scan.seen && PresentDuring(w.history, scan, w.database.value.built)
      && w.database.value.readable && w.database.value.integrity && w.database.value.schema
  {
    GrowsReflexive(first);
    ChangesKeep(World([first], None), changes);
    var w := After(World([first], None), changes);
    CurrentIsPresent(w.history, scan, w.database, health);
  }

  // ----- The growing history is the one the writers make -----

  function LedgerHistory(start: State, events: seq<Event>): (history: seq<Ledger>)
    ensures |history| == |events| + 1
  {
    seq(|events| + 1, i requires 0 <= i <= |events| => Run(start, events[..i]).ledger)
  }

  /** Every run of the commit protocol, crashes and all, makes a growing history. */
  lemma RunsMakeGrowingHistories(base: Ledger, artifacts: Artifacts, clock: int, events: seq<Event>)
    ensures Growing(LedgerHistory(Start(base, artifacts, clock), events))
  {
    var history := LedgerHistory(Start(base, artifacts, clock), events);
    forall i, j | 0 <= i <= j < |history| ensures Grows(history[i], history[j]) {
      OnlyAppends(base, artifacts, clock, events[..i], events[i..j]);
      assert events[..i] + events[i..j] == events[..j];
    }
  }

  // ----- The fingerprint determines the ledger -----

  /** The files of a ledger in an order, under an encoding of paths and of JSONL text. */
  function Listing(
    ledger: Ledger, order: seq<Target>, name: Target -> seq<Byte>, text: seq<Line> -> seq<Byte>)
    : seq<Fingerprint.CanonicalFile>
  {
    seq(|order|, i requires 0 <= i < |order| => Fingerprint.CanonicalFile(name(order[i]), text(Lines(ledger, order[i]))))
  }

  ghost predicate Lists(order: seq<Target>, ledger: Ledger) {
    forall t :: t in order <==> t in ledger.files
  }

  /** With paths and text encoded injectively, equal hashed bytes mean equal ledgers. */
  lemma EqualFingerprintsMeanEqualLedgers(
    a: Ledger, orderA: seq<Target>, b: Ledger, orderB: seq<Target>,
    name: Target -> seq<Byte>, text: seq<Line> -> seq<Byte>)
    requires Lists(orderA, a) && Lists(orderB, b)
    requires forall t, u :: name(t) == name(u) ==> t == u
    requires forall l, m :: text(l) == text(m) ==> l == m
    requires Fingerprint.Encodable(Listing(a, orderA, name, text)) && Fingerprint.Encodable(Listing(b, orderB, name, text))
    requires Fingerprint.Preimage(Listing(a, orderA, name, text)) == Fingerprint.Preimage(Listing(b, orderB, name, text))
    ensures a == b
  {
    var listA, listB := Listing(a, orderA, name, text), Listing(b, orderB, name, text);
    Fingerprint.EqualPreimagesMeanEqualFiles(listA, listB);
    assert |orderA| == |orderB|;
    forall i | 0 <= i < |orderA| ensures orderA[i] == orderB[i] && Lines(a, orderA[i]) == Lines(b, orderA[i]) {
      assert listA[i] == listB[i];
      assert name(orderA[i]) == name(orderB[i]);
      assert text(Lines(a, orderA[i])) == text(Lines(b, orderB[i]));
    }
    assert orderA == orderB;
    forall t ensures (t in a.files <==> t in b.files) && (t in a.files ==> a.files[t] == b.files[t]) {
      assert t in orderA <==> t in a.files;
    }
    SameLedger(a, b);
  }
}
