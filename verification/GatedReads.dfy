/**
  The gate and the index together: what a read that the gate admits is served from. The files the gate stats are
  the files the index check reads, and a file that keeps its stamp keeps its content.
 */
module GatedReads {
  import opened Common
  import opened Ledger
  import opened CanonicalIo
  import opened LexicalIndex
  import GateCache

  /** How paths are named, and what the content of a file says. */
  datatype Reading = Reading(
    nameOf: Target -> GateCache.Path,
    databasePath: GateCache.Path,
    healthPath: GateCache.Path,
    linesAt: (Target, GateCache.Stamp) -> seq<Line>,
    databaseAt: GateCache.Stamp -> Database,
    healthAt: GateCache.Stamp -> Option<Health>,
    ledgerOf: GateCache.Files -> Ledger)

  /** The ledger of some files is what its canonical files say. */
  ghost predicate ReadsLedger(r: Reading, files: GateCache.Files, target: Target) {
    var ledger, path := r.ledgerOf(files), r.nameOf(target);
    (target in ledger.files <==> path in files)
    && (target in ledger.files ==> ledger.files[target] == r.linesAt(target, files[path]))
  }

  ghost predicate Consistent(r: Reading) {
    forall files: GateCache.Files, target: Target :: ReadsLedger(r, files, target)
  }

  /** The two files that are inspected besides the canonical ones. */
  function Derived(r: Reading): set<GateCache.Path> {
    {r.databasePath, r.healthPath}
  }

  function DatabaseOf(r: Reading, files: GateCache.Files): Option<Database> {
    if r.databasePath in files then Some(r.databaseAt(files[r.databasePath])) else None
  }

  function HealthOf(r: Reading, files: GateCache.Files): Option<Health> {
    if r.healthPath in files then r.healthAt(files[r.healthPath]) else None
  }

  /** The full check of the index, as a function of the files it looks at. */
  function FullCheck(r: Reading): GateCache.Files -> bool {
    files => StateOfIndex(DatabaseOf(r, files), HealthOf(r, files), Sha256(r.ledgerOf(files))) == Current
  }

  /** The ledger at each moment of a history of files. */
  function Ledgers(r: Reading, history: seq<GateCache.Files>): (ledgers: seq<Ledger>)
    ensures |ledgers| == |history| && forall i | 0 <= i < |history| :: ledgers[i] == r.ledgerOf(history[i])
  {
    seq(|history|, i requires 0 <= i < |history| => r.ledgerOf(history[i]))
  }

  // ----- Only publications change the database -----

  /** From one moment to the next the database stays, goes, or is published by some run of the index builder. */
  ghost predicate DatabaseMoves(r: Reading, history: seq<GateCache.Files>, i: nat)
    requires i + 1 < |history|
  {
    || DatabaseOf(r, history[i + 1]) == DatabaseOf(r, history[i])
    || DatabaseOf(r, history[i + 1]) == None
    || PublishedBySome(Ledgers(r, history)[..i + 1], DatabaseOf(r, history[i + 1]))
  }

  ghost predicate PublishedBySome(ledgers: seq<Ledger>, database: Option<Database>) {
    exists course: Course :: CourseOk(ledgers, course) && PublishedBy(ledgers, course, database)
  }

  /** A project that begins without an index, with writers that only append and builders that publish. */
  ghost predicate ProjectHistory(r: Reading, history: seq<GateCache.Files>) {
    && history != [] && DatabaseOf(r, history[0]) == None
    && Growing(Ledgers(r, history))
    && (forall i | 0 <= i < |history| - 1 :: DatabaseMoves(r, history, i))
  }

  lemma WasLater(ledgers: seq<Ledger>, n: nat, m: nat, ledger: Ledger)
    requires n <= m <= |ledgers| && Was(ledgers[..n], ledger)
    ensures Was(ledgers[..m], ledger)
  {
    var i :| 0 <= i < n && ledgers[..n][i] == ledger;
    assert ledgers[..m][i] == ledger;
  }

  lemma PublishedWas(ledgers: seq<Ledger>, database: Option<Database>)
    requires PublishedBySome(ledgers, database)
    ensures DatabaseOk(ledgers, database)
  {
    var course: Course :| CourseOk(ledgers, course) && PublishedBy(ledgers, course, database);
    assert ledgers[course.scan.value.to] == database.value.built;
  }

  /** At every moment the database was built from a ledger of that or an earlier moment. */
  lemma {:induction false} DatabaseStaysOk(r: Reading, history: seq<GateCache.Files>, i: nat)
    requires ProjectHistory(r, history) && i < |history|
    ensures DatabaseOk(Ledgers(r, history)[..i + 1], DatabaseOf(r, history[i]))
  {
    if i > 0 {
      DatabaseStaysOk(r, history, i - 1);
      var ledgers := Ledgers(r, history);
      var database := DatabaseOf(r, history[i]);
      assert DatabaseMoves(r, history, i - 1);
      if database.Some? && database.value.fingerprint.Some? {
        if database != DatabaseOf(r, history[i - 1]) { PublishedWas(ledgers[..i], database); }
        WasLater(ledgers, i, i + 1, database.value.built);
      }
    }
  }

  // ----- A look of the gate is a scan of the ledger -----

  lemma LookIsScan(r: Reading, history: seq<GateCache.Files>, look: GateCache.Look)
    requires Consistent(r) && GateCache.Looked(history, look)
    ensures Scanned(Ledgers(r, history), Scan(look.from, look.to, r.ledgerOf(look.seen)))
  {
    var ledgers, scan := Ledgers(r, history), Scan(look.from, look.to, r.ledgerOf(look.seen));
    forall t ensures SeenSometime(ledgers, scan, t) {
      var path := r.nameOf(t);
      assert GateCache.SeenSometime(history, look, path);
      var listed: nat, at: nat :| GateCache.SeenFile(history, look, path, listed, at);
      assert ReadsLedger(r, look.seen, t) && ReadsLedger(r, history[listed], t) && ReadsLedger(r, history[at], t);
      assert SeenFile(ledgers, scan, t, listed, at);
    }
  }

  /** The database a look has seen was there at some moment of it. */
  lemma DatabaseSeen(r: Reading, history: seq<GateCache.Files>, look: GateCache.Look) returns (at: nat)
    requires GateCache.Looked(history, look) && DatabaseOf(r, look.seen).Some?
    ensures look.from <= at <= look.to < |history| && DatabaseOf(r, history[at]) == DatabaseOf(r, look.seen)
  {
    assert GateCache.SeenSometime(history, look, r.databasePath);
    var listed: nat, when: nat :| GateCache.SeenFile(history, look, r.databasePath, listed, when);
    at := when;
  }

  lemma OkLater(ledgers: seq<Ledger>, n: nat, database: Option<Database>)
    requires n <= |ledgers| && DatabaseOk(ledgers[..n], database)
    ensures DatabaseOk(ledgers, database)
  {
    if database.Some? && database.value.fingerprint.Some? {
      WasLater(ledgers, n, |ledgers|, database.value.built);
      assert ledgers[..|ledgers|] == ledgers;
    }
  }

  /** During the call there was a sound database of this release that holds the ledger as it was during the call. */
  ghost predicate ServedPresent(r: Reading, history: seq<GateCache.Files>, from: nat, to: nat) {
    exists at: nat, when: nat ::
      from <= at <= to && from <= when <= to && HoldsLedgerOf(r, history, at, when)
  }

  predicate HoldsLedgerOf(r: Reading, history: seq<GateCache.Files>, at: nat, when: nat) {
    && at < |history| && when < |history|
    && DatabaseOf(r, history[at]).Some?
    && var database := DatabaseOf(r, history[at]).value;
    && database.readable && database.integrity && database.schema && database.built == r.ledgerOf(history[when])
  }

  /** A full check that passes proves it of the files it looked at. */
  lemma PassedCheckServesPresent(r: Reading, history: seq<GateCache.Files>, look: GateCache.Look)
    requires Consistent(r) && ProjectHistory(r, history) && GateCache.Looked(history, look) && FullCheck(r)(look.seen)
    ensures ServedPresent(r, history, look.from, look.to)
  {
    var ledgers := Ledgers(r, history);
    var scan := Scan(look.from, look.to, r.ledgerOf(look.seen));
    LookIsScan(r, history, look);
    var at := DatabaseSeen(r, history, look);
    DatabaseStaysOk(r, history, at);
    OkLater(ledgers, at + 1, DatabaseOf(r, history[at]));
    CurrentIsPresent(ledgers, scan, DatabaseOf(r, look.seen), HealthOf(r, look.seen));
    var k :| scan.from <= k <= scan.to < |ledgers| && ledgers[k] == DatabaseOf(r, look.seen).value.built;
    assert HoldsLedgerOf(r, history, at, k);
  }

  /**
    A read that the cached gate admits, in any interleaving of calls, appends, publications and health records with
    fresh stamps: at a moment of that very call the database was readable, whole and of this release, and held the
    ledger as it was at a moment of that call.
   */
  lemma AdmittedReadIsPresent(r: Reading, history: seq<GateCache.Files>, calls: seq<GateCache.Call>, k: nat)
    requires Consistent(r) && ProjectHistory(r, history)
    requires GateCache.FreshHistory(history) && GateCache.OnlyInspected(history, Derived(r))
    requires GateCache.InOrder(history, Derived(r), calls) && k < |calls|
    requires GateCache.Gated(GateCache.CacheBefore(calls, k, FullCheck(r)), calls[k], FullCheck(r)).0
    ensures ServedPresent(r, history, GateCache.Begins(calls[k]), calls[k].check.to)
  {
    var from, to := GateCache.Begins(calls[k]), calls[k].check.to;
    GateCache.CachedGateRefinesFullCheck(history, Derived(r), calls, FullCheck(r), k);
    var look: GateCache.Look :|
      from <= look.from && look.to <= to && GateCache.Looked(history, look) && FullCheck(r)(look.seen);
    PassedCheckServesPresent(r, history, look);
    var at: nat, when: nat :| look.from <= at <= look.to && look.from <= when <= look.to && HoldsLedgerOf(r, history, at, when);
    assert HoldsLedgerOf(r, history, at, when);
  }
}
