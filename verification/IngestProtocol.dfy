/**
  The ingest commit protocol as a step system. One event is one file write of the lock holder (with the
  way it ended), or a step of the world around it: another writer taking the lock, an administrator
  clearing the lock of a dead holder, a draft or receipt being created, a source file changing, time passing.
 */
module IngestProtocol {
  import opened Common
  import opened Ledger
  import opened CanonicalIo

  /** A file made by a plain create: it may be left half written when the writer dies. */
  datatype File<+T> = Whole(value: T) | Torn

  /** The files of one directory. */
  datatype Files<T> = Files(entries: map<string, File<T>>) {
    predicate Has(name: string) { name in entries }

    predicate IsWhole(name: string) { name in entries && entries[name].Whole? }

    function Value(name: string): T
      requires IsWhole(name)
    {
      entries[name].value
    }

    function Put(name: string, file: File<T>): Files<T> {
      Files(entries[name := file])
    }
  }

  datatype Status = Prepared | ApplyingOps | CanonicalCommitted | FailedRecoverable | Committed

  /** An immutable draft, with the digest of the canonical head it was prepared on. */
  datatype Draft = Draft(id: string, head: Ledger, approvalRef: string, record: Record, registrations: seq<Registration>)

  /** The write-ahead journal of one draft. */
  datatype Journal = Journal(
    status: Status, draftId: string, draftSha: Digest<Draft>, receiptId: string, ops: seq<Op>, applied: nat)

  datatype Consumption = Consumption(draftSha: Digest<Draft>, receiptId: string)

  /** A host receipt. The draft digest determines the head and the record ID it also binds. */
  datatype Receipt = Receipt(draftSha: Digest<Draft>, expires: int)

  datatype Mark = Mark(receiptId: string, receipt: Receipt)

  datatype Args = Args(draftId: string, draftSha: Digest<Draft>, receiptId: string)

  /** The administrator's single-file writers. */
  datatype Command =
    | AppendRecord(record: Record, approvalRef: string, bootstrap: bool)
    | RegisterSource(sourceId: string, path: string, sourceType: string)

  /** The memory of the process that holds the lock. */
  datatype Process =
    | Idle
    | Checking(args: Args)
    | Fresh(args: Args, tx: Journal)
    | Ready(args: Args, tx: Journal)
    | Granted(args: Args, tx: Journal)
    | Applying(args: Args, tx: Journal, k: nat)
    | Counting(args: Args, tx: Journal, k: nat)
    | Closing(args: Args, tx: Journal)
    | Marking(args: Args, tx: Journal)
    | Failing(args: Args, tx: Journal)
    | Finishing(args: Args, tx: Journal)
    | Validating(command: Command)
    | Appending(op: Op)
    | Releasing

  datatype Origin = FromDraft(draftId: string, op: nat) | FromCommand

  /** One append that really changed a canonical file. */
  datatype Entry = Entry(origin: Origin, target: Target, lines: seq<Line>)

  /** Every append since the start, in order. */
  datatype Log = Log(entries: seq<Entry>)

  datatype State = State(
    ledger: Ledger,
    drafts: Files<Draft>,
    journals: Files<Journal>,
    consumed: Files<Consumption>,
    receipts: Files<Receipt>,
    marks: Files<Mark>,
    artifacts: Artifacts,
    locked: bool,
    clock: int,
    process: Process,
    log: Log)

  /** What is on disk when a write did not simply succeed. */
  datatype Effect = Nothing | Partial | Complete

  /** How a step of the holder ends: it succeeds, it raises an I/O error, or the process dies. */
  datatype Outcome = Go | Raise(effect: Effect) | Crash(effect: Effect)

  datatype Event =
    | Commit(args: Args)
    | Administer(command: Command)
    | Hold(outcome: Outcome)
    | ClearLock
    | PutDraft(draft: Draft, whole: bool)
    | IssueReceipt(receiptId: string, draftSha: Digest<Draft>, expires: int, whole: bool)
    | ChangeArtifact(path: string, content: Option<string>)
    | Pass(time: nat)

  // ----- The approval store -----

  /** The binding a receipt may authorize: the draft is pending, readable, has this digest, and its record has an ID. */
  predicate Bound(s: State, id: string, sha: Digest<Draft>) {
    !s.consumed.Has(id) && s.drafts.IsWhole(id) && Sha256(s.drafts.Value(id)) == sha
    && s.drafts.Value(id).record.recordId != ""
  }

  predicate ReceiptMatches(s: State, args: Args) {
    s.receipts.IsWhole(args.receiptId) && s.receipts.Value(args.receiptId).draftSha == args.draftSha
  }

  predicate Unexpired(s: State, receiptId: string)
    requires s.receipts.IsWhole(receiptId)
  {
    s.clock < s.receipts.Value(receiptId).expires
  }

  /** An expired receipt is admitted when it was consumed before. */
  predicate Verified(s: State, args: Args) {
    Bound(s, args.draftId, args.draftSha) && ReceiptMatches(s, args)
    && (Unexpired(s, args.receiptId) || s.marks.Has(args.receiptId))
  }

  function MarkOf(s: State, receiptId: string): Mark
    requires s.receipts.IsWhole(receiptId)
  {
    Mark(receiptId, s.receipts.Value(receiptId))
  }

  // ----- Reading phase of a commit -----

  predicate SourcesUnchanged(s: State, draft: Draft) {
    forall source | source in draft.registrations ::
      source.path in s.artifacts.content && s.artifacts.content[source.path] == source.sha
  }

  /** The record check of a draft, against the manifest with the staged sources added. */
  predicate DraftRecordOk(s: State, draft: Draft) {
    && draft.record.kind != "approval"
    && draft.approvalRef != "" && draft.approvalRef in draft.record.approvalRefs
    && CandidateOk(s.ledger, Lines(s.ledger, Sources) + SourceLines(draft.registrations), s.artifacts, draft.record)
  }

  /** The operations of a new journal: the source lines, if any, and then the record. */
  function OpsFor(ledger: Ledger, draft: Draft): seq<Op>
    requires draft.record.day.Some?
  {
    (if draft.registrations != [] then [PrepareAppend(ledger, Sources, SourceLines(draft.registrations))] else [])
    + [PrepareAppend(ledger, Daily(draft.record.day.value), [RecordLine(draft.record)])]
  }

  function NewJournal(s: State, args: Args): Journal
    requires args.draftSha.of.record.day.Some?
  {
    Journal(Prepared, args.draftId, args.draftSha, args.receiptId, OpsFor(s.ledger, args.draftSha.of), 0)
  }

  predicate Binds(tx: Journal, args: Args) {
    tx.draftId == args.draftId && tx.draftSha == args.draftSha && tx.receiptId == args.receiptId && tx.ops != []
  }

  predicate TargetsUntouched(ledger: Ledger, ops: seq<Op>) {
    forall op | op in ops :: StateOf(ledger, op) != Changed
  }

  /** Where the checks lead: a new journal, the resumed one, or a refusal. The resumed one is not revalidated. */
  function Admit(s: State, args: Args): Process {
    if !Bound(s, args.draftId, args.draftSha) || !SourcesUnchanged(s, args.draftSha.of) || !Verified(s, args) then
      Releasing
    else if !s.journals.Has(args.draftId) then
      if args.draftSha.of.head == s.ledger && DraftRecordOk(s, args.draftSha.of) && args.draftSha.of.record.day.Some?
      then Fresh(args, NewJournal(s, args))
      else Releasing
    else if !s.journals.IsWhole(args.draftId) then Releasing
    else
      var tx := s.journals.Value(args.draftId);
      if Binds(tx, args) && TargetsUntouched(s.ledger, tx.ops) then Ready(args, tx) else Releasing
  }

  // ----- File writes -----

  /** A plain create that did not simply succeed. */
  function Created<T>(files: Files<T>, name: string, value: T, effect: Effect): Files<T> {
    match effect
    case Nothing => files
    case Partial => files.Put(name, Torn)
    case Complete => files.Put(name, Whole(value))
  }

  function Written(outcome: Outcome): Effect {
    match outcome
    case Go => Complete
    case Raise(effect) => effect
    case Crash(effect) => effect
  }

  /** The journal is stored by an atomic replacement: half a write is no write. */
  function StoreJournal(s: State, tx: Journal, effect: Effect): State {
    if effect.Complete? then s.(journals := s.journals.Put(tx.draftId, Whole(tx))) else s
  }

  /** The next process state: `next` on success, `handler` after an I/O error, none after a crash. */
  function Then(s: State, outcome: Outcome, next: Process, handler: Process): State {
    s.(process := if outcome.Go? then next else if outcome.Raise? then handler else Idle)
  }

  /** The step finds that it cannot succeed: it raises, unless the process dies first. */
  function Refuse(s: State, outcome: Outcome, handler: Process): State {
    s.(process := if outcome.Crash? then Idle else handler)
  }

  function Append(s: State, op: Op, origin: Origin): State {
    s.(ledger := Replace(s.ledger, op), log := Log(s.log.entries + [Entry(origin, op.target, op.append)]))
  }

  // ----- One step of the lock holder -----

  function CreateJournal(s: State, args: Args, tx: Journal, o: Outcome): State {
    if s.journals.Has(args.draftId) then Refuse(s, o, Releasing)
    else Then(s.(journals := Created(s.journals, args.draftId, tx, Written(o))), o, Ready(args, tx), Releasing)
  }

  /** Consume the receipt, or resume it when it was consumed before. Expiry is tested first. */
  function ConsumeReceipt(s: State, args: Args, tx: Journal, o: Outcome): State {
    if !(Bound(s, args.draftId, args.draftSha) && ReceiptMatches(s, args) && Unexpired(s, args.receiptId)) then
      Refuse(s, o, Releasing)
    else if s.marks.Has(args.receiptId) then
      var resumed := s.marks.IsWhole(args.receiptId) && s.marks.Value(args.receiptId) == MarkOf(s, args.receiptId);
      Then(s, o, if resumed then Granted(args, tx) else Releasing, Releasing)
    else
      Then(s.(marks := Created(s.marks, args.receiptId, MarkOf(s, args.receiptId), Written(o))),
           o, Granted(args, tx), Releasing)
  }

  function StartApplying(s: State, args: Args, tx: Journal, o: Outcome): State {
    var tx' := tx.(status := ApplyingOps);
    Then(StoreJournal(s, tx', Written(o)), o, Applying(args, tx', 0), Releasing)
  }

  function ApplyOp(s: State, args: Args, tx: Journal, k: nat, o: Outcome): State {
    if k >= |tx.ops| then Then(s, o, Closing(args, tx), Failing(args, tx))
    else
      match StateOf(s.ledger, tx.ops[k])
      case Changed => Refuse(s, o, Failing(args, tx))
      case Applied => Then(s, o, Counting(args, tx, k), Failing(args, tx))
      case Pending =>
        var s' := if Written(o).Complete? then Append(s, tx.ops[k], FromDraft(tx.draftId, k)) else s;
        Then(s', o, Counting(args, tx, k), Failing(args, tx))
  }

  function StoreCount(s: State, args: Args, tx: Journal, k: nat, o: Outcome): State {
    var tx' := tx.(applied := k + 1);
    Then(StoreJournal(s, tx', Written(o)), o, Applying(args, tx', k + 1), Failing(args, tx'))
  }

  function CloseJournal(s: State, args: Args, tx: Journal, o: Outcome): State {
    var tx' := tx.(status := CanonicalCommitted);
    Then(StoreJournal(s, tx', Written(o)), o, Marking(args, tx'), Failing(args, tx'))
  }

  function MarkConsumed(s: State, args: Args, tx: Journal, o: Outcome): State {
    if s.consumed.Has(args.draftId) then Refuse(s, o, Failing(args, tx))
    else
      var s' := s.(consumed := Created(s.consumed, args.draftId, Consumption(args.draftSha, args.receiptId), Written(o)));
      Then(s', o, Finishing(args, tx), Failing(args, tx))
  }

  function StoreFailure(s: State, args: Args, tx: Journal, o: Outcome): State {
    Then(StoreJournal(s, tx.(status := FailedRecoverable), Written(o)), o, Releasing, Releasing)
  }

  function FinishJournal(s: State, args: Args, tx: Journal, o: Outcome): State {
    Then(StoreJournal(s, tx.(status := Committed), Written(o)), o, Releasing, Releasing)
  }

  /** The administrator's command checks everything under the lock and prepares its one append. */
  function AdmitCommand(s: State, command: Command): Process {
    match command
    case AppendRecord(record, approvalRef, bootstrap) =>
      if record.kind == "approval" && !(bootstrap && record.status == "approved" && record.actor == "human") then Releasing
      else if record.kind != "approval" && !(approvalRef != "" && approvalRef in record.approvalRefs) then Releasing
      else if CandidateOk(s.ledger, Lines(s.ledger, Sources), s.artifacts, record) && record.day.Some?
      then Appending(PrepareAppend(s.ledger, Daily(record.day.value), [RecordLine(record)]))
      else Releasing
    case RegisterSource(sourceId, path, sourceType) =>
      if path !in s.artifacts.content then Releasing
      else
        var line := SourceLine(Registration(sourceId, path, s.artifacts.content[path], sourceType));
        if exists i | 0 <= i < |Lines(s.ledger, Sources)| :: RegistrationsClash(Lines(s.ledger, Sources)[i], line)
        then Releasing
        else Appending(PrepareAppend(s.ledger, Sources, [line]))
  }

  function AppendLines(s: State, op: Op, o: Outcome): State {
    if StateOf(s.ledger, op) != Pending then Refuse(s, o, Releasing)
    else
      var s' := if Written(o).Complete? then Append(s, op, FromCommand) else s;
      Then(s', o, Releasing, Releasing)
  }

  function Release(s: State, o: Outcome): State {
    s.(locked := if Written(o).Complete? then false else s.locked, process := Idle)
  }

  function HoldStep(s: State, o: Outcome): State {
    match s.process
    case Idle => s
    case Checking(args) => Then(s, o, Admit(s, args), Releasing)
    case Fresh(args, tx) => CreateJournal(s, args, tx, o)
    case Ready(args, tx) => ConsumeReceipt(s, args, tx, o)
    case Granted(args, tx) => StartApplying(s, args, tx, o)
    case Applying(args, tx, k) => ApplyOp(s, args, tx, k, o)
    case Counting(args, tx, k) => StoreCount(s, args, tx, k, o)
    case Closing(args, tx) => CloseJournal(s, args, tx, o)
    case Marking(args, tx) => MarkConsumed(s, args, tx, o)
    case Failing(args, tx) => StoreFailure(s, args, tx, o)
    case Finishing(args, tx) => FinishJournal(s, args, tx, o)
    case Validating(command) => Then(s, o, AdmitCommand(s, command), Releasing)
    case Appending(op) => AppendLines(s, op, o)
    case Releasing => Release(s, o)
  }

  // ----- Runs -----

  function Step(s: State, e: Event): State {
    match e
    case Commit(args) => if s.locked then s else s.(locked := true, process := Checking(args))
    case Administer(command) => if s.locked then s else s.(locked := true, process := Validating(command))
    case Hold(o) => HoldStep(s, o)
    case ClearLock => if s.process.Idle? then s.(locked := false) else s
    case PutDraft(draft, whole) =>
      if s.drafts.Has(draft.id) then s
      else s.(drafts := s.drafts.Put(draft.id, if whole then Whole(draft) else Torn))
    case IssueReceipt(id, sha, expires, whole) =>
      if s.receipts.Has(id) || !Bound(s, sha.of.id, sha) || expires <= s.clock then s
      else s.(receipts := s.receipts.Put(id, if whole then Whole(Receipt(sha, expires)) else Torn))
    case ChangeArtifact(path, content) =>
      s.(artifacts := Artifacts(
           if content.Some? then s.artifacts.content[path := content.value] else s.artifacts.content - {path}))
    case Pass(time) => s.(clock := s.clock + time)
  }

  function Run(s: State, events: seq<Event>): State
    decreases |events|
  {
    if events == [] then s else Run(Step(s, events[0]), events[1..])
  }

  /** A project and a host before any ingest: any ledger, source files and clock, but no file of the protocol. */
  function Start(ledger: Ledger, artifacts: Artifacts, clock: int): State {
    State(ledger, Files(map[]), Files(map[]), Files(map[]), Files(map[]), Files(map[]), artifacts, false, clock, Idle, Log([]))
  }

  lemma {:induction false} RunAppend(s: State, a: seq<Event>, b: seq<Event>)
    ensures Run(s, a + b) == Run(Run(s, a), b)
    decreases |a|
  {
    if a == [] {
      assert a + b == b;
    } else {
      assert (a + b)[0] == a[0] && (a + b)[1..] == a[1..] + b;
      RunAppend(Step(s, a[0]), a[1..], b);
    }
  }
}
