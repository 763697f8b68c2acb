/** What every run of the commit protocol keeps, whatever crashes, and the theorems that follow. */
module IngestSafety {
  import opened Ledger
  import opened CanonicalIo
  import opened IngestProtocol

  // ----- The invariant -----

  /** The content of a file as its base content and the logged appends to it, in order. */
  ghost function Content(base: Ledger, history: seq<Entry>, target: Target): seq<Line> {
    if history == [] then Lines(base, target)
    else
      var last := history[|history| - 1];
      Content(base, history[..|history| - 1], target) + (if last.target == target then last.lines else [])
  }

  /** What a draft appends, and where. */
  function Plan(draft: Draft): seq<(Target, seq<Line>)>
    requires draft.record.day.Some?
  {
    (if draft.registrations != [] then [(Sources, SourceLines(draft.registrations))] else [])
    + [(Daily(draft.record.day.value), [RecordLine(draft.record)])]
  }

  predicate Shaped(ops: seq<Op>, draft: Draft) {
    draft.record.day.Some?
    && |ops| == |Plan(draft)|
    && forall k | 0 <= k < |ops| :: Coherent(ops[k]) && (ops[k].target, ops[k].append) == Plan(draft)[k]
  }

  /** What the checks before a journal have found of its draft: a record ID, and one digest for each source path. */
  predicate Committable(draft: Draft) {
    && draft.record.recordId != ""
    && forall a, b | a in draft.registrations && b in draft.registrations :: a.path == b.path ==> a.sha == b.sha
  }

  predicate SameCommit(a: Journal, b: Journal) {
    a.draftId == b.draftId && a.draftSha == b.draftSha && a.receiptId == b.receiptId && a.ops == b.ops
  }

  ghost predicate FromDraftIn(history: seq<Entry>, id: string) {
    exists i :: 0 <= i < |history| && history[i].origin.FromDraft? && history[i].origin.draftId == id
  }

  predicate Marked(s: State, tx: Journal) {
    s.marks.IsWhole(tx.receiptId)
  }

  predicate AllInPlace(ledger: Ledger, ops: seq<Op>) {
    forall k | 0 <= k < |ops| :: InPlace(ledger, ops[k])
  }

  predicate FirstInPlace(ledger: Ledger, ops: seq<Op>, count: nat) {
    count <= |ops| && forall k | 0 <= k < count :: InPlace(ledger, ops[k])
  }

  /** A journal, on disk or in memory, tells no more than has happened. */
  predicate TxOk(s: State, tx: Journal) {
    && tx.draftSha.of.id == tx.draftId
    && s.drafts.IsWhole(tx.draftId) && s.drafts.Value(tx.draftId) == tx.draftSha.of
    && Shaped(tx.ops, tx.draftSha.of) && Committable(tx.draftSha.of)
    && FirstInPlace(s.ledger, tx.ops, tx.applied)
    && (tx.status != Prepared ==> Marked(s, tx))
    && ((tx.status == CanonicalCommitted || tx.status == Committed) ==> AllInPlace(s.ledger, tx.ops))
    && (tx.status == Committed ==> s.consumed.Has(tx.draftId))
  }

  ghost predicate JournalOk(s: State, id: string) {
    s.journals.IsWhole(id) ==>
      && var tx := s.journals.Value(id);
      && tx.draftId == id && TxOk(s, tx)
      && (tx.status == Prepared ==> !FromDraftIn(s.log.entries, id))
  }

  /** The journal of a commit is on disk, perhaps with an older status or count. */
  predicate Journalled(s: State, tx: Journal) {
    s.journals.IsWhole(tx.draftId) && SameCommit(s.journals.Value(tx.draftId), tx)
  }

  /** A logged append of a draft is one operation of its journal, in place, under a consumed receipt. */
  predicate EntryOk(s: State, entry: Entry) {
    entry.origin.FromDraft? ==>
      && var id, k := entry.origin.draftId, entry.origin.op;
      && s.journals.IsWhole(id)
      && var tx := s.journals.Value(id);
      && k < |tx.ops| && entry.target == tx.ops[k].target && entry.lines == tx.ops[k].append
      && InPlace(s.ledger, tx.ops[k]) && Marked(s, tx)
  }

  predicate Distinct(history: seq<Entry>) {
    forall i, j | 0 <= i < j < |history| :: history[i].origin.FromDraft? ==> history[i].origin != history[j].origin
  }

  /** A consumed receipt, even one whose marker is torn, has a journal bound to it. */
  predicate MarkOk(s: State, receiptId: string) {
    s.marks.Has(receiptId) ==>
      && s.receipts.IsWhole(receiptId)
      && var sha := s.receipts.Value(receiptId).draftSha;
      && s.journals.IsWhole(sha.of.id)
      && s.journals.Value(sha.of.id).receiptId == receiptId && s.journals.Value(sha.of.id).draftSha == sha
      && (s.marks.IsWhole(receiptId) ==> s.marks.Value(receiptId) == MarkOf(s, receiptId))
  }

  predicate ConsumedOk(s: State, id: string) {
    s.consumed.Has(id) ==>
      && s.journals.IsWhole(id)
      && AllInPlace(s.ledger, s.journals.Value(id).ops) && Marked(s, s.journals.Value(id))
  }

  predicate DraftOk(s: State, id: string) {
    s.drafts.IsWhole(id) ==> s.drafts.Value(id).id == id
  }

  predicate InCommit(s: State, args: Args, tx: Journal) {
    args.draftSha.of.id == args.draftId && Binds(tx, args) && TxOk(s, tx) && ReceiptMatches(s, args)
  }

  predicate FreshOk(s: State, args: Args, tx: Journal) {
    InCommit(s, args, tx) && !s.journals.Has(args.draftId) && tx.status == Prepared
  }

  predicate ReadyOk(s: State, args: Args, tx: Journal) {
    InCommit(s, args, tx) && Journalled(s, tx)
  }

  predicate GrantedOk(s: State, args: Args, tx: Journal) {
    ReadyOk(s, args, tx) && Marked(s, tx)
  }

  /** Applying: the stored status already says so, and the first `count` operations are in place. */
  predicate BusyOk(s: State, args: Args, tx: Journal, count: nat) {
    GrantedOk(s, args, tx) && s.journals.Value(tx.draftId).status != Prepared
    && tx.status == ApplyingOps && FirstInPlace(s.ledger, tx.ops, count)
  }

  predicate DoneOk(s: State, args: Args, tx: Journal) {
    GrantedOk(s, args, tx) && tx.status != Prepared && AllInPlace(s.ledger, tx.ops)
  }

  /** What the holder of the lock remembers agrees with the disk. */
  predicate ProcessOk(s: State) {
    && (s.process != Idle ==> s.locked)
    && match s.process
       case Fresh(args, tx) => FreshOk(s, args, tx)
       case Ready(args, tx) => ReadyOk(s, args, tx)
       case Granted(args, tx) => GrantedOk(s, args, tx)
       case Applying(args, tx, k) => BusyOk(s, args, tx, k)
       case Counting(args, tx, k) => BusyOk(s, args, tx, k + 1)
       case Closing(args, tx) => DoneOk(s, args, tx)
       case Marking(args, tx) => DoneOk(s, args, tx)
       case Failing(args, tx) => GrantedOk(s, args, tx) && tx.status != Prepared
       case Finishing(args, tx) => DoneOk(s, args, tx) && s.consumed.Has(args.draftId)
       case Appending(op) => Coherent(op)
       case _ => true
  }

  ghost predicate Accounted(base: Ledger, s: State) {
    && (forall target :: Lines(s.ledger, target) == Content(base, s.log.entries, target))
    && Grows(base, s.ledger)
  }

  ghost predicate Inv(base: Ledger, s: State) {
    && Accounted(base, s)
    && (forall id :: DraftOk(s, id))
    && (forall id :: JournalOk(s, id))
    && (forall i | 0 <= i < |s.log.entries| :: EntryOk(s, s.log.entries[i]))
    && Distinct(s.log.entries)
    && (forall r :: MarkOk(s, r))
    && (forall id :: ConsumedOk(s, id))
    && ProcessOk(s)
  }

  // ----- Every step keeps it -----

  /** Files only gain content: a journal keeps its commit, markers and receipts stay, nothing is appended. */
  ghost predicate Keeps(s: State, s': State) {
    && s'.ledger == s.ledger && s'.log.entries == s.log.entries
    && (forall tx {:trigger Journalled(s, tx)} {:trigger Journalled(s', tx)} :: Journalled(s, tx) ==> Journalled(s', tx))
    && Within(s.drafts, s'.drafts)
    && Within(s.receipts, s'.receipts)
    && Within(s.marks, s'.marks)
    && s.consumed.entries.Keys <= s'.consumed.entries.Keys
  }

  predicate SameAt<T(==)>(files: Files<T>, files': Files<T>, name: string) {
    (files.Has(name) <==> files'.Has(name)) && (files.Has(name) ==> files.entries[name] == files'.entries[name])
  }

  predicate Within<T(==)>(files: Files<T>, files': Files<T>) {
    forall name | name in files.entries :: files'.Has(name) && files'.entries[name] == files.entries[name]
  }

  lemma KeepsTx(s: State, s': State, tx: Journal)
    requires Keeps(s, s') && TxOk(s, tx)
    ensures TxOk(s', tx)
  {
  }

  lemma KeepsStages(s: State, s': State, args: Args, tx: Journal)
    requires Keeps(s, s')
    ensures InCommit(s, args, tx) ==> InCommit(s', args, tx)
    ensures ReadyOk(s, args, tx) ==> ReadyOk(s', args, tx)
    ensures GrantedOk(s, args, tx) ==> GrantedOk(s', args, tx)
    ensures DoneOk(s, args, tx) ==> DoneOk(s', args, tx)
  {
    if TxOk(s, tx) { KeepsTx(s, s', tx); }
  }

  /** A step that appends nothing keeps the invariant when it holds for the one draft and receipt it wrote about. */
  lemma FileStep(base: Ledger, s: State, s': State, id: string)
    requires Inv(base, s) && Keeps(s, s') && s'.drafts == s.drafts
    requires forall other | other != id :: SameAt(s.journals, s'.journals, other)
    requires JournalOk(s', id)
    requires forall r | r in s'.marks.entries && !s.marks.Has(r) :: MarkOk(s', r)
    requires s'.consumed.entries.Keys <= s.consumed.entries.Keys + {id} && (!s.consumed.Has(id) ==> ConsumedOk(s', id))
    requires ProcessOk(s')
    ensures Inv(base, s')
  {
    forall x ensures DraftOk(s', x) { assert DraftOk(s, x); }
    forall x ensures JournalOk(s', x) {
      assert JournalOk(s, x) && (x != id ==> SameAt(s.journals, s'.journals, x));
      if x != id && s.journals.IsWhole(x) {
        KeepsTx(s, s', s.journals.Value(x));
      }
    }
    forall i | 0 <= i < |s'.log.entries| ensures EntryOk(s', s'.log.entries[i]) {
      assert EntryOk(s, s.log.entries[i]);
      if s.log.entries[i].origin.FromDraft? {
        var tx := s.journals.Value(s.log.entries[i].origin.draftId);
        assert JournalOk(s, s.log.entries[i].origin.draftId);
        assert Journalled(s, tx);
      }
    }
    forall r ensures MarkOk(s', r) {
      assert MarkOk(s, r);
      if s.marks.Has(r) {
        var sha := s.receipts.Value(r).draftSha;
        assert JournalOk(s, sha.of.id);
        assert Journalled(s, s.journals.Value(sha.of.id));
      }
    }
    forall x ensures ConsumedOk(s', x) {
      assert ConsumedOk(s, x);
      if s.consumed.Has(x) {
        assert JournalOk(s, x);
        assert Journalled(s, s.journals.Value(x));
      }
    }
  }

  lemma NothingLoggedWithoutJournal(s: State, id: string)
    requires forall i | 0 <= i < |s.log.entries| :: EntryOk(s, s.log.entries[i])
    requires !s.journals.Has(id)
    ensures !FromDraftIn(s.log.entries, id)
  {
    assert forall i | 0 <= i < |s.log.entries| && s.log.entries[i].origin.FromDraft? ::
      EntryOk(s, s.log.entries[i]) && s.journals.Has(s.log.entries[i].origin.draftId);
  }

  lemma KeepsFresh(base: Ledger, s: State, s': State, args: Args, tx: Journal)
    requires Inv(base, s) && s.process == Fresh(args, tx)
    requires s' == s.(journals := s'.journals, process := s'.process)
    requires (s'.journals == s.journals || s'.journals == s.journals.Put(args.draftId, Torn) || s'.journals == s.journals.Put(args.draftId, Whole(tx)))
    requires (s'.process == Idle || s'.process == Releasing || s'.process == Ready(args, tx))
    requires s'.process == Ready(args, tx) ==> s'.journals == s.journals.Put(args.draftId, Whole(tx))
    ensures Inv(base, s')
  {
    assert Keeps(s, s');
    KeepsStages(s, s', args, tx);
    assert ConsumedOk(s, args.draftId);
    NothingLoggedWithoutJournal(s, args.draftId);
    FileStep(base, s, s', args.draftId);
  }

  lemma KeepsReady(base: Ledger, s: State, s': State, args: Args, tx: Journal)
    requires Inv(base, s) && s.process == Ready(args, tx)
    requires s' == s.(marks := s'.marks, process := s'.process)
    requires || s'.marks == s.marks
             || (!s.marks.Has(args.receiptId) && s'.marks == s.marks.Put(args.receiptId, Torn))
             || (!s.marks.Has(args.receiptId) && ReceiptMatches(s, args)
                 && s'.marks == s.marks.Put(args.receiptId, Whole(MarkOf(s, args.receiptId))))
    requires (s'.process == Idle || s'.process == Releasing || s'.process == Granted(args, tx))
    requires s'.process == Granted(args, tx) ==> Marked(s', tx)
    ensures Inv(base, s')
  {
    assert Keeps(s, s');
    KeepsStages(s, s', args, tx);
    assert JournalOk(s, tx.draftId) && MarkOk(s, args.receiptId);
    KeepsTx(s, s', s.journals.Value(tx.draftId));
    FileStep(base, s, s', args.draftId);
  }

  /** Storing the journal of a commit whose receipt is consumed, with a new status or count. */
  lemma KeepsStore(base: Ledger, s: State, s': State, args: Args, tx: Journal)
    requires Inv(base, s) && GrantedOk(s, args, tx) && tx.status != Prepared && s.locked
    requires s' == s.(journals := s'.journals, process := s'.process)
    requires (s'.journals == s.journals || s'.journals == s.journals.Put(tx.draftId, Whole(tx)))
    requires || (s'.process == Idle || s'.process == Releasing || s'.process == Failing(args, tx))
             || (s'.process == Marking(args, tx) && AllInPlace(s.ledger, tx.ops))
             || (&& s'.process.Applying? && s'.process == Applying(args, tx, s'.process.k)
                 && tx.status == ApplyingOps && FirstInPlace(s.ledger, tx.ops, s'.process.k)
                 && s'.journals == s.journals.Put(tx.draftId, Whole(tx)))
    ensures Inv(base, s')
  {
    assert Keeps(s, s');
    KeepsStages(s, s', args, tx);
    assert JournalOk(s, tx.draftId) && ConsumedOk(s, tx.draftId);
    KeepsTx(s, s', s.journals.Value(tx.draftId));
    FileStep(base, s, s', tx.draftId);
  }

  lemma KeepsMarking(base: Ledger, s: State, s': State, args: Args, tx: Journal)
    requires Inv(base, s) && s.process == Marking(args, tx)
    requires s' == s.(consumed := s'.consumed, process := s'.process)
    requires s.consumed.entries.Keys <= s'.consumed.entries.Keys <= s.consumed.entries.Keys + {args.draftId}
    requires ProcessOk(s')
    ensures Inv(base, s')
  {
    assert Keeps(s, s');
    assert JournalOk(s, tx.draftId);
    KeepsTx(s, s', s.journals.Value(tx.draftId));
    FileStep(base, s, s', args.draftId);
  }

  /** A step that writes no file of the protocol. */
  lemma KeepsQuiet(base: Ledger, s: State, s': State)
    requires Inv(base, s)
    requires s' == s.(process := s'.process, locked := s'.locked, artifacts := s'.artifacts, clock := s'.clock)
    requires ProcessOk(s')
    ensures Inv(base, s')
  {
    assert Keeps(s, s');
    assert JournalOk(s, "") && ConsumedOk(s, "");
    if s.journals.IsWhole("") { KeepsTx(s, s', s.journals.Value("")); }
    FileStep(base, s, s', "");
  }

  /** The same, when the holder then remembers nothing that depends on the disk. */
  lemma KeepsPlain(base: Ledger, s: State, s': State)
    requires Inv(base, s)
    requires s' == s.(process := s'.process, locked := s'.locked)
    requires s'.process.Idle? || (s'.locked && (s'.process.Checking? || s'.process.Validating? || s'.process.Releasing?))
    ensures Inv(base, s')
  {
    KeepsQuiet(base, s, s');
  }

  lemma QuietStages(s: State, s': State)
    requires ProcessOk(s)
    requires s' == s.(artifacts := s'.artifacts, clock := s'.clock, drafts := s'.drafts, receipts := s'.receipts)
    requires Within(s.drafts, s'.drafts) && Within(s.receipts, s'.receipts)
    ensures ProcessOk(s')
  {
    assert Keeps(s, s');
    match s.process
    case Fresh(args, tx) => KeepsStages(s, s', args, tx);
    case Ready(args, tx) => KeepsStages(s, s', args, tx);
    case Granted(args, tx) => KeepsStages(s, s', args, tx);
    case Applying(args, tx, k) => KeepsStages(s, s', args, tx);
    case Counting(args, tx, k) => KeepsStages(s, s', args, tx);
    case Closing(args, tx) => KeepsStages(s, s', args, tx);
    case Marking(args, tx) => KeepsStages(s, s', args, tx);
    case Failing(args, tx) => KeepsStages(s, s', args, tx);
    case Finishing(args, tx) => KeepsStages(s, s', args, tx);
    case _ =>
  }

  lemma KeepsDrafts(base: Ledger, s: State, s': State)
    requires Inv(base, s)
    requires s' == s.(drafts := s'.drafts) && Within(s.drafts, s'.drafts)
    requires forall id :: DraftOk(s', id)
    ensures Inv(base, s')
  {
    QuietStages(s, s');
    assert forall id :: JournalOk(s, id) ==> JournalOk(s', id);
    assert forall r :: MarkOk(s, r) ==> MarkOk(s', r);
    assert forall id :: ConsumedOk(s, id) ==> ConsumedOk(s', id);
    assert forall e: Entry :: EntryOk(s, e) ==> EntryOk(s', e);
  }

  lemma KeepsReceipts(base: Ledger, s: State, s': State)
    requires Inv(base, s)
    requires s' == s.(receipts := s'.receipts)
    requires Within(s.receipts, s'.receipts)
    ensures Inv(base, s')
  {
    QuietStages(s, s');
    assert forall id :: DraftOk(s, id) ==> DraftOk(s', id);
    assert forall id :: JournalOk(s, id) ==> JournalOk(s', id);
    assert forall r :: MarkOk(s, r) ==> MarkOk(s', r);
    assert forall id :: ConsumedOk(s, id) ==> ConsumedOk(s', id);
    assert forall e: Entry :: EntryOk(s, e) ==> EntryOk(s', e);
  }

  // ----- Appends -----

  lemma AppendGrows(s: State, s': State, op: Op, origin: Origin)
    requires Coherent(op) && StateOf(s.ledger, op) == Pending
    requires s' == Append(s, op, origin).(process := s'.process)
    ensures Grows(s.ledger, s'.ledger) && InPlace(s'.ledger, op)
    ensures forall tx :: TxOk(s, tx) ==> TxOk(s', tx)
    ensures forall ops :: AllInPlace(s.ledger, ops) ==> AllInPlace(s'.ledger, ops)
  {
    ReplaceApplies(s.ledger, op);
    forall other | InPlace(s.ledger, other) ensures InPlace(s'.ledger, other) {
      GrowthKeepsInPlace(s.ledger, s'.ledger, other);
    }
  }

  lemma AppendAccounted(base: Ledger, s: State, s': State, op: Op, origin: Origin)
    requires Accounted(base, s) && Coherent(op) && StateOf(s.ledger, op) == Pending
    requires s' == Append(s, op, origin).(process := s'.process)
    ensures Accounted(base, s')
  {
    ReplaceApplies(s.ledger, op);
    GrowsTransitive(base, s.ledger, s'.ledger);
    forall target ensures Lines(s'.ledger, target) == Content(base, s'.log.entries, target) {
      assert s'.log.entries[..|s'.log.entries| - 1] == s.log.entries;
    }
  }

  /** An append of a draft is new: its operation is pending, so no entry of the log is that operation. */
  lemma PendingIsNew(s: State, tx: Journal, k: nat)
    requires forall i | 0 <= i < |s.log.entries| :: EntryOk(s, s.log.entries[i])
    requires Journalled(s, tx) && k < |tx.ops| && Coherent(tx.ops[k]) && StateOf(s.ledger, tx.ops[k]) == Pending
    ensures forall i | 0 <= i < |s.log.entries| :: s.log.entries[i].origin != FromDraft(tx.draftId, k)
  {
    forall i | 0 <= i < |s.log.entries| && s.log.entries[i].origin == FromDraft(tx.draftId, k) ensures false {
      assert EntryOk(s, s.log.entries[i]);
      InPlaceIsNeverPending(s.ledger, tx.ops[k]);
    }
  }

  lemma KeepsAppend(base: Ledger, s: State, s': State, op: Op, origin: Origin)
    requires Inv(base, s) && Coherent(op) && StateOf(s.ledger, op) == Pending
    requires s' == Append(s, op, origin).(process := s'.process)
    requires EntryOk(s', Entry(origin, op.target, op.append))
    requires origin.FromDraft? ==>
      && s.journals.Value(origin.draftId).status != Prepared
      && forall i | 0 <= i < |s.log.entries| :: s.log.entries[i].origin != origin
    requires ProcessOk(s')
    ensures Inv(base, s')
  {
    AppendGrows(s, s', op, origin);
    AppendAccounted(base, s, s', op, origin);
    forall id ensures DraftOk(s', id) { assert DraftOk(s, id); }
    forall id ensures JournalOk(s', id) {
      assert JournalOk(s, id);
    }
    forall i | 0 <= i < |s'.log.entries| ensures EntryOk(s', s'.log.entries[i]) {
      if i < |s.log.entries| {
        assert EntryOk(s, s.log.entries[i]);
        if s.log.entries[i].origin.FromDraft? {
          GrowthKeepsInPlace(s.ledger, s'.ledger, s.journals.Value(s.log.entries[i].origin.draftId).ops[s.log.entries[i].origin.op]);
        }
      }
    }
    forall r ensures MarkOk(s', r) { assert MarkOk(s, r); }
    forall id ensures ConsumedOk(s', id) { assert ConsumedOk(s, id); }
  }

  // ----- One step of the lock holder -----

  lemma NewJournalShaped(ledger: Ledger, draft: Draft)
    requires draft.record.day.Some?
    ensures Shaped(OpsFor(ledger, draft), draft)
    ensures forall op | op in OpsFor(ledger, draft) :: StateOf(ledger, op) == Pending
  {
    if draft.registrations != [] { PreparedIsPending(ledger, Sources, SourceLines(draft.registrations)); }
    PreparedIsPending(ledger, Daily(draft.record.day.value), [RecordLine(draft.record)]);
  }

  lemma AdmitOk(base: Ledger, s: State, args: Args)
    requires Inv(base, s) && s.locked
    ensures ProcessOk(s.(process := Admit(s, args)))
  {
    assert DraftOk(s, args.draftId) && JournalOk(s, args.draftId);
    if args.draftSha.of.record.day.Some? { NewJournalShaped(s.ledger, args.draftSha.of); }
  }

  lemma HoldChecking(base: Ledger, s: State, o: Outcome)
    requires Inv(base, s) && s.process.Checking?
    ensures Inv(base, HoldStep(s, o))
  {
    AdmitOk(base, s, s.process.args);
    KeepsQuiet(base, s, HoldStep(s, o));
  }

  lemma KeepsBusy(base: Ledger, s: State, s': State, args: Args, tx: Journal, k: nat)
    requires Inv(base, s) && s.locked && BusyOk(s, args, tx, k)
    requires s' == s.(process := s'.process)
    requires || (s'.process == Idle || s'.process == Failing(args, tx))
             || (s'.process == Counting(args, tx, k) && k < |tx.ops| && InPlace(s.ledger, tx.ops[k]))
             || (s'.process == Closing(args, tx) && k == |tx.ops|)
    ensures Inv(base, s')
  {
    assert GrantedOk(s, args, tx) ==> GrantedOk(s', args, tx);
    assert s'.process == Counting(args, tx, k) ==> FirstInPlace(s'.ledger, tx.ops, k + 1);
    KeepsQuiet(base, s, s');
  }

  lemma AppliedStage(s: State, s': State, args: Args, tx: Journal, k: nat)
    requires BusyOk(s, args, tx, k) && k < |tx.ops| && StateOf(s.ledger, tx.ops[k]) == Pending
    requires s' == Append(s, tx.ops[k], FromDraft(tx.draftId, k)).(process := s'.process)
    ensures BusyOk(s', args, tx, k + 1)
    ensures EntryOk(s', Entry(FromDraft(tx.draftId, k), tx.ops[k].target, tx.ops[k].append))
  {
    AppendGrows(s, s', tx.ops[k], FromDraft(tx.draftId, k));
    forall i | 0 <= i < k ensures InPlace(s'.ledger, tx.ops[i]) {
      GrowthKeepsInPlace(s.ledger, s'.ledger, tx.ops[i]);
    }
  }

  lemma KeepsApplied(base: Ledger, s: State, s': State, args: Args, tx: Journal, k: nat)
    requires Inv(base, s) && s.locked && BusyOk(s, args, tx, k)
    requires k < |tx.ops| && StateOf(s.ledger, tx.ops[k]) == Pending
    requires s' == Append(s, tx.ops[k], FromDraft(tx.draftId, k)).(process := s'.process)
    requires (s'.process == Idle || s'.process == Failing(args, tx) || s'.process == Counting(args, tx, k))
    ensures Inv(base, s')
  {
    PendingIsNew(s, tx, k);
    AppliedStage(s, s', args, tx, k);
    KeepsAppend(base, s, s', tx.ops[k], FromDraft(tx.draftId, k));
  }

  lemma HoldFresh(base: Ledger, s: State, o: Outcome, args: Args, tx: Journal)
    requires Inv(base, s) && s.process == Fresh(args, tx)
    ensures Inv(base, CreateJournal(s, args, tx, o))
  {
    KeepsFresh(base, s, CreateJournal(s, args, tx, o), args, tx);
  }

  lemma ConsumeEffects(s: State, s': State, args: Args, tx: Journal, o: Outcome)
    requires s' == ConsumeReceipt(s, args, tx, o)
    ensures s' == s.(marks := s'.marks, process := s'.process)
    ensures || s'.marks == s.marks
            || (!s.marks.Has(args.receiptId) && s'.marks == s.marks.Put(args.receiptId, Torn))
            || (!s.marks.Has(args.receiptId) && ReceiptMatches(s, args)
                && s'.marks == s.marks.Put(args.receiptId, Whole(MarkOf(s, args.receiptId))))
    ensures s'.process == Idle || s'.process == Releasing || s'.process == Granted(args, tx)
    ensures s'.process == Granted(args, tx) ==> s'.marks.IsWhole(args.receiptId)
  {
  }

  lemma HoldReady(base: Ledger, s: State, s': State, o: Outcome, args: Args, tx: Journal)
    requires Inv(base, s) && s.process == Ready(args, tx)
    requires s' == ConsumeReceipt(s, args, tx, o)
    ensures Inv(base, s')
  {
    ConsumeEffects(s, s', args, tx, o);
    KeepsReady(base, s, s', args, tx);
  }

  lemma ApplyEffects(s: State, s': State, o: Outcome, args: Args, tx: Journal, k: nat)
    requires s' == ApplyOp(s, args, tx, k, o) && k <= |tx.ops|
    ensures || (s' == s.(process := s'.process)
                && (s'.process == Idle
                   || s'.process == Failing(args, tx)
                   || (s'.process == Counting(args, tx, k) && k < |tx.ops| && StateOf(s.ledger, tx.ops[k]) == Applied)
                   || (s'.process == Closing(args, tx) && k == |tx.ops|)))
            || (k < |tx.ops| && StateOf(s.ledger, tx.ops[k]) == Pending
                && s' == Append(s, tx.ops[k], FromDraft(tx.draftId, k)).(process := s'.process)
                && (s'.process == Idle || s'.process == Failing(args, tx) || s'.process == Counting(args, tx, k)))
  {
  }

  lemma HoldApplying(base: Ledger, s: State, s': State, o: Outcome, args: Args, tx: Journal, k: nat)
    requires Inv(base, s) && s.process == Applying(args, tx, k)
    requires s' == ApplyOp(s, args, tx, k, o)
    ensures Inv(base, s')
  {
    ApplyEffects(s, s', o, args, tx, k);
    if s' == s.(process := s'.process) {
      KeepsBusy(base, s, s', args, tx, k);
    } else {
      KeepsApplied(base, s, s', args, tx, k);
    }
  }

  lemma HoldStarting(base: Ledger, s: State, s': State, o: Outcome, args: Args, tx: Journal)
    requires Inv(base, s) && s.process == Granted(args, tx) && s' == StartApplying(s, args, tx, o)
    ensures Inv(base, s')
  {
    KeepsStore(base, s, s', args, tx.(status := ApplyingOps));
  }

  lemma HoldCounting(base: Ledger, s: State, s': State, o: Outcome, args: Args, tx: Journal, k: nat)
    requires Inv(base, s) && s.process == Counting(args, tx, k) && s' == StoreCount(s, args, tx, k, o)
    ensures Inv(base, s')
  {
    KeepsStore(base, s, s', args, tx.(applied := k + 1));
  }

  lemma HoldClosing(base: Ledger, s: State, s': State, o: Outcome, args: Args, tx: Journal)
    requires Inv(base, s) && s.process == Closing(args, tx) && s' == CloseJournal(s, args, tx, o)
    ensures Inv(base, s')
  {
    KeepsStore(base, s, s', args, tx.(status := CanonicalCommitted));
  }

  lemma HoldFailing(base: Ledger, s: State, s': State, o: Outcome, args: Args, tx: Journal)
    requires Inv(base, s) && s.process == Failing(args, tx) && s' == StoreFailure(s, args, tx, o)
    ensures Inv(base, s')
  {
    KeepsStore(base, s, s', args, tx.(status := FailedRecoverable));
  }

  lemma HoldFinishing(base: Ledger, s: State, s': State, o: Outcome, args: Args, tx: Journal)
    requires Inv(base, s) && s.process == Finishing(args, tx) && s' == FinishJournal(s, args, tx, o)
    ensures Inv(base, s')
  {
    KeepsStore(base, s, s', args, tx.(status := Committed));
  }

  lemma HoldMarking(base: Ledger, s: State, s': State, o: Outcome, args: Args, tx: Journal)
    requires Inv(base, s) && s.process == Marking(args, tx) && s' == MarkConsumed(s, args, tx, o)
    ensures Inv(base, s')
  {
    KeepsMarking(base, s, s', args, tx);
  }

  lemma HoldAppending(base: Ledger, s: State, s': State, o: Outcome, op: Op)
    requires Inv(base, s) && s.process == Appending(op) && s' == AppendLines(s, op, o)
    ensures Inv(base, s')
  {
    if StateOf(s.ledger, op) == Pending && Written(o).Complete? {
      KeepsAppend(base, s, s', op, FromCommand);
    } else {
      KeepsQuiet(base, s, s');
    }
  }

  lemma HoldValidating(base: Ledger, s: State, s': State, o: Outcome, command: Command)
    requires Inv(base, s) && s.process == Validating(command) && s' == Then(s, o, AdmitCommand(s, command), Releasing)
    ensures Inv(base, s')
  {
    KeepsQuiet(base, s, s');
  }

  lemma HoldReleasing(base: Ledger, s: State, s': State, o: Outcome)
    requires Inv(base, s) && s.process == Releasing && s' == Release(s, o)
    ensures Inv(base, s')
  {
    KeepsPlain(base, s, s');
  }

  lemma HoldEarly(base: Ledger, s: State, o: Outcome)
    requires Inv(base, s)
    requires Early(s.process)
    ensures Inv(base, HoldStep(s, o))
  {
    match s.process
    case Checking(args) => HoldChecking(base, s, o);
    case Fresh(args, tx) => HoldFresh(base, s, o, args, tx);
    case Ready(args, tx) => HoldReady(base, s, HoldStep(s, o), o, args, tx);
    case Granted(args, tx) => HoldStarting(base, s, HoldStep(s, o), o, args, tx);
    case Applying(args, tx, k) => HoldApplying(base, s, HoldStep(s, o), o, args, tx, k);
  }

  lemma HoldStores(base: Ledger, s: State, s': State, o: Outcome)
    requires Inv(base, s) && s' == HoldStep(s, o)
    requires s.process.Counting? || s.process.Closing? || s.process.Marking?
    ensures Inv(base, s')
  {
    if s.process.Counting? {
      HoldCounting(base, s, s', o, s.process.args, s.process.tx, s.process.k);
    } else if s.process.Closing? {
      HoldClosing(base, s, s', o, s.process.args, s.process.tx);
    } else {
      HoldMarking(base, s, s', o, s.process.args, s.process.tx);
    }
  }

  lemma HoldEnds(base: Ledger, s: State, s': State, o: Outcome)
    requires Inv(base, s) && s' == HoldStep(s, o) && (s.process.Failing? || s.process.Finishing?)
    ensures Inv(base, s')
  {
    if s.process.Failing? {
      HoldFailing(base, s, s', o, s.process.args, s.process.tx);
    } else {
      HoldFinishing(base, s, s', o, s.process.args, s.process.tx);
    }
  }

  lemma HoldCommands(base: Ledger, s: State, s': State, o: Outcome)
    requires Inv(base, s) && s' == HoldStep(s, o) && (s.process.Validating? || s.process.Appending?)
    ensures Inv(base, s')
  {
    if s.process.Validating? {
      HoldValidating(base, s, s', o, s.process.command);
    } else {
      HoldAppending(base, s, s', o, s.process.op);
    }
  }

  predicate Early(p: Process) {
    p.Checking? || p.Fresh? || p.Ready? || p.Granted? || p.Applying?
  }

  predicate Late(p: Process) {
    p.Counting? || p.Closing? || p.Marking? || p.Failing? || p.Finishing?
  }

  lemma HoldKeeps(base: Ledger, s: State, s': State, o: Outcome)
    requires Inv(base, s) && s' == HoldStep(s, o)
    ensures Inv(base, s')
  {
    if Early(s.process) {
      HoldEarly(base, s, o);
    } else if s.process.Failing? || s.process.Finishing? {
      HoldEnds(base, s, s', o);
    } else if Late(s.process) {
      HoldStores(base, s, s', o);
    } else if s.process.Releasing? {
      HoldReleasing(base, s, s', o);
    } else if s.process != Idle {
      HoldCommands(base, s, s', o);
    }
  }

  // ----- The steps of the world around it -----

  lemma LockKeeps(base: Ledger, s: State, e: Event)
    requires Inv(base, s) && (e.Commit? || e.Administer? || e.ClearLock?)
    ensures Inv(base, Step(s, e))
  {
    if Step(s, e) != s { KeepsPlain(base, s, Step(s, e)); }
  }

  lemma PutDraftKeeps(base: Ledger, s: State, e: Event)
    requires Inv(base, s) && e.PutDraft?
    ensures Inv(base, Step(s, e))
  {
    forall id ensures DraftOk(Step(s, e), id) { assert DraftOk(s, id); }
    KeepsDrafts(base, s, Step(s, e));
  }

  lemma OutsideKeeps(base: Ledger, s: State, e: Event)
    requires Inv(base, s) && (e.ChangeArtifact? || e.Pass?)
    ensures Inv(base, Step(s, e))
  {
    QuietStages(s, Step(s, e));
    KeepsQuiet(base, s, Step(s, e));
  }

  lemma ReceiptKeeps(base: Ledger, s: State, e: Event)
    requires Inv(base, s) && e.IssueReceipt?
    ensures Inv(base, Step(s, e))
  {
    KeepsReceipts(base, s, Step(s, e));
  }

  lemma WorldKeeps(base: Ledger, s: State, e: Event)
    requires Inv(base, s) && !e.Hold?
    ensures Inv(base, Step(s, e))
  {
    if e.PutDraft? {
      PutDraftKeeps(base, s, e);
    } else if e.IssueReceipt? {
      ReceiptKeeps(base, s, e);
    } else if e.ChangeArtifact? || e.Pass? {
      OutsideKeeps(base, s, e);
    } else {
      LockKeeps(base, s, e);
    }
  }

  lemma StepKeeps(base: Ledger, s: State, e: Event)
    requires Inv(base, s)
    ensures Inv(base, Step(s, e))
  {
    if e.Hold? { HoldKeeps(base, s, HoldStep(s, e.outcome), e.outcome); } else { WorldKeeps(base, s, e); }
  }

  lemma {:induction false} RunKeeps(base: Ledger, s: State, events: seq<Event>)
    requires Inv(base, s)
    ensures Inv(base, Run(s, events))
    decreases |events|
  {
    if events != [] {
      StepKeeps(base, s, events[0]);
      RunKeeps(base, Step(s, events[0]), events[1..]);
    }
  }
}
