/** What the checks of a commit and of a command decide, in the words of the files they read. */
module IngestDecisions {
  import opened Common
  import opened Ledger
  import opened CanonicalIo
  import opened IngestProtocol
  import opened IngestSafety
  import opened IngestRecovery

  /** The draft is there, not consumed, as the call says, with a record ID; its staged sources are unchanged. */
  predicate DraftReady(s: State, args: Args) {
    && args.draftId !in s.consumed.entries
    && args.draftId in s.drafts.entries && s.drafts.entries[args.draftId] == Whole(args.draftSha.of)
    && args.draftSha.of.record.recordId != ""
    && forall source | source in args.draftSha.of.registrations ::
         source.path in s.artifacts.content && s.artifacts.content[source.path] == source.sha
  }

  /** The receipt is there and for this draft; it has not expired, or it was consumed before. */
  predicate ReceiptReady(s: State, args: Args) {
    && args.receiptId in s.receipts.entries && s.receipts.entries[args.receiptId].Whole?
    && s.receipts.entries[args.receiptId].value.draftSha == args.draftSha
    && (s.clock < s.receipts.entries[args.receiptId].value.expires || args.receiptId in s.marks.entries)
  }

  /** The ledger is the head the draft was prepared on, and its record, no approval, names its approval and is valid. */
  predicate RecordReady(s: State, draft: Draft) {
    && draft.head == s.ledger
    && draft.record.kind != "approval" && draft.record.day.Some?
    && draft.approvalRef != "" && draft.approvalRef in draft.record.approvalRefs
    && CandidateOk(s.ledger, Lines(s.ledger, Sources) + SourceLines(draft.registrations), s.artifacts, draft.record)
  }

  /** The file is as it was before the operation, or as it is after it. */
  predicate BeforeOrAfter(ledger: Ledger, op: Op) {
    || Lines(ledger, op.target) == op.after.of
    || (Lines(ledger, op.target) == op.before.of && (op.target in ledger.files <==> op.beforeExists))
  }

  /** The journal is for this draft and receipt, and each of its targets is before or after its operation. */
  predicate JournalReady(s: State, args: Args) {
    && args.draftId in s.journals.entries && s.journals.entries[args.draftId].Whole?
    && var tx := s.journals.entries[args.draftId].value;
    && tx.draftId == args.draftId && tx.draftSha == args.draftSha && tx.receiptId == args.receiptId && tx.ops != []
    && forall op | op in tx.ops :: BeforeOrAfter(s.ledger, op)
  }

  lemma UntouchedMeans(ledger: Ledger, ops: seq<Op>)
    ensures TargetsUntouched(ledger, ops) <==> forall op | op in ops :: BeforeOrAfter(ledger, op)
  {
  }

  /**
    The checks of a commit lead to a new journal exactly when there is none and draft, receipt, head and record are
    in order, to the journal on disk exactly when draft, receipt and journal are, and to a refusal otherwise.
   */
  lemma CommitAdmittedExactly(s: State, args: Args)
    ensures Admit(s, args).Fresh? <==>
      DraftReady(s, args) && ReceiptReady(s, args) && args.draftId !in s.journals.entries && RecordReady(s, args.draftSha.of)
    ensures Admit(s, args).Ready? <==> DraftReady(s, args) && ReceiptReady(s, args) && JournalReady(s, args)
    ensures !Admit(s, args).Fresh? && !Admit(s, args).Ready? ==> Admit(s, args) == Releasing
  {
    if args.draftId in s.journals.entries && s.journals.entries[args.draftId].Whole? {
      UntouchedMeans(s.ledger, s.journals.entries[args.draftId].value.ops);
    }
  }

  /** A call whose checks fail leaves no trace: no journal is made for it, whatever it names. */
  lemma RefusedCallLeavesNoTrace(s: State, args: Args)
    requires s.process.Idle? && !s.locked
    requires !(DraftReady(s, args) && ReceiptReady(s, args)
               && if args.draftId in s.journals.entries then JournalReady(s, args) else RecordReady(s, args.draftSha.of))
    ensures Run(s, Attempt(args)) == s
  {
    CommitAdmittedExactly(s, args);
    AttemptAdmits(s, args);
    RefusedChangesNothing(s, s.(locked := true, process := Releasing), args);
  }

  /** A command appends one record exactly when its approval mode is right and the record is valid. */
  lemma RecordCommandAdmittedExactly(s: State, record: Record, approvalRef: string, bootstrap: bool)
    ensures AdmitCommand(s, AppendRecord(record, approvalRef, bootstrap)).Appending? <==>
      && (record.kind == "approval" ==> bootstrap && record.status == "approved" && record.actor == "human")
      && (record.kind != "approval" ==> approvalRef != "" && approvalRef in record.approvalRefs)
      && record.day.Some? && CandidateOk(s.ledger, Lines(s.ledger, Sources), s.artifacts, record)
    ensures AdmitCommand(s, AppendRecord(record, approvalRef, bootstrap)).Appending? ==>
      AdmitCommand(s, AppendRecord(record, approvalRef, bootstrap)).op
        == PrepareAppend(s.ledger, Daily(record.day.value), [RecordLine(record)])
  {
  }

  /** A command registers a source exactly when its file is there and no registered line has its path or its ID. */
  lemma SourceCommandAdmittedExactly(s: State, sourceId: string, path: string, sourceType: string)
    ensures var p := AdmitCommand(s, RegisterSource(sourceId, path, sourceType));
      var lines := Lines(s.ledger, Sources);
      && (p.Appending? <==>
            && path in s.artifacts.content
            && forall i | 0 <= i < |lines| && lines[i].SourceLine? ::
                 lines[i].registration.path != path && lines[i].registration.sourceId != sourceId)
      && (p.Appending? ==> p.op == PrepareAppend(s.ledger, Sources,
            [SourceLine(Registration(sourceId, path, s.artifacts.content[path], sourceType))]))
  {
    var lines := Lines(s.ledger, Sources);
    if path in s.artifacts.content {
      var line := SourceLine(Registration(sourceId, path, s.artifacts.content[path], sourceType));
      assert forall i | 0 <= i < |lines| ::
        RegistrationsClash(lines[i], line) <==>
          lines[i].SourceLine? && (lines[i].registration.path == path || lines[i].registration.sourceId == sourceId);
    }
  }

  /** A receipt that appears was issued now: for a pending draft with a record ID, and not yet expired. */
  lemma ReceiptsAreIssued(s: State, e: Event, receiptId: string)
    requires receiptId !in s.receipts.entries && receiptId in Step(s, e).receipts.entries
    ensures e.IssueReceipt? && e.receiptId == receiptId && e.expires > s.clock
    ensures Step(s, e).receipts.entries[receiptId] == if e.whole then Whole(Receipt(e.draftSha, e.expires)) else Torn
    ensures var draft := e.draftSha.of;
      && draft.id !in s.consumed.entries && draft.record.recordId != ""
      && draft.id in s.drafts.entries && s.drafts.entries[draft.id] == Whole(draft)
  {
  }
}
