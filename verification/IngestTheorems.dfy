/**
  The promises of the commit protocol, for every run from a project without protocol files: any number of
  commits of any drafts, administrator writes, I/O errors and crashes at any write, torn creates included.
 */
module IngestTheorems {
  import opened Common
  import opened Ledger
  import opened CanonicalIo
  import opened IngestProtocol
  import opened IngestSafety

  lemma RunInv(base: Ledger, artifacts: Artifacts, clock: int, events: seq<Event>)
    ensures Inv(base, Run(Start(base, artifacts, clock), events))
  {
    var s := Start(base, artifacts, clock);
    forall target ensures FileGrows(base, s.ledger, target) {}
    assert Grows(base, s.ledger);
    RunKeeps(base, s, events);
  }

  // ----- Exactly once -----

  /**
    The canonical files are their first content and the logged appends, nothing else; an operation of a draft
    is logged at most once, with exactly the target and the lines its draft plans for it.
   */
  lemma ExactlyOnce(base: Ledger, artifacts: Artifacts, clock: int, events: seq<Event>)
    ensures var s := Run(Start(base, artifacts, clock), events);
      && (forall target :: Lines(s.ledger, target) == Content(base, s.log.entries, target))
      && (forall i, j | 0 <= i < j < |s.log.entries| && s.log.entries[i].origin.FromDraft? ::
            s.log.entries[i].origin != s.log.entries[j].origin)
      && (forall i | 0 <= i < |s.log.entries| && s.log.entries[i].origin.FromDraft? ::
            var entry := s.log.entries[i];
            && s.journals.IsWhole(entry.origin.draftId)
            && var draft := s.journals.Value(entry.origin.draftId).draftSha.of;
            && draft.id == entry.origin.draftId && draft.record.day.Some?
            && entry.origin.op < |Plan(draft)| && Plan(draft)[entry.origin.op] == (entry.target, entry.lines))
  {
    RunInv(base, artifacts, clock, events);
    var s := Run(Start(base, artifacts, clock), events);
    forall i | 0 <= i < |s.log.entries| && s.log.entries[i].origin.FromDraft?
      ensures EntryOk(s, s.log.entries[i]) && JournalOk(s, s.log.entries[i].origin.draftId)
    {
    }
  }

  lemma ApplyGrows(s: State, args: Args, tx: Journal, k: nat, o: Outcome)
    requires BusyOk(s, args, tx, k)
    ensures Grows(s.ledger, ApplyOp(s, args, tx, k, o).ledger)
  {
    ApplyEffects(s, ApplyOp(s, args, tx, k, o), o, args, tx, k);
    if k < |tx.ops| && StateOf(s.ledger, tx.ops[k]) == Pending { ReplaceApplies(s.ledger, tx.ops[k]); }
  }

  lemma AppendLinesGrows(s: State, op: Op, o: Outcome)
    requires Coherent(op)
    ensures Grows(s.ledger, AppendLines(s, op, o).ledger)
  {
    if StateOf(s.ledger, op) == Pending { ReplaceApplies(s.ledger, op); }
  }

  lemma HoldGrows(s: State, o: Outcome)
    requires ProcessOk(s)
    ensures Grows(s.ledger, HoldStep(s, o).ledger)
  {
    if s.process.Applying? {
      ApplyGrows(s, s.process.args, s.process.tx, s.process.k, o);
    } else if s.process.Appending? {
      AppendLinesGrows(s, s.process.op, o);
    }
  }

  lemma StepGrows(s: State, e: Event)
    requires ProcessOk(s)
    ensures Grows(s.ledger, Step(s, e).ledger)
  {
    if e.Hold? { HoldGrows(s, e.outcome); }
  }

  lemma {:induction false} RunGrows(base: Ledger, s: State, events: seq<Event>)
    requires Inv(base, s)
    ensures Grows(s.ledger, Run(s, events).ledger)
    decreases |events|
  {
    if events != [] {
      var s' := Step(s, events[0]);
      StepGrows(s, events[0]);
      StepKeeps(base, s, events[0]);
      RunGrows(base, s', events[1..]);
      GrowsTransitive(s.ledger, s'.ledger, Run(s, events).ledger);
    }
  }

  /** At any two moments of a run, the later files are the earlier ones with lines added at their ends. */
  lemma OnlyAppends(base: Ledger, artifacts: Artifacts, clock: int, earlier: seq<Event>, later: seq<Event>)
    ensures var start := Start(base, artifacts, clock);
      Grows(Run(start, earlier).ledger, Run(start, earlier + later).ledger)
  {
    RunInv(base, artifacts, clock, earlier);
    RunAppend(Start(base, artifacts, clock), earlier, later);
    RunGrows(base, Run(Start(base, artifacts, clock), earlier), later);
  }

  // ----- Receipts -----

  /**
    A consumed receipt has a journal bound to it, a draft consumes at most one receipt, and a draft of which
    anything was appended has consumed its receipt.
   */
  lemma ReceiptDiscipline(base: Ledger, artifacts: Artifacts, clock: int, events: seq<Event>)
    ensures var s := Run(Start(base, artifacts, clock), events);
      && (forall r | s.marks.Has(r) ::
            && s.receipts.IsWhole(r)
            && var sha := s.receipts.Value(r).draftSha;
            s.journals.IsWhole(sha.of.id) && s.journals.Value(sha.of.id).receiptId == r
            && s.journals.Value(sha.of.id).draftSha == sha)
      && (forall r, q | s.marks.Has(r) && s.marks.Has(q) && s.receipts.IsWhole(r) && s.receipts.IsWhole(q)
            && s.receipts.Value(r).draftSha.of.id == s.receipts.Value(q).draftSha.of.id :: r == q)
      && (forall id | FromDraftIn(s.log.entries, id) ::
            s.journals.IsWhole(id) && s.marks.IsWhole(s.journals.Value(id).receiptId))
  {
    RunInv(base, artifacts, clock, events);
    var s := Run(Start(base, artifacts, clock), events);
    forall r | s.marks.Has(r) ensures MarkOk(s, r) {}
    forall id | FromDraftIn(s.log.entries, id)
      ensures s.journals.IsWhole(id) && s.marks.IsWhole(s.journals.Value(id).receiptId)
    {
      var i :| 0 <= i < |s.log.entries| && s.log.entries[i].origin.FromDraft? && s.log.entries[i].origin.draftId == id;
      assert EntryOk(s, s.log.entries[i]);
    }
  }

  // ----- The status report -----

  datatype DraftStatus = PendingDraft | RecoveryRequired | ConsumedDraft

  datatype Report = Report(status: DraftStatus, appliedCount: nat)

  /** The status of one draft, or none when the draft or its journal cannot be read. */
  function PendingIngestStatus(s: State, id: string): Option<Report> {
    if !s.drafts.IsWhole(id) || (s.journals.Has(id) && !s.journals.IsWhole(id)) then None
    else
      var count := if s.journals.Has(id) then s.journals.Value(id).applied else 0;
      if s.consumed.Has(id) then Some(Report(ConsumedDraft, count))
      else if s.journals.Has(id) && s.journals.Value(id).status in {ApplyingOps, CanonicalCommitted, FailedRecoverable} then
        Some(Report(RecoveryRequired, count))
      else Some(Report(PendingDraft, count))
  }

  /**
    In every reachable state: there is a report exactly when the draft and its journal, if it has one, can be read.
    It says consumed exactly when the draft's marker exists, recovery exactly when it does not and the stored journal
    has left its first status, pending otherwise; the count is the one stored, and zero without a journal.
   */
  lemma StatusExactly(base: Ledger, artifacts: Artifacts, clock: int, events: seq<Event>, id: string)
    ensures var s := Run(Start(base, artifacts, clock), events);
      var report := PendingIngestStatus(s, id);
      && (report.Some? <==> s.drafts.IsWhole(id) && (s.journals.Has(id) ==> s.journals.IsWhole(id)))
      && (report.Some? ==>
            && (report.value.status == ConsumedDraft <==> s.consumed.Has(id))
            && (report.value.status == RecoveryRequired <==>
                  !s.consumed.Has(id) && s.journals.Has(id) && s.journals.Value(id).status != Prepared)
            && (report.value.status == PendingDraft <==>
                  !s.consumed.Has(id) && (s.journals.Has(id) ==> s.journals.Value(id).status == Prepared))
            && report.value.appliedCount == (if s.journals.Has(id) then s.journals.Value(id).applied else 0))
  {
    RunInv(base, artifacts, clock, events);
    assert JournalOk(Run(Start(base, artifacts, clock), events), id);
  }

  /**
    In every reachable state: `pending` means nothing of the draft was appended, `recovery_required` that its
    receipt is consumed, `consumed` that all its lines are in the ledger; a count is never ahead of the files.
   */
  lemma StatusIsSound(base: Ledger, artifacts: Artifacts, clock: int, events: seq<Event>, id: string)
    ensures var s := Run(Start(base, artifacts, clock), events);
      var report := PendingIngestStatus(s, id);
      report.Some? ==>
        && (report.value.status == PendingDraft ==> !FromDraftIn(s.log.entries, id))
        && (report.value.status == RecoveryRequired ==>
              s.journals.IsWhole(id) && s.marks.IsWhole(s.journals.Value(id).receiptId))
        && (report.value.status == ConsumedDraft ==>
              s.journals.IsWhole(id) && AllInPlace(s.ledger, s.journals.Value(id).ops)
              && s.marks.IsWhole(s.journals.Value(id).receiptId))
        && (s.journals.Has(id) ==>
              s.journals.IsWhole(id) && FirstInPlace(s.ledger, s.journals.Value(id).ops, report.value.appliedCount))
        && (!s.journals.Has(id) ==> report.value.appliedCount == 0)
  {
    RunInv(base, artifacts, clock, events);
    var s := Run(Start(base, artifacts, clock), events);
    assert JournalOk(s, id) && ConsumedOk(s, id);
    if !s.journals.Has(id) { NothingLoggedWithoutJournal(s, id); }
  }
}
