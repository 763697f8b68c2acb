/** When an interrupted commit can still be finished, and when no future of any kind can finish it. */
module IngestDeadEnds {
  import opened Ledger
  import opened CanonicalIo
  import opened IngestProtocol
  import opened IngestSafety
  import opened IngestTheorems
  import opened IngestRecovery

  /** The journal is torn, or its receipt has expired, or the marker of its receipt is torn. */
  predicate Stuck(s: State, id: string) {
    s.journals.Has(id) && (s.journals.IsWhole(id) ==> ReceiptSpent(s, s.journals.Value(id).receiptId))
  }

  predicate ReceiptSpent(s: State, receiptId: string) {
    || (s.receipts.IsWhole(receiptId) && !Unexpired(s, receiptId))
    || (s.marks.Has(receiptId) && !s.marks.IsWhole(receiptId))
  }

  /** The holder has used the receipt of this draft. */
  predicate PastGrant(p: Process, id: string) {
    (p.Granted? || p.Applying? || Late(p)) && p.args.draftId == id
  }

  predicate DeadEnd(s: State, id: string) {
    Stuck(s, id) && !s.consumed.Has(id) && !PastGrant(s.process, id)
  }

  /** Nothing that decides a dead end is undone. */
  lemma DeadEndStays(s: State, s': State, id: string)
    requires DeadEnd(s, id) && !PastGrant(s'.process, id)
    requires SameAt(s.journals, s'.journals, id)
    requires Within(s.receipts, s'.receipts) && Within(s.marks, s'.marks) && s.clock <= s'.clock
    requires s'.consumed.Has(id) ==> s.consumed.Has(id)
    ensures DeadEnd(s', id)
  {
  }

  lemma NoGrant(s: State, o: Outcome, id: string)
    requires DeadEnd(s, id) && s.process.Ready? && ProcessOk(s)
    ensures DeadEnd(HoldStep(s, o), id)
  {
    var s' := HoldStep(s, o);
    ConsumeEffects(s, s', s.process.args, s.process.tx, o);
    DeadEndStays(s, s', id);
  }

  lemma DeadEarly(s: State, o: Outcome, id: string)
    requires DeadEnd(s, id) && ProcessOk(s) && (s.process.Checking? || s.process.Fresh?)
    ensures DeadEnd(HoldStep(s, o), id)
  {
    DeadEndStays(s, HoldStep(s, o), id);
  }

  lemma DeadGranted(s: State, o: Outcome, id: string)
    requires DeadEnd(s, id) && ProcessOk(s) && s.process.Granted?
    ensures DeadEnd(HoldStep(s, o), id)
  {
    assert s.process.tx.draftId == s.process.args.draftId;
    DeadEndStays(s, HoldStep(s, o), id);
  }

  lemma DeadApplying(s: State, s': State, o: Outcome, id: string, args: Args, tx: Journal, k: nat)
    requires DeadEnd(s, id) && ProcessOk(s) && s.process == Applying(args, tx, k) && s' == ApplyOp(s, args, tx, k, o)
    ensures DeadEnd(s', id)
  {
    ApplyEffects(s, s', o, args, tx, k);
    DeadEndStays(s, s', id);
  }

  lemma DeadLate(s: State, o: Outcome, id: string)
    requires DeadEnd(s, id) && ProcessOk(s) && (s.process.Counting? || s.process.Closing? || s.process.Marking?)
    ensures DeadEnd(HoldStep(s, o), id)
  {
    assert s.process.tx.draftId == s.process.args.draftId;
    DeadEndStays(s, HoldStep(s, o), id);
  }

  lemma DeadEnding(s: State, o: Outcome, id: string)
    requires DeadEnd(s, id) && ProcessOk(s) && (s.process.Failing? || s.process.Finishing?)
    ensures DeadEnd(HoldStep(s, o), id)
  {
    assert s.process.tx.draftId == s.process.args.draftId;
    DeadEndStays(s, HoldStep(s, o), id);
  }

  lemma DeadCommand(s: State, o: Outcome, id: string)
    requires DeadEnd(s, id) && s.process.Validating?
    ensures DeadEnd(HoldStep(s, o), id)
  {
    DeadEndStays(s, HoldStep(s, o), id);
  }

  lemma DeadAppending(s: State, s': State, o: Outcome, id: string, op: Op)
    requires DeadEnd(s, id) && s.process == Appending(op) && s' == AppendLines(s, op, o)
    ensures DeadEnd(s', id)
  {
    DeadEndStays(s, s', id);
  }

  lemma DeadElsewhere(s: State, o: Outcome, id: string)
    requires DeadEnd(s, id) && (s.process.Idle? || s.process.Releasing?)
    ensures DeadEnd(HoldStep(s, o), id)
  {
    DeadEndStays(s, HoldStep(s, o), id);
  }

  lemma DeadStep(s: State, e: Event, id: string)
    requires DeadEnd(s, id) && ProcessOk(s)
    ensures DeadEnd(Step(s, e), id)
  {
    if e.Hold? {
      if s.process.Checking? || s.process.Fresh? {
        DeadEarly(s, e.outcome, id);
      } else if s.process.Ready? {
        NoGrant(s, e.outcome, id);
      } else if s.process.Granted? {
        DeadGranted(s, e.outcome, id);
      } else if s.process.Applying? {
        DeadApplying(s, Step(s, e), e.outcome, id, s.process.args, s.process.tx, s.process.k);
      } else if s.process.Failing? || s.process.Finishing? {
        DeadEnding(s, e.outcome, id);
      } else if Late(s.process) {
        DeadLate(s, e.outcome, id);
      } else if s.process.Validating? {
        DeadCommand(s, e.outcome, id);
      } else if s.process.Appending? {
        DeadAppending(s, Step(s, e), e.outcome, id, s.process.op);
      } else {
        DeadElsewhere(s, e.outcome, id);
      }
    } else {
      DeadEndStays(s, Step(s, e), id);
    }
  }

  lemma {:induction false} DeadRun(base: Ledger, s: State, id: string, future: seq<Event>)
    requires Inv(base, s) && DeadEnd(s, id)
    ensures DeadEnd(Run(s, future), id)
    decreases |future|
  {
    if future != [] {
      DeadStep(s, future[0], id);
      StepKeeps(base, s, future[0]);
      DeadRun(base, Step(s, future[0]), id, future[1..]);
    }
  }

  /**
    No future finishes a stuck draft: with any events at all (new receipts, cleared locks, other writers,
    time), it is never consumed.
   */
  lemma StuckForever(
    base: Ledger, artifacts: Artifacts, clock: int, events: seq<Event>, id: string, future: seq<Event>)
    requires var s := Run(Start(base, artifacts, clock), events);
      s.process.Idle? && Stuck(s, id) && !s.consumed.Has(id)
    ensures var s := Run(Start(base, artifacts, clock), events); !Run(s, future).consumed.Has(id)
  {
    RunInv(base, artifacts, clock, events);
    DeadRun(base, Run(Start(base, artifacts, clock), events), id, future);
  }

  // ----- Every journal names a real receipt for its own draft -----

  predicate JournalReceipt(s: State, id: string) {
    s.journals.IsWhole(id) ==>
      var tx := s.journals.Value(id); ReceiptMatches(s, Args(id, tx.draftSha, tx.receiptId))
  }

  ghost predicate JournalReceipts(s: State) {
    forall id :: JournalReceipt(s, id)
  }

  lemma ReceiptsOfOne(s: State, s': State, id: string)
    requires JournalReceipts(s) && Within(s.receipts, s'.receipts)
    requires forall other | other != id :: SameAt(s.journals, s'.journals, other)
    requires JournalReceipt(s', id)
    ensures JournalReceipts(s')
  {
    forall other ensures JournalReceipt(s', other) {
      assert JournalReceipt(s, other) && (other != id ==> SameAt(s.journals, s'.journals, other));
    }
  }

  lemma StoredReceipts(s: State, s': State, args: Args, tx: Journal)
    requires JournalReceipts(s) && InCommit(s, args, tx) && s'.receipts == s.receipts
    requires || s'.journals == s.journals || s'.journals == s.journals.Put(args.draftId, Torn)
             || (s'.journals.IsWhole(args.draftId) && SameCommit(s'.journals.Value(args.draftId), tx)
                 && s'.journals == s.journals.Put(args.draftId, s'.journals.entries[args.draftId]))
    ensures JournalReceipts(s')
  {
    assert JournalReceipt(s, args.draftId);
    ReceiptsOfOne(s, s', args.draftId);
  }

  lemma EarlyReceipts(s: State, o: Outcome)
    requires JournalReceipts(s) && ProcessOk(s) && (s.process.Fresh? || s.process.Granted? || s.process.Counting?)
    ensures JournalReceipts(HoldStep(s, o))
  {
    StoredReceipts(s, HoldStep(s, o), s.process.args, s.process.tx);
  }

  lemma LateReceipts(s: State, o: Outcome)
    requires JournalReceipts(s) && ProcessOk(s) && (s.process.Closing? || s.process.Failing? || s.process.Finishing?)
    ensures JournalReceipts(HoldStep(s, o))
  {
    StoredReceipts(s, HoldStep(s, o), s.process.args, s.process.tx);
  }

  predicate StoresJournal(p: Process) {
    p.Fresh? || p.Granted? || p.Counting? || p.Closing? || p.Failing? || p.Finishing?
  }

  lemma OtherSteps(s: State, o: Outcome)
    requires !StoresJournal(s.process)
    ensures var s' := HoldStep(s, o); s'.journals == s.journals && s'.receipts == s.receipts
  {
  }

  lemma OtherReceipts(s: State, s': State)
    requires JournalReceipts(s) && s'.journals == s.journals && s'.receipts == s.receipts
    ensures JournalReceipts(s')
  {
    forall id ensures JournalReceipt(s', id) { assert JournalReceipt(s, id); }
  }

  lemma HoldReceipts(s: State, o: Outcome)
    requires JournalReceipts(s) && ProcessOk(s)
    ensures JournalReceipts(HoldStep(s, o))
  {
    if s.process.Fresh? || s.process.Granted? || s.process.Counting? {
      EarlyReceipts(s, o);
    } else if StoresJournal(s.process) {
      LateReceipts(s, o);
    } else {
      OtherSteps(s, o);
      OtherReceipts(s, HoldStep(s, o));
    }
  }

  lemma {:induction false} RunReceipts(base: Ledger, s: State, events: seq<Event>)
    requires Inv(base, s) && JournalReceipts(s)
    ensures JournalReceipts(Run(s, events))
    decreases |events|
  {
    if events != [] {
      var e := events[0];
      if e.Hold? {
        HoldReceipts(s, e.outcome);
      } else {
        StepWithin(s, e);
        assert forall id :: JournalReceipt(s, id) ==> JournalReceipt(Step(s, e), id);
      }
      StepKeeps(base, s, e);
      RunReceipts(base, Step(s, e), events[1..]);
    }
  }

  // ----- Exactly when an interrupted commit can still be finished -----

  /** The call that resumes a journal. */
  function ResumeArgs(s: State, id: string): Args
    requires s.journals.IsWhole(id)
  {
    Args(id, s.journals.Value(id).draftSha, s.journals.Value(id).receiptId)
  }

  lemma ResumeWouldCommit(base: Ledger, before: Ledger, draft: Draft, s: State)
    requires Inv(base, s) && Trail(before, draft, s) && JournalReceipts(s)
    requires s.process.Idle? && !s.locked && !s.consumed.Has(draft.id)
    requires s.journals.Has(draft.id) && !Stuck(s, draft.id) && SourcesUnchanged(s, draft)
    ensures WouldCommit(s, ResumeArgs(s, draft.id))
  {
    assert JournalOk(s, draft.id) && JournalReceipt(s, draft.id);
    var ops := s.journals.Value(draft.id).ops;
    OpsForPrepared(before, draft);
    forall op | op in ops ensures StateOf(s.ledger, op) != Changed {
      var k :| 0 <= k < |ops| && ops[k] == op;
      UpToStates(before, ops, s.ledger, k);
    }
  }

  /** The recovery an administrator performs: clear the lock of the dead holder, and repeat the call. */
  function Recover(args: Args): seq<Event> {
    [ClearLock] + Attempt(args)
  }

  lemma RecoverCommits(base: Ledger, before: Ledger, draft: Draft, s: State)
    requires Inv(base, s) && Trail(before, draft, s) && JournalReceipts(s) && s.process.Idle?
    requires !s.consumed.Has(draft.id) && s.journals.Has(draft.id) && !Stuck(s, draft.id) && SourcesUnchanged(s, draft)
    ensures Run(s, Recover(ResumeArgs(s, draft.id))).consumed.Has(draft.id)
  {
    var free := Step(s, ClearLock);
    var args := ResumeArgs(s, draft.id);
    StepKeeps(base, s, ClearLock);
    TrailQuiet(before, draft, s, free);
    assert forall id :: JournalReceipt(s, id) ==> JournalReceipt(free, id);
    ResumeWouldCommit(base, before, draft, free);
    Commits(base, free, args);
    assert Recover(args)[1..] == Attempt(args);
  }

  /** Some future, of any kind, consumes the draft. */
  ghost predicate Finishable(s: State, id: string) {
    exists future :: Run(s, future).consumed.Has(id)
  }

  lemma FinishableOnTrail(base: Ledger, before: Ledger, draft: Draft, s: State)
    requires Inv(base, s) && Trail(before, draft, s) && JournalReceipts(s) && s.process.Idle?
    requires s.journals.Has(draft.id) && !s.consumed.Has(draft.id) && SourcesUnchanged(s, draft)
    ensures Finishable(s, draft.id) <==> !Stuck(s, draft.id)
  {
    if Stuck(s, draft.id) {
      forall future ensures !Run(s, future).consumed.Has(draft.id) { DeadRun(base, s, draft.id, future); }
    } else {
      RecoverCommits(base, before, draft, s);
    }
  }

  /** What is true of a project whose attempts at one commit were interrupted. */
  lemma Interrupted(
    base: Ledger, artifacts: Artifacts, clock: int, setup: seq<Event>, interrupted: seq<Event>, args: Args)
    requires var s := Run(Start(base, artifacts, clock), setup);
      WouldCommit(s, args) && !s.journals.Has(args.draftId)
    requires forall e | e in interrupted :: Concerns(e, args.draftId)
    ensures var s := Run(Start(base, artifacts, clock), setup);
      var crashed := Run(s, interrupted);
      Inv(base, crashed) && JournalReceipts(crashed) && Trail(s.ledger, args.draftSha.of, crashed)
      && args.draftSha.of.id == args.draftId
  {
    var start := Start(base, artifacts, clock);
    var s := Run(start, setup);
    RunInv(base, artifacts, clock, []);
    RunReceipts(base, start, setup);
    RunInv(base, artifacts, clock, setup);
    RunReceipts(base, s, interrupted);
    TrailStarts(base, s, args);
    TrailRun(base, s.ledger, args.draftSha.of, s, interrupted);
  }

  /**
    Take a state in which a commit would succeed and interrupt its attempts in any way, torn creates included,
    until no process is left and a journal exists. With the sources as they were, some future consumes the
    draft exactly when it is not stuck; clearing the lock and repeating the journalled call is such a future.
   */
  lemma RecoverableExactlyWhenNotStuck(
    base: Ledger, artifacts: Artifacts, clock: int, setup: seq<Event>, interrupted: seq<Event>, args: Args)
    requires var s := Run(Start(base, artifacts, clock), setup);
      WouldCommit(s, args) && !s.journals.Has(args.draftId)
    requires forall e | e in interrupted :: Concerns(e, args.draftId)
    requires var crashed := Run(Run(Start(base, artifacts, clock), setup), interrupted);
      && crashed.process.Idle? && crashed.journals.Has(args.draftId) && !crashed.consumed.Has(args.draftId)
      && SourcesUnchanged(crashed, args.draftSha.of)
    ensures var crashed := Run(Run(Start(base, artifacts, clock), setup), interrupted);
      && (Finishable(crashed, args.draftId) <==> !Stuck(crashed, args.draftId))
      && (!Stuck(crashed, args.draftId) ==>
            Run(crashed, Recover(ResumeArgs(crashed, args.draftId))).consumed.Has(args.draftId))
  {
    var s := Run(Start(base, artifacts, clock), setup);
    var crashed := Run(s, interrupted);
    Interrupted(base, artifacts, clock, setup, interrupted, args);
    FinishableOnTrail(base, s.ledger, args.draftSha.of, crashed);
    if !Stuck(crashed, args.draftId) { RecoverCommits(base, s.ledger, args.draftSha.of, crashed); }
  }
}
