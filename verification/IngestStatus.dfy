/**
  `pending` and the content of the ledger. That a draft is pending does not by itself mean that its lines are
  absent: somebody else may have appended the very same lines. Under the discipline nobody does.
 */
module IngestStatus {
  import opened Common
  import opened Ledger
  import opened CanonicalIo
  import opened IngestProtocol
  import opened IngestSafety
  import opened IngestTheorems
  import opened IngestRecovery
  import opened IngestIdentity
  import opened IngestFinishable
  import opened IngestCounterexamples

  predicate AllPending(ledger: Ledger, ops: seq<Op>) {
    forall k | 0 <= k < |ops| :: StateOf(ledger, ops[k]) == Pending
  }

  predicate NoneInPlace(ledger: Ledger, ops: seq<Op>) {
    forall k | 0 <= k < |ops| :: !InPlace(ledger, ops[k])
  }

  /**
    In every reachable state: when the targets of a journal pass the check of the resume branch, none of its
    operations is in place exactly when the check finds every one of them still pending.
   */
  lemma NothingInPlaceExactlyWhenAllPending(
    base: Ledger, artifacts: Artifacts, clock: int, events: seq<Event>, id: string)
    requires var s := Run(Start(base, artifacts, clock), events);
      s.journals.IsWhole(id) && TargetsUntouched(s.ledger, s.journals.Value(id).ops)
    ensures var s := Run(Start(base, artifacts, clock), events);
      var ops := s.journals.Value(id).ops;
      NoneInPlace(s.ledger, ops) <==> AllPending(s.ledger, ops)
  {
    var s := Run(Start(base, artifacts, clock), events);
    RunInv(base, artifacts, clock, events);
    assert JournalOk(s, id);
    var ops := s.journals.Value(id).ops;
    forall k | 0 <= k < |ops| ensures InPlace(s.ledger, ops[k]) <==> StateOf(s.ledger, ops[k]) != Pending {
      assert StateOf(s.ledger, ops[k]) != Changed by { assert ops[k] in ops; }
      if InPlace(s.ledger, ops[k]) { InPlaceIsNeverPending(s.ledger, ops[k]); }
    }
  }

  /** After a commit that could succeed, and did not fail, the report says consumed and counts all operations. */
  lemma CommitIsReported(base: Ledger, artifacts: Artifacts, clock: int, events: seq<Event>, args: Args)
    requires WouldCommit(Run(Start(base, artifacts, clock), events), args)
    ensures var s := Run(Start(base, artifacts, clock), events);
      PendingIngestStatus(Run(s, Attempt(args)), args.draftId) == Some(Report(ConsumedDraft, |OpsOf(s, args)|))
  {
    var s := Run(Start(base, artifacts, clock), events);
    var f := Run(s, Attempt(args));
    RunInv(base, artifacts, clock, events);
    AdmittedTx(base, s, args);
    Commits(base, s, args);
    RunWithin(s, Attempt(args));
    RunKeeps(base, s, Attempt(args));
    FinishedReports(base, f, args, |OpsOf(s, args)|);
  }

  lemma FinishedReports(base: Ledger, f: State, args: Args, count: nat)
    requires Inv(base, f) && Finished(f, args) && f.drafts.IsWhole(args.draftId)
    requires args.draftSha.of.record.day.Some? && count == |Plan(args.draftSha.of)|
    ensures PendingIngestStatus(f, args.draftId) == Some(Report(ConsumedDraft, count))
  {
    assert JournalOk(f, args.draftId);
  }

  /** The lines that the target has got since the operation was prepared. */
  function Since(ledger: Ledger, op: Op): seq<Line> {
    if |op.before.of| <= |Lines(ledger, op.target)| then Lines(ledger, op.target)[|op.before.of|..] else []
  }

  /**
    In every reachable state: what a target held when the journal was made is still there, and an operation is in
    place exactly when the first lines the target has got since then are its own. For a pending draft the draft
    appended none of them.
   */
  lemma InPlaceExactlyWhenRepeated(
    base: Ledger, artifacts: Artifacts, clock: int, events: seq<Event>, id: string, k: nat)
    requires var s := Run(Start(base, artifacts, clock), events);
      s.journals.IsWhole(id) && k < |s.journals.Value(id).ops|
    ensures var s := Run(Start(base, artifacts, clock), events);
      var op := s.journals.Value(id).ops[k];
      && Lines(s.ledger, op.target) == op.before.of + Since(s.ledger, op)
      && (InPlace(s.ledger, op) <==> op.append <= Since(s.ledger, op))
      && (PendingIngestStatus(s, id) == Some(Report(PendingDraft, s.journals.Value(id).applied)) ==>
            !FromDraftIn(s.log.entries, id))
  {
    var s := Run(Start(base, artifacts, clock), events);
    ReachableIsSound(base, artifacts, clock, events);
    StatusIsSound(base, artifacts, clock, events, id);
    assert JournalBased(s, id);
    OpOfHead(s.ledger, s.journals.Value(id), k);
    PrefixOfSum(s.journals.Value(id).ops[k].before.of, s.journals.Value(id).ops[k].append, Lines(s.ledger, s.journals.Value(id).ops[k].target));
  }

  lemma PrefixOfSum(before: seq<Line>, more: seq<Line>, lines: seq<Line>)
    requires before <= lines
    ensures lines == before + lines[|before|..]
    ensures before + more <= lines <==> more <= lines[|before|..]
  {
    if before + more <= lines {
      assert forall i | 0 <= i < |more| :: more[i] == (before + more)[|before| + i] == lines[|before|..][i];
    }
    if more <= lines[|before|..] {
      assert forall i | 0 <= i < |more| :: lines[|before| + i] == lines[|before|..][i] == more[i];
      assert lines[..|before| + |more|] == before + more;
    }
  }

  // ----- A pending draft whose lines are in the ledger -----

  function SameRecord(): seq<Event> {
    [ClearLock] + CommandEvents(AppendRecord(Note(SECOND_DAY), APPROVAL, false))
  }

  function NoteOp(): Op {
    PrepareAppend(Base(), Daily(SECOND_DAY), [RecordLine(Note(SECOND_DAY))])
  }

  lemma SameRecordAppended()
    ensures Run(Crashed(), SameRecord()) == Unlocked().(
      ledger := Replace(Base(), NoteOp()), log := Log([Entry(FromCommand, Daily(SECOND_DAY), [RecordLine(Note(SECOND_DAY))])]))
  {
    var command := AppendRecord(Note(SECOND_DAY), APPROVAL, false);
    NoteIsAllowed(Base(), Lines(Base(), Sources), Files0(), SECOND_DAY);
    assert AdmitCommand(Unlocked().(locked := true, process := Validating(command)), command) == Appending(NoteOp());
    PreparedIsPending(Base(), Daily(SECOND_DAY), [RecordLine(Note(SECOND_DAY))]);
    assert SameRecord()[1..] == CommandEvents(command) && Step(Crashed(), ClearLock) == Unlocked();
    CommandRuns(Unlocked(), command, NoteOp());
    assert [] + [Entry(FromCommand, Daily(SECOND_DAY), NoteOp().append)] == [Entry(FromCommand, Daily(SECOND_DAY), NoteOp().append)];
  }

  /**
    A process dies after creating its journal, and the administrator appends the draft's own record by hand:
    the status is `pending`, and the draft's only operation is in place.
   */
  lemma PendingDraftMayBeInPlace()
    ensures var s := Run(Start(Base(), Files0(), 0), Approve(NoteDraft()) + (Dies() + SameRecord()));
      && PendingIngestStatus(s, DRAFT) == Some(Report(PendingDraft, 0))
      && s.journals.IsWhole(DRAFT) && s.journals.Value(DRAFT).ops == [NoteOp()] && InPlace(s.ledger, NoteOp())
  {
    var start := Start(Base(), Files0(), 0);
    Approved(start, NoteDraft());
    RunAppend(start, Approve(NoteDraft()), Dies() + SameRecord());
    RunAppend(Approved0(), Dies(), SameRecord());
    DiesAfterJournal();
    SameRecordAppended();
    PreparedIsPending(Base(), Daily(SECOND_DAY), [RecordLine(Note(SECOND_DAY))]);
    ReplaceApplies(Base(), NoteOp());
  }

  // ----- Under the discipline -----

  ghost predicate PreparedPending(s: State, id: string) {
    s.journals.IsWhole(id) && s.journals.Value(id).status == Prepared ==> AllPending(s.ledger, s.journals.Value(id).ops)
  }

  ghost predicate StatusInv(s: State) {
    && (forall id :: PreparedPending(s, id))
    && (s.process.Fresh? ==> AllPending(s.ledger, s.process.tx.ops))
  }

  /** A step that appends nothing, and writes at most one journal. */
  lemma StatusQuiet(s: State, s': State, id: string)
    requires StatusInv(s) && s'.ledger == s.ledger
    requires forall other | other != id :: SameAt(s.journals, s'.journals, other)
    requires s'.journals.IsWhole(id) ==>
      || (s.journals.IsWhole(id) && s'.journals.Value(id) == s.journals.Value(id))
      || s'.journals.Value(id).status != Prepared
      || AllPending(s.ledger, s'.journals.Value(id).ops)
    requires s'.process.Fresh? ==> AllPending(s.ledger, s'.process.tx.ops)
    ensures StatusInv(s')
  {
    assert PreparedPending(s, id);
    forall other ensures PreparedPending(s', other) {
      assert PreparedPending(s, other) && (other != id ==> SameAt(s.journals, s'.journals, other));
    }
  }

  /** A journal that has nothing left to append is not one that has everything left to append. */
  lemma SettledIsNotPrepared(s: State, id: string)
    requires JournalOk(s, id) && PreparedPending(s, id) && Settled(s, id) && s.journals.IsWhole(id)
    ensures s.journals.Value(id).status != Prepared
  {
    var tx := s.journals.Value(id);
    assert |tx.ops| == |Plan(tx.draftSha.of)| > 0;
    InPlaceIsNeverPending(s.ledger, tx.ops[0]);
  }

  lemma StatusAppends(base: Ledger, s: State, s': State, id: string)
    requires Inv(base, s) && StatusInv(s) && OthersSettled(s, id) && s'.journals == s.journals && !s'.process.Fresh?
    requires s.journals.IsWhole(id) ==> s.journals.Value(id).status != Prepared
    ensures StatusInv(s')
  {
    forall other ensures PreparedPending(s', other) {
      assert JournalOk(s, other) && PreparedPending(s, other);
      if other != id && s.journals.IsWhole(other) {
        assert Settled(s, other);
        SettledIsNotPrepared(s, other);
      }
    }
  }

  lemma StatusAdmits(s: State, o: Outcome)
    requires StatusInv(s) && s.process.Checking?
    ensures StatusInv(HoldStep(s, o))
  {
    var args := s.process.args;
    if args.draftSha.of.record.day.Some? {
      NewJournalShaped(s.ledger, args.draftSha.of);
      var ops := OpsFor(s.ledger, args.draftSha.of);
      assert forall k | 0 <= k < |ops| :: ops[k] in ops;
    }
    StatusQuiet(s, HoldStep(s, o), "");
  }

  lemma StatusCreates(s: State, o: Outcome, args: Args, tx: Journal)
    requires StatusInv(s) && s.process == Fresh(args, tx) && Binds(tx, args)
    ensures StatusInv(CreateJournal(s, args, tx, o))
  {
    StatusQuiet(s, CreateJournal(s, args, tx, o), args.draftId);
  }

  lemma StatusEarlyStores(s: State, o: Outcome)
    requires StatusInv(s) && ProcessOk(s) && (s.process.Granted? || s.process.Counting? || s.process.Closing?)
    ensures StatusInv(HoldStep(s, o))
  {
    StatusQuiet(s, HoldStep(s, o), s.process.tx.draftId);
  }

  lemma StatusLateStores(s: State, o: Outcome)
    requires StatusInv(s) && ProcessOk(s) && (s.process.Failing? || s.process.Finishing?)
    ensures StatusInv(HoldStep(s, o))
  {
    StatusQuiet(s, HoldStep(s, o), s.process.tx.draftId);
  }

  lemma StatusApplies(base: Ledger, s: State, s': State, o: Outcome, args: Args, tx: Journal, k: nat)
    requires Inv(base, s) && StatusInv(s) && HolderSafe(s) && s.process == Applying(args, tx, k)
    requires s' == ApplyOp(s, args, tx, k, o)
    ensures StatusInv(s')
  {
    assert BusyOk(s, args, tx, k);
    ApplyEffects(s, s', o, args, tx, k);
    StatusAppends(base, s, s', args.draftId);
  }

  lemma StatusCommands(base: Ledger, s: State, s': State, o: Outcome, op: Op)
    requires Inv(base, s) && StatusInv(s) && HolderSafe(s) && s.process == Appending(op)
    requires s' == AppendLines(s, op, o)
    ensures StatusInv(s')
  {
    assert JournalOk(s, "") && PreparedPending(s, "") && Settled(s, "");
    if s.journals.IsWhole("") { SettledIsNotPrepared(s, ""); }
    StatusAppends(base, s, s', "");
  }

  lemma StatusConsumes(s: State, o: Outcome)
    requires StatusInv(s) && s.process.Ready?
    ensures StatusInv(HoldStep(s, o))
  {
    ConsumeEffects(s, HoldStep(s, o), s.process.args, s.process.tx, o);
    StatusQuiet(s, HoldStep(s, o), "");
  }

  lemma StatusRests(s: State, o: Outcome)
    requires StatusInv(s) && (s.process.Marking? || s.process.Releasing? || s.process.Idle? || s.process.Validating?)
    ensures StatusInv(HoldStep(s, o))
  {
    StatusQuiet(s, HoldStep(s, o), "");
  }

  lemma StatusHolds(base: Ledger, s: State, s': State, o: Outcome)
    requires Inv(base, s) && StatusInv(s) && HolderSafe(s) && s' == HoldStep(s, o)
    ensures StatusInv(s')
  {
    if s.process.Checking? {
      StatusAdmits(s, o);
    } else if s.process.Fresh? {
      StatusCreates(s, o, s.process.args, s.process.tx);
    } else if s.process.Applying? {
      StatusApplies(base, s, s', o, s.process.args, s.process.tx, s.process.k);
    } else if s.process.Appending? {
      StatusCommands(base, s, s', o, s.process.op);
    } else if s.process.Ready? {
      StatusConsumes(s, o);
    } else if s.process.Failing? || s.process.Finishing? {
      StatusLateStores(s, o);
    } else if s.process.Granted? || s.process.Counting? || s.process.Closing? {
      StatusEarlyStores(s, o);
    } else {
      StatusRests(s, o);
    }
  }

  lemma StatusSteps(base: Ledger, s: State, e: Event)
    requires Inv(base, s) && StatusInv(s) && HolderSafe(s)
    ensures StatusInv(Step(s, e))
  {
    if e.Hold? { StatusHolds(base, s, Step(s, e), e.outcome); } else { StatusQuiet(s, Step(s, e), ""); }
  }

  lemma IdentityStep(base: Ledger, s: State, e: Event)
    requires Inv(base, s) && IdentityInv(s) && Permitted(s, e)
    ensures IdentityInv(Step(s, e))
  {
    assert Disciplined(Step(s, e), []) && Run(Step(s, e), []) == Step(s, e);
    assert [e][1..] == [];
    IdentityRuns(base, s, [e]);
  }

  lemma {:induction false} StatusRuns(base: Ledger, s: State, events: seq<Event>)
    requires Inv(base, s) && IdentityInv(s) && StatusInv(s) && Disciplined(s, events)
    ensures StatusInv(Run(s, events))
    decreases |events|
  {
    if events != [] {
      StatusSteps(base, s, events[0]);
      StepKeeps(base, s, events[0]);
      IdentityStep(base, s, events[0]);
      StatusRuns(base, Step(s, events[0]), events[1..]);
    }
  }

  /** Under the discipline a pending draft has nothing of its journal in the ledger. */
  lemma PendingMeansNothingInPlace(base: Ledger, artifacts: Artifacts, clock: int, events: seq<Event>, id: string)
    requires Identity(base) && Disciplined(Start(base, artifacts, clock), events)
    ensures var s := Run(Start(base, artifacts, clock), events);
      var report := PendingIngestStatus(s, id);
      report.Some? && report.value.status == PendingDraft && s.journals.Has(id) ==>
        NoneInPlace(s.ledger, s.journals.Value(id).ops)
  {
    var start := Start(base, artifacts, clock);
    var s := Run(start, events);
    RunInv(base, artifacts, clock, []);
    RunInv(base, artifacts, clock, events);
    StatusRuns(base, start, events);
    assert PreparedPending(s, id) && JournalOk(s, id);
    if s.journals.IsWhole(id) && s.journals.Value(id).status == Prepared {
      var ops := s.journals.Value(id).ops;
      forall k | 0 <= k < |ops| ensures !InPlace(s.ledger, ops[k]) {
        if InPlace(s.ledger, ops[k]) { InPlaceIsNeverPending(s.ledger, ops[k]); }
      }
    }
  }
}
