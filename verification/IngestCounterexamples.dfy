/** Concrete runs in which the protocol does not do what one might expect, each of a condition stated elsewhere. */
module IngestCounterexamples {
  import opened Common
  import opened Ledger
  import opened CanonicalIo
  import opened IngestProtocol
  import opened IngestSafety
  import opened IngestTheorems
  import opened IngestRecovery
  import opened IngestPrepare
  import opened IngestIdentity
  import opened IngestDeadEnds
  import opened IngestFinishable

  const APPROVAL: string := "approval_p"
  const NOTE: string := "observation_x"
  const DRAFT: string := "ingest_0123456789abcdef01234567"
  const RECEIPT: string := "receipt_0123456789abcdef01234567"
  const FIRST_DAY: string := "2026-08-01"
  const SECOND_DAY: string := "2026-08-02"
  const THIRD_DAY: string := "2026-08-03"

  lemma NamesDiffer()
    ensures APPROVAL != NOTE && NOTE != "" && APPROVAL != ""
    ensures FIRST_DAY != SECOND_DAY && FIRST_DAY != THIRD_DAY && SECOND_DAY != THIRD_DAY
  {
    assert FIRST_DAY[9] != SECOND_DAY[9] && FIRST_DAY[9] != THIRD_DAY[9] && SECOND_DAY[9] != THIRD_DAY[9];
  }

  /** A core approval record of a human that covers one record. */
  function Approval(): Record {
    Record(true, APPROVAL, "", "approval", None, "approved", "human", [], [], [], Some(Scope([NOTE], [], [])),
           Some(FIRST_DAY), "", true)
  }

  /** A core observation under that approval. */
  function Note(day: string): Record {
    Record(true, NOTE, "", "observation", None, "completed", "ai", [APPROVAL], [], [], None, Some(day), "", true)
  }

  function Base(): Ledger {
    Ledger(map[Daily(FIRST_DAY) := [RecordLine(Approval())]])
  }

  function Files0(): Artifacts {
    Artifacts(map["notes.md" := "bytes"])
  }

  /** The ledger of the examples holds one approval, perhaps after source lines. */
  predicate OneApproval(ledger: Ledger) {
    Daily(FIRST_DAY) in ledger.files && ledger.files[Daily(FIRST_DAY)] == [RecordLine(Approval())]
    && forall t | t in ledger.files :: t == Daily(FIRST_DAY) || (t == Sources && forall i | 0 <= i < |ledger.files[t]| :: ledger.files[t][i].SourceLine?)
  }

  lemma NoteIsAllowed(ledger: Ledger, manifest: seq<Line>, artifacts: Artifacts, day: string)
    requires OneApproval(ledger)
    ensures CandidateOk(ledger, manifest, artifacts, Note(day))
    ensures UniqueIdentifiers(ledger) && AllRelationsResolve(ledger)
  {
    assert forall t, i :: HasRecordAt(ledger, t, i) ==> t == Daily(FIRST_DAY) && i == 0 && RecordAt(ledger, t, i) == Approval();
    assert Identifier(Note(day)) == NOTE && Identifier(Approval()) == APPROVAL;
    assert !UsesIdentifier(ledger, NOTE);
    assert HasRecordAt(ledger, Daily(FIRST_DAY), 0) && RecordAt(ledger, Daily(FIRST_DAY), 0).recordId == APPROVAL;
    assert NOTE in Approval().scope.value.recordIds;
    assert ApprovalAllows(Note(day), Approval());
    assert ApprovedBy(ledger, Note(day), APPROVAL);
  }

  // ----- A resumed journal repeats a record ID -----

  function NoteDraft(): Draft {
    Draft(DRAFT, Base(), APPROVAL, Note(SECOND_DAY), [])
  }

  function NoteArgs(): Args {
    Args(DRAFT, Sha256(NoteDraft()), RECEIPT)
  }

  function Approve(draft: Draft): seq<Event> {
    [PutDraft(draft, true), IssueReceipt(RECEIPT, Sha256(draft), 10, true)]
  }

  function Dies(): seq<Event> {
    [Commit(NoteArgs()), Hold(Go), Hold(Go), Hold(Crash(Nothing))]
  }

  function Interloper(): seq<Event> {
    CommandEvents(AppendRecord(Note(THIRD_DAY), APPROVAL, false))
  }

  lemma Approved(s: State, draft: Draft)
    requires draft.record.recordId != "" && !s.drafts.Has(draft.id) && !s.consumed.Has(draft.id) && !s.receipts.Has(RECEIPT) && s.clock == 0
    ensures Run(s, Approve(draft)) == s.(
      drafts := s.drafts.Put(draft.id, Whole(draft)), receipts := s.receipts.Put(RECEIPT, Whole(Receipt(Sha256(draft), 10))))
  {
    RunTwo(s, PutDraft(draft, true), IssueReceipt(RECEIPT, Sha256(draft), 10, true));
  }

  function NoteJournal(): Journal {
    Journal(Prepared, DRAFT, Sha256(NoteDraft()), RECEIPT, [PrepareAppend(Base(), Daily(SECOND_DAY), [RecordLine(Note(SECOND_DAY))])], 0)
  }

  function Approved0(): State {
    Start(Base(), Files0(), 0).(
      drafts := Files(map[DRAFT := Whole(NoteDraft())]),
      receipts := Files(map[RECEIPT := Whole(Receipt(Sha256(NoteDraft()), 10))]))
  }

  /** The process has died: the journal is on disk, the receipt is not used, nothing is appended, the lock is left. */
  function Crashed(): State {
    Approved0().(journals := Files(map[DRAFT := Whole(NoteJournal())]), locked := true)
  }

  lemma NoteIsFresh(s: State)
    requires s == Approved0().(locked := true, process := Checking(NoteArgs()))
    ensures Admit(s, NoteArgs()) == Fresh(NoteArgs(), NoteJournal())
  {
    var args := NoteArgs();
    NoteIsAllowed(Base(), Lines(Base(), Sources) + SourceLines([]), Files0(), SECOND_DAY);
    assert DraftRecordOk(s, NoteDraft()) && Bound(s, DRAFT, args.draftSha) && Verified(s, args);
    assert OpsFor(Base(), NoteDraft()) == NoteJournal().ops;
  }

  lemma DiesAfterJournal()
    ensures Run(Approved0(), Dies()) == Crashed()
  {
    var s, args := Approved0(), NoteArgs();
    NoteIsFresh(Step(s, Commit(args)));
    RunFour(s, Commit(args), Hold(Go), Hold(Go), Hold(Crash(Nothing)));
  }

  /** The ledger after the administrator appended a record with the same ID on another day. */
  function Overtaken(): Ledger {
    Ledger(Base().files[Daily(THIRD_DAY) := [RecordLine(Note(THIRD_DAY))]])
  }

  function Unlocked(): State {
    Crashed().(locked := false)
  }

  function CommandOp(): Op {
    PrepareAppend(Base(), Daily(THIRD_DAY), [RecordLine(Note(THIRD_DAY))])
  }

  lemma CommandAdmitted(s: State)
    requires s == Crashed().(process := Validating(AppendRecord(Note(THIRD_DAY), APPROVAL, false)))
    ensures AdmitCommand(s, s.process.command) == Appending(CommandOp())
  {
    NoteIsAllowed(Base(), Lines(Base(), Sources), Files0(), THIRD_DAY);
  }

  lemma OtherAppends()
    ensures Run(Unlocked(), Interloper()) == Unlocked().(
      ledger := Overtaken(), log := Log([Entry(FromCommand, Daily(THIRD_DAY), [RecordLine(Note(THIRD_DAY))])]))
  {
    var command := AppendRecord(Note(THIRD_DAY), APPROVAL, false);
    CommandAdmitted(Unlocked().(locked := true, process := Validating(command)));
    PreparedIsPending(Base(), Daily(THIRD_DAY), [RecordLine(Note(THIRD_DAY))]);
    CommandRuns(Unlocked(), command, CommandOp());
    assert Lines(Base(), Daily(THIRD_DAY)) == [] && [] + CommandOp().append == [RecordLine(Note(THIRD_DAY))];
    assert [] + [Entry(FromCommand, Daily(THIRD_DAY), [RecordLine(Note(THIRD_DAY))])] == [Entry(FromCommand, Daily(THIRD_DAY), [RecordLine(Note(THIRD_DAY))])];
  }

  function Before(): seq<Event> {
    Approve(NoteDraft()) + (Dies() + ([ClearLock] + Interloper()))
  }

  lemma BeforeLeads()
    ensures Run(Start(Base(), Files0(), 0), Before()) == Unlocked().(
      ledger := Overtaken(), log := Log([Entry(FromCommand, Daily(THIRD_DAY), [RecordLine(Note(THIRD_DAY))])]))
  {
    var start := Start(Base(), Files0(), 0);
    Approved(start, NoteDraft());
    RunAppend(start, Approve(NoteDraft()), Dies() + ([ClearLock] + Interloper()));
    RunAppend(Approved0(), Dies(), [ClearLock] + Interloper());
    DiesAfterJournal();
    assert ([ClearLock] + Interloper())[1..] == Interloper();
    assert Step(Crashed(), ClearLock) == Unlocked();
    OtherAppends();
  }

  lemma OvertakenIsUnique()
    ensures Identity(Overtaken()) && UsesIdentifier(Overtaken(), NOTE)
  {
    var ledger := Overtaken();
    assert forall t, i | HasRecordAt(ledger, t, i) ::
      i == 0 && (t == Daily(FIRST_DAY) || t == Daily(THIRD_DAY))
      && RecordAt(ledger, t, i) == (if t == Daily(FIRST_DAY) then Approval() else Note(THIRD_DAY));
    assert HasRecordAt(ledger, Daily(THIRD_DAY), 0) && Identifier(RecordAt(ledger, Daily(THIRD_DAY), 0)) == NOTE;
  }

  lemma JournalWouldCommit(s: State)
    requires s.process.Idle? && !s.locked && s.clock == 0 && s.ledger == Overtaken() && s.consumed == Files(map[]) && s.marks == Files(map[])
    requires s.drafts == Approved0().drafts && s.receipts == Approved0().receipts && s.journals == Crashed().journals
    ensures WouldCommit(s, NoteArgs()) && Admit(s, NoteArgs()).tx == NoteJournal()
    ensures StateOf(s.ledger, NoteJournal().ops[0]) == Pending
  {
    assert Bound(s, DRAFT, NoteArgs().draftSha) && Verified(s, NoteArgs()) && Binds(NoteJournal(), NoteArgs());
    assert TargetsUntouched(s.ledger, NoteJournal().ops);
  }

  /**
    A process dies after creating its journal; the administrator clears the lock and appends a record with the
    draft's record ID on another day; the retry then commits, and the ledger holds that ID twice.
   */
  lemma ResumedJournalRepeatsRecordId()
    ensures var s := Run(Start(Base(), Files0(), 0), Before());
      && Identity(s.ledger) && WouldCommit(s, NoteArgs())
      && var end := Run(s, Attempt(NoteArgs()));
      Finished(end, NoteArgs()) && !Identity(end.ledger)
  {
    var s := Run(Start(Base(), Files0(), 0), Before());
    BeforeLeads();
    OvertakenIsUnique();
    JournalWouldCommit(s);
    assert Identifier(Note(SECOND_DAY)) == NOTE;
    assert !Safe(s.ledger, NoteJournal().ops[0]);
    AttemptKeepsIdentityExactlyWhenSafe(Base(), Files0(), 0, Before(), NoteArgs());
    CommitsExactlyWhen(Base(), Files0(), 0, Before(), NoteArgs());
  }

  // ----- Preparation that is not atomic repeats a source -----

  function Source(): SourceInput {
    SourceInput("notes.md", "src_1", "document")
  }

  function Registers(): seq<Event> {
    CommandEvents(RegisterSource("src_1", "notes.md", "document"))
  }

  function Registered0(): Registration {
    Registration("src_1", "notes.md", "bytes", "document")
  }

  function WithSource(): Ledger {
    Ledger(Base().files[Sources := [SourceLine(Registered0())]])
  }

  lemma SourceIsRegistered()
    ensures Run(Start(Base(), Files0(), 0), Registers()) == Start(WithSource(), Files0(), 0).(
      log := Log([Entry(FromCommand, Sources, [SourceLine(Registered0())])]))
  {
    var start := Start(Base(), Files0(), 0);
    var command := RegisterSource("src_1", "notes.md", "document");
    var op := PrepareAppend(Base(), Sources, [SourceLine(Registered0())]);
    PreparedIsPending(Base(), Sources, [SourceLine(Registered0())]);
    assert AdmitCommand(start.(locked := true, process := Validating(command)), command) == Appending(op);
    CommandRuns(start, command, op);
    assert Lines(Base(), Sources) == [] && [] + op.append == [SourceLine(Registered0())];
    assert [] + [Entry(FromCommand, Sources, op.append)] == [Entry(FromCommand, Sources, op.append)];
  }

  /** The sources are looked at before the administrator registers one of them, the ledger after. */
  function LateDraft(): Draft {
    Draft(DRAFT, WithSource(), APPROVAL, Note(SECOND_DAY), [Registered0()])
  }

  lemma LateDraftIsPrepared(early: State, late: State)
    requires early == Start(Base(), Files0(), 0) && late.ledger == WithSource() && late.artifacts == Files0()
    ensures PrepareIngest(early, late, late, DRAFT, Note(SECOND_DAY), APPROVAL, [Source()]) == Some(LateDraft())
    ensures DraftRecordOk(late, LateDraft()) && !FitsItsHead(LateDraft())
  {
    NoteIsAllowed(WithSource(), Lines(WithSource(), Sources) + SourceLines([Registered0()]), Files0(), SECOND_DAY);
    assert Normalize([], Files0(), [Source()], []) == Normalize([], Files0(), [], [Registered0()]) by {
      assert [Source()][1..] == [] && [] + [Registered0()] == [Registered0()];
    }
    assert Lines(Base(), Sources) == [];
    var both := Lines(WithSource(), Sources) + SourceLines([Registered0()]);
    assert RegistrationsClash(both[0], both[1]);
  }

  function LateArgs(): Args {
    Args(DRAFT, Sha256(LateDraft()), RECEIPT)
  }

  lemma LateOpsClash(ledger: Ledger)
    requires ledger == WithSource()
    ensures !PendingSafe(ledger, OpsFor(ledger, LateDraft()))
    ensures forall op | op in OpsFor(ledger, LateDraft()) :: StateOf(ledger, op) == Pending
  {
    NewJournalShaped(ledger, LateDraft());
    var ops := OpsFor(ledger, LateDraft());
    assert ops[0] == PrepareAppend(ledger, Sources, SourceLines([Registered0()]));
    var both := Lines(ledger, Sources) + ops[0].append;
    assert RegistrationsClash(both[0], both[1]);
  }

  lemma LateApproved()
    ensures Run(Run(Start(Base(), Files0(), 0), Registers()), Approve(LateDraft())) == LateState()
  {
    SourceIsRegistered();
    Approved(Run(Start(Base(), Files0(), 0), Registers()), LateDraft());
  }

  function LateState(): State {
    Start(WithSource(), Files0(), 0).(
      drafts := Files(map[DRAFT := Whole(LateDraft())]),
      receipts := Files(map[RECEIPT := Whole(Receipt(Sha256(LateDraft()), 10))]),
      log := Log([Entry(FromCommand, Sources, [SourceLine(Registered0())])]))
  }

  lemma LateIdentity()
    ensures Identity(WithSource())
  {
    NoteIsAllowed(WithSource(), [], Files0(), SECOND_DAY);
  }

  lemma LateWouldCommit(s: State)
    requires s == LateState()
    ensures WouldCommit(s, LateArgs()) && Identity(s.ledger) && !PendingSafe(s.ledger, OpsOf(s, LateArgs()))
  {
    LateDraftIsPrepared(Start(Base(), Files0(), 0), s);
    LateIdentity();
    LateOpsClash(s.ledger);
    assert Bound(s, DRAFT, LateArgs().draftSha) && Verified(s, LateArgs()) && SourcesUnchanged(s, LateDraft());
  }

  function LateEvents(): seq<Event> {
    Registers() + Approve(LateDraft())
  }

  lemma LateEventsLead()
    ensures Run(Start(Base(), Files0(), 0), LateEvents()) == LateState()
  {
    LateApproved();
    RunAppend(Start(Base(), Files0(), 0), Registers(), Approve(LateDraft()));
  }

  /**
    The administrator registers a source between the first and the last look of a preparation. The draft is
    bound to a head that holds the source already, so its commit succeeds and registers the path twice.
   */
  lemma LateDraftRepeatsSource()
    ensures var start := Start(Base(), Files0(), 0);
      var late := Run(start, Registers());
      PrepareIngest(start, late, late, DRAFT, Note(SECOND_DAY), APPROVAL, [Source()]) == Some(LateDraft())
    ensures var s := Run(Start(Base(), Files0(), 0), LateEvents());
      var end := Run(s, Attempt(LateArgs()));
      Identity(s.ledger) && Finished(end, LateArgs()) && !Identity(end.ledger)
  {
    SourceIsRegistered();
    LateDraftIsPrepared(Start(Base(), Files0(), 0), Run(Start(Base(), Files0(), 0), Registers()));
    LateEventsLead();
    LateWouldCommit(LateState());
    AttemptKeepsIdentityExactlyWhenSafe(Base(), Files0(), 0, LateEvents(), LateArgs());
    CommitsExactlyWhen(Base(), Files0(), 0, LateEvents(), LateArgs());
  }

  // ----- A journal whose receipt has expired -----

  function Expires(): seq<Event> {
    Approve(NoteDraft()) + (Dies() + [Pass(10)])
  }

  lemma TimePasses(s: State, time: nat)
    ensures Run(s, [Pass(time)]) == s.(clock := s.clock + time)
  {
    assert Run(Step(s, Pass(time)), []) == Step(s, Pass(time));
  }

  lemma ExpiresLeads()
    ensures Run(Start(Base(), Files0(), 0), Expires()) == Crashed().(clock := 10)
  {
    var start := Start(Base(), Files0(), 0);
    Approved(start, NoteDraft());
    RunAppend(start, Approve(NoteDraft()), Dies() + [Pass(10)]);
    RunAppend(Approved0(), Dies(), [Pass(10)]);
    DiesAfterJournal();
    TimePasses(Crashed(), 10);
  }

  /** A process dies after creating its journal, and the receipt expires: the draft is never consumed. */
  lemma ExpiredReceiptIsStuck()
    ensures var s := Run(Start(Base(), Files0(), 0), Expires());
      && s.process.Idle? && s.journals.IsWhole(DRAFT) && !s.consumed.Has(DRAFT) && Stuck(s, DRAFT)
      && !Finishable(s, DRAFT)
  {
    ExpiresLeads();
    OrderlyDraftsFit(Base(), Files0(), 0, Expires(), DRAFT);
    FinishableExactly(Base(), Files0(), 0, Expires(), DRAFT);
  }

  // ----- A journal whose target has got another record -----

  const OTHER_APPROVAL: string := "approval_other"

  function OtherApproval(): Record {
    Record(true, OTHER_APPROVAL, "", "approval", None, "approved", "human", [], [], [], Some(Scope([], [], [])),
           Some(SECOND_DAY), "", true)
  }

  function OtherCommand(): Command {
    AppendRecord(OtherApproval(), "", true)
  }

  function OtherOp(): Op {
    PrepareAppend(Base(), Daily(SECOND_DAY), [RecordLine(OtherApproval())])
  }

  lemma OtherIsAllowed()
    ensures CandidateOk(Base(), Lines(Base(), Sources), Files0(), OtherApproval())
  {
    var ledger := Base();
    assert forall t, i :: HasRecordAt(ledger, t, i) ==> t == Daily(FIRST_DAY) && i == 0 && RecordAt(ledger, t, i) == Approval();
    assert Identifier(OtherApproval()) == OTHER_APPROVAL && Identifier(Approval()) == APPROVAL && |OTHER_APPROVAL| != |APPROVAL|;
    assert !UsesIdentifier(ledger, OTHER_APPROVAL);
  }

  function Outruns(): seq<Event> {
    Approve(NoteDraft()) + (Dies() + ([ClearLock] + CommandEvents(OtherCommand())))
  }

  function Outrun(): State {
    Unlocked().(ledger := Replace(Base(), OtherOp()),
      log := Log([Entry(FromCommand, Daily(SECOND_DAY), [RecordLine(OtherApproval())])]))
  }

  lemma OtherIsAppended()
    ensures Run(Unlocked(), CommandEvents(OtherCommand())) == Outrun()
  {
    OtherIsAllowed();
    var s := Unlocked().(locked := true, process := Validating(OtherCommand()));
    assert AdmitCommand(s, OtherCommand()) == Appending(OtherOp());
    PreparedIsPending(Base(), Daily(SECOND_DAY), [RecordLine(OtherApproval())]);
    CommandRuns(Unlocked(), OtherCommand(), OtherOp());
    assert [] + [Entry(FromCommand, Daily(SECOND_DAY), OtherOp().append)] == [Entry(FromCommand, Daily(SECOND_DAY), OtherOp().append)];
  }

  lemma OutrunsLead()
    ensures Run(Start(Base(), Files0(), 0), Outruns()) == Outrun()
  {
    var start, rest := Start(Base(), Files0(), 0), [ClearLock] + CommandEvents(OtherCommand());
    Approved(start, NoteDraft());
    RunAppend(start, Approve(NoteDraft()), Dies() + rest);
    RunAppend(Approved0(), Dies(), rest);
    DiesAfterJournal();
    assert rest[1..] == CommandEvents(OtherCommand()) && Step(Crashed(), ClearLock) == Unlocked();
    OtherIsAppended();
  }

  lemma OutrunIsLost()
    ensures Lost(Outrun(), DRAFT) && !Stuck(Outrun(), DRAFT) && SourcesUnchanged(Outrun(), NoteDraft())
  {
    var op := NoteJournal().ops[0];
    assert Lines(Outrun().ledger, Daily(SECOND_DAY)) == [RecordLine(OtherApproval())];
    assert op.after.of == [RecordLine(Note(SECOND_DAY))];
    assert OtherApproval().kind != Note(SECOND_DAY).kind by { assert "approval"[0] != "observation"[0]; }
    assert Lines(Outrun().ledger, op.target)[0] != op.after.of[0];
    assert OpLost(Outrun().ledger, Outrun().journals.Value(DRAFT).ops[0]);
  }

  /**
    A process dies after creating its journal, and the administrator clears the lock and appends another record to
    the same day. The lock is free, the journal whole, the receipt unexpired: the draft is never consumed.
   */
  lemma OvertakenTargetIsLost()
    ensures var s := Run(Start(Base(), Files0(), 0), Outruns());
      && s.process.Idle? && !s.locked && s.journals.IsWhole(DRAFT) && !s.consumed.Has(DRAFT)
      && SourcesUnchanged(s, NoteDraft()) && Lost(s, DRAFT) && !Stuck(s, DRAFT)
      && !Finishable(s, DRAFT)
  {
    OutrunsLead();
    OutrunIsLost();
    OrderlyDraftsFit(Base(), Files0(), 0, Outruns(), DRAFT);
    FinishableExactly(Base(), Files0(), 0, Outruns(), DRAFT);
  }
}
