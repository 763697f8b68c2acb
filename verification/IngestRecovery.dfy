/** Exactly when an attempt commits, and why a retry after crashes ends where an uninterrupted commit ends. */
module IngestRecovery {
  import opened Ledger
  import opened CanonicalIo
  import opened IngestProtocol
  import opened IngestSafety
  import opened IngestTheorems

  // ----- One attempt without faults -----

  function Quietly(steps: nat): seq<Event> {
    seq(steps, _ => Hold(Go))
  }

  /** A commit call during which no write fails, followed to its end; fifteen steps are enough for any journal. */
  function Attempt(args: Args): seq<Event> {
    [Commit(args)] + Quietly(15)
  }

  /** `steps` successful steps of the lock holder. */
  function Drive(s: State, steps: nat): State
    decreases steps
  {
    if steps == 0 then s else Drive(HoldStep(s, Go), steps - 1)
  }

  lemma {:induction false} DriveIsRun(s: State, steps: nat)
    ensures Run(s, Quietly(steps)) == Drive(s, steps)
    decreases steps
  {
    if steps > 0 {
      assert Quietly(steps)[0] == Hold(Go) && Quietly(steps)[1..] == Quietly(steps - 1);
      DriveIsRun(HoldStep(s, Go), steps - 1);
    }
  }

  lemma {:induction false} DriveIdle(s: State, steps: nat)
    requires s.process.Idle?
    ensures Drive(s, steps) == s
    decreases steps
  {
    if steps > 0 { DriveIdle(s, steps - 1); }
  }

  lemma AttemptIsDrive(s: State, args: Args)
    ensures Run(s, Attempt(args)) == Drive(Step(s, Commit(args)), 15)
  {
    assert Attempt(args)[0] == Commit(args) && Attempt(args)[1..] == Quietly(15);
    DriveIsRun(Step(s, Commit(args)), 15);
  }

  /** The operations that are still pending are applied, in order. */
  function ApplyAll(ledger: Ledger, ops: seq<Op>): Ledger
    decreases |ops|
  {
    if ops == [] then ledger
    else ApplyAll(if StateOf(ledger, ops[0]) == Pending then Replace(ledger, ops[0]) else ledger, ops[1..])
  }

  /** The operations of one journal touch different files. */
  predicate Separate(ops: seq<Op>) {
    forall i, j | 0 <= i < j < |ops| :: ops[i].target != ops[j].target
  }

  lemma ShapedIsSeparate(ops: seq<Op>, draft: Draft)
    requires Shaped(ops, draft)
    ensures Separate(ops) && 1 <= |ops| <= 2
  {
    assert forall k | 0 <= k < |ops| :: ops[k].target == Plan(draft)[k].0;
  }

  /** What the disk shows of a commit that has finished: its marker, and a closed journal with all operations counted. */
  predicate Finished(s: State, args: Args) {
    && s.process.Idle? && !s.locked
    && s.consumed.IsWhole(args.draftId) && s.consumed.Value(args.draftId) == Consumption(args.draftSha, args.receiptId)
    && s.journals.IsWhole(args.draftId)
    && var tx := s.journals.Value(args.draftId);
    && tx.status == Committed && tx.draftSha == args.draftSha && tx.receiptId == args.receiptId
    && tx.ops != [] && tx.applied == |tx.ops|
  }

  function AfterFirst(ledger: Ledger, ops: seq<Op>): Ledger
    requires ops != []
  {
    if StateOf(ledger, ops[0]) == Pending then Replace(ledger, ops[0]) else ledger
  }

  lemma RestUntouched(ledger: Ledger, ops: seq<Op>)
    requires ops != [] && Separate(ops) && TargetsUntouched(ledger, ops)
    ensures Separate(ops[1..]) && TargetsUntouched(AfterFirst(ledger, ops), ops[1..])
  {
    forall other | other in ops[1..] ensures StateOf(AfterFirst(ledger, ops), other) != Changed {
      var j :| 1 <= j < |ops| && ops[j] == other;
      assert ops[0].target != ops[j].target && StateOf(ledger, ops[j]) != Changed;
    }
  }

  /** Applying one operation and storing the count. */
  lemma OpStep(s: State, args: Args, tx: Journal, k: nat)
    requires s.process == Applying(args, tx, k) && k < |tx.ops| && StateOf(s.ledger, tx.ops[k]) != Changed
    ensures var s' := HoldStep(HoldStep(s, Go), Go);
      && s'.process == Applying(args, tx.(applied := k + 1), k + 1)
      && s'.ledger == AfterFirst(s.ledger, tx.ops[k..]) && s'.consumed == s.consumed
  {
    assert tx.ops[k..][0] == tx.ops[k];
  }

  lemma CloseCommit(s: State, args: Args, tx: Journal, steps: nat)
    requires s.process == Closing(args, tx) && Binds(tx, args) && !s.consumed.Has(args.draftId) && steps >= 4
    requires tx.applied == |tx.ops|
    ensures var f := Drive(s, steps); Finished(f, args) && f.ledger == s.ledger
  {
    var s1 := HoldStep(s, Go);
    var s2 := HoldStep(s1, Go);
    var s3 := HoldStep(s2, Go);
    var s4 := HoldStep(s3, Go);
    DriveIdle(s4, steps - 4);
    assert Drive(s, steps) == Drive(s1, steps - 1) == Drive(s2, steps - 2) == Drive(s3, steps - 3) == Drive(s4, steps - 4);
  }

  lemma {:induction false} OpsApply(s: State, args: Args, tx: Journal, k: nat, steps: nat)
    requires s.process == Applying(args, tx, k) && k <= |tx.ops| && Binds(tx, args)
    requires !s.consumed.Has(args.draftId) && (k > 0 ==> tx.applied == k)
    requires Separate(tx.ops[k..]) && TargetsUntouched(s.ledger, tx.ops[k..])
    requires steps >= 2 * (|tx.ops| - k) + 5
    ensures var f := Drive(s, steps); Finished(f, args) && f.ledger == ApplyAll(s.ledger, tx.ops[k..])
    decreases |tx.ops| - k
  {
    var s1 := HoldStep(s, Go);
    assert Drive(s, steps) == Drive(s1, steps - 1);
    if k < |tx.ops| {
      var rest := tx.ops[k..];
      assert rest[0] == tx.ops[k] && rest[1..] == tx.ops[k + 1..];
      RestUntouched(s.ledger, rest);
      OpStep(s, args, tx, k);
      OpsApply(HoldStep(s1, Go), args, tx.(applied := k + 1), k + 1, steps - 2);
    } else {
      CloseCommit(s1, args, tx, steps - 1);
    }
  }

  // ----- When an attempt commits -----

  /** The receipt can be consumed now, or resumed: it is unexpired and its marker is not torn. */
  predicate Grantable(s: State, args: Args) {
    ReceiptMatches(s, args) && Unexpired(s, args.receiptId)
    && (s.marks.Has(args.receiptId) ==> s.marks.IsWhole(args.receiptId))
  }

  /** What can be checked before the call: nobody holds the lock, the checks pass, the receipt can be used. */
  predicate WouldCommit(s: State, args: Args) {
    s.process.Idle? && !s.locked && !Admit(s, args).Releasing? && Grantable(s, args)
  }

  /** The operations this attempt would perform. */
  function OpsOf(s: State, args: Args): seq<Op>
    requires !Admit(s, args).Releasing?
  {
    Admit(s, args).tx.ops
  }

  lemma ReadyCommits(s: State, args: Args, tx: Journal, steps: nat)
    requires s.process == Ready(args, tx) && Binds(tx, args) && Bound(s, args.draftId, args.draftSha)
    requires Grantable(s, args) && MarkOk(s, args.receiptId)
    requires Separate(tx.ops) && |tx.ops| <= 2 && TargetsUntouched(s.ledger, tx.ops) && steps >= 11
    ensures var f := Drive(s, steps); Finished(f, args) && f.ledger == ApplyAll(s.ledger, tx.ops)
  {
    var s1 := HoldStep(s, Go);
    assert s1.process == Granted(args, tx) && s1.ledger == s.ledger && s1.consumed == s.consumed;
    var s2 := HoldStep(s1, Go);
    assert Drive(s, steps) == Drive(s1, steps - 1) == Drive(s2, steps - 2);
    assert tx.ops[0..] == tx.ops;
    OpsApply(s2, args, tx.(status := ApplyingOps), 0, steps - 2);
  }

  /** Taking the lock changes nothing the checks read. */
  lemma AdmitUnlocked(s: State, args: Args)
    requires s.process.Idle? && !s.locked
    ensures Admit(Step(s, Commit(args)), args) == Admit(s, args)
  {
  }

  lemma AdmittedTx(base: Ledger, s: State, args: Args)
    requires Inv(base, s) && !Admit(s, args).Releasing?
    ensures Bound(s, args.draftId, args.draftSha) && ReceiptMatches(s, args)
    ensures Admit(s, args) == Fresh(args, Admit(s, args).tx) || Admit(s, args) == Ready(args, Admit(s, args).tx)
    ensures Admit(s, args).Fresh? <==> !s.journals.Has(args.draftId)
    ensures var tx := Admit(s, args).tx;
      Binds(tx, args) && Shaped(tx.ops, args.draftSha.of) && TargetsUntouched(s.ledger, tx.ops)
  {
    assert JournalOk(s, args.draftId);
    if args.draftSha.of.record.day.Some? { NewJournalShaped(s.ledger, args.draftSha.of); }
  }

  lemma ResumedCommits(s: State, s1: State, args: Args, tx: Journal)
    requires s1 == s.(locked := true, process := Ready(args, tx))
    requires Binds(tx, args) && Bound(s, args.draftId, args.draftSha) && Grantable(s, args) && MarkOk(s, args.receiptId)
    requires Separate(tx.ops) && |tx.ops| <= 2 && TargetsUntouched(s.ledger, tx.ops)
    ensures var f := Drive(s1, 14); Finished(f, args) && f.ledger == ApplyAll(s.ledger, tx.ops)
  {
    assert MarkOk(s1, args.receiptId);
    ReadyCommits(s1, args, tx, 14);
  }

  lemma FreshCommits(s: State, s1: State, args: Args, tx: Journal)
    requires s1 == s.(locked := true, process := Fresh(args, tx)) && !s.journals.Has(args.draftId)
    requires Binds(tx, args) && Bound(s, args.draftId, args.draftSha) && Grantable(s, args) && !s.marks.Has(args.receiptId)
    requires Separate(tx.ops) && |tx.ops| <= 2 && TargetsUntouched(s.ledger, tx.ops)
    ensures var f := Drive(s1, 14); Finished(f, args) && f.ledger == ApplyAll(s.ledger, tx.ops)
  {
    var s2 := HoldStep(s1, Go);
    assert s2 == s1.(journals := s2.journals, process := Ready(args, tx));
    ReadyCommits(s2, args, tx, 13);
  }

  lemma AttemptAdmits(s: State, args: Args)
    requires s.process.Idle? && !s.locked
    ensures Run(s, Attempt(args)) == Drive(s.(locked := true, process := Admit(s, args)), 14)
  {
    AttemptIsDrive(s, args);
    AdmitUnlocked(s, args);
    var s0 := Step(s, Commit(args));
    assert HoldStep(s0, Go) == s.(locked := true, process := Admit(s, args));
  }

  /** What the checks of an attempt, and the invariant, say of the journal it will use. */
  predicate Usable(s: State, args: Args, tx: Journal) {
    && Binds(tx, args) && Bound(s, args.draftId, args.draftSha) && MarkOk(s, args.receiptId)
    && Separate(tx.ops) && |tx.ops| <= 2 && TargetsUntouched(s.ledger, tx.ops)
  }

  lemma AdmittedIsUsable(base: Ledger, s: State, args: Args)
    requires Inv(base, s) && !Admit(s, args).Releasing?
    ensures Usable(s, args, Admit(s, args).tx)
    ensures Admit(s, args).Fresh? ==> !s.marks.Has(args.receiptId)
  {
    AdmittedTx(base, s, args);
    ShapedIsSeparate(Admit(s, args).tx.ops, args.draftSha.of);
    assert MarkOk(s, args.receiptId) && DraftOk(s, args.draftId);
  }

  lemma UsableCommits(s: State, args: Args, p: Process)
    requires p == Admit(s, args) && WouldCommit(s, args) && Usable(s, args, p.tx)
    requires p == Fresh(args, p.tx) || p == Ready(args, p.tx)
    requires p.Fresh? ==> !s.marks.Has(args.receiptId) && !s.journals.Has(args.draftId)
    ensures var f := Run(s, Attempt(args)); Finished(f, args) && f.ledger == ApplyAll(s.ledger, p.tx.ops)
  {
    AttemptAdmits(s, args);
    var s1 := s.(locked := true, process := p);
    if p.Fresh? {
      FreshCommits(s, s1, args, p.tx);
    } else {
      ResumedCommits(s, s1, args, p.tx);
    }
  }

  lemma Commits(base: Ledger, s: State, args: Args)
    requires Inv(base, s) && WouldCommit(s, args)
    ensures var f := Run(s, Attempt(args));
      Finished(f, args) && f.ledger == ApplyAll(s.ledger, OpsOf(s, args))
  {
    AdmittedTx(base, s, args);
    AdmittedIsUsable(base, s, args);
    UsableCommits(s, args, Admit(s, args));
  }

  lemma RefusedChangesNothing(s: State, s1: State, args: Args)
    requires s1.process.Releasing? && s1 == s.(locked := true, process := Releasing)
    ensures Drive(s1, 14) == s.(locked := false, process := Idle)
  {
    DriveIdle(HoldStep(s1, Go), 13);
  }

  lemma UngrantedIsRefused(s: State, s1: State, args: Args, tx: Journal, steps: nat)
    requires s1 == s.(locked := true, process := Ready(args, tx)) && !Grantable(s, args) && steps >= 2
    ensures Drive(s1, steps) == s.(locked := false, process := Idle)
  {
    var s2 := HoldStep(s1, Go);
    assert s2 == s.(locked := true, process := Releasing);
    var s3 := HoldStep(s2, Go);
    DriveIdle(s3, steps - 2);
    assert Drive(s1, steps) == Drive(s2, steps - 1) == Drive(s3, steps - 2);
  }

  /** A commit that may not succeed appends nothing and consumes nothing. */
  lemma Refuses(base: Ledger, s: State, args: Args)
    requires Inv(base, s) && s.process.Idle? && !WouldCommit(s, args)
    ensures var f := Run(s, Attempt(args)); f.process.Idle? && f.ledger == s.ledger && f.consumed == s.consumed && f.marks == s.marks
  {
    if s.locked {
      AttemptIsDrive(s, args);
      DriveIdle(s, 15);
    } else {
      AttemptAdmits(s, args);
      var p := Admit(s, args);
      var s1 := s.(locked := true, process := p);
      if p.Releasing? {
        RefusedChangesNothing(s, s1, args);
      } else {
        AdmittedTx(base, s, args);
        if p.Fresh? {
          var s2 := HoldStep(s1, Go);
          var s' := s.(journals := s2.journals);
          assert s2 == s'.(locked := true, process := Ready(args, p.tx));
          UngrantedIsRefused(s', s2, args, p.tx, 13);
          assert Drive(s1, 14) == Drive(s2, 13);
        } else {
          UngrantedIsRefused(s, s1, args, p.tx, 14);
        }
      }
    }
  }

  /**
    In every reachable state in which no process holds the lock, a fault-free commit call consumes the draft
    exactly when the lock is free, the checks pass, and the receipt is unexpired with no torn marker.
   */
  lemma CommitsExactlyWhen(base: Ledger, artifacts: Artifacts, clock: int, events: seq<Event>, args: Args)
    requires Run(Start(base, artifacts, clock), events).process.Idle?
    ensures var s := Run(Start(base, artifacts, clock), events);
      var f := Run(s, Attempt(args));
      && (!s.consumed.Has(args.draftId) && f.consumed.Has(args.draftId) <==> WouldCommit(s, args))
      && (WouldCommit(s, args) ==> Finished(f, args) && f.ledger == ApplyAll(s.ledger, OpsOf(s, args)))
      && (!WouldCommit(s, args) ==> f.ledger == s.ledger && f.consumed == s.consumed && f.marks == s.marks)
  {
    var s := Run(Start(base, artifacts, clock), events);
    RunInv(base, artifacts, clock, events);
    if WouldCommit(s, args) {
      Commits(base, s, args);
      AdmittedTx(base, s, args);
    } else {
      Refuses(base, s, args);
    }
  }

  // ----- One administrator's command without faults -----

  lemma RunTwo(s: State, a: Event, b: Event)
    ensures Run(s, [a, b]) == Step(Step(s, a), b)
  {
    assert [a, b][1..] == [b] && [b][1..] == [];
    assert Run(Step(s, a), [b]) == Run(Step(Step(s, a), b), []);
  }

  lemma RunFour(s: State, a: Event, b: Event, c: Event, d: Event)
    ensures Run(s, [a, b, c, d]) == Step(Step(Step(Step(s, a), b), c), d)
  {
    RunTwo(s, a, b);
    RunTwo(Step(Step(s, a), b), c, d);
    RunAppend(s, [a, b], [c, d]);
    assert [a, b] + [c, d] == [a, b, c, d];
  }

  function CommandEvents(command: Command): seq<Event> {
    [Administer(command), Hold(Go), Hold(Go), Hold(Go)]
  }

  /** An admitted command without faults makes its append and lets go of the lock. */
  lemma CommandRuns(s: State, command: Command, op: Op)
    requires s.process.Idle? && !s.locked && StateOf(s.ledger, op) == Pending
    requires AdmitCommand(s.(locked := true, process := Validating(command)), command) == Appending(op)
    ensures Run(s, CommandEvents(command))
      == s.(ledger := Replace(s.ledger, op), log := Log(s.log.entries + [Entry(FromCommand, op.target, op.append)]))
  {
    RunFour(s, Administer(command), Hold(Go), Hold(Go), Hold(Go));
    var s1 := Step(s, Administer(command));
    var s2 := Step(s1, Hold(Go));
    assert s2 == s1.(process := Appending(op));
  }

  // ----- Interrupted attempts -----

  predicate SameFile(a: Ledger, b: Ledger, target: Target) {
    (target in a.files <==> target in b.files) && Lines(a, target) == Lines(b, target)
  }

  /** The file is as it was, or one of the operations has been applied to it. */
  predicate FileUpTo(before: Ledger, ops: seq<Op>, now: Ledger, target: Target) {
    || SameFile(before, now, target)
    || exists k | 0 <= k < |ops| ::
         ops[k].target == target && target in now.files && now.files[target] == ops[k].after.of
  }

  ghost predicate UpTo(before: Ledger, ops: seq<Op>, now: Ledger) {
    forall target :: FileUpTo(before, ops, now, target)
  }

  predicate PreparedOn(ledger: Ledger, ops: seq<Op>) {
    forall k | 0 <= k < |ops| :: ops[k].append != [] && ops[k] == PrepareAppend(ledger, ops[k].target, ops[k].append)
  }

  lemma OpsForPrepared(ledger: Ledger, draft: Draft)
    requires draft.record.day.Some?
    ensures PreparedOn(ledger, OpsFor(ledger, draft)) && Separate(OpsFor(ledger, draft))
  {
  }

  lemma UpToStates(before: Ledger, ops: seq<Op>, now: Ledger, k: nat)
    requires PreparedOn(before, ops) && Separate(ops) && UpTo(before, ops, now) && k < |ops|
    ensures StateOf(now, ops[k]) == Pending ==> SameFile(before, now, ops[k].target)
    ensures StateOf(now, ops[k]) == Applied ==> now.files[ops[k].target] == ops[k].after.of
    ensures StateOf(now, ops[k]) != Changed
  {
    assert FileUpTo(before, ops, now, ops[k].target);
    PreparedIsPending(before, ops[k].target, ops[k].append);
    assert ops[k].after.of != [];
  }

  /** Replacing one pending target stays on the way from `before` to the end. */
  lemma UpToReplace(before: Ledger, ops: seq<Op>, now: Ledger, k: nat)
    requires PreparedOn(before, ops) && Separate(ops) && UpTo(before, ops, now) && k < |ops|
    requires StateOf(now, ops[k]) == Pending
    ensures UpTo(before, ops, Replace(now, ops[k]))
    ensures Replace(now, ops[k]).files[ops[k].target] == ops[k].after.of
  {
    UpToStates(before, ops, now, k);
    forall target ensures FileUpTo(before, ops, Replace(now, ops[k]), target) {
      assert FileUpTo(before, ops, now, target);
      if target != ops[k].target {
        if !SameFile(before, now, target) {
          var j :| 0 <= j < |ops| && ops[j].target == target && target in now.files && now.files[target] == ops[j].after.of;
          assert Replace(now, ops[k]).files[target] == ops[j].after.of;
        }
      }
    }
  }

  /** The end of the operations, file by file: it does not depend on how far `now` had come. */
  lemma {:induction false} ApplyAllEnds(before: Ledger, ops: seq<Op>, now: Ledger, k: nat)
    requires PreparedOn(before, ops) && Separate(ops) && UpTo(before, ops, now) && k <= |ops|
    requires forall i | 0 <= i < k :: ops[i].target in now.files && now.files[ops[i].target] == ops[i].after.of
    ensures var end := ApplyAll(now, ops[k..]);
      UpTo(before, ops, end)
      && forall i | 0 <= i < |ops| :: ops[i].target in end.files && end.files[ops[i].target] == ops[i].after.of
    decreases |ops| - k
  {
    if k < |ops| {
      assert ops[k..][0] == ops[k] && ops[k..][1..] == ops[k + 1..];
      UpToStates(before, ops, now, k);
      if StateOf(now, ops[k]) == Pending {
        UpToReplace(before, ops, now, k);
        ApplyAllEnds(before, ops, Replace(now, ops[k]), k + 1);
      } else {
        ApplyAllEnds(before, ops, now, k + 1);
      }
    }
  }

  lemma SameEnd(before: Ledger, ops: seq<Op>, now: Ledger)
    requires PreparedOn(before, ops) && Separate(ops) && UpTo(before, ops, now)
    ensures ApplyAll(now, ops) == ApplyAll(before, ops)
  {
    assert UpTo(before, ops, before) by { forall t ensures FileUpTo(before, ops, before, t) {} }
    assert ops[0..] == ops;
    ApplyAllEnds(before, ops, now, 0);
    ApplyAllEnds(before, ops, before, 0);
    var a, b := ApplyAll(now, ops), ApplyAll(before, ops);
    forall t ensures SameFile(a, b, t) {
      assert FileUpTo(before, ops, a, t) && FileUpTo(before, ops, b, t);
    }
    assert forall t :: SameFile(a, b, t) ==> (t in a.files <==> t in b.files);
    assert a.files.Keys == b.files.Keys;
    forall t | t in a.files ensures a.files[t] == b.files[t] { assert SameFile(a, b, t); }
    assert a.files == b.files;
  }

  /** Anything may happen except writes of others: no administrator command and no commit of another draft. */
  predicate Concerns(e: Event, id: string) {
    match e
    case Administer(_) => false
    case Commit(args) => args.draftId == id
    case _ => true
  }

  /** The lock holder, if any, works on this draft. */
  predicate WorksOn(before: Ledger, draft: Draft, p: Process) {
    match p
    case Idle => true
    case Releasing => true
    case Checking(args) => args.draftId == draft.id
    case Fresh(args, tx) => tx.draftId == draft.id && draft.record.day.Some? && tx.ops == OpsFor(before, draft)
    case Ready(args, tx) => tx.draftId == draft.id
    case Granted(args, tx) => tx.draftId == draft.id
    case Applying(args, tx, k) => tx.draftId == draft.id
    case Counting(args, tx, k) => tx.draftId == draft.id
    case Closing(args, tx) => tx.draftId == draft.id
    case Marking(args, tx) => tx.draftId == draft.id
    case Failing(args, tx) => tx.draftId == draft.id
    case Finishing(args, tx) => tx.draftId == draft.id
    case _ => false
  }

  /** Since `before`, nothing but the journalled operations of this draft has touched the canonical files. */
  ghost predicate Trail(before: Ledger, draft: Draft, s: State) {
    && WorksOn(before, draft, s.process)
    && s.drafts.IsWhole(draft.id) && s.drafts.Value(draft.id) == draft
    && (!s.journals.IsWhole(draft.id) ==> s.ledger == before)
    && (s.journals.IsWhole(draft.id) ==>
          && draft.record.day.Some?
          && var tx := s.journals.Value(draft.id);
          tx.ops == OpsFor(before, draft) && UpTo(before, tx.ops, s.ledger))
  }

  /** A step that leaves the ledger and the commit of the journal alone. */
  lemma TrailQuiet(before: Ledger, draft: Draft, s: State, s': State)
    requires Trail(before, draft, s) && s'.ledger == s.ledger && WorksOn(before, draft, s'.process)
    requires Within(s.drafts, s'.drafts)
    requires s'.journals.IsWhole(draft.id) <==> s.journals.IsWhole(draft.id)
    requires s.journals.IsWhole(draft.id) ==> SameCommit(s.journals.Value(draft.id), s'.journals.Value(draft.id))
    ensures Trail(before, draft, s')
  {
  }

  lemma TrailAdmits(base: Ledger, before: Ledger, draft: Draft, s: State, o: Outcome)
    requires Inv(base, s) && Trail(before, draft, s) && s.process.Checking?
    ensures Trail(before, draft, HoldStep(s, o))
  {
    var args := s.process.args;
    assert JournalOk(s, args.draftId);
    TrailQuiet(before, draft, s, HoldStep(s, o));
  }

  lemma TrailCreates(base: Ledger, before: Ledger, draft: Draft, s: State, o: Outcome, args: Args, tx: Journal)
    requires Inv(base, s) && Trail(before, draft, s) && s.process == Fresh(args, tx)
    ensures Trail(before, draft, CreateJournal(s, args, tx, o))
  {
    var s' := CreateJournal(s, args, tx, o);
    assert FreshOk(s, args, tx) && WorksOn(before, draft, s'.process);
    if s'.journals.IsWhole(draft.id) {
      forall t ensures FileUpTo(before, tx.ops, s'.ledger, t) {}
    }
  }

  lemma TrailApplies(base: Ledger, before: Ledger, draft: Draft, s: State, s': State, o: Outcome, args: Args, tx: Journal, k: nat)
    requires Inv(base, s) && Trail(before, draft, s) && s.process == Applying(args, tx, k)
    requires s' == ApplyOp(s, args, tx, k, o)
    ensures Trail(before, draft, s')
  {
    assert BusyOk(s, args, tx, k);
    ApplyEffects(s, s', o, args, tx, k);
    if s'.log != s.log {
      OpsForPrepared(before, draft);
      UpToReplace(before, tx.ops, s.ledger, k);
    } else {
      TrailQuiet(before, draft, s, s');
    }
  }

  lemma TrailConsumes(base: Ledger, before: Ledger, draft: Draft, s: State, s': State, o: Outcome, args: Args, tx: Journal)
    requires Inv(base, s) && Trail(before, draft, s) && s.process == Ready(args, tx)
    requires s' == ConsumeReceipt(s, args, tx, o)
    ensures Trail(before, draft, s')
  {
    ConsumeEffects(s, s', args, tx, o);
    TrailQuiet(before, draft, s, s');
  }

  /** Every later step stores the journal of the same commit, or no journal. */
  lemma TrailStores(before: Ledger, draft: Draft, s: State, s': State, tx: Journal)
    requires Trail(before, draft, s) && Journalled(s, tx) && tx.draftId == draft.id
    requires s'.ledger == s.ledger && s'.drafts == s.drafts && (s'.journals == s.journals || s'.journals == s.journals.Put(draft.id, Whole(tx)))
    requires WorksOn(before, draft, s'.process)
    ensures Trail(before, draft, s')
  {
  }

  lemma TrailEarlyStores(base: Ledger, before: Ledger, draft: Draft, s: State, o: Outcome)
    requires Inv(base, s) && Trail(before, draft, s)
    requires s.process.Granted? || s.process.Counting? || s.process.Closing?
    ensures Trail(before, draft, HoldStep(s, o))
  {
    var s' := HoldStep(s, o);
    match s.process
    case Granted(args, tx) => TrailStores(before, draft, s, s', tx.(status := ApplyingOps));
    case Counting(args, tx, k) => TrailStores(before, draft, s, s', tx.(applied := k + 1));
    case Closing(args, tx) => TrailStores(before, draft, s, s', tx.(status := CanonicalCommitted));
  }

  lemma TrailLateStores(base: Ledger, before: Ledger, draft: Draft, s: State, o: Outcome)
    requires Inv(base, s) && Trail(before, draft, s) && (s.process.Failing? || s.process.Finishing?)
    ensures Trail(before, draft, HoldStep(s, o))
  {
    var s' := HoldStep(s, o);
    match s.process
    case Failing(args, tx) => TrailStores(before, draft, s, s', tx.(status := FailedRecoverable));
    case Finishing(args, tx) => TrailStores(before, draft, s, s', tx.(status := Committed));
  }

  lemma TrailRests(before: Ledger, draft: Draft, s: State, o: Outcome)
    requires Trail(before, draft, s) && (s.process.Marking? || s.process.Releasing? || s.process.Idle?)
    ensures Trail(before, draft, HoldStep(s, o))
  {
    TrailQuiet(before, draft, s, HoldStep(s, o));
  }

  lemma TrailBegins(base: Ledger, before: Ledger, draft: Draft, s: State, s': State, o: Outcome)
    requires Inv(base, s) && Trail(before, draft, s) && s' == HoldStep(s, o)
    requires s.process.Checking? || s.process.Fresh? || s.process.Ready? || s.process.Applying?
    ensures Trail(before, draft, s')
  {
    match s.process
    case Checking(args) => TrailAdmits(base, before, draft, s, o);
    case Fresh(args, tx) => TrailCreates(base, before, draft, s, o, args, tx);
    case Ready(args, tx) => TrailConsumes(base, before, draft, s, s', o, args, tx);
    case Applying(args, tx, k) => TrailApplies(base, before, draft, s, s', o, args, tx, k);
  }

  lemma TrailHolds(base: Ledger, before: Ledger, draft: Draft, s: State, s': State, o: Outcome)
    requires Inv(base, s) && Trail(before, draft, s) && s' == HoldStep(s, o)
    ensures Trail(before, draft, s')
  {
    if s.process.Checking? || s.process.Fresh? || s.process.Ready? || s.process.Applying? {
      TrailBegins(base, before, draft, s, s', o);
    } else if s.process.Granted? || s.process.Counting? || s.process.Closing? {
      TrailEarlyStores(base, before, draft, s, o);
    } else if s.process.Failing? || s.process.Finishing? {
      TrailLateStores(base, before, draft, s, o);
    } else {
      TrailRests(before, draft, s, o);
    }
  }

  lemma TrailSteps(base: Ledger, before: Ledger, draft: Draft, s: State, e: Event)
    requires Inv(base, s) && Trail(before, draft, s) && Concerns(e, draft.id)
    ensures Trail(before, draft, Step(s, e))
  {
    if e.Hold? {
      TrailHolds(base, before, draft, s, Step(s, e), e.outcome);
    } else {
      TrailQuiet(before, draft, s, Step(s, e));
    }
  }

  lemma {:induction false} TrailRun(base: Ledger, before: Ledger, draft: Draft, s: State, events: seq<Event>)
    requires Inv(base, s) && Trail(before, draft, s)
    requires forall e | e in events :: Concerns(e, draft.id)
    ensures Inv(base, Run(s, events)) && Trail(before, draft, Run(s, events))
    decreases |events|
  {
    if events != [] {
      var e := events[0];
      assert Concerns(e, draft.id);
      TrailSteps(base, before, draft, s, e);
      StepKeeps(base, s, e);
      TrailRun(base, before, draft, Step(s, e), events[1..]);
    }
  }

  // ----- Drafts, receipts and markers never change -----

  lemma StepWithin(s: State, e: Event)
    ensures var s' := Step(s, e); Within(s.drafts, s'.drafts) && Within(s.receipts, s'.receipts)
  {
  }

  lemma {:induction false} RunWithin(s: State, events: seq<Event>)
    ensures var s' := Run(s, events); Within(s.drafts, s'.drafts) && Within(s.receipts, s'.receipts)
    decreases |events|
  {
    if events != [] {
      StepWithin(s, events[0]);
      RunWithin(Step(s, events[0]), events[1..]);
    }
  }

  // ----- The recovery theorems -----

  /** What the trail says at its end: any attempt from here applies the same operations to the same end. */
  lemma TrailEnds(base: Ledger, before: State, s: State, args: Args)
    requires Inv(base, before) && WouldCommit(before, args) && !before.journals.Has(args.draftId)
    requires Inv(base, s) && Trail(before.ledger, args.draftSha.of, s)
    ensures WouldCommit(s, args) ==> ApplyAll(s.ledger, OpsOf(s, args)) == ApplyAll(before.ledger, OpsOf(before, args))
    ensures s.consumed.Has(args.draftId) ==> s.ledger == ApplyAll(before.ledger, OpsOf(before, args))
  {
    var draft := args.draftSha.of;
    AdmittedTx(base, before, args);
    assert DraftOk(before, args.draftId) && ConsumedOk(s, args.draftId);
    OpsForPrepared(before.ledger, draft);
    if s.journals.IsWhole(draft.id) {
      SameEnd(before.ledger, OpsFor(before.ledger, draft), s.ledger);
    }
    if s.consumed.Has(args.draftId) { DoneIsApplied(s.ledger, before.ledger, OpsFor(before.ledger, draft)); }
  }

  /** When every operation is in place there is nothing left to apply. */
  lemma DoneIsApplied(now: Ledger, before: Ledger, ops: seq<Op>)
    requires PreparedOn(before, ops) && Separate(ops) && UpTo(before, ops, now) && AllInPlace(now, ops)
    ensures ApplyAll(now, ops) == now
  {
    forall k | 0 <= k < |ops| ensures StateOf(now, ops[k]) == Applied {
      UpToStates(before, ops, now, k);
      InPlaceIsNeverPending(now, ops[k]);
    }
    NothingPending(now, ops);
  }

  lemma {:induction false} NothingPending(ledger: Ledger, ops: seq<Op>)
    requires forall k | 0 <= k < |ops| :: StateOf(ledger, ops[k]) == Applied
    ensures ApplyAll(ledger, ops) == ledger
    decreases |ops|
  {
    if ops != [] { NothingPending(ledger, ops[1..]); }
  }

  lemma TrailStarts(base: Ledger, s: State, args: Args)
    requires Inv(base, s) && WouldCommit(s, args) && !s.journals.Has(args.draftId)
    ensures Trail(s.ledger, args.draftSha.of, s) && args.draftSha.of.id == args.draftId
  {
    AdmittedTx(base, s, args);
    assert DraftOk(s, args.draftId);
  }

  /**
    Recovery refines the uninterrupted commit. Take a state in which a commit would succeed, interrupt its
    attempts any number of times at any writes (torn creates included) with no other canonical writer between:
    an attempt that may commit then ends with exactly the canonical files of the commit that never crashed,
    and if the draft is already consumed the files are already those.
   */
  lemma RecoveryRefinesCommit(
    base: Ledger, artifacts: Artifacts, clock: int, setup: seq<Event>, interrupted: seq<Event>, args: Args)
    requires var s := Run(Start(base, artifacts, clock), setup);
      WouldCommit(s, args) && !s.journals.Has(args.draftId)
    requires forall e | e in interrupted :: Concerns(e, args.draftId)
    ensures var s := Run(Start(base, artifacts, clock), setup);
      var crashed := Run(s, interrupted);
      var uninterrupted := Run(s, Attempt(args));
      && Finished(uninterrupted, args)
      && (WouldCommit(crashed, args) ==>
            Finished(Run(crashed, Attempt(args)), args) && Run(crashed, Attempt(args)).ledger == uninterrupted.ledger)
      && (crashed.consumed.Has(args.draftId) ==> crashed.ledger == uninterrupted.ledger)
  {
    var s := Run(Start(base, artifacts, clock), setup);
    RunInv(base, artifacts, clock, setup);
    TrailStarts(base, s, args);
    TrailRun(base, s.ledger, args.draftSha.of, s, interrupted);
    var crashed := Run(s, interrupted);
    Commits(base, s, args);
    TrailEnds(base, s, crashed, args);
    if WouldCommit(crashed, args) { Commits(base, crashed, args); }
  }

  // ----- With atomic creates -----

  /** No file of the protocol is half written. */
  predicate NoneTorn(s: State) {
    (forall id | id in s.journals.entries :: s.journals.IsWhole(id))
    && (forall r | r in s.marks.entries :: s.marks.IsWhole(r))
  }

  predicate Atomic(e: Event) {
    e.Hold? ==> !Written(e.outcome).Partial?
  }

  lemma StepNoneTorn(s: State, e: Event)
    requires NoneTorn(s) && Atomic(e)
    ensures NoneTorn(Step(s, e))
  {
  }

  lemma {:induction false} RunNoneTorn(s: State, events: seq<Event>)
    requires NoneTorn(s) && forall e | e in events :: Atomic(e)
    ensures NoneTorn(Run(s, events))
    decreases |events|
  {
    if events != [] {
      assert Atomic(events[0]);
      StepNoneTorn(s, events[0]);
      RunNoneTorn(Step(s, events[0]), events[1..]);
    }
  }

  lemma JournalledWouldCommit(base: Ledger, before: Ledger, s: State, args: Args)
    requires Inv(base, s) && Trail(before, args.draftSha.of, s) && NoneTorn(s) && args.draftSha.of.id == args.draftId
    requires s.process.Idle? && !s.locked && !s.consumed.Has(args.draftId)
    requires s.journals.Has(args.draftId) && s.journals.IsWhole(args.draftId)
    requires s.journals.Value(args.draftId).receiptId == args.receiptId
    requires SourcesUnchanged(s, args.draftSha.of) && ReceiptMatches(s, args) && Unexpired(s, args.receiptId)
    ensures WouldCommit(s, args)
  {
    assert JournalOk(s, args.draftId);
    var ops := s.journals.Value(args.draftId).ops;
    OpsForPrepared(before, args.draftSha.of);
    forall op | op in ops ensures StateOf(s.ledger, op) != Changed {
      var k :| 0 <= k < |ops| && ops[k] == op;
      UpToStates(before, ops, s.ledger, k);
    }
  }

  /** The draft is consumed by the retry, if it was not consumed already. */
  lemma RetryConsumes(base: Ledger, before: Ledger, s: State, args: Args)
    requires Inv(base, s) && Trail(before, args.draftSha.of, s) && NoneTorn(s) && args.draftSha.of.id == args.draftId
    requires args.draftSha.of.record.recordId != "" && s.process.Idle? && !s.locked
    requires s.journals.IsWhole(args.draftId) && s.journals.Value(args.draftId).receiptId == args.receiptId
    requires SourcesUnchanged(s, args.draftSha.of) && ReceiptMatches(s, args) && Unexpired(s, args.receiptId)
    ensures if s.consumed.Has(args.draftId)
      then !WouldCommit(s, args) && Run(s, Attempt(args)).consumed == s.consumed && Run(s, Attempt(args)).ledger == s.ledger
      else WouldCommit(s, args)
  {
    if s.consumed.Has(args.draftId) { Refuses(base, s, args); } else { JournalledWouldCommit(base, before, s, args); }
  }

  /**
    Recovery always ends: with atomic creates, once the journal exists, a free lock, unchanged sources and an
    unexpired receipt are enough. The draft is then consumed after one more attempt, with the files of the
    uninterrupted commit.
   */
  lemma RecoveryEnds(
    base: Ledger, artifacts: Artifacts, clock: int, setup: seq<Event>, interrupted: seq<Event>, args: Args)
    requires var s := Run(Start(base, artifacts, clock), setup);
      WouldCommit(s, args) && !s.journals.Has(args.draftId)
    requires forall e | e in interrupted :: Concerns(e, args.draftId)
    requires forall e | e in setup + interrupted :: Atomic(e)
    requires var crashed := Run(Run(Start(base, artifacts, clock), setup), interrupted);
      && crashed.process.Idle? && !crashed.locked
      && crashed.journals.IsWhole(args.draftId) && crashed.journals.Value(args.draftId).receiptId == args.receiptId
      && SourcesUnchanged(crashed, args.draftSha.of)
      && crashed.clock < Run(Start(base, artifacts, clock), setup).receipts.Value(args.receiptId).expires
    ensures var s := Run(Start(base, artifacts, clock), setup);
      var recovered := Run(Run(s, interrupted), Attempt(args));
      recovered.consumed.Has(args.draftId) && recovered.ledger == Run(s, Attempt(args)).ledger
  {
    var s := Run(Start(base, artifacts, clock), setup);
    var crashed := Run(s, interrupted);
    RunInv(base, artifacts, clock, setup);
    TrailStarts(base, s, args);
    TrailRun(base, s.ledger, args.draftSha.of, s, interrupted);
    RunNoneTorn(Start(base, artifacts, clock), setup);
    RunNoneTorn(s, interrupted);
    RunWithin(s, interrupted);
    RecoveryRefinesCommit(base, artifacts, clock, setup, interrupted, args);
    RetryConsumes(base, s.ledger, crashed, args);
  }
}
