/**
  When an interrupted commit can still be finished, in every reachable state: after any crashes, with other
  writers, changed sources and new receipts in between.
 */
module IngestFinishable {
  import opened Common
  import opened Ledger
  import opened CanonicalIo
  import opened IngestProtocol
  import opened IngestSafety
  import opened IngestTheorems
  import opened IngestRecovery
  import opened IngestPrepare
  import opened IngestIdentity
  import opened IngestDeadEnds

  // ----- Every journal belongs to the head of its draft, and the ledger is that head with later lines -----

  /** Growth in which every new file has content. */
  ghost predicate Extends(before: Ledger, after: Ledger) {
    forall target :: FileExtends(before, after, target)
  }

  predicate FileExtends(before: Ledger, after: Ledger, target: Target) {
    FileGrows(before, after, target) && (target in after.files && target !in before.files ==> Lines(after, target) != [])
  }

  lemma ExtendsSame(ledger: Ledger)
    ensures Extends(ledger, ledger)
  {
    forall t ensures FileExtends(ledger, ledger, t) {}
  }

  lemma ExtendsTransitive(a: Ledger, b: Ledger, c: Ledger)
    requires Extends(a, b) && Extends(b, c)
    ensures Extends(a, c)
  {
    forall t ensures FileExtends(a, c, t) { assert FileExtends(a, b, t) && FileExtends(b, c, t); }
  }

  lemma ReplaceExtends(ledger: Ledger, op: Op)
    requires Coherent(op)
    ensures Extends(ledger, Replace(ledger, op))
  {
    forall t ensures FileExtends(ledger, Replace(ledger, op), t) {}
  }

  /** The operations were prepared on the head of the draft, and the ledger extends it. */
  ghost predicate Based(ledger: Ledger, tx: Journal) {
    var draft := tx.draftSha.of;
    draft.record.day.Some? && tx.ops == OpsFor(draft.head, draft) && Extends(draft.head, ledger)
  }

  ghost predicate JournalBased(s: State, id: string) {
    s.journals.IsWhole(id) ==> Based(s.ledger, s.journals.Value(id))
  }

  ghost predicate BasedInv(s: State) {
    && (forall id :: JournalBased(s, id))
    && (s.process.Fresh? ==> Based(s.ledger, s.process.tx))
  }

  lemma BasedGrows(ledger: Ledger, ledger': Ledger, tx: Journal)
    requires Based(ledger, tx) && Extends(ledger, ledger')
    ensures Based(ledger', tx)
  {
    ExtendsTransitive(tx.draftSha.of.head, ledger, ledger');
  }

  /** A step that writes at most one journal, of a commit that has one or was just prepared. */
  lemma BasedStays(s: State, s': State, id: string)
    requires BasedInv(s) && Extends(s.ledger, s'.ledger)
    requires forall other | other != id :: SameAt(s.journals, s'.journals, other)
    requires s'.journals.IsWhole(id) ==>
      || (s.journals.IsWhole(id) && SameCommit(s.journals.Value(id), s'.journals.Value(id)))
      || Based(s.ledger, s'.journals.Value(id))
    requires s'.process.Fresh? ==> Based(s.ledger, s'.process.tx)
    ensures BasedInv(s')
  {
    assert JournalBased(s, id);
    forall other ensures JournalBased(s', other) {
      assert JournalBased(s, other) && (other != id ==> SameAt(s.journals, s'.journals, other));
      if s'.journals.IsWhole(other) { BasedGrows(s.ledger, s'.ledger, s'.journals.Value(other)); }
    }
    if s'.process.Fresh? { BasedGrows(s.ledger, s'.ledger, s'.process.tx); }
  }

  /** The same when the ledger does not change. */
  lemma BasedQuiet(s: State, s': State, id: string)
    requires BasedInv(s) && s'.ledger == s.ledger
    requires forall other | other != id :: SameAt(s.journals, s'.journals, other)
    requires s'.journals.IsWhole(id) ==>
      || (s.journals.IsWhole(id) && SameCommit(s.journals.Value(id), s'.journals.Value(id)))
      || Based(s.ledger, s'.journals.Value(id))
    requires s'.process.Fresh? ==> Based(s.ledger, s'.process.tx)
    ensures BasedInv(s')
  {
    ExtendsSame(s.ledger);
    BasedStays(s, s', id);
  }

  lemma BasedAdmits(s: State, o: Outcome)
    requires BasedInv(s) && s.process.Checking?
    ensures BasedInv(HoldStep(s, o))
  {
    ExtendsSame(s.ledger);
    BasedQuiet(s, HoldStep(s, o), "");
  }

  lemma BasedCreates(s: State, o: Outcome, args: Args, tx: Journal)
    requires BasedInv(s) && s.process == Fresh(args, tx) && tx.draftId == args.draftId
    ensures BasedInv(CreateJournal(s, args, tx, o))
  {
    BasedQuiet(s, CreateJournal(s, args, tx, o), args.draftId);
  }

  lemma BasedEarlyStores(s: State, o: Outcome)
    requires BasedInv(s) && ProcessOk(s) && (s.process.Granted? || s.process.Counting? || s.process.Closing?)
    ensures BasedInv(HoldStep(s, o))
  {
    BasedQuiet(s, HoldStep(s, o), s.process.tx.draftId);
  }

  lemma BasedLateStores(s: State, o: Outcome)
    requires BasedInv(s) && ProcessOk(s) && (s.process.Failing? || s.process.Finishing?)
    ensures BasedInv(HoldStep(s, o))
  {
    BasedQuiet(s, HoldStep(s, o), s.process.tx.draftId);
  }

  lemma BasedApplies(s: State, s': State, o: Outcome, args: Args, tx: Journal, k: nat)
    requires BasedInv(s) && BusyOk(s, args, tx, k) && s' == ApplyOp(s, args, tx, k, o)
    ensures BasedInv(s')
  {
    ApplyEffects(s, s', o, args, tx, k);
    ExtendsSame(s.ledger);
    if k < |tx.ops| { ReplaceExtends(s.ledger, tx.ops[k]); }
    BasedStays(s, s', "");
  }

  lemma BasedCommands(s: State, s': State, o: Outcome, op: Op)
    requires BasedInv(s) && Coherent(op) && s' == AppendLines(s, op, o)
    ensures BasedInv(s')
  {
    ExtendsSame(s.ledger);
    ReplaceExtends(s.ledger, op);
    BasedStays(s, s', "");
  }

  lemma BasedConsumes(s: State, o: Outcome)
    requires BasedInv(s) && s.process.Ready?
    ensures BasedInv(HoldStep(s, o))
  {
    ConsumeEffects(s, HoldStep(s, o), s.process.args, s.process.tx, o);
    BasedQuiet(s, HoldStep(s, o), "");
  }

  lemma BasedRests(s: State, o: Outcome)
    requires BasedInv(s) && (s.process.Marking? || s.process.Releasing? || s.process.Idle? || s.process.Validating?)
    ensures BasedInv(HoldStep(s, o))
  {
    BasedQuiet(s, HoldStep(s, o), "");
  }

  lemma BasedHolds(s: State, s': State, o: Outcome)
    requires BasedInv(s) && ProcessOk(s) && s' == HoldStep(s, o)
    ensures BasedInv(s')
  {
    if s.process.Checking? {
      BasedAdmits(s, o);
    } else if s.process.Fresh? {
      BasedCreates(s, o, s.process.args, s.process.tx);
    } else if s.process.Applying? {
      BasedApplies(s, s', o, s.process.args, s.process.tx, s.process.k);
    } else if s.process.Appending? {
      BasedCommands(s, s', o, s.process.op);
    } else if s.process.Ready? {
      BasedConsumes(s, o);
    } else if s.process.Failing? || s.process.Finishing? {
      BasedLateStores(s, o);
    } else if s.process.Granted? || s.process.Counting? || s.process.Closing? {
      BasedEarlyStores(s, o);
    } else {
      BasedRests(s, o);
    }
  }

  lemma BasedSteps(s: State, e: Event)
    requires BasedInv(s) && ProcessOk(s)
    ensures BasedInv(Step(s, e))
  {
    if e.Hold? { BasedHolds(s, Step(s, e), e.outcome); } else { BasedQuiet(s, Step(s, e), ""); }
  }

  lemma {:induction false} BasedRuns(base: Ledger, s: State, events: seq<Event>)
    requires Inv(base, s) && BasedInv(s)
    ensures BasedInv(Run(s, events))
    decreases |events|
  {
    if events != [] {
      BasedSteps(s, events[0]);
      StepKeeps(base, s, events[0]);
      BasedRuns(base, Step(s, events[0]), events[1..]);
    }
  }

  /** Everything the theorems below need of a reachable state. */
  ghost predicate Sound(base: Ledger, s: State) {
    Inv(base, s) && JournalReceipts(s) && BasedInv(s)
  }

  lemma {:induction false} SoundRuns(base: Ledger, s: State, events: seq<Event>)
    requires Sound(base, s)
    ensures Sound(base, Run(s, events))
  {
    RunKeeps(base, s, events);
    RunReceipts(base, s, events);
    BasedRuns(base, s, events);
  }

  lemma ReachableIsSound(base: Ledger, artifacts: Artifacts, clock: int, events: seq<Event>)
    ensures Sound(base, Run(Start(base, artifacts, clock), events))
  {
    RunInv(base, artifacts, clock, []);
    SoundRuns(base, Start(base, artifacts, clock), events);
  }

  // ----- What may have become of a target -----

  /** Lines that the transaction does not know: no append of others can ever lead to its result. */
  predicate OpLost(ledger: Ledger, op: Op) {
    !(Lines(ledger, op.target) <= op.after.of)
  }

  /** Some lines of the operation are there, and some are not: they were appended one by one. */
  predicate OpPartway(ledger: Ledger, op: Op) {
    Lines(ledger, op.target) <= op.after.of && |op.before.of| < |Lines(ledger, op.target)| < |op.after.of|
  }

  /** The lines that are still missing. */
  function Rest(ledger: Ledger, op: Op): seq<Line>
    requires !OpLost(ledger, op)
  {
    op.after.of[|Lines(ledger, op.target)|..]
  }

  predicate Lost(s: State, id: string) {
    s.journals.IsWhole(id)
    && exists k | 0 <= k < |s.journals.Value(id).ops| :: OpLost(s.ledger, s.journals.Value(id).ops[k])
  }

  /** The operation is not partway, or its missing lines can be registered by hand. */
  predicate OpRestFits(ledger: Ledger, op: Op) {
    OpPartway(ledger, op) ==> FreeKeys(Lines(ledger, op.target), Rest(ledger, op))
  }

  predicate RestFits(s: State, id: string) {
    s.journals.IsWhole(id) ==>
      forall k | 0 <= k < |s.journals.Value(id).ops| :: OpRestFits(s.ledger, s.journals.Value(id).ops[k])
  }

  lemma OpOfHead(ledger: Ledger, tx: Journal, k: nat)
    requires Based(ledger, tx) && k < |tx.ops|
    ensures Coherent(tx.ops[k]) && FileExtends(tx.draftSha.of.head, ledger, tx.ops[k].target)
    ensures tx.ops[k] == PrepareAppend(tx.draftSha.of.head, tx.ops[k].target, tx.ops[k].append)
  {
    var draft := tx.draftSha.of;
    OpsForPrepared(draft.head, draft);
    PreparedIsPending(draft.head, tx.ops[k].target, tx.ops[k].append);
  }

  /** The check of the resume branch fails exactly for targets that are lost or partway. */
  lemma ChangedMeans(ledger: Ledger, tx: Journal, k: nat)
    requires Based(ledger, tx) && k < |tx.ops|
    ensures StateOf(ledger, tx.ops[k]) == Changed <==> OpLost(ledger, tx.ops[k]) || OpPartway(ledger, tx.ops[k])
  {
    OpOfHead(ledger, tx, k);
    ChangedOnHead(tx.draftSha.of.head, ledger, tx.ops[k]);
  }

  lemma ChangedOnHead(head: Ledger, ledger: Ledger, op: Op)
    requires Coherent(op) && op == PrepareAppend(head, op.target, op.append) && FileExtends(head, ledger, op.target)
    ensures StateOf(ledger, op) == Changed <==> OpLost(ledger, op) || OpPartway(ledger, op)
  {
    var lines, before, after := Lines(ledger, op.target), op.before.of, op.after.of;
    assert before <= lines && before <= after;
    if lines <= after && |lines| == |before| {
      assert lines[..|lines|] == lines && before == lines;
      assert op.target in ledger.files && op.target !in head.files ==> lines != [] && before == [];
    }
    if lines <= after && |lines| == |after| { assert after[..|after|] == after && lines == after; }
  }

  /** Only an operation with several lines is ever partway. */
  lemma OneLineIsNeverPartway(ledger: Ledger, op: Op)
    requires Coherent(op) && |op.append| == 1
    ensures !OpPartway(ledger, op)
  {
  }

  lemma OpLostStays(before: Ledger, after: Ledger, op: Op)
    requires OpLost(before, op) && FileGrows(before, after, op.target)
    ensures OpLost(after, op)
  {
    PrefixTransitive(Lines(before, op.target), Lines(after, op.target), op.after.of);
  }

  lemma PrefixTransitive(a: seq<Line>, b: seq<Line>, c: seq<Line>)
    requires a <= b
    ensures b <= c ==> a <= c
  {
  }

  lemma LostStays(s: State, s': State, id: string)
    requires Lost(s, id) && SameAt(s.journals, s'.journals, id) && Grows(s.ledger, s'.ledger)
    ensures Lost(s', id)
  {
    var ops := s.journals.Value(id).ops;
    var k :| 0 <= k < |ops| && OpLost(s.ledger, ops[k]);
    assert FileGrows(s.ledger, s'.ledger, ops[k].target);
    OpLostStays(s.ledger, s'.ledger, ops[k]);
    assert s'.journals.Value(id).ops == ops;
  }

  // ----- A holder that does not work on the draft leaves it alone -----

  /** The holder has passed the checks of a commit of this draft. */
  predicate Admitted(p: Process, id: string) {
    (p.Fresh? || p.Ready? || p.Granted? || p.Applying? || Late(p)) && p.args.draftId == id
  }

  predicate Aside(s: State, s': State, id: string) {
    && SameAt(s.journals, s'.journals, id)
    && (s'.consumed.Has(id) ==> s.consumed.Has(id))
    && (Admitted(s'.process, id) ==> s.process.Checking? && s.process.args.draftId == id && s'.process == Admit(s, s.process.args))
  }

  lemma AsideEarly(s: State, o: Outcome, id: string)
    requires ProcessOk(s) && !Admitted(s.process, id) && (s.process.Fresh? || s.process.Checking?)
    ensures Aside(s, HoldStep(s, o), id)
  {
    if s.process.Checking? {
      var p := Admit(s, s.process.args);
      assert Admitted(p, id) ==> p.args == s.process.args;
    }
  }

  lemma AsideReady(s: State, o: Outcome, id: string)
    requires !Admitted(s.process, id) && s.process.Ready?
    ensures Aside(s, HoldStep(s, o), id)
  {
    ConsumeEffects(s, HoldStep(s, o), s.process.args, s.process.tx, o);
  }

  lemma AsideApplying(s: State, s': State, o: Outcome, id: string, args: Args, tx: Journal, k: nat)
    requires ProcessOk(s) && !Admitted(s.process, id) && s.process == Applying(args, tx, k) && s' == ApplyOp(s, args, tx, k, o)
    ensures Aside(s, s', id)
  {
    ApplyEffects(s, s', o, args, tx, k);
  }

  lemma AsideStores(s: State, o: Outcome, id: string)
    requires ProcessOk(s) && !Admitted(s.process, id) && (s.process.Granted? || s.process.Counting? || s.process.Closing?)
    ensures Aside(s, HoldStep(s, o), id)
  {
    assert s.process.tx.draftId == s.process.args.draftId;
  }

  lemma AsideEnds(s: State, o: Outcome, id: string)
    requires ProcessOk(s) && !Admitted(s.process, id) && (s.process.Marking? || s.process.Failing? || s.process.Finishing?)
    ensures Aside(s, HoldStep(s, o), id)
  {
    assert s.process.tx.draftId == s.process.args.draftId;
  }

  lemma AsideElsewhere(s: State, o: Outcome, id: string)
    requires !Early(s.process) && !Late(s.process)
    ensures Aside(s, HoldStep(s, o), id)
  {
  }

  lemma AsideHolds(s: State, o: Outcome, id: string)
    requires ProcessOk(s) && !Admitted(s.process, id)
    ensures Aside(s, HoldStep(s, o), id)
  {
    if s.process.Fresh? || s.process.Checking? {
      AsideEarly(s, o, id);
    } else if s.process.Ready? {
      AsideReady(s, o, id);
    } else if s.process.Applying? {
      AsideApplying(s, HoldStep(s, o), o, id, s.process.args, s.process.tx, s.process.k);
    } else if s.process.Granted? || s.process.Counting? || s.process.Closing? {
      AsideStores(s, o, id);
    } else if Late(s.process) {
      AsideEnds(s, o, id);
    } else {
      AsideElsewhere(s, o, id);
    }
  }

  lemma AsideSteps(s: State, e: Event, id: string)
    requires ProcessOk(s) && !Admitted(s.process, id)
    ensures Aside(s, Step(s, e), id)
  {
    if e.Hold? { AsideHolds(s, e.outcome, id); }
  }

  // ----- Lost for good -----

  /** The retry of a journal with a changed target is refused. */
  lemma ChangedIsRefused(s: State, args: Args, k: nat)
    requires s.journals.IsWhole(args.draftId) && k < |s.journals.Value(args.draftId).ops|
    requires StateOf(s.ledger, s.journals.Value(args.draftId).ops[k]) == Changed
    ensures Admit(s, args) == Releasing
  {
    var ops := s.journals.Value(args.draftId).ops;
    assert ops[k] in ops;
  }

  lemma LostIsRefused(s: State, args: Args)
    requires BasedInv(s) && Lost(s, args.draftId)
    ensures Admit(s, args) == Releasing
  {
    assert JournalBased(s, args.draftId);
    var tx := s.journals.Value(args.draftId);
    var k :| 0 <= k < |tx.ops| && OpLost(s.ledger, tx.ops[k]);
    ChangedMeans(s.ledger, tx, k);
    ChangedIsRefused(s, args, k);
  }

  predicate LostEnd(s: State, id: string) {
    Lost(s, id) && !s.consumed.Has(id) && !Admitted(s.process, id)
  }

  lemma LostSteps(s: State, e: Event, id: string)
    requires ProcessOk(s) && BasedInv(s) && LostEnd(s, id)
    ensures LostEnd(Step(s, e), id)
  {
    var s' := Step(s, e);
    AsideSteps(s, e, id);
    StepGrows(s, e);
    LostStays(s, s', id);
    if Admitted(s'.process, id) { LostIsRefused(s, s.process.args); }
  }

  lemma {:induction false} LostRuns(base: Ledger, s: State, id: string, future: seq<Event>)
    requires Inv(base, s) && BasedInv(s) && LostEnd(s, id)
    ensures LostEnd(Run(s, future), id)
    decreases |future|
  {
    if future != [] {
      LostSteps(s, future[0], id);
      BasedSteps(s, future[0]);
      StepKeeps(base, s, future[0]);
      LostRuns(base, Step(s, future[0]), id, future[1..]);
    }
  }

  /** A draft that is stuck, or whose target has got lines its journal does not know, is finished by no future. */
  lemma HopelessForever(base: Ledger, s: State, id: string, future: seq<Event>)
    requires Sound(base, s) && s.process.Idle? && (Stuck(s, id) || Lost(s, id)) && !s.consumed.Has(id)
    ensures !Run(s, future).consumed.Has(id)
  {
    if Stuck(s, id) { DeadRun(base, s, id, future); } else { LostRuns(base, s, id, future); }
  }

  // ----- Finishing by a retry -----

  /** The staged sources put back as they were. */
  function Restore(registrations: seq<Registration>): (events: seq<Event>)
    ensures |events| == |registrations|
  {
    seq(|registrations|, i requires 0 <= i < |registrations| => ChangeArtifact(registrations[i].path, Some(registrations[i].sha)))
  }

  predicate Present(artifacts: Artifacts, registrations: seq<Registration>) {
    forall source | source in registrations :: source.path in artifacts.content && artifacts.content[source.path] == source.sha
  }

  predicate OneDigestEach(registrations: seq<Registration>) {
    forall a, b | a in registrations && b in registrations :: a.path == b.path ==> a.sha == b.sha
  }

  lemma {:induction false} RestoreRuns(s: State, registrations: seq<Registration>)
    requires OneDigestEach(registrations)
    ensures var s' := Run(s, Restore(registrations));
      s' == s.(artifacts := s'.artifacts) && Present(s'.artifacts, registrations)
    decreases |registrations|
  {
    if registrations != [] {
      var n := |registrations| - 1;
      var front, last := registrations[..n], registrations[n];
      RestoreRuns(s, front);
      assert Restore(registrations) == Restore(front) + [ChangeArtifact(last.path, Some(last.sha))];
      RunAppend(s, Restore(front), [ChangeArtifact(last.path, Some(last.sha))]);
      var s1 := Run(s, Restore(front));
      var s2 := Step(s1, ChangeArtifact(last.path, Some(last.sha)));
      assert Run(s2, []) == s2;
      assert forall source | source in registrations :: source in front || source == last;
    }
  }

  lemma RetryWouldCommit(base: Ledger, s: State, id: string)
    requires Sound(base, s) && s.process.Idle? && !s.locked && !s.consumed.Has(id)
    requires s.journals.Has(id) && !Stuck(s, id)
    requires SourcesUnchanged(s, s.journals.Value(id).draftSha.of) && TargetsUntouched(s.ledger, s.journals.Value(id).ops)
    ensures WouldCommit(s, ResumeArgs(s, id))
  {
    assert JournalOk(s, id) && JournalReceipt(s, id) && JournalBased(s, id);
    assert s.journals.Value(id).ops != [];
  }

  /** Put the sources back, clear the lock of the dead holder, and repeat the journalled call. */
  function Finish(s: State, id: string): seq<Event>
    requires s.journals.IsWhole(id)
  {
    Restore(s.journals.Value(id).draftSha.of.registrations) + Recover(ResumeArgs(s, id))
  }

  lemma UntouchedFinishes(base: Ledger, s: State, id: string)
    requires Sound(base, s) && s.process.Idle? && !s.consumed.Has(id) && s.journals.Has(id) && !Stuck(s, id)
    requires TargetsUntouched(s.ledger, s.journals.Value(id).ops)
    ensures Run(s, Finish(s, id)).consumed.Has(id)
  {
    var draft, args := s.journals.Value(id).draftSha.of, ResumeArgs(s, id);
    assert JournalOk(s, id);
    RestoreRuns(s, draft.registrations);
    SoundRuns(base, s, Restore(draft.registrations));
    RunAppend(s, Restore(draft.registrations), Recover(args));
    FreeAndRetry(base, Run(s, Restore(draft.registrations)), id);
  }

  lemma FreeAndRetry(base: Ledger, s: State, id: string)
    requires Sound(base, s) && s.process.Idle? && !s.consumed.Has(id) && s.journals.Has(id) && !Stuck(s, id)
    requires SourcesUnchanged(s, s.journals.Value(id).draftSha.of) && TargetsUntouched(s.ledger, s.journals.Value(id).ops)
    ensures Run(s, Recover(ResumeArgs(s, id))).consumed.Has(id)
  {
    var free, args := Step(s, ClearLock), ResumeArgs(s, id);
    assert Run(free, []) == free && [ClearLock][1..] == [];
    SoundRuns(base, s, [ClearLock]);
    assert Run(s, [ClearLock]) == free;
    RetryWouldCommit(base, free, id);
    Commits(base, free, args);
    assert Recover(args)[1..] == Attempt(args);
  }

  // ----- Registering by hand what is missing of several sources -----

  /** Free keys, one line at a time. */
  lemma FreeKeysFirst(manifest: seq<Line>, first: Line, rest: seq<Line>)
    requires first.SourceLine?
    ensures FreeKeys(manifest, [first] + rest) <==> !Clashes(manifest, first) && FreeKeys(manifest + [first], rest)
  {
    var more := [first] + rest;
    ClashesByKeys(manifest, first);
    forall i | 0 <= i < |rest| && rest[i].SourceLine?
      ensures rest[i].registration.path in PathsOf(manifest + [first]) || rest[i].registration.sourceId in IdsOf(manifest + [first])
        <==> rest[i].registration.path in PathsOf(manifest) || rest[i].registration.sourceId in IdsOf(manifest)
             || RegistrationsClash(first, rest[i])
    {
      ClashesByKeys(manifest + [first], rest[i]);
      ClashesByKeys(manifest, rest[i]);
      ClashesSplit(manifest, [first], rest[i]);
      assert Clashes([first], rest[i]) <==> RegistrationsClash([first][0], rest[i]);
    }
    FirstUnique(first, rest);
    if FreeKeys(manifest, more) {
      assert more[0] == first;
      forall i | 0 <= i < |rest| && rest[i].SourceLine?
        ensures rest[i].registration.path !in PathsOf(manifest + [first]) && rest[i].registration.sourceId !in IdsOf(manifest + [first])
      {
        assert more[i + 1] == rest[i];
      }
    }
    if !Clashes(manifest, first) && FreeKeys(manifest + [first], rest) {
      forall i | 0 <= i < |more| && more[i].SourceLine?
        ensures more[i].registration.path !in PathsOf(manifest) && more[i].registration.sourceId !in IdsOf(manifest)
      {
        if i > 0 { assert more[i] == rest[i - 1]; }
      }
    }
  }

  lemma FirstUnique(first: Line, rest: seq<Line>)
    ensures UniqueRegistrations([first] + rest) <==>
      UniqueRegistrations(rest) && forall i | 0 <= i < |rest| :: !RegistrationsClash(first, rest[i])
  {
    var more := [first] + rest;
    assert forall i | 0 <= i < |rest| :: more[i + 1] == rest[i];
    if UniqueRegistrations(more) {
      forall i, j | 0 <= i < j < |rest| ensures !RegistrationsClash(rest[i], rest[j]) {
        assert !RegistrationsClash(more[i + 1], more[j + 1]);
      }
      forall i | 0 <= i < |rest| ensures !RegistrationsClash(first, rest[i]) { assert !RegistrationsClash(more[0], more[i + 1]); }
    }
  }

  function OneByHand(source: Registration): seq<Event> {
    [ChangeArtifact(source.path, Some(source.sha))]
    + CommandEvents(RegisterSource(source.sourceId, source.path, source.sourceType))
  }

  /** Put each source in place and register it, one after the other. */
  function ByHand(sources: seq<Registration>): seq<Event>
    decreases |sources|
  {
    if sources == [] then [] else OneByHand(sources[0]) + ByHand(sources[1..])
  }

  /** The states differ in source files, log and the manifest, which has got these lines. */
  ghost predicate ManifestGot(s: State, s': State, lines: seq<Line>) {
    && s' == s.(artifacts := s'.artifacts, ledger := s'.ledger, log := s'.log)
    && Lines(s'.ledger, Sources) == Lines(s.ledger, Sources) + lines
    && forall t | t != Sources :: SameFile(s.ledger, s'.ledger, t)
  }

  lemma OneRegistered(s: State, source: Registration)
    requires s.process.Idle? && !s.locked && !Clashes(Lines(s.ledger, Sources), SourceLine(source))
    ensures ManifestGot(s, Run(s, OneByHand(source)), [SourceLine(source)])
  {
    var s1 := Step(s, ChangeArtifact(source.path, Some(source.sha)));
    var command := RegisterSource(source.sourceId, source.path, source.sourceType);
    var op := PrepareAppend(s.ledger, Sources, [SourceLine(source)]);
    PreparedIsPending(s.ledger, Sources, [SourceLine(source)]);
    assert Registration(source.sourceId, source.path, source.sha, source.sourceType) == source;
    assert AdmitCommand(s1.(locked := true, process := Validating(command)), command) == Appending(op);
    CommandRuns(s1, command, op);
    assert OneByHand(source)[1..] == CommandEvents(command);
  }

  lemma {:induction false} RegisteredByHand(s: State, sources: seq<Registration>)
    requires s.process.Idle? && !s.locked && FreeKeys(Lines(s.ledger, Sources), SourceLines(sources))
    ensures ManifestGot(s, Run(s, ByHand(sources)), SourceLines(sources))
    decreases |sources|
  {
    var lines := SourceLines(sources);
    if sources != [] {
      var rest := sources[1..];
      assert lines == [SourceLine(sources[0])] + SourceLines(rest);
      FreeKeysFirst(Lines(s.ledger, Sources), SourceLine(sources[0]), SourceLines(rest));
      OneRegistered(s, sources[0]);
      var s1 := Run(s, OneByHand(sources[0]));
      RegisteredByHand(s1, rest);
      RunAppend(s, OneByHand(sources[0]), ByHand(rest));
      GotBoth(s, s1, Run(s1, ByHand(rest)), SourceLine(sources[0]), SourceLines(rest));
    }
  }

  lemma GotBoth(s: State, s1: State, s2: State, first: Line, rest: seq<Line>)
    requires ManifestGot(s, s1, [first]) && ManifestGot(s1, s2, rest)
    ensures ManifestGot(s, s2, [first] + rest)
  {
    var lines := Lines(s.ledger, Sources);
    assert (lines + [first]) + rest == lines + ([first] + rest);
    forall t | t != Sources ensures SameFile(s.ledger, s2.ledger, t) {
      assert SameFile(s.ledger, s1.ledger, t) && SameFile(s1.ledger, s2.ledger, t);
    }
  }

  /** A partway operation is the one on the manifest, and what is missing are its last sources. */
  lemma PartwayIsSources(s: State, id: string, k: nat) returns (missing: seq<Registration>)
    requires JournalOk(s, id) && JournalBased(s, id) && s.journals.IsWhole(id) && k < |s.journals.Value(id).ops|
    requires OpPartway(s.ledger, s.journals.Value(id).ops[k])
    ensures s.journals.Value(id).ops[k].target == Sources
    ensures SourceLines(missing) == Rest(s.ledger, s.journals.Value(id).ops[k])
  {
    var tx := s.journals.Value(id);
    var draft, op := tx.draftSha.of, tx.ops[k];
    assert (op.target, op.append) == Plan(draft)[k];
    OpOfHead(s.ledger, tx, k);
    assert |op.append| != 1;
    var had := |Lines(s.ledger, op.target)| - |op.before.of|;
    missing := draft.registrations[had..];
    assert op.append == SourceLines(draft.registrations);
    assert SourceLines(missing) == op.append[had..];
  }

  /** No operation is partway any more, and none is lost: the retry finds its targets untouched. */
  lemma NeitherMeansUntouched(s: State, id: string)
    requires JournalBased(s, id) && s.journals.IsWhole(id) && !Lost(s, id)
    requires forall k | 0 <= k < |s.journals.Value(id).ops| :: !OpPartway(s.ledger, s.journals.Value(id).ops[k])
    ensures TargetsUntouched(s.ledger, s.journals.Value(id).ops)
  {
    var tx := s.journals.Value(id);
    forall op | op in tx.ops ensures StateOf(s.ledger, op) != Changed {
      var k :| 0 <= k < |tx.ops| && tx.ops[k] == op;
      ChangedMeans(s.ledger, tx, k);
    }
  }

  /** The future contains no commit of another draft. */
  predicate Alone(events: seq<Event>, id: string) {
    forall e | e in events && e.Commit? :: e.args.draftId == id
  }

  lemma AloneBoth(a: seq<Event>, b: seq<Event>, id: string)
    requires Alone(a, id) && Alone(b, id)
    ensures Alone(a + b, id)
  {
  }

  /** Some future without a commit of another draft consumes the draft. */
  ghost predicate FinishableAlone(s: State, id: string) {
    exists future :: Alone(future, id) && Run(s, future).consumed.Has(id)
  }

  lemma FinishIsAlone(s: State, id: string)
    requires s.journals.IsWhole(id)
    ensures Alone(Finish(s, id), id)
  {
  }

  lemma UntouchedIsFinishable(base: Ledger, s: State, id: string)
    requires Sound(base, s) && s.process.Idle? && !s.consumed.Has(id) && s.journals.Has(id) && !Stuck(s, id)
    requires TargetsUntouched(s.ledger, s.journals.Value(id).ops)
    ensures FinishableAlone(s, id)
  {
    UntouchedFinishes(base, s, id);
    FinishIsAlone(s, id);
  }

  lemma {:induction false} ByHandIsAlone(sources: seq<Registration>, id: string)
    ensures Alone(ByHand(sources), id)
    decreases |sources|
  {
    if sources != [] {
      ByHandIsAlone(sources[1..], id);
      AloneBoth(OneByHand(sources[0]), ByHand(sources[1..]), id);
    }
  }

  /** What came before a finishable state, if it is alone too, makes the earlier state finishable. */
  lemma FinishableBefore(s: State, first: seq<Event>, id: string)
    requires Alone(first, id) && FinishableAlone(Run(s, first), id)
    ensures FinishableAlone(s, id)
  {
    var future :| Alone(future, id) && Run(Run(s, first), future).consumed.Has(id);
    RunAppend(s, first, future);
    AloneBoth(first, future, id);
  }

  /** With the manifest complete, no operation is changed. */
  lemma ManifestCompletes(s: State, s': State, id: string, k: nat, missing: seq<Registration>)
    requires JournalOk(s, id) && JournalBased(s', id) && s.journals.IsWhole(id) && !Lost(s, id)
    requires k < |s.journals.Value(id).ops| && OpPartway(s.ledger, s.journals.Value(id).ops[k])
    requires s.journals.Value(id).ops[k].target == Sources
    requires SourceLines(missing) == Rest(s.ledger, s.journals.Value(id).ops[k])
    requires ManifestGot(s, s', SourceLines(missing))
    ensures TargetsUntouched(s'.ledger, s'.journals.Value(id).ops)
  {
    var tx := s.journals.Value(id);
    var draft, op := tx.draftSha.of, tx.ops[k];
    assert Lines(s'.ledger, Sources) == op.after.of;
    forall j | 0 <= j < |tx.ops| ensures !OpLost(s'.ledger, tx.ops[j]) && !OpPartway(s'.ledger, tx.ops[j]) {
      assert (tx.ops[j].target, tx.ops[j].append) == Plan(draft)[j] && !OpLost(s.ledger, tx.ops[j]);
      assert (op.target, op.append) == Plan(draft)[k];
      if j != k {
        assert SameFile(s.ledger, s'.ledger, tx.ops[j].target);
        OneLineIsNeverPartway(s'.ledger, tx.ops[j]);
      }
    }
    NeitherMeansUntouched(s', id);
  }

  lemma PartwayFinishes(base: Ledger, s: State, id: string, k: nat)
    requires Sound(base, s) && s.process.Idle? && !s.locked && !s.consumed.Has(id) && s.journals.IsWhole(id)
    requires !Stuck(s, id) && !Lost(s, id) && k < |s.journals.Value(id).ops|
    requires OpPartway(s.ledger, s.journals.Value(id).ops[k]) && OpRestFits(s.ledger, s.journals.Value(id).ops[k])
    ensures FinishableAlone(s, id)
  {
    assert JournalOk(s, id) && JournalBased(s, id);
    var missing := PartwayIsSources(s, id, k);
    RegisteredByHand(s, missing);
    var s' := Run(s, ByHand(missing));
    SoundRuns(base, s, ByHand(missing));
    assert JournalBased(s', id);
    ManifestCompletes(s, s', id, k, missing);
    UntouchedIsFinishable(base, s', id);
    ByHandIsAlone(missing, id);
    FinishableBefore(s, ByHand(missing), id);
  }

  lemma FreeLock(base: Ledger, s: State, id: string)
    requires Sound(base, s) && s.process.Idle?
    ensures Run(s, [ClearLock]) == s.(locked := false) && Sound(base, s.(locked := false))
    ensures FinishableAlone(s.(locked := false), id) ==> FinishableAlone(s, id)
  {
    var free := Step(s, ClearLock);
    assert [ClearLock][1..] == [] && Run(free, []) == free;
    SoundRuns(base, s, [ClearLock]);
    if FinishableAlone(free, id) { FinishableBefore(s, [ClearLock], id); }
  }

  lemma NotHopelessFinishes(base: Ledger, s: State, id: string)
    requires Sound(base, s) && s.process.Idle? && !s.consumed.Has(id) && s.journals.Has(id)
    requires !Stuck(s, id) && !Lost(s, id) && RestFits(s, id)
    ensures FinishableAlone(s, id)
  {
    var free := s.(locked := false);
    FreeLock(base, s, id);
    assert JournalBased(free, id);
    if k :| 0 <= k < |free.journals.Value(id).ops| && OpPartway(free.ledger, free.journals.Value(id).ops[k]) {
      PartwayFinishes(base, free, id, k);
    } else {
      NeitherMeansUntouched(free, id);
      UntouchedIsFinishable(base, free, id);
    }
  }

  // ----- When nobody else commits, missing lines that clash stay missing -----

  predicate OpBlocked(ledger: Ledger, op: Op) {
    OpLost(ledger, op) || (op.target == Sources && !OpRestFits(ledger, op))
  }

  predicate Blocked(s: State, id: string) {
    s.journals.IsWhole(id)
    && exists k | 0 <= k < |s.journals.Value(id).ops| :: OpBlocked(s.ledger, s.journals.Value(id).ops[k])
  }

  /** An append of a command: to the manifest it adds one source that does not clash. */
  predicate CommandFits(ledger: Ledger, op: Op) {
    op.target == Sources ==>
      |op.append| == 1 && op.append[0].SourceLine? && !Clashes(Lines(ledger, Sources), op.append[0])
  }

  /** Nobody holds the lock but a command, or a commit of this draft that has not passed its checks. */
  predicate AloneHolder(s: State, id: string) {
    match s.process
    case Idle => true
    case Releasing => true
    case Checking(args) => args.draftId == id
    case Validating(_) => true
    case Appending(op) => CommandFits(s.ledger, op)
    case _ => false
  }

  lemma ManifestStaysBlocked(ledger: Ledger, op: Op, line: Line, ledger': Ledger)
    requires op.target == Sources && OpBlocked(ledger, op)
    requires line.SourceLine? && !Clashes(Lines(ledger, Sources), line)
    requires Lines(ledger', Sources) == Lines(ledger, Sources) + [line]
    ensures OpBlocked(ledger', op)
  {
    var lines, after := Lines(ledger, Sources), op.after.of;
    if OpLost(ledger, op) {
      PrefixTransitive(lines, lines + [line], after);
    } else if lines + [line] <= after {
      var rest := Rest(ledger, op);
      assert rest == [line] + after[|lines| + 1..];
      FreeKeysFirst(lines, line, after[|lines| + 1..]);
    }
  }

  lemma CommandStaysBlocked(ledger: Ledger, op: Op, command: Op)
    requires OpBlocked(ledger, op) && CommandFits(ledger, command)
    ensures OpBlocked(Replace(ledger, command), op)
  {
    var ledger' := Replace(ledger, command);
    if command.target == op.target {
      if op.target == Sources {
        assert command.append == [command.append[0]];
        ManifestStaysBlocked(ledger, op, command.append[0], ledger');
      } else {
        PrefixTransitive(Lines(ledger, op.target), Lines(ledger', op.target), op.after.of);
      }
    }
  }

  lemma BlockedIsRefused(s: State, args: Args)
    requires BasedInv(s) && Blocked(s, args.draftId)
    ensures Admit(s, args) == Releasing
  {
    assert JournalBased(s, args.draftId);
    var tx := s.journals.Value(args.draftId);
    var k :| 0 <= k < |tx.ops| && OpBlocked(s.ledger, tx.ops[k]);
    ChangedMeans(s.ledger, tx, k);
    ChangedIsRefused(s, args, k);
  }

  predicate BlockedEnd(s: State, id: string) {
    Blocked(s, id) && !s.consumed.Has(id) && AloneHolder(s, id)
  }

  lemma BlockedBy(s: State, id: string, k: nat)
    requires s.journals.IsWhole(id) && k < |s.journals.Value(id).ops| && OpBlocked(s.ledger, s.journals.Value(id).ops[k])
    ensures Blocked(s, id)
  {
  }

  lemma BlockedQuiet(s: State, s': State, id: string)
    requires BlockedEnd(s, id) && s'.ledger == s.ledger && SameAt(s.journals, s'.journals, id)
    requires s'.consumed == s.consumed && AloneHolder(s', id)
    ensures BlockedEnd(s', id)
  {
    var ops := s.journals.Value(id).ops;
    var k :| 0 <= k < |ops| && OpBlocked(s.ledger, ops[k]);
    assert s'.journals.Value(id).ops[k] == ops[k];
    BlockedBy(s', id, k);
  }

  lemma CommandEffects(s: State, s': State, o: Outcome, op: Op)
    requires s' == AppendLines(s, op, o)
    ensures s'.journals == s.journals && s'.consumed == s.consumed && (s'.process.Idle? || s'.process.Releasing?)
    ensures s'.ledger == s.ledger || s'.ledger == Replace(s.ledger, op)
  {
  }

  lemma BlockedCommand(s: State, s': State, o: Outcome, id: string, op: Op)
    requires BlockedEnd(s, id) && s.process == Appending(op) && s' == AppendLines(s, op, o)
    ensures BlockedEnd(s', id)
  {
    CommandEffects(s, s', o, op);
    var ops := s.journals.Value(id).ops;
    var k :| 0 <= k < |ops| && OpBlocked(s.ledger, ops[k]);
    CommandStaysBlocked(s.ledger, ops[k], op);
    assert s'.journals.Value(id).ops[k] == ops[k];
    BlockedBy(s', id, k);
  }

  lemma BlockedChecks(s: State, o: Outcome, id: string)
    requires BasedInv(s) && BlockedEnd(s, id) && s.process.Checking?
    ensures BlockedEnd(HoldStep(s, o), id)
  {
    BlockedIsRefused(s, s.process.args);
    BlockedQuiet(s, HoldStep(s, o), id);
  }

  lemma AdmittedCommandFits(s: State, command: Command)
    ensures AdmitCommand(s, command).Appending? ==> CommandFits(s.ledger, AdmitCommand(s, command).op)
  {
  }

  lemma BlockedValidates(s: State, o: Outcome, id: string)
    requires BlockedEnd(s, id) && s.process.Validating?
    ensures BlockedEnd(HoldStep(s, o), id)
  {
    AdmittedCommandFits(s, s.process.command);
    BlockedQuiet(s, HoldStep(s, o), id);
  }

  lemma BlockedSteps(s: State, e: Event, id: string)
    requires BasedInv(s) && BlockedEnd(s, id) && (e.Commit? ==> e.args.draftId == id)
    ensures BlockedEnd(Step(s, e), id)
  {
    if e.Hold? && s.process.Checking? {
      BlockedChecks(s, e.outcome, id);
    } else if e.Hold? && s.process.Validating? {
      BlockedValidates(s, e.outcome, id);
    } else if e.Hold? && s.process.Appending? {
      BlockedCommand(s, Step(s, e), e.outcome, id, s.process.op);
    } else {
      BlockedQuiet(s, Step(s, e), id);
    }
  }

  lemma {:induction false} BlockedRuns(base: Ledger, s: State, id: string, future: seq<Event>)
    requires Inv(base, s) && BasedInv(s) && BlockedEnd(s, id) && Alone(future, id)
    ensures BlockedEnd(Run(s, future), id)
    decreases |future|
  {
    if future != [] {
      assert future[0] in future;
      BlockedSteps(s, future[0], id);
      BasedSteps(s, future[0]);
      StepKeeps(base, s, future[0]);
      BlockedRuns(base, Step(s, future[0]), id, future[1..]);
    }
  }

  lemma MisfitIsBlocked(s: State, id: string)
    requires JournalOk(s, id) && JournalBased(s, id) && !RestFits(s, id)
    ensures Blocked(s, id)
  {
    var ops := s.journals.Value(id).ops;
    var k :| 0 <= k < |ops| && !OpRestFits(s.ledger, ops[k]);
    var missing := PartwayIsSources(s, id, k);
    assert OpBlocked(s.ledger, ops[k]);
  }

  // ----- The exact conditions -----

  /**
    In every reachable state in which no process is left, a journal exists and the draft is not consumed: a future
    without commits of other drafts finishes the draft exactly when it is not stuck, no target has got lines the
    journal does not know, and staged sources that somebody registered in part can be completed by hand.
   */
  lemma FinishableAloneExactly(base: Ledger, artifacts: Artifacts, clock: int, events: seq<Event>, id: string)
    requires var s := Run(Start(base, artifacts, clock), events);
      s.process.Idle? && s.journals.Has(id) && !s.consumed.Has(id)
    ensures var s := Run(Start(base, artifacts, clock), events);
      FinishableAlone(s, id) <==> !Stuck(s, id) && !Lost(s, id) && RestFits(s, id)
  {
    var s := Run(Start(base, artifacts, clock), events);
    ReachableIsSound(base, artifacts, clock, events);
    assert JournalOk(s, id) && JournalBased(s, id);
    if Stuck(s, id) || Lost(s, id) {
      forall future ensures !Run(s, future).consumed.Has(id) { HopelessForever(base, s, id, future); }
    } else if !RestFits(s, id) {
      MisfitIsBlocked(s, id);
      forall future | Alone(future, id) ensures !Run(s, future).consumed.Has(id) { BlockedRuns(base, s, id, future); }
    } else {
      NotHopelessFinishes(base, s, id);
    }
  }

  /**
    With any future at all, commits of other drafts included: a draft whose staged sources can still be completed
    is finished by some future exactly when it is not stuck and no target has got lines its journal does not know.
   */
  lemma FinishableExactly(base: Ledger, artifacts: Artifacts, clock: int, events: seq<Event>, id: string)
    requires var s := Run(Start(base, artifacts, clock), events);
      s.process.Idle? && s.journals.Has(id) && !s.consumed.Has(id) && RestFits(s, id)
    ensures var s := Run(Start(base, artifacts, clock), events);
      Finishable(s, id) <==> !Stuck(s, id) && !Lost(s, id)
  {
    var s := Run(Start(base, artifacts, clock), events);
    ReachableIsSound(base, artifacts, clock, events);
    if Stuck(s, id) || Lost(s, id) {
      forall future ensures !Run(s, future).consumed.Has(id) { HopelessForever(base, s, id, future); }
    } else {
      NotHopelessFinishes(base, s, id);
    }
  }

  /** A draft that was prepared in one step, or that stages at most one source, can always be completed. */
  lemma OrderlyDraftsFit(base: Ledger, artifacts: Artifacts, clock: int, events: seq<Event>, id: string)
    requires var s := Run(Start(base, artifacts, clock), events);
      s.journals.IsWhole(id) ==>
        var draft := s.journals.Value(id).draftSha.of;
        FitsItsHead(draft) || |draft.registrations| <= 1
    ensures RestFits(Run(Start(base, artifacts, clock), events), id)
  {
    var s := Run(Start(base, artifacts, clock), events);
    ReachableIsSound(base, artifacts, clock, events);
    assert JournalOk(s, id) && JournalBased(s, id);
    forall k | s.journals.IsWhole(id) && 0 <= k < |s.journals.Value(id).ops|
      ensures OpRestFits(s.ledger, s.journals.Value(id).ops[k])
    {
      if OpPartway(s.ledger, s.journals.Value(id).ops[k]) { OrderlyOpFits(s, id, k); }
    }
  }

  lemma OrderlyOpFits(s: State, id: string, k: nat)
    requires JournalOk(s, id) && JournalBased(s, id) && s.journals.IsWhole(id) && k < |s.journals.Value(id).ops|
    requires OpPartway(s.ledger, s.journals.Value(id).ops[k])
    requires var draft := s.journals.Value(id).draftSha.of; FitsItsHead(draft) || |draft.registrations| <= 1
    ensures OpRestFits(s.ledger, s.journals.Value(id).ops[k])
  {
    var tx := s.journals.Value(id);
    var op, draft := tx.ops[k], tx.draftSha.of;
    var missing := PartwayIsSources(s, id, k);
    assert (op.target, op.append) == Plan(draft)[k];
    OpOfHead(s.ledger, tx, k);
    assert |op.append| >= 2;
    var lines := Lines(s.ledger, Sources);
    assert op.after.of == Lines(draft.head, Sources) + SourceLines(draft.registrations);
    assert lines + Rest(s.ledger, op) == op.after.of;
    UniquePrefix(lines, Rest(s.ledger, op));
    FreeKeysExactly(lines, Rest(s.ledger, op));
  }
}
