/**
  Identity of records and sources. The resume branch of a commit does not look at the record again and the
  commit never looks at the staged sources again, so uniqueness is not kept by every run. This module says
  exactly when one append keeps it, and under which discipline every run does.
 */
module IngestIdentity {
  import opened Ledger
  import opened CanonicalIo
  import opened IngestProtocol
  import opened IngestSafety
  import opened IngestTheorems
  import opened IngestRecovery
  import opened IngestPrepare

  /** Record identifiers are unique, relations have targets, source paths and source IDs are unique. */
  predicate Identity(ledger: Ledger) {
    UniqueIdentifiers(ledger) && AllRelationsResolve(ledger) && UniqueRegistrations(Lines(ledger, Sources))
  }

  /** An operation that adds source lines to the manifest, or one record to a day. */
  predicate Typed(op: Op) {
    match op.target
    case Sources => forall i | 0 <= i < |op.append| :: op.append[i].SourceLine?
    case Daily(_) => |op.append| == 1 && op.append[0].RecordLine?
  }

  /** Lines to be added to a manifest: no path or ID of theirs is in it, and no two of them clash. */
  predicate FreeKeys(manifest: seq<Line>, more: seq<Line>) {
    && (forall i | 0 <= i < |more| && more[i].SourceLine? ::
          more[i].registration.path !in PathsOf(manifest) && more[i].registration.sourceId !in IdsOf(manifest))
    && UniqueRegistrations(more)
  }

  lemma FreeKeysExactly(manifest: seq<Line>, more: seq<Line>)
    requires UniqueRegistrations(manifest)
    ensures UniqueRegistrations(manifest + more) <==> FreeKeys(manifest, more)
  {
    var all := manifest + more;
    if UniqueRegistrations(all) {
      forall i | 0 <= i < |more| && more[i].SourceLine?
        ensures more[i].registration.path !in PathsOf(manifest) && more[i].registration.sourceId !in IdsOf(manifest)
      {
        ClashesByKeys(manifest, more[i]);
        forall j | 0 <= j < |manifest| ensures !RegistrationsClash(manifest[j], more[i]) {
          assert !RegistrationsClash(all[j], all[|manifest| + i]);
        }
      }
      forall i, j | 0 <= i < j < |more| ensures !RegistrationsClash(more[i], more[j]) {
        assert !RegistrationsClash(all[|manifest| + i], all[|manifest| + j]);
      }
    }
    if FreeKeys(manifest, more) {
      forall i, j | 0 <= i < j < |all| ensures !RegistrationsClash(all[i], all[j]) {
        if i < |manifest| <= j && all[j].SourceLine? { ClashesByKeys(manifest, all[j]); }
        if |manifest| <= i { assert !RegistrationsClash(more[i - |manifest|], more[j - |manifest|]); }
      }
    }
  }

  /** What a caller can look up before the append: the new keys are free, the new relations have targets. */
  predicate Safe(ledger: Ledger, op: Op)
    requires Typed(op)
  {
    match op.target
    case Sources => FreeKeys(Lines(ledger, Sources), op.append)
    case Daily(_) =>
      var record := op.append[0].record;
      !UsesIdentifier(ledger, Identifier(record)) && RelationsResolveWith(ledger, record, record)
  }

  lemma RecordsAfterSources(ledger: Ledger, op: Op, t: Target, i: int)
    requires Typed(op) && op.target.Sources?
    ensures HasRecordAt(Replace(ledger, op), t, i) <==> HasRecordAt(ledger, t, i)
    ensures HasRecordAt(ledger, t, i) ==> RecordAt(Replace(ledger, op), t, i) == RecordAt(ledger, t, i)
  {
    var n := |Lines(ledger, Sources)|;
    assert t == Sources && n <= i < n + |op.append| ==> Replace(ledger, op).files[t][i] == op.append[i - n];
  }

  lemma SourcesKeepRecords(ledger: Ledger, op: Op)
    requires Typed(op) && op.target.Sources?
    ensures var after := Replace(ledger, op);
      && (UniqueIdentifiers(after) <==> UniqueIdentifiers(ledger))
      && (forall id :: UsesIdentifier(after, id) <==> UsesIdentifier(ledger, id))
      && (forall id :: HasRecordId(after, id) <==> HasRecordId(ledger, id))
  {
    var after := Replace(ledger, op);
    forall t, i ensures (HasRecordAt(after, t, i) <==> HasRecordAt(ledger, t, i))
      && (HasRecordAt(ledger, t, i) ==> RecordAt(after, t, i) == RecordAt(ledger, t, i))
    {
      RecordsAfterSources(ledger, op, t, i);
    }
    forall t, i, u, j ensures SameIdentifier(after, t, i, u, j) <==> SameIdentifier(ledger, t, i, u, j) {}
  }

  lemma SourcesKeepRelations(ledger: Ledger, op: Op)
    requires Typed(op) && op.target.Sources?
    ensures AllRelationsResolve(Replace(ledger, op)) <==> AllRelationsResolve(ledger)
  {
    var after := Replace(ledger, op);
    SourcesKeepRecords(ledger, op);
    forall t, i ensures (HasRecordAt(after, t, i) <==> HasRecordAt(ledger, t, i))
      && (HasRecordAt(ledger, t, i) ==> RecordAt(after, t, i) == RecordAt(ledger, t, i))
    {
      RecordsAfterSources(ledger, op, t, i);
    }
    assert forall r: Record :: RelationsResolve(after, r) <==> RelationsResolve(ledger, r);
  }

  // ----- Appending one record -----

  lemma RecordsAfterRecord(ledger: Ledger, op: Op, t: Target, i: int)
    requires Typed(op) && op.target.Daily?
    ensures var n := |Lines(ledger, op.target)|;
      && (HasRecordAt(Replace(ledger, op), t, i) <==> HasRecordAt(ledger, t, i) || (t == op.target && i == n))
      && (HasRecordAt(ledger, t, i) ==> RecordAt(Replace(ledger, op), t, i) == RecordAt(ledger, t, i))
      && (t == op.target && i == n ==> RecordAt(Replace(ledger, op), t, i) == op.append[0].record)
  {
  }

  lemma RecordKeepsUnique(ledger: Ledger, op: Op)
    requires Typed(op) && op.target.Daily? && UniqueIdentifiers(ledger)
    ensures UniqueIdentifiers(Replace(ledger, op)) <==> !UsesIdentifier(ledger, Identifier(op.append[0].record))
  {
    var after, n, id := Replace(ledger, op), |Lines(ledger, op.target)|, Identifier(op.append[0].record);
    RecordsAfterRecord(ledger, op, op.target, n);
    if UsesIdentifier(ledger, id) {
      var t, i :| t in ledger.files && 0 <= i < |ledger.files[t]| && HasRecordAt(ledger, t, i)
        && Identifier(RecordAt(ledger, t, i)) == id;
      RecordsAfterRecord(ledger, op, t, i);
      assert SameIdentifier(after, t, i, op.target, n);
      assert !(t == op.target && i == n);
    } else {
      forall t, i, u, j | t in after.files && 0 <= i < |after.files[t]| && u in after.files && 0 <= j < |after.files[u]|
        && SameIdentifier(after, t, i, u, j)
        ensures t == u && i == j
      {
        RecordsAfterRecord(ledger, op, t, i);
        RecordsAfterRecord(ledger, op, u, j);
        assert HasRecordAt(ledger, t, i) && HasRecordAt(ledger, u, j) ==> SameIdentifier(ledger, t, i, u, j);
      }
    }
  }

  lemma RecordIdsAfter(ledger: Ledger, op: Op, id: string)
    requires Typed(op) && op.target.Daily?
    ensures HasRecordId(Replace(ledger, op), id) <==> KnownWith(ledger, op.append[0].record, id)
  {
    var after, n := Replace(ledger, op), |Lines(ledger, op.target)|;
    RecordsAfterRecord(ledger, op, op.target, n);
    if HasRecordId(ledger, id) {
      var t, i :| t in ledger.files && 0 <= i < |ledger.files[t]| && HasRecordAt(ledger, t, i)
        && RecordAt(ledger, t, i).recordId == id;
      RecordsAfterRecord(ledger, op, t, i);
      assert HasRecordAt(after, t, i);
    }
    if HasRecordId(after, id) {
      var t, i :| t in after.files && 0 <= i < |after.files[t]| && HasRecordAt(after, t, i)
        && RecordAt(after, t, i).recordId == id;
      RecordsAfterRecord(ledger, op, t, i);
    }
    if id == op.append[0].record.recordId { assert HasRecordAt(after, op.target, n); }
  }

  lemma RecordKeepsRelations(ledger: Ledger, op: Op)
    requires Typed(op) && op.target.Daily? && AllRelationsResolve(ledger)
    ensures var record := op.append[0].record;
      AllRelationsResolve(Replace(ledger, op)) <==> RelationsResolveWith(ledger, record, record)
  {
    var after, n, record := Replace(ledger, op), |Lines(ledger, op.target)|, op.append[0].record;
    forall id ensures HasRecordId(after, id) <==> KnownWith(ledger, record, id) { RecordIdsAfter(ledger, op, id); }
    RecordsAfterRecord(ledger, op, op.target, n);
    assert HasRecordAt(after, op.target, n) && RecordAt(after, op.target, n) == record;
    if RelationsResolveWith(ledger, record, record) {
      forall t, i | t in after.files && 0 <= i < |after.files[t]| && HasRecordAt(after, t, i)
        ensures RelationsResolve(after, RecordAt(after, t, i))
      {
        RecordsAfterRecord(ledger, op, t, i);
        assert HasRecordAt(ledger, t, i) ==> RelationsResolve(ledger, RecordAt(ledger, t, i));
      }
    } else {
      assert !RelationsResolve(after, record);
    }
  }

  /** One append keeps identity exactly when its keys are free and its relations have targets. */
  lemma AppendKeepsIdentityExactlyWhenSafe(ledger: Ledger, op: Op)
    requires Typed(op) && Identity(ledger)
    ensures Identity(Replace(ledger, op)) <==> Safe(ledger, op)
  {
    match op.target
    case Sources =>
      SourcesKeepRecords(ledger, op);
      SourcesKeepRelations(ledger, op);
      FreeKeysExactly(Lines(ledger, Sources), op.append);
    case Daily(_) =>
      RecordKeepsUnique(ledger, op);
      RecordKeepsRelations(ledger, op);
      assert Lines(Replace(ledger, op), Sources) == Lines(ledger, Sources);
  }

  /** Registering sources does not decide whether a record may be appended, nor the other way round. */
  lemma SafeIsStable(ledger: Ledger, op: Op, other: Op)
    requires Typed(op) && Typed(other) && op.target.Sources? != other.target.Sources? && Safe(ledger, other)
    ensures Safe(Replace(ledger, op), other)
  {
    if op.target.Sources? {
      SourcesKeepRecords(ledger, op);
    } else {
      assert Lines(Replace(ledger, op), Sources) == Lines(ledger, Sources);
    }
  }

  // ----- Runs under discipline -----

  /** The journal of this draft, if it has one, has nothing left to append. */
  predicate Settled(s: State, id: string) {
    s.journals.IsWhole(id) ==> AllInPlace(s.ledger, s.journals.Value(id).ops)
  }

  ghost predicate AllSettled(s: State) {
    forall id :: Settled(s, id)
  }

  ghost predicate OthersSettled(s: State, id: string) {
    forall other :: other != id ==> Settled(s, other)
  }

  /** Preparation is one atomic step, and a started journal is finished before any other append begins. */
  ghost predicate Permitted(s: State, e: Event) {
    match e
    case PutDraft(draft, _) => AtomicallyPrepared(s, draft)
    case Administer(_) => AllSettled(s)
    case Commit(args) => OthersSettled(s, args.draftId)
    case _ => true
  }

  ghost predicate Disciplined(s: State, events: seq<Event>)
    decreases |events|
  {
    events == [] || (Permitted(s, events[0]) && Disciplined(Step(s, events[0]), events[1..]))
  }

  lemma ShapedIsTyped(ops: seq<Op>, draft: Draft)
    requires Shaped(ops, draft)
    ensures forall k | 0 <= k < |ops| :: Typed(ops[k])
  {
    assert forall k | 0 <= k < |ops| :: (ops[k].target, ops[k].append) == Plan(draft)[k];
  }

  /** What is still pending in a list of operations may be appended. */
  predicate PendingSafe(ledger: Ledger, ops: seq<Op>) {
    forall k | 0 <= k < |ops| :: Typed(ops[k]) && (StateOf(ledger, ops[k]) == Pending ==> Safe(ledger, ops[k]))
  }

  ghost predicate JournalSafe(s: State, id: string) {
    s.journals.IsWhole(id) ==> PendingSafe(s.ledger, s.journals.Value(id).ops)
  }

  predicate DraftFits(s: State, id: string) {
    s.drafts.IsWhole(id) ==> FitsItsHead(s.drafts.Value(id))
  }

  ghost predicate HolderSafe(s: State) {
    match s.process
    case Idle => true
    case Releasing => true
    case Checking(args) => OthersSettled(s, args.draftId)
    case Fresh(args, tx) => OthersSettled(s, args.draftId) && PendingSafe(s.ledger, tx.ops)
    case Validating(_) => AllSettled(s)
    case Appending(op) => AllSettled(s) && Typed(op) && Safe(s.ledger, op)
    case _ => OthersSettled(s, s.process.args.draftId)
  }

  ghost predicate IdentityInv(s: State) {
    && Identity(s.ledger)
    && (forall id :: DraftFits(s, id))
    && (forall id :: JournalSafe(s, id))
    && HolderSafe(s)
  }

  lemma SettledSame(s: State, s': State)
    requires s'.ledger == s.ledger && s'.journals == s.journals
    ensures AllSettled(s) ==> AllSettled(s')
    ensures forall id :: OthersSettled(s, id) ==> OthersSettled(s', id)
  {
    forall id ensures Settled(s, id) ==> Settled(s', id) {}
    forall id | OthersSettled(s, id) ensures OthersSettled(s', id) {
      forall other | other != id ensures Settled(s', other) { assert Settled(s, other); }
    }
  }

  lemma IdentityQuiet(s: State, s': State)
    requires IdentityInv(s) && s'.ledger == s.ledger && s'.drafts == s.drafts
    requires forall id | s'.journals.IsWhole(id) ::
      || (s.journals.IsWhole(id) && s.journals.Value(id).ops == s'.journals.Value(id).ops)
      || PendingSafe(s.ledger, s'.journals.Value(id).ops)
    requires HolderSafe(s')
    ensures IdentityInv(s')
  {
    forall id ensures DraftFits(s', id) { assert DraftFits(s, id); }
    forall id ensures JournalSafe(s', id) { assert JournalSafe(s, id); }
  }

  /** Journals with nothing left to append stay that way. */
  lemma SettledGrows(s: State, s': State, id: string)
    requires Grows(s.ledger, s'.ledger) && s'.journals == s.journals && Settled(s, id)
    ensures Settled(s', id)
  {
    if s.journals.IsWhole(id) {
      var ops := s.journals.Value(id).ops;
      forall k | 0 <= k < |ops| ensures InPlace(s'.ledger, ops[k]) { GrowthKeepsInPlace(s.ledger, s'.ledger, ops[k]); }
    }
  }

  lemma SettledIsSafe(s: State, id: string)
    requires JournalOk(s, id) && Settled(s, id)
    ensures JournalSafe(s, id)
  {
    if s.journals.IsWhole(id) {
      var tx := s.journals.Value(id);
      ShapedIsTyped(tx.ops, tx.draftSha.of);
      forall k | 0 <= k < |tx.ops| ensures StateOf(s.ledger, tx.ops[k]) != Pending {
        InPlaceIsNeverPending(s.ledger, tx.ops[k]);
      }
    }
  }

  lemma OwnOpsStaySafe(ledger: Ledger, ops: seq<Op>, draft: Draft, k: nat)
    requires Shaped(ops, draft) && PendingSafe(ledger, ops) && k < |ops| && StateOf(ledger, ops[k]) == Pending
    ensures PendingSafe(Replace(ledger, ops[k]), ops)
  {
    var after := Replace(ledger, ops[k]);
    ReplaceApplies(ledger, ops[k]);
    assert forall j | 0 <= j < |ops| :: ops[j].target == Plan(draft)[j].0;
    forall j | 0 <= j < |ops| && StateOf(after, ops[j]) == Pending ensures Safe(after, ops[j]) {
      assert j != k && ops[j].target.Sources? != ops[k].target.Sources?;
      SafeIsStable(ledger, ops[k], ops[j]);
    }
  }

  lemma IdentityApplied(base: Ledger, s: State, s': State, args: Args, tx: Journal, k: nat)
    requires Inv(base, s) && IdentityInv(s) && BusyOk(s, args, tx, k) && OthersSettled(s, args.draftId)
    requires Inv(base, s') && k < |tx.ops| && StateOf(s.ledger, tx.ops[k]) == Pending
    requires s' == Append(s, tx.ops[k], FromDraft(tx.draftId, k)).(process := s'.process)
    requires s'.process == Idle || s'.process == Failing(args, tx) || s'.process == Counting(args, tx, k)
    ensures IdentityInv(s')
  {
    var op := tx.ops[k];
    assert JournalSafe(s, tx.draftId) && Typed(op) && Safe(s.ledger, op);
    AppendKeepsIdentityExactlyWhenSafe(s.ledger, op);
    ReplaceApplies(s.ledger, op);
    forall other | other != args.draftId ensures Settled(s', other) { SettledGrows(s, s', other); }
    forall id ensures DraftFits(s', id) { assert DraftFits(s, id); }
    forall id ensures JournalSafe(s', id) {
      assert JournalOk(s', id);
      if id != args.draftId { SettledIsSafe(s', id); } else { OwnOpsStaySafe(s.ledger, tx.ops, tx.draftSha.of, k); }
    }
  }

  lemma IdentityCommanded(base: Ledger, s: State, s': State, op: Op)
    requires Inv(base, s) && IdentityInv(s) && s.process == Appending(op) && StateOf(s.ledger, op) == Pending
    requires Inv(base, s') && s' == Append(s, op, FromCommand).(process := s'.process)
    requires s'.process.Idle? || s'.process.Releasing?
    ensures IdentityInv(s')
  {
    AppendKeepsIdentityExactlyWhenSafe(s.ledger, op);
    ReplaceApplies(s.ledger, op);
    forall id ensures DraftFits(s', id) { assert DraftFits(s, id); }
    forall id ensures JournalSafe(s', id) {
      assert JournalOk(s', id);
      SettledGrows(s, s', id);
      SettledIsSafe(s', id);
    }
  }

  /** A new journal is safe: the record was just checked, and the staged sources fit the head, which is the ledger. */
  lemma FreshIsSafe(s: State, args: Args)
    requires IdentityInv(s) && Admit(s, args).Fresh?
    ensures PendingSafe(s.ledger, Admit(s, args).tx.ops)
  {
    var draft := args.draftSha.of;
    assert DraftFits(s, args.draftId);
    assert s.drafts.Value(args.draftId) == draft;
    NewJournalShaped(s.ledger, draft);
    ShapedIsTyped(OpsFor(s.ledger, draft), draft);
    FreeKeysExactly(Lines(s.ledger, Sources), SourceLines(draft.registrations));
  }

  lemma IdentityAdmits(s: State, o: Outcome)
    requires IdentityInv(s) && s.process.Checking?
    ensures IdentityInv(HoldStep(s, o))
  {
    if Admit(s, s.process.args).Fresh? { FreshIsSafe(s, s.process.args); }
    SettledSame(s, HoldStep(s, o));
    IdentityQuiet(s, HoldStep(s, o));
  }

  lemma IdentityCommands(s: State, o: Outcome)
    requires IdentityInv(s) && s.process.Validating?
    ensures IdentityInv(HoldStep(s, o))
  {
    var command := s.process.command;
    if command.RegisterSource? && AdmitCommand(s, command).Appending? {
      var line := AdmitCommand(s, command).op.append[0];
      assert !Clashes(Lines(s.ledger, Sources), line);
      OneMore(Lines(s.ledger, Sources), line);
    }
    SettledSame(s, HoldStep(s, o));
    IdentityQuiet(s, HoldStep(s, o));
  }

  lemma IdentityCreates(s: State, o: Outcome, args: Args, tx: Journal)
    requires IdentityInv(s) && s.process == Fresh(args, tx)
    ensures IdentityInv(CreateJournal(s, args, tx, o))
  {
    var s' := CreateJournal(s, args, tx, o);
    assert forall other | other != args.draftId :: Settled(s, other) ==> Settled(s', other);
    IdentityQuiet(s, s');
  }

  lemma IdentityApplies(base: Ledger, s: State, s': State, o: Outcome, args: Args, tx: Journal, k: nat)
    requires Inv(base, s) && Inv(base, s') && IdentityInv(s) && s.process == Applying(args, tx, k)
    requires s' == ApplyOp(s, args, tx, k, o)
    ensures IdentityInv(s')
  {
    assert BusyOk(s, args, tx, k);
    ApplyEffects(s, s', o, args, tx, k);
    if s'.log == s.log {
      SettledSame(s, s');
      IdentityQuiet(s, s');
    } else {
      IdentityApplied(base, s, s', args, tx, k);
    }
  }

  lemma IdentityAppends(base: Ledger, s: State, s': State, o: Outcome, op: Op)
    requires Inv(base, s) && Inv(base, s') && IdentityInv(s) && s.process == Appending(op) && s' == AppendLines(s, op, o)
    ensures IdentityInv(s')
  {
    if s'.log == s.log {
      IdentityQuiet(s, s');
    } else {
      IdentityCommanded(base, s, s', op);
    }
  }

  lemma IdentityStores(base: Ledger, s: State, s': State, o: Outcome)
    requires Inv(base, s) && IdentityInv(s) && s' == HoldStep(s, o)
    requires s.process.Granted? || s.process.Counting? || s.process.Closing?
    ensures IdentityInv(s')
  {
    assert Journalled(s, s.process.tx) && s.process.tx.draftId == s.process.args.draftId;
    forall other | other != s.process.args.draftId ensures Settled(s', other) { assert Settled(s, other); }
    IdentityQuiet(s, s');
  }

  lemma IdentityLateStores(base: Ledger, s: State, s': State, o: Outcome)
    requires Inv(base, s) && IdentityInv(s) && s' == HoldStep(s, o)
    requires s.process.Failing? || s.process.Finishing?
    ensures IdentityInv(s')
  {
    assert Journalled(s, s.process.tx) && s.process.tx.draftId == s.process.args.draftId;
    forall other | other != s.process.args.draftId ensures Settled(s', other) { assert Settled(s, other); }
    IdentityQuiet(s, s');
  }

  lemma IdentityConsumes(s: State, s': State, o: Outcome, args: Args, tx: Journal)
    requires IdentityInv(s) && s.process == Ready(args, tx) && s' == ConsumeReceipt(s, args, tx, o)
    ensures IdentityInv(s')
  {
    ConsumeEffects(s, s', args, tx, o);
    SettledSame(s, s');
    IdentityQuiet(s, s');
  }

  lemma IdentityRests(s: State, s': State, o: Outcome)
    requires IdentityInv(s) && s' == HoldStep(s, o)
    requires s.process.Marking? || s.process.Releasing? || s.process.Idle?
    ensures IdentityInv(s')
  {
    SettledSame(s, s');
    IdentityQuiet(s, s');
  }

  lemma IdentityHolds(base: Ledger, s: State, s': State, o: Outcome)
    requires Inv(base, s) && Inv(base, s') && IdentityInv(s) && s' == HoldStep(s, o)
    ensures IdentityInv(s')
  {
    if s.process.Checking? {
      IdentityAdmits(s, o);
    } else if s.process.Validating? {
      IdentityCommands(s, o);
    } else if s.process.Fresh? {
      IdentityCreates(s, o, s.process.args, s.process.tx);
    } else if s.process.Applying? {
      IdentityApplies(base, s, s', o, s.process.args, s.process.tx, s.process.k);
    } else if s.process.Appending? {
      IdentityAppends(base, s, s', o, s.process.op);
    } else if s.process.Ready? {
      IdentityConsumes(s, s', o, s.process.args, s.process.tx);
    } else if s.process.Marking? || s.process.Releasing? || s.process.Idle? {
      IdentityRests(s, s', o);
    } else if s.process.Failing? || s.process.Finishing? {
      IdentityLateStores(base, s, s', o);
    } else {
      IdentityStores(base, s, s', o);
    }
  }

  lemma IdentityDrafts(s: State, draft: Draft, whole: bool)
    requires IdentityInv(s) && AtomicallyPrepared(s, draft)
    ensures IdentityInv(Step(s, PutDraft(draft, whole)))
  {
    var s' := Step(s, PutDraft(draft, whole));
    AtomicDraftFits(s, draft);
    forall id ensures DraftFits(s', id) { assert DraftFits(s, id); }
    forall id ensures JournalSafe(s', id) && (Settled(s, id) ==> Settled(s', id)) { assert JournalSafe(s, id); }
  }

  lemma IdentityOutside(s: State, e: Event)
    requires IdentityInv(s) && Permitted(s, e) && !e.Hold? && !e.PutDraft?
    ensures IdentityInv(Step(s, e))
  {
    SettledSame(s, Step(s, e));
    IdentityQuiet(s, Step(s, e));
  }

  lemma {:induction false} IdentityRuns(base: Ledger, s: State, events: seq<Event>)
    requires Inv(base, s) && IdentityInv(s) && Disciplined(s, events)
    ensures IdentityInv(Run(s, events))
    decreases |events|
  {
    if events != [] {
      var e := events[0];
      StepKeeps(base, s, e);
      match e {
        case Hold(o) => IdentityHolds(base, s, Step(s, e), o);
        case PutDraft(draft, whole) => IdentityDrafts(s, draft, whole);
        case _ => IdentityOutside(s, e);
      }
      IdentityRuns(base, Step(s, e), events[1..]);
    }
  }

  /** Under the discipline every run keeps record IDs, source paths and source IDs unique and relations resolved. */
  lemma IdentityIsKept(base: Ledger, artifacts: Artifacts, clock: int, events: seq<Event>)
    requires Identity(base) && Disciplined(Start(base, artifacts, clock), events)
    ensures Identity(Run(Start(base, artifacts, clock), events).ledger)
  {
    RunInv(base, artifacts, clock, []);
    IdentityRuns(base, Start(base, artifacts, clock), events);
  }

  // ----- One attempt without discipline -----

  lemma SafeIffStable(ledger: Ledger, op: Op, other: Op)
    requires Typed(op) && Typed(other) && op.target.Sources? && other.target.Daily?
    ensures Safe(Replace(ledger, op), other) <==> Safe(ledger, other)
  {
    SourcesKeepRecords(ledger, op);
    assert forall id :: KnownWith(Replace(ledger, op), other.append[0].record, id) <==> KnownWith(ledger, other.append[0].record, id);
  }

  lemma ApplyOneKeepsIdentity(ledger: Ledger, ops: seq<Op>, draft: Draft)
    requires Shaped(ops, draft) && |ops| == 1 && Identity(ledger) && TargetsUntouched(ledger, ops)
    ensures Identity(ApplyAll(ledger, ops)) <==> PendingSafe(ledger, ops)
  {
    ShapedIsTyped(ops, draft);
    var next := AfterFirst(ledger, ops);
    assert ApplyAll(ledger, ops) == ApplyAll(next, ops[1..]) == next;
    AppendKeepsIdentityExactlyWhenSafe(ledger, ops[0]);
  }

  lemma ApplyTwoKeepsIdentity(ledger: Ledger, ops: seq<Op>, draft: Draft)
    requires Shaped(ops, draft) && |ops| == 2 && Identity(ledger) && TargetsUntouched(ledger, ops)
    ensures Identity(ApplyAll(ledger, ops)) <==> PendingSafe(ledger, ops)
  {
    ShapedIsTyped(ops, draft);
    assert forall j | 0 <= j < |ops| :: ops[j].target == Plan(draft)[j].0;
    var next, rest := AfterFirst(ledger, ops), ops[1..];
    assert rest[0] == ops[1] && ApplyAll(ledger, ops) == ApplyAll(next, rest);
    var end := AfterFirst(next, rest);
    assert ApplyAll(next, rest) == ApplyAll(end, rest[1..]) == end;
    AppendKeepsIdentityExactlyWhenSafe(ledger, ops[0]);
    SafeIffStable(ledger, ops[0], ops[1]);
    assert StateOf(next, ops[1]) == StateOf(ledger, ops[1]);
    assert Lines(end, Sources) == Lines(next, Sources);
    if Identity(next) {
      AppendKeepsIdentityExactlyWhenSafe(next, ops[1]);
    } else {
      SourcesKeepRecords(ledger, ops[0]);
      SourcesKeepRelations(ledger, ops[0]);
      assert !UniqueRegistrations(Lines(end, Sources));
    }
  }

  /**
    Without any discipline: an attempt that commits, fresh or resumed, keeps identity exactly when each append it
    still has to make is safe. The resume branch does not check this.
   */
  lemma AttemptKeepsIdentityExactlyWhenSafe(
    base: Ledger, artifacts: Artifacts, clock: int, events: seq<Event>, args: Args)
    requires var s := Run(Start(base, artifacts, clock), events); WouldCommit(s, args) && Identity(s.ledger)
    ensures var s := Run(Start(base, artifacts, clock), events);
      Identity(Run(s, Attempt(args)).ledger) <==> PendingSafe(s.ledger, OpsOf(s, args))
  {
    var s := Run(Start(base, artifacts, clock), events);
    RunInv(base, artifacts, clock, events);
    AdmittedTx(base, s, args);
    Commits(base, s, args);
    var ops := OpsOf(s, args);
    ShapedIsSeparate(ops, args.draftSha.of);
    if |ops| == 1 {
      ApplyOneKeepsIdentity(s.ledger, ops, args.draftSha.of);
    } else {
      ApplyTwoKeepsIdentity(s.ledger, ops, args.draftSha.of);
    }
  }
}
