/** What every appended record was checked for before it was appended: its form, and its sources. */
module IngestEvidence {
  import opened Common
  import opened Ledger
  import opened CanonicalIo
  import opened IngestProtocol
  import opened IngestSafety
  import opened IngestTheorems
  import opened IngestAuthority

  /** The line is the last one of the manifest that names the path. */
  predicate Decides(manifest: seq<Line>, k: int, path: string) {
    && 0 <= k < |manifest| && manifest[k].SourceLine? && manifest[k].registration.path == path
    && forall j | k < j < |manifest| :: !(manifest[j].SourceLine? && manifest[j].registration.path == path)
  }

  /** The reference names a registered source with the digest it is pinned to, and the file still has that digest. */
  predicate SourceStands(manifest: seq<Line>, artifacts: Artifacts, ref: SourceRef) {
    exists k | 0 <= k < |manifest| ::
      && Decides(manifest, k, ref.path)
      && (ref.pinned.Some? ==> ref.pinned.value == manifest[k].registration.sha)
      && ref.path in artifacts.content && artifacts.content[ref.path] == manifest[k].registration.sha
  }

  /** The record is well formed and all its sources stand, those staged with it included. */
  predicate Accepted(s: State, record: Record, staged: seq<Registration>) {
    record.wellFormed
    && forall ref | ref in record.sourceRefs :: SourceStands(Lines(s.ledger, Sources) + SourceLines(staged), s.artifacts, ref)
  }

  // ----- The check finds the deciding line -----

  lemma {:induction false} RegisteredDecides(manifest: seq<Line>, path: string)
    ensures RegisteredSha(manifest, path).Some? ==>
      exists k | 0 <= k < |manifest| ::
        Decides(manifest, k, path) && manifest[k].registration.sha == RegisteredSha(manifest, path).value
    decreases |manifest|
  {
    if manifest != [] {
      var n := |manifest| - 1;
      var front, last := manifest[..n], manifest[n];
      if last.SourceLine? && last.registration.path == path {
        assert Decides(manifest, n, path);
      } else if RegisteredSha(front, path).Some? {
        RegisteredDecides(front, path);
        var k :| 0 <= k < n && Decides(front, k, path) && front[k].registration.sha == RegisteredSha(front, path).value;
        assert forall j | k < j < n :: manifest[j] == front[j];
        assert Decides(manifest, k, path);
      }
    }
  }

  lemma CandidateIsAccepted(s: State, record: Record, staged: seq<Registration>)
    requires CandidateOk(s.ledger, Lines(s.ledger, Sources) + SourceLines(staged), s.artifacts, record)
    ensures Accepted(s, record, staged)
  {
    var manifest := Lines(s.ledger, Sources) + SourceLines(staged);
    forall ref | ref in record.sourceRefs ensures SourceStands(manifest, s.artifacts, ref) {
      RegisteredDecides(manifest, ref.path);
    }
  }

  lemma CommandIsAccepted(s: State, record: Record)
    requires CandidateOk(s.ledger, Lines(s.ledger, Sources), s.artifacts, record)
    ensures Accepted(s, record, [])
  {
    assert Lines(s.ledger, Sources) + SourceLines([]) == Lines(s.ledger, Sources);
    CandidateIsAccepted(s, record, []);
  }

  // ----- Every record under way or appended is a checked one -----

  ghost predicate LinesIn(lines: seq<Line>, checked: iset<Record>) {
    forall k | 0 <= k < |lines| && lines[k].RecordLine? :: lines[k].record in checked
  }

  ghost predicate CheckedInv(s: State, checked: iset<Record>) {
    && (forall j | 0 <= j < |s.log.entries| :: LinesIn(s.log.entries[j].lines, checked))
    && (forall id | s.journals.IsWhole(id) :: s.journals.Value(id).draftSha.of.record in checked)
    && (s.process.Fresh? ==> s.process.tx.draftSha.of.record in checked)
    && (s.process.Appending? ==> LinesIn(s.process.op.append, checked))
  }

  lemma CheckedQuiet(s: State, s': State, checked: iset<Record>)
    requires CheckedInv(s, checked) && s'.log == s.log
    requires forall id | s'.journals.IsWhole(id) ::
      || (s.journals.IsWhole(id) && s.journals.Value(id).draftSha == s'.journals.Value(id).draftSha)
      || s'.journals.Value(id).draftSha.of.record in checked
    requires s'.process.Fresh? ==> s'.process.tx.draftSha.of.record in checked
    requires s'.process.Appending? ==> LinesIn(s'.process.op.append, checked)
    ensures CheckedInv(s', checked)
  {
  }

  lemma CheckedAppend(s: State, s': State, entry: Entry, checked: iset<Record>)
    requires CheckedInv(s, checked) && s'.log.entries == s.log.entries + [entry] && s'.journals == s.journals
    requires LinesIn(entry.lines, checked) && !s'.process.Fresh? && !s'.process.Appending?
    ensures CheckedInv(s', checked)
  {
  }

  /** What the step may add: the record it has just checked. */
  ghost predicate Admits(s: State, checked: iset<Record>) {
    forall record, staged | Accepted(s, record, staged) :: record in checked
  }

  lemma CheckedDraft(s: State, o: Outcome, checked: iset<Record>)
    requires CheckedInv(s, checked) && Admits(s, checked) && s.process.Checking?
    ensures CheckedInv(HoldStep(s, o), checked)
  {
    var s' := HoldStep(s, o);
    if s'.process.Fresh? {
      var draft := s.process.args.draftSha.of;
      CandidateIsAccepted(s, draft.record, draft.registrations);
    }
    CheckedQuiet(s, s', checked);
  }

  lemma CheckedCommand(s: State, o: Outcome, checked: iset<Record>)
    requires CheckedInv(s, checked) && Admits(s, checked) && s.process.Validating?
    ensures CheckedInv(HoldStep(s, o), checked)
  {
    var s' := HoldStep(s, o);
    if s'.process.Appending? && s.process.command.AppendRecord? { CommandIsAccepted(s, s.process.command.record); }
    CheckedQuiet(s, s', checked);
  }

  lemma CheckedApplies(s: State, s': State, o: Outcome, args: Args, tx: Journal, k: nat, checked: iset<Record>)
    requires CheckedInv(s, checked) && BusyOk(s, args, tx, k) && s' == ApplyOp(s, args, tx, k, o)
    ensures CheckedInv(s', checked)
  {
    ApplyEffects(s, s', o, args, tx, k);
    if s'.log == s.log {
      CheckedQuiet(s, s', checked);
    } else {
      assert (tx.ops[k].target, tx.ops[k].append) == Plan(tx.draftSha.of)[k];
      CheckedAppend(s, s', Entry(FromDraft(tx.draftId, k), tx.ops[k].target, tx.ops[k].append), checked);
    }
  }

  lemma CheckedAppends(s: State, s': State, o: Outcome, op: Op, checked: iset<Record>)
    requires CheckedInv(s, checked) && s.process == Appending(op) && s' == AppendLines(s, op, o)
    ensures CheckedInv(s', checked)
  {
    if s'.log == s.log {
      CheckedQuiet(s, s', checked);
    } else {
      CheckedAppend(s, s', Entry(FromCommand, op.target, op.append), checked);
    }
  }

  lemma CheckedCreates(s: State, o: Outcome, args: Args, tx: Journal, checked: iset<Record>)
    requires CheckedInv(s, checked) && s.process == Fresh(args, tx)
    ensures CheckedInv(CreateJournal(s, args, tx, o), checked)
  {
    CheckedQuiet(s, CreateJournal(s, args, tx, o), checked);
  }

  lemma CheckedStores(s: State, o: Outcome, checked: iset<Record>)
    requires CheckedInv(s, checked) && ProcessOk(s)
    requires s.process.Granted? || s.process.Counting? || s.process.Closing?
    ensures CheckedInv(HoldStep(s, o), checked)
  {
    assert Journalled(s, s.process.tx);
    CheckedQuiet(s, HoldStep(s, o), checked);
  }

  lemma CheckedEnds(s: State, o: Outcome, checked: iset<Record>)
    requires CheckedInv(s, checked) && ProcessOk(s) && (s.process.Failing? || s.process.Finishing?)
    ensures CheckedInv(HoldStep(s, o), checked)
  {
    assert Journalled(s, s.process.tx);
    CheckedQuiet(s, HoldStep(s, o), checked);
  }

  lemma CheckedConsumes(s: State, o: Outcome, checked: iset<Record>)
    requires CheckedInv(s, checked) && s.process.Ready?
    ensures CheckedInv(HoldStep(s, o), checked)
  {
    ConsumeEffects(s, HoldStep(s, o), s.process.args, s.process.tx, o);
    CheckedQuiet(s, HoldStep(s, o), checked);
  }

  lemma CheckedRests(s: State, o: Outcome, checked: iset<Record>)
    requires CheckedInv(s, checked) && (s.process.Marking? || s.process.Releasing? || s.process.Idle?)
    ensures CheckedInv(HoldStep(s, o), checked)
  {
    CheckedQuiet(s, HoldStep(s, o), checked);
  }

  lemma CheckedHolds(s: State, s': State, o: Outcome, checked: iset<Record>)
    requires CheckedInv(s, checked) && Admits(s, checked) && ProcessOk(s) && s' == HoldStep(s, o)
    ensures CheckedInv(s', checked)
  {
    if s.process.Checking? {
      CheckedDraft(s, o, checked);
    } else if s.process.Validating? {
      CheckedCommand(s, o, checked);
    } else if s.process.Applying? {
      CheckedApplies(s, s', o, s.process.args, s.process.tx, s.process.k, checked);
    } else if s.process.Appending? {
      CheckedAppends(s, s', o, s.process.op, checked);
    } else if s.process.Fresh? {
      CheckedCreates(s, o, s.process.args, s.process.tx, checked);
    } else if s.process.Ready? {
      CheckedConsumes(s, o, checked);
    } else if s.process.Marking? || s.process.Releasing? || s.process.Idle? {
      CheckedRests(s, o, checked);
    } else if s.process.Failing? || s.process.Finishing? {
      CheckedEnds(s, o, checked);
    } else {
      CheckedStores(s, o, checked);
    }
  }

  lemma CheckedSteps(s: State, e: Event, checked: iset<Record>)
    requires CheckedInv(s, checked) && Admits(s, checked) && ProcessOk(s)
    ensures CheckedInv(Step(s, e), checked)
  {
    if e.Hold? { CheckedHolds(s, Step(s, e), e.outcome, checked); } else { CheckedQuiet(s, Step(s, e), checked); }
  }

  // ----- Over a run -----

  /** At some moment of the run the record was accepted, with some sources staged. */
  ghost predicate AcceptedIn(start: State, events: seq<Event>, record: Record) {
    exists m, staged | 0 <= m <= |events| :: Accepted(Run(start, events[..m]), record, staged)
  }

  ghost function AllAcceptedIn(start: State, events: seq<Event>): iset<Record> {
    iset record | AcceptedIn(start, events, record)
  }

  lemma AcceptedLater(start: State, events: seq<Event>, e: Event, record: Record)
    requires AcceptedIn(start, events, record)
    ensures AcceptedIn(start, events + [e], record)
  {
    var m, staged :| 0 <= m <= |events| && Accepted(Run(start, events[..m]), record, staged);
    assert (events + [e])[..m] == events[..m];
  }

  lemma AdmitsNow(start: State, events: seq<Event>)
    ensures Admits(Run(start, events), AllAcceptedIn(start, events))
  {
    assert events[..|events|] == events;
  }

  lemma CheckedMore(s: State, few: iset<Record>, many: iset<Record>)
    requires CheckedInv(s, few) && few <= many
    ensures CheckedInv(s, many)
  {
  }

  lemma {:induction false} CheckedRuns(base: Ledger, start: State, events: seq<Event>)
    requires Inv(base, start) && CheckedInv(start, iset{})
    ensures Inv(base, Run(start, events)) && CheckedInv(Run(start, events), AllAcceptedIn(start, events))
    decreases |events|
  {
    if events == [] {
      CheckedMore(start, iset{}, AllAcceptedIn(start, events));
    } else {
      var n := |events| - 1;
      var front, last := events[..n], events[n];
      CheckedRuns(base, start, front);
      assert events == front + [last];
      RunAppend(start, front, [last]);
      var s := Run(start, front);
      assert Run(Step(s, last), []) == Step(s, last);
      AdmitsNow(start, front);
      CheckedSteps(s, last, AllAcceptedIn(start, front));
      forall record | record in AllAcceptedIn(start, front) ensures record in AllAcceptedIn(start, events) {
        AcceptedLater(start, front, last, record);
      }
      CheckedMore(Step(s, last), AllAcceptedIn(start, front), AllAcceptedIn(start, events));
      StepKeeps(base, s, last);
    }
  }

  /**
    Every record that any run has appended so far was, at an earlier moment of that run, well formed, and each of
    its sources was registered, or staged with it, with the digest it is pinned to, and its file had that digest.
   */
  lemma EveryAppendedRecordWasChecked(
    base: Ledger, artifacts: Artifacts, clock: int, events: seq<Event>, j: int, k: int, record: Record)
    requires LoggedAt(Run(Start(base, artifacts, clock), events).log.entries, j, k, record)
    ensures AcceptedIn(Start(base, artifacts, clock), events, record)
  {
    var start := Start(base, artifacts, clock);
    RunInv(base, artifacts, clock, []);
    CheckedRuns(base, start, events);
    var s := Run(start, events);
    assert LinesIn(s.log.entries[j].lines, AllAcceptedIn(start, events));
    assert s.log.entries[j].lines[k].record == record;
  }
}
