/** Where the authority of every canonical record comes from, in a ledger grown from nothing. */
module IngestAuthority {
  import opened Ledger
  import opened CanonicalIo
  import opened IngestProtocol
  import opened IngestSafety
  import opened IngestTheorems

  const EMPTY: Ledger := Ledger(map[])

  predicate LoggedAt(log: seq<Entry>, j: int, k: int, record: Record) {
    0 <= j < |log| && 0 <= k < |log[j].lines| && log[j].lines[k] == RecordLine(record)
  }

  predicate LineLogged(log: seq<Entry>, j: int, k: int, target: Target, line: Line) {
    0 <= j < |log| && log[j].target == target && 0 <= k < |log[j].lines| && log[j].lines[k] == line
  }

  /** Before position `end`, the log holds an approval that `ref` names and that covers the record. */
  ghost predicate ApprovedBefore(log: seq<Entry>, end: int, record: Record, ref: string) {
    exists j, k, approval :: LoggedAt(log, j, k, approval) && j < end && approval.recordId == ref && Covers(approval, record)
  }

  /** An approval is a human's approved record; any other record names approvals, all granted before it. */
  ghost predicate AuthorizedBefore(log: seq<Entry>, end: int, record: Record) {
    if record.kind == "approval" then record.status == "approved" && record.actor == "human"
    else record.approvalRefs != [] && forall ref | ref in record.approvalRefs :: ApprovedBefore(log, end, record, ref)
  }

  /** The record is line `k` of append `j`, and what came strictly before that append authorized it. */
  ghost predicate AppendedWithAuthority(log: seq<Entry>, j: int, k: int, record: Record) {
    LoggedAt(log, j, k, record) && AuthorizedBefore(log, j, record)
  }

  ghost predicate HasAuthority(log: seq<Entry>, record: Record) {
    exists j, k :: AppendedWithAuthority(log, j, k, record)
  }

  ghost predicate LinesAuthorized(log: seq<Entry>, end: int, lines: seq<Line>) {
    forall k | 0 <= k < |lines| && lines[k].RecordLine? :: AuthorizedBefore(log, end, lines[k].record)
  }

  lemma LaterStillAuthorized(log: seq<Entry>, entry: Entry, end: int, end': int, record: Record)
    requires end <= end' && AuthorizedBefore(log, end, record)
    ensures AuthorizedBefore(log, end', record) && AuthorizedBefore(log + [entry], end', record)
  {
    if record.kind != "approval" {
      forall ref | ref in record.approvalRefs
        ensures ApprovedBefore(log, end', record, ref) && ApprovedBefore(log + [entry], end', record, ref)
      {
        assert ApprovedBefore(log, end, record, ref);
        var j, k, approval :| LoggedAt(log, j, k, approval) && j < end
          && approval.recordId == ref && Covers(approval, record);
        assert LoggedAt(log + [entry], j, k, approval);
      }
    }
  }

  /** Every line of a file that its first content does not have was logged. */
  lemma {:induction false} ContentWasLogged(base: Ledger, log: seq<Entry>, target: Target, i: nat)
    requires |Lines(base, target)| <= i < |Content(base, log, target)|
    ensures exists j, k :: LineLogged(log, j, k, target, Content(base, log, target)[i])
    decreases |log|
  {
    if log != [] {
      var before := log[..|log| - 1];
      var last := log[|log| - 1];
      if i < |Content(base, before, target)| {
        ContentWasLogged(base, before, target, i);
        var j, k :| LineLogged(before, j, k, target, Content(base, before, target)[i]);
        assert LineLogged(log, j, k, target, Content(base, log, target)[i]);
      } else {
        var k := i - |Content(base, before, target)|;
        assert LineLogged(log, |log| - 1, k, target, Content(base, log, target)[i]);
      }
    }
  }

  lemma RecordWasLogged(base: Ledger, s: State, target: Target, i: int)
    requires Accounted(base, s) && HasRecordAt(s.ledger, target, i) && i >= |Lines(base, target)|
    ensures exists j, k :: LoggedAt(s.log.entries, j, k, RecordAt(s.ledger, target, i)) && s.log.entries[j].target == target
  {
    assert Lines(s.ledger, target) == Content(base, s.log.entries, target);
    ContentWasLogged(base, s.log.entries, target, i);
    var j, k :| LineLogged(s.log.entries, j, k, target, s.ledger.files[target][i]);
    assert LoggedAt(s.log.entries, j, k, RecordAt(s.ledger, target, i));
  }

  /** What the validator accepts against the ledger is authorized by the log. */
  lemma AcceptedIsAuthorized(s: State, record: Record)
    requires Accounted(EMPTY, s) && Authorized(s.ledger, record)
    requires record.kind == "approval" ==> record.status == "approved" && record.actor == "human"
    requires record.kind != "approval" ==> record.approvalRefs != []
    ensures AuthorizedBefore(s.log.entries, |s.log.entries|, record)
  {
    if record.kind != "approval" {
      forall ref | ref in record.approvalRefs ensures ApprovedBefore(s.log.entries, |s.log.entries|, record, ref) {
        assert ApprovedBy(s.ledger, record, ref);
        var t, i :| t in s.ledger.files && 0 <= i < |s.ledger.files[t]| && HasRecordAt(s.ledger, t, i)
          && RecordAt(s.ledger, t, i).recordId == ref && ApprovalAllows(record, RecordAt(s.ledger, t, i));
        AllowsExactlyWhenCovers(record, RecordAt(s.ledger, t, i));
        RecordWasLogged(EMPTY, s, t, i);
        var j, k :| LoggedAt(s.log.entries, j, k, RecordAt(s.ledger, t, i));
      }
    }
  }

  // ----- The invariant -----

  /** What the holder of the lock, or a journal, may still append is authorized already. */
  ghost predicate PlanAuthorized(log: seq<Entry>, draft: Draft) {
    AuthorizedBefore(log, |log|, draft.record)
  }

  ghost predicate AuthorityInv(s: State) {
    && (forall i | 0 <= i < |s.log.entries| :: LinesAuthorized(s.log.entries, i, s.log.entries[i].lines))
    && (forall id | s.journals.IsWhole(id) :: PlanAuthorized(s.log.entries, s.journals.Value(id).draftSha.of))
    && (s.process.Fresh? ==> PlanAuthorized(s.log.entries, s.process.tx.draftSha.of))
    && (s.process.Appending? ==> LinesAuthorized(s.log.entries, |s.log.entries|, s.process.op.append))
  }

  lemma AuthorityQuiet(s: State, s': State)
    requires AuthorityInv(s) && s'.log == s.log
    requires forall id | s'.journals.IsWhole(id) ::
      (s.journals.IsWhole(id) && s.journals.Value(id).draftSha == s'.journals.Value(id).draftSha)
      || PlanAuthorized(s.log.entries, s'.journals.Value(id).draftSha.of)
    requires s'.process.Fresh? ==> PlanAuthorized(s.log.entries, s'.process.tx.draftSha.of)
    requires s'.process.Appending? ==> LinesAuthorized(s.log.entries, |s.log.entries|, s'.process.op.append)
    ensures AuthorityInv(s')
  {
  }

  lemma AuthorityAppend(s: State, s': State, entry: Entry)
    requires AuthorityInv(s) && s'.log.entries == s.log.entries + [entry] && s'.journals == s.journals
    requires LinesAuthorized(s.log.entries, |s.log.entries|, entry.lines)
    requires !s'.process.Fresh? && !s'.process.Appending?
    ensures AuthorityInv(s')
  {
    var log, log' := s.log.entries, s'.log.entries;
    forall i | 0 <= i < |log'| ensures LinesAuthorized(log', i, log'[i].lines) {
      var lines := log'[i].lines;
      assert i < |log| ==> LinesAuthorized(log, i, lines);
      forall k | 0 <= k < |lines| && lines[k].RecordLine? ensures AuthorizedBefore(log', i, lines[k].record) {
        assert AuthorizedBefore(log, i, lines[k].record);
        LaterStillAuthorized(log, entry, i, i, lines[k].record);
      }
    }
    forall id | s'.journals.IsWhole(id) ensures PlanAuthorized(log', s'.journals.Value(id).draftSha.of) {
      LaterStillAuthorized(log, entry, |log|, |log'|, s.journals.Value(id).draftSha.of.record);
    }
  }

  lemma AuthorityAdmits(s: State, o: Outcome)
    requires Inv(EMPTY, s) && AuthorityInv(s) && (s.process.Checking? || s.process.Validating?)
    ensures AuthorityInv(HoldStep(s, o))
  {
    var s' := HoldStep(s, o);
    match s.process
    case Checking(args) =>
      if s'.process.Fresh? { AcceptedIsAuthorized(s, args.draftSha.of.record); }
      AuthorityQuiet(s, s');
    case Validating(command) =>
      if s'.process.Appending? && command.AppendRecord? { AcceptedIsAuthorized(s, command.record); }
      AuthorityQuiet(s, s');
  }

  lemma AuthorityApplies(s: State, s': State, o: Outcome, args: Args, tx: Journal, k: nat)
    requires Inv(EMPTY, s) && AuthorityInv(s) && s.process == Applying(args, tx, k) && s' == ApplyOp(s, args, tx, k, o)
    ensures AuthorityInv(s')
  {
    assert BusyOk(s, args, tx, k);
    ApplyEffects(s, s', o, args, tx, k);
    if s'.log == s.log {
      AuthorityQuiet(s, s');
    } else {
      var draft := tx.draftSha.of;
      assert PlanAuthorized(s.log.entries, draft);
      assert (tx.ops[k].target, tx.ops[k].append) == Plan(draft)[k];
      AuthorityAppend(s, s', Entry(FromDraft(tx.draftId, k), tx.ops[k].target, tx.ops[k].append));
    }
  }

  lemma AuthorityAppends(s: State, o: Outcome, op: Op)
    requires AuthorityInv(s) && s.process == Appending(op)
    ensures AuthorityInv(AppendLines(s, op, o))
  {
    var s' := AppendLines(s, op, o);
    if s'.log == s.log {
      AuthorityQuiet(s, s');
    } else {
      AuthorityAppend(s, s', Entry(FromCommand, op.target, op.append));
    }
  }

  lemma AuthorityCreates(s: State, o: Outcome, args: Args, tx: Journal)
    requires AuthorityInv(s) && s.process == Fresh(args, tx)
    ensures AuthorityInv(CreateJournal(s, args, tx, o))
  {
    AuthorityQuiet(s, CreateJournal(s, args, tx, o));
  }

  lemma AuthorityStores(s: State, o: Outcome)
    requires Inv(EMPTY, s) && AuthorityInv(s)
    requires s.process.Granted? || s.process.Counting? || s.process.Closing? || s.process.Failing? || s.process.Finishing?
    ensures AuthorityInv(HoldStep(s, o))
  {
    var tx := s.process.tx;
    assert Journalled(s, tx);
    AuthorityQuiet(s, HoldStep(s, o));
  }

  lemma AuthorityRests(s: State, s': State, o: Outcome)
    requires AuthorityInv(s) && s' == HoldStep(s, o)
    requires s.process.Ready? || s.process.Marking? || s.process.Releasing? || s.process.Idle?
    ensures AuthorityInv(s')
  {
    AuthorityQuiet(s, s');
  }

  lemma AuthorityHolds(s: State, s': State, o: Outcome)
    requires Inv(EMPTY, s) && AuthorityInv(s) && s' == HoldStep(s, o)
    ensures AuthorityInv(s')
  {
    if s.process.Checking? || s.process.Validating? {
      AuthorityAdmits(s, o);
    } else if s.process.Fresh? {
      AuthorityCreates(s, o, s.process.args, s.process.tx);
    } else if s.process.Applying? {
      AuthorityApplies(s, s', o, s.process.args, s.process.tx, s.process.k);
    } else if s.process.Appending? {
      AuthorityAppends(s, o, s.process.op);
    } else if s.process.Ready? || s.process.Marking? || s.process.Releasing? || s.process.Idle? {
      AuthorityRests(s, s', o);
    } else {
      AuthorityStores(s, o);
    }
  }

  lemma {:induction false} AuthorityRuns(s: State, events: seq<Event>)
    requires Inv(EMPTY, s) && AuthorityInv(s)
    ensures AuthorityInv(Run(s, events))
    decreases |events|
  {
    if events != [] {
      var e := events[0];
      if e.Hold? {
        AuthorityHolds(s, Step(s, e), e.outcome);
      } else {
        AuthorityQuiet(s, Step(s, e));
      }
      StepKeeps(EMPTY, s, e);
      AuthorityRuns(Step(s, e), events[1..]);
    }
  }

  /**
    Every append of every run from nothing, crashes included: an approval that was appended is a human's approved
    one, and any other record carries references, each of which names an approval that was appended strictly
    earlier, is approved and human, and lists the record's ID, or both its study and its kind.
   */
  lemma EveryLoggedRecordIsAuthorized(artifacts: Artifacts, clock: int, events: seq<Event>, j: int, k: int, record: Record)
    requires LoggedAt(Run(Start(EMPTY, artifacts, clock), events).log.entries, j, k, record)
    ensures var log := Run(Start(EMPTY, artifacts, clock), events).log.entries;
      && (record.kind == "approval" ==> record.status == "approved" && record.actor == "human")
      && (record.kind != "approval" ==> record.approvalRefs != [])
      && (record.kind != "approval" ==> forall ref | ref in record.approvalRefs :: ApprovedBefore(log, j, record, ref))
  {
    var s := Run(Start(EMPTY, artifacts, clock), events);
    RunInv(EMPTY, artifacts, clock, []);
    AuthorityRuns(Start(EMPTY, artifacts, clock), events);
    assert LinesAuthorized(s.log.entries, j, s.log.entries[j].lines);
    assert s.log.entries[j].lines[k].record == record;
  }

  /**
    The authority chain: in every ledger grown from nothing by these writers, crashes included, each record was
    appended at some moment at which it was authorized by what had been appended strictly earlier.
   */
  lemma AuthorityChain(artifacts: Artifacts, clock: int, events: seq<Event>, target: Target, i: int)
    requires HasRecordAt(Run(Start(EMPTY, artifacts, clock), events).ledger, target, i)
    ensures var s := Run(Start(EMPTY, artifacts, clock), events);
      HasAuthority(s.log.entries, RecordAt(s.ledger, target, i))
  {
    var s := Run(Start(EMPTY, artifacts, clock), events);
    RunInv(EMPTY, artifacts, clock, []);
    AuthorityRuns(Start(EMPTY, artifacts, clock), events);
    RunInv(EMPTY, artifacts, clock, events);
    RecordWasLogged(EMPTY, s, target, i);
    var j, k :| LoggedAt(s.log.entries, j, k, RecordAt(s.ledger, target, i));
    assert LinesAuthorized(s.log.entries, j, s.log.entries[j].lines);
    var record := RecordAt(s.ledger, target, i);
    assert s.log.entries[j].lines[k].record == record;
    assert AppendedWithAuthority(s.log.entries, j, k, record);
    assert HasAuthority(s.log.entries, record);
  }

  // ----- Refusals -----

  /** No record of the ledger that this reference names covers the record. */
  predicate Uncovered(ledger: Ledger, record: Record, ref: string) {
    forall t, i | t in ledger.files && 0 <= i < |ledger.files[t]| ::
      HasRecordAt(ledger, t, i) && RecordAt(ledger, t, i).recordId == ref ==> !Covers(RecordAt(ledger, t, i), record)
  }

  lemma UncoveredIsUnauthorized(ledger: Ledger, record: Record, ref: string)
    requires record.kind != "approval" && ref in record.approvalRefs && Uncovered(ledger, record, ref)
    ensures !Authorized(ledger, record)
  {
    if ApprovedBy(ledger, record, ref) {
      var t, i :| t in ledger.files && 0 <= i < |ledger.files[t]| && HasRecordAt(ledger, t, i)
        && RecordAt(ledger, t, i).recordId == ref && ApprovalAllows(record, RecordAt(ledger, t, i));
      AllowsExactlyWhenCovers(record, RecordAt(ledger, t, i));
    }
  }

  /** A record with a reference that names no covering approval is appended by no command and starts no commit. */
  lemma UncoveredIsRefused(s: State, record: Record, ref: string, approvalRef: string, bootstrap: bool, args: Args)
    requires record.kind != "approval" && ref in record.approvalRefs && Uncovered(s.ledger, record, ref)
    ensures AdmitCommand(s, AppendRecord(record, approvalRef, bootstrap)) == Releasing
    ensures args.draftSha.of.record == record && !s.journals.Has(args.draftId) ==> Admit(s, args) == Releasing
  {
    UncoveredIsUnauthorized(s.ledger, record, ref);
  }
}
