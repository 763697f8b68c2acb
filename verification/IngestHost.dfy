/**
  The commit call, the administrator's commands and the receipt store as they run: objects whose files are
  updated in place. Every write of a call is given its outcome by a schedule of faults, and each method is
  proved to take the project exactly where the same steps of the protocol take it.
 */
module IngestHost {
  import opened Common
  import opened Ledger
  import opened CanonicalIo
  import opened IngestProtocol
  import opened IngestSafety
  import opened IngestTheorems
  import opened IngestRecovery

  /** How a write went, as its caller sees it. */
  datatype Signal = Went | Raised | Died

  function SignalOf(o: Outcome): Signal {
    match o
    case Go => Went
    case Raise(_) => Raised
    case Crash(_) => Died
  }

  /** A call that cannot succeed raises, unless the process dies first. */
  function Refusal(o: Outcome): Signal {
    if o.Crash? then Died else Raised
  }

  /** Where the process stands after a write. */
  function Onward(signal: Signal, next: Process, handler: Process): Process {
    match signal
    case Went => next
    case Raised => handler
    case Died => Idle
  }

  // ----- Schedules of faults -----

  function OutcomeAt(faults: seq<Outcome>, step: nat): Outcome {
    if step < |faults| then faults[step] else Go
  }

  /** Each state of the trace is one step of the holder after the one before, with the outcome of the schedule. */
  ghost predicate Linked(trace: seq<State>, faults: seq<Outcome>) {
    forall i {:trigger HoldStep(trace[i], OutcomeAt(faults, i))} | 0 <= i < |trace| - 1 ::
      trace[i + 1] == HoldStep(trace[i], OutcomeAt(faults, i))
  }

  /** `s` is the state after the first `steps` steps of the holder from `s0`. */
  ghost predicate Reached(s0: State, faults: seq<Outcome>, steps: nat, s: State) {
    exists trace :: |trace| == steps + 1 && trace[0] == s0 && trace[steps] == s && Linked(trace, faults)
  }

  lemma Origin(s0: State, faults: seq<Outcome>)
    ensures Reached(s0, faults, 0, s0)
  {
    assert Linked([s0], faults);
  }

  lemma Advance(s0: State, faults: seq<Outcome>, steps: nat, s: State, s': State)
    requires Reached(s0, faults, steps, s) && s' == HoldStep(s, OutcomeAt(faults, steps))
    ensures Reached(s0, faults, steps + 1, s')
  {
    var trace :| |trace| == steps + 1 && trace[0] == s0 && trace[steps] == s && Linked(trace, faults);
    var more := trace + [s'];
    forall i | 0 <= i < |more| - 1 ensures more[i + 1] == HoldStep(more[i], OutcomeAt(faults, i)) {
      if i < steps { assert trace[i + 1] == HoldStep(trace[i], OutcomeAt(faults, i)); }
    }
    assert Linked(more, faults);
  }

  /** A call as events: taking the lock, and then the steps of the holder. */
  function Script(call: Event, faults: seq<Outcome>, steps: nat): seq<Event> {
    [call] + Holds(faults, steps)
  }

  function Holds(faults: seq<Outcome>, steps: nat): seq<Event> {
    seq(steps, i requires 0 <= i => Hold(OutcomeAt(faults, i)))
  }

  lemma {:induction false} TraceIsRun(trace: seq<State>, faults: seq<Outcome>, steps: nat)
    requires steps < |trace| && Linked(trace, faults)
    ensures Run(trace[0], Holds(faults, steps)) == trace[steps]
    decreases steps
  {
    if steps > 0 {
      TraceIsRun(trace, faults, steps - 1);
      var last := [Hold(OutcomeAt(faults, steps - 1))];
      assert Holds(faults, steps) == Holds(faults, steps - 1) + last;
      RunAppend(trace[0], Holds(faults, steps - 1), last);
      LastStep(trace[steps - 1], OutcomeAt(faults, steps - 1));
      assert trace[steps] == HoldStep(trace[steps - 1], OutcomeAt(faults, steps - 1));
    }
  }

  lemma LastStep(s: State, o: Outcome)
    ensures Run(s, [Hold(o)]) == HoldStep(s, o)
  {
    assert Run(HoldStep(s, o), []) == HoldStep(s, o);
  }

  /** What a call does is a run of the protocol. */
  lemma ReachedIsRun(before: State, call: Event, faults: seq<Outcome>, steps: nat, s: State)
    requires Reached(Step(before, call), faults, steps, s)
    ensures s == Run(before, Script(call, faults, steps))
  {
    var s0 := Step(before, call);
    var trace :| |trace| == steps + 1 && trace[0] == s0 && trace[steps] == s && Linked(trace, faults);
    assert Script(call, faults, steps)[1..] == Holds(faults, steps);
    TraceIsRun(trace, faults, steps);
  }

  // ----- The project directory -----

  class Project {
    var ledger: Ledger
    var drafts: Files<Draft>
    var journals: Files<Journal>
    var consumed: Files<Consumption>
    var artifacts: Artifacts
    var locked: bool
    var clock: int
    ghost var log: Log

    constructor (ledger: Ledger, artifacts: Artifacts, clock: int)
      ensures this.ledger == ledger && this.artifacts == artifacts && this.clock == clock
      ensures drafts == Files(map[]) && journals == Files(map[]) && consumed == Files(map[])
      ensures !locked && log == Log([])
    {
      this.ledger, this.artifacts, this.clock := ledger, artifacts, clock;
      drafts, journals, consumed := Files(map[]), Files(map[]), Files(map[]);
      locked, log := false, Log([]);
    }

    /** The lock file is created exclusively. */
    method TakeLock() returns (taken: bool)
      modifies this`locked
      ensures taken == !old(locked) && locked
    {
      taken := !locked;
      locked := true;
    }

    method RemoveLock(o: Outcome)
      modifies this`locked
      ensures locked == (old(locked) && !Written(o).Complete?)
    {
      if Written(o).Complete? { locked := false; }
    }

    /** `Applied`, `Pending`, or `Changed` for the error that the target changed outside the transaction. */
    method AppendState(op: Op) returns (state: CanonicalIo.AppendState)
      ensures state == StateOf(ledger, op)
    {
      var present := op.target in ledger.files;
      var current := if present then ledger.files[op.target] else [];
      if Sha256(current) == op.after {
        return Applied;
      }
      if Sha256(current) == op.before && present == op.beforeExists {
        return Pending;
      }
      return Changed;
    }

    /** Applying an append that is in place does nothing; a pending one replaces the whole file at once. */
    method ApplyAppend(op: Op, o: Outcome, ghost origin: Origin) returns (signal: Signal)
      modifies this`ledger, this`log
      ensures StateOf(old(ledger), op) == Changed ==> signal == Refusal(o)
      ensures StateOf(old(ledger), op) != Changed ==> signal == SignalOf(o)
      ensures if StateOf(old(ledger), op) == Pending && Written(o).Complete?
        then ledger == Replace(old(ledger), op) && log == Log(old(log).entries + [Entry(origin, op.target, op.append)])
        else ledger == old(ledger) && log == old(log)
    {
      var state := AppendState(op);
      if state == Changed {
        return Refusal(o);
      }
      if state == Pending && Written(o).Complete? {
        var before := if op.target in ledger.files then ledger.files[op.target] else [];
        ledger := Ledger(ledger.files[op.target := before + op.append]);
        log := Log(log.entries + [Entry(origin, op.target, op.append)]);
      }
      return SignalOf(o);
    }

    /** The journal is created once, in place, and may be left torn. */
    method CreateJournal(tx: Journal, o: Outcome) returns (signal: Signal)
      modifies this`journals
      ensures old(journals).Has(tx.draftId) ==> signal == Refusal(o) && journals == old(journals)
      ensures !old(journals).Has(tx.draftId) ==>
        signal == SignalOf(o) && journals == Created(old(journals), tx.draftId, tx, Written(o))
    {
      if tx.draftId in journals.entries {
        return Refusal(o);
      }
      match Written(o) {
        case Nothing =>
        case Partial => journals := journals.Put(tx.draftId, Torn);
        case Complete => journals := journals.Put(tx.draftId, Whole(tx));
      }
      return SignalOf(o);
    }

    /** Later versions of the journal replace the file atomically. */
    method StoreTransaction(tx: Journal, o: Outcome) returns (signal: Signal)
      modifies this`journals
      ensures signal == SignalOf(o)
      ensures journals == if Written(o).Complete? then old(journals).Put(tx.draftId, Whole(tx)) else old(journals)
    {
      if Written(o).Complete? { journals := journals.Put(tx.draftId, Whole(tx)); }
      return SignalOf(o);
    }

    /** The consumption marker is created once, in place, and may be left torn. */
    method CreateMarker(id: string, marker: Consumption, o: Outcome) returns (signal: Signal)
      modifies this`consumed
      ensures old(consumed).Has(id) ==> signal == Refusal(o) && consumed == old(consumed)
      ensures !old(consumed).Has(id) ==>
        signal == SignalOf(o) && consumed == Created(old(consumed), id, marker, Written(o))
    {
      if id in consumed.entries {
        return Refusal(o);
      }
      match Written(o) {
        case Nothing =>
        case Partial => consumed := consumed.Put(id, Torn);
        case Complete => consumed := consumed.Put(id, Whole(marker));
      }
      return SignalOf(o);
    }
  }

  // ----- The receipts of the host -----

  datatype Answer = Consumed | AlreadyConsumed | Failed(signal: Signal)

  class IngestApprovalStore {
    const project: Project
    var receipts: Files<Receipt>
    var marks: Files<Mark>

    constructor (project: Project)
      ensures this.project == project && receipts == Files(map[]) && marks == Files(map[])
    {
      this.project := project;
      receipts, marks := Files(map[]), Files(map[]);
    }

    /** The binding of a receipt: the draft is pending, readable, and has this digest. */
    method Binding(id: string, sha: Digest<Draft>) returns (bound: bool)
      ensures bound == Bound(Snap(project, this, Idle), id, sha)
    {
      if id in project.consumed.entries || !project.drafts.IsWhole(id) {
        return false;
      }
      var draft := project.drafts.Value(id);
      return Sha256(draft) == sha && draft.record.recordId != "";
    }

    method Issue(receiptId: string, sha: Digest<Draft>, expires: int, whole: bool) returns (issued: bool)
      modifies this`receipts
      ensures Snap(project, this, Idle) == Step(old(Snap(project, this, Idle)), IssueReceipt(receiptId, sha, expires, whole))
      ensures issued ==> receipts.IsWhole(receiptId) && receipts.Value(receiptId) == Receipt(sha, expires)
    {
      var bound := Binding(sha.of.id, sha);
      if !bound || expires <= project.clock || receiptId in receipts.entries {
        return false;
      }
      receipts := receipts.Put(receiptId, if whole then Whole(Receipt(sha, expires)) else Torn);
      return whole;
    }

    /** The receipt names this binding; an expired one is admitted only when it was consumed before. */
    method Verify(args: Args) returns (ok: bool)
      ensures ok == Verified(Snap(project, this, Idle), args)
    {
      var bound := Binding(args.draftId, args.draftSha);
      if !bound || !receipts.IsWhole(args.receiptId) || receipts.Value(args.receiptId).draftSha != args.draftSha {
        return false;
      }
      if receipts.Value(args.receiptId).expires <= project.clock && args.receiptId !in marks.entries {
        return false;
      }
      return true;
    }

    /** Expiry is tested before an existing marker is noticed. */
    method Consume(args: Args, o: Outcome) returns (answer: Answer)
      modifies this`marks
      ensures var s := old(Snap(project, this, Idle));
        var admissible := Bound(s, args.draftId, args.draftSha) && ReceiptMatches(s, args) && Unexpired(s, args.receiptId);
        && (!admissible ==> answer == Failed(Refusal(o)) && marks == old(marks))
        && (admissible && s.marks.Has(args.receiptId) ==> answer == AlreadyConsumed && marks == old(marks))
        && (admissible && !s.marks.Has(args.receiptId) ==>
              && answer == (if o.Go? then Consumed else Failed(SignalOf(o)))
              && marks == Created(old(marks), args.receiptId, MarkOf(s, args.receiptId), Written(o)))
    {
      var bound := Binding(args.draftId, args.draftSha);
      if !bound || !receipts.IsWhole(args.receiptId) || receipts.Value(args.receiptId).draftSha != args.draftSha {
        return Failed(Refusal(o));
      }
      var receipt := receipts.Value(args.receiptId);
      if receipt.expires <= project.clock {
        return Failed(Refusal(o));
      }
      if args.receiptId in marks.entries {
        return AlreadyConsumed;
      }
      match Written(o) {
        case Nothing =>
        case Partial => marks := marks.Put(args.receiptId, Torn);
        case Complete => marks := marks.Put(args.receiptId, Whole(Mark(args.receiptId, receipt)));
      }
      return if o.Go? then Consumed else Failed(SignalOf(o));
    }

    /** A second use checks the binding and the receipt again, and needs the marker of exactly this receipt. */
    method Resume(args: Args, o: Outcome) returns (signal: Signal)
      ensures var s := Snap(project, this, Idle);
        signal ==
          if Bound(s, args.draftId, args.draftSha) && ReceiptMatches(s, args) && marks.IsWhole(args.receiptId)
             && marks.Value(args.receiptId) == MarkOf(s, args.receiptId)
          then SignalOf(o) else Refusal(o)
    {
      var bound := Binding(args.draftId, args.draftSha);
      if !bound || !receipts.IsWhole(args.receiptId) || receipts.Value(args.receiptId).draftSha != args.draftSha {
        return Refusal(o);
      }
      var receipt := receipts.Value(args.receiptId);
      if !marks.IsWhole(args.receiptId) || marks.Value(args.receiptId) != Mark(args.receiptId, receipt) {
        return Refusal(o);
      }
      return SignalOf(o);
    }
  }

  /** The project and its receipt store as one state of the protocol. */
  ghost function Snap(project: Project, store: IngestApprovalStore, process: Process): State
    reads project, store
  {
    State(project.ledger, project.drafts, project.journals, project.consumed, store.receipts, store.marks,
          project.artifacts, project.locked, project.clock, process, project.log)
  }

  // ----- The reading phase of a commit -----

  /** A process that stands before its first write: with a new journal to create, or with the one on disk. */
  datatype Checked = Refused | NewTx(tx: Journal) | OldTx(tx: Journal)

  function Stage(checked: Checked, args: Args): Process {
    match checked
    case Refused => Releasing
    case NewTx(tx) => Fresh(args, tx)
    case OldTx(tx) => Ready(args, tx)
  }

  method RecheckSources(project: Project, registrations: seq<Registration>) returns (same: bool)
    ensures same <==> forall source | source in registrations ::
      source.path in project.artifacts.content && project.artifacts.content[source.path] == source.sha
  {
    for i := 0 to |registrations|
      invariant forall j | 0 <= j < i ::
        registrations[j].path in project.artifacts.content
        && project.artifacts.content[registrations[j].path] == registrations[j].sha
    {
      var source := registrations[i];
      if source.path !in project.artifacts.content || project.artifacts.content[source.path] != source.sha {
        return false;
      }
    }
    return true;
  }

  method RecheckTargets(project: Project, ops: seq<Op>) returns (untouched: bool)
    ensures untouched == TargetsUntouched(project.ledger, ops)
  {
    for i := 0 to |ops|
      invariant forall j | 0 <= j < i :: StateOf(project.ledger, ops[j]) != Changed
    {
      var state := project.AppendState(ops[i]);
      if state == Changed {
        assert ops[i] in ops;
        return false;
      }
    }
    return true;
  }

  method PrepareTransaction(project: Project, args: Args, draft: Draft) returns (checked: Checked)
    requires draft == args.draftSha.of
    ensures checked ==
      if draft.head == project.ledger && draft.record.day.Some?
        && draft.record.kind != "approval" && draft.approvalRef != "" && draft.approvalRef in draft.record.approvalRefs
        && CandidateOk(project.ledger, Lines(project.ledger, Sources) + SourceLines(draft.registrations),
                       project.artifacts, draft.record)
      then NewTx(Journal(Prepared, args.draftId, args.draftSha, args.receiptId, OpsFor(project.ledger, draft), 0))
      else Refused
  {
    if draft.head != project.ledger || draft.record.kind == "approval" {
      return Refused;
    }
    if draft.approvalRef == "" || draft.approvalRef !in draft.record.approvalRefs || draft.record.day.None? {
      return Refused;
    }
    var sources := Lines(project.ledger, Sources) + SourceLines(draft.registrations);
    if !CandidateOk(project.ledger, sources, project.artifacts, draft.record) {
      return Refused;
    }
    var ops := [];
    if draft.registrations != [] {
      ops := [PrepareAppend(project.ledger, Sources, SourceLines(draft.registrations))];
    }
    ops := ops + [PrepareAppend(project.ledger, Daily(draft.record.day.value), [RecordLine(draft.record)])];
    return NewTx(Journal(Prepared, args.draftId, args.draftSha, args.receiptId, ops, 0));
  }

  method LoadTransaction(project: Project, args: Args) returns (checked: Checked)
    requires project.journals.Has(args.draftId)
    ensures checked ==
      if project.journals.IsWhole(args.draftId) && Binds(project.journals.Value(args.draftId), args)
        && TargetsUntouched(project.ledger, project.journals.Value(args.draftId).ops)
      then OldTx(project.journals.Value(args.draftId)) else Refused
  {
    if !project.journals.IsWhole(args.draftId) {
      return Refused;
    }
    var tx := project.journals.Value(args.draftId);
    if !Binds(tx, args) {
      return Refused;
    }
    var untouched := RecheckTargets(project, tx.ops);
    return if untouched then OldTx(tx) else Refused;
  }

  method Check(project: Project, store: IngestApprovalStore, args: Args) returns (checked: Checked)
    requires store.project == project
    ensures Stage(checked, args) == Admit(Snap(project, store, Checking(args)), args)
  {
    var bound := store.Binding(args.draftId, args.draftSha);
    if !bound {
      return Refused;
    }
    var draft := project.drafts.Value(args.draftId);
    var same := RecheckSources(project, draft.registrations);
    if !same {
      return Refused;
    }
    var verified := store.Verify(args);
    if !verified {
      return Refused;
    }
    if args.draftId !in project.journals.entries {
      checked := PrepareTransaction(project, args, draft);
    } else {
      checked := LoadTransaction(project, args);
    }
  }

  // ----- Granting the receipt -----

  /** Consume the receipt; if it was consumed before, resume it. */
  method Grant(store: IngestApprovalStore, args: Args, tx: Journal, o: Outcome) returns (signal: Signal)
    modifies store`marks
    ensures Snap(store.project, store, Onward(signal, Granted(args, tx), Releasing))
      == ConsumeReceipt(old(Snap(store.project, store, Ready(args, tx))), args, tx, o)
  {
    var answer := store.Consume(args, o);
    match answer {
      case Consumed => return Went;
      case Failed(cause) => return cause;
      case AlreadyConsumed => signal := store.Resume(args, o);
    }
  }

  // ----- The commit call -----

  method ApplyOperation(
    project: Project, store: IngestApprovalStore, args: Args, tx: Journal, k: nat, faults: seq<Outcome>, at: nat, ghost s0: State)
    returns (signal: Signal)
    requires store.project == project && k < |tx.ops|
    requires Reached(s0, faults, at, Snap(project, store, Applying(args, tx, k)))
    modifies project`ledger, project`log
    ensures Reached(s0, faults, at + 1, Snap(project, store, Onward(signal, Counting(args, tx, k), Failing(args, tx))))
  {
    ghost var s := Snap(project, store, Applying(args, tx, k));
    signal := project.ApplyAppend(tx.ops[k], OutcomeAt(faults, at), FromDraft(tx.draftId, k));
    Advance(s0, faults, at, s, Snap(project, store, Onward(signal, Counting(args, tx, k), Failing(args, tx))));
  }

  method StoreAppliedCount(
    project: Project, store: IngestApprovalStore, args: Args, tx: Journal, k: nat, faults: seq<Outcome>, at: nat, ghost s0: State)
    returns (signal: Signal, tx': Journal)
    requires store.project == project
    requires Reached(s0, faults, at, Snap(project, store, Counting(args, tx, k)))
    modifies project`journals
    ensures tx' == tx.(applied := k + 1)
    ensures Reached(s0, faults, at + 1, Snap(project, store, Onward(signal, Applying(args, tx', k + 1), Failing(args, tx'))))
  {
    ghost var s := Snap(project, store, Counting(args, tx, k));
    tx' := tx.(applied := k + 1);
    signal := project.StoreTransaction(tx', OutcomeAt(faults, at));
    Advance(s0, faults, at, s, Snap(project, store, Onward(signal, Applying(args, tx', k + 1), Failing(args, tx'))));
  }

  method ReadHead(
    project: Project, store: IngestApprovalStore, args: Args, tx: Journal, k: nat, faults: seq<Outcome>, at: nat, ghost s0: State)
    returns (signal: Signal)
    requires store.project == project && k >= |tx.ops|
    requires Reached(s0, faults, at, Snap(project, store, Applying(args, tx, k)))
    ensures Reached(s0, faults, at + 1, Snap(project, store, Onward(signal, Closing(args, tx), Failing(args, tx))))
  {
    signal := SignalOf(OutcomeAt(faults, at));
    Advance(s0, faults, at, Snap(project, store, Applying(args, tx, k)),
      Snap(project, store, Onward(signal, Closing(args, tx), Failing(args, tx))));
  }

  /** Apply the operations in order, storing the count after each one, and read the head after the last. */
  method ApplyOperations(
    project: Project, store: IngestApprovalStore, args: Args, tx: Journal, faults: seq<Outcome>, from: nat, ghost s0: State)
    returns (signal: Signal, tx': Journal, steps: nat)
    requires store.project == project
    requires Reached(s0, faults, from, Snap(project, store, Applying(args, tx, 0)))
    modifies project`ledger, project`log, project`journals
    ensures Reached(s0, faults, steps, Snap(project, store, Onward(signal, Closing(args, tx'), Failing(args, tx'))))
  {
    var applied := 0;
    tx', steps, signal := tx, from, Went;
    while applied < |tx'.ops|
      invariant applied <= |tx'.ops| == |tx.ops|
      invariant Reached(s0, faults, steps, Snap(project, store, Applying(args, tx', applied)))
    {
      signal := ApplyOperation(project, store, args, tx', applied, faults, steps, s0);
      steps := steps + 1;
      if signal != Went {
        return;
      }
      signal, tx' := StoreAppliedCount(project, store, args, tx', applied, faults, steps, s0);
      steps := steps + 1;
      if signal != Went {
        return;
      }
      applied := applied + 1;
    }
    signal := ReadHead(project, store, args, tx', applied, faults, steps, s0);
    steps := steps + 1;
  }

  method CloseTransaction(
    project: Project, store: IngestApprovalStore, args: Args, tx: Journal, faults: seq<Outcome>, at: nat, ghost s0: State)
    returns (signal: Signal, tx': Journal)
    requires store.project == project
    requires Reached(s0, faults, at, Snap(project, store, Closing(args, tx)))
    modifies project`journals
    ensures Reached(s0, faults, at + 1, Snap(project, store, Onward(signal, Marking(args, tx'), Failing(args, tx'))))
    ensures Written(OutcomeAt(faults, at)).Complete? ==>
      project.journals.IsWhole(tx.draftId) && project.journals.Value(tx.draftId) == tx.(status := CanonicalCommitted)
  {
    ghost var s := Snap(project, store, Closing(args, tx));
    tx' := tx.(status := CanonicalCommitted);
    signal := project.StoreTransaction(tx', OutcomeAt(faults, at));
    Advance(s0, faults, at, s, Snap(project, store, Onward(signal, Marking(args, tx'), Failing(args, tx'))));
  }

  /** A call that returns has written the marker of its draft; without faults one that raises has not. */
  ghost predicate MarkerTells(
    now: Files<Consumption>, before: Files<Consumption>, args: Args, committed: bool, faults: seq<Outcome>)
  {
    && (committed ==> !before.Has(args.draftId) && now == before.Put(args.draftId, Whole(Consumption(args.draftSha, args.receiptId))))
    && (!committed && faults == [] ==> now == before)
  }

  method MarkDraft(
    project: Project, store: IngestApprovalStore, args: Args, tx: Journal, faults: seq<Outcome>, at: nat, ghost s0: State)
    returns (signal: Signal)
    requires store.project == project
    requires Reached(s0, faults, at, Snap(project, store, Marking(args, tx)))
    modifies project`consumed
    ensures Reached(s0, faults, at + 1, Snap(project, store, Onward(signal, Finishing(args, tx), Failing(args, tx))))
    ensures MarkerTells(project.consumed, old(project.consumed), args, signal == Went, faults)
  {
    ghost var s := Snap(project, store, Marking(args, tx));
    signal := project.CreateMarker(args.draftId, Consumption(args.draftSha, args.receiptId), OutcomeAt(faults, at));
    Advance(s0, faults, at, s, Snap(project, store, Onward(signal, Finishing(args, tx), Failing(args, tx))));
  }

  /** Everything under the error handler: the appends, the closing journal, the consumption marker. */
  method ApplyTransaction(
    project: Project, store: IngestApprovalStore, args: Args, tx: Journal, faults: seq<Outcome>, from: nat, ghost s0: State)
    returns (signal: Signal, tx': Journal, steps: nat)
    requires store.project == project
    requires Reached(s0, faults, from, Snap(project, store, Applying(args, tx, 0)))
    modifies project`ledger, project`log, project`journals, project`consumed
    ensures Reached(s0, faults, steps, Snap(project, store, Onward(signal, Finishing(args, tx'), Failing(args, tx'))))
    ensures MarkerTells(project.consumed, old(project.consumed), args, signal == Went, faults)
  {
    signal, tx', steps := ApplyOperations(project, store, args, tx, faults, from, s0);
    if signal != Went {
      return;
    }
    signal, tx' := CloseTransaction(project, store, args, tx', faults, steps, s0);
    steps := steps + 1;
    if signal != Went {
      return;
    }
    signal := MarkDraft(project, store, args, tx', faults, steps, s0);
    steps := steps + 1;
  }

  /** The last write: the failure is noted in the journal, or the journal is closed; an error there is only a warning. */
  method EndTransaction(
    project: Project, store: IngestApprovalStore, args: Args, tx: Journal, failed: bool, faults: seq<Outcome>, at: nat,
    ghost s0: State)
    returns (signal: Signal)
    requires store.project == project
    requires Reached(s0, faults, at, Snap(project, store, if failed then Failing(args, tx) else Finishing(args, tx)))
    modifies project`journals
    ensures Reached(s0, faults, at + 1, Snap(project, store, Onward(signal, Releasing, Releasing)))
    ensures signal == if OutcomeAt(faults, at).Crash? then Died else if failed then Raised else Went
    ensures Written(OutcomeAt(faults, at)).Complete? ==>
      project.journals.IsWhole(tx.draftId)
      && project.journals.Value(tx.draftId) == tx.(status := if failed then FailedRecoverable else Committed)
  {
    ghost var s := Snap(project, store, if failed then Failing(args, tx) else Finishing(args, tx));
    var stored := project.StoreTransaction(
      tx.(status := if failed then FailedRecoverable else Committed), OutcomeAt(faults, at));
    signal := if stored == Died then Died else if failed then Raised else Went;
    Advance(s0, faults, at, s, Snap(project, store, Onward(signal, Releasing, Releasing)));
  }

  method CreateTransaction(
    project: Project, store: IngestApprovalStore, args: Args, tx: Journal, faults: seq<Outcome>, at: nat, ghost s0: State)
    returns (signal: Signal)
    requires store.project == project && tx.draftId == args.draftId
    requires Reached(s0, faults, at, Snap(project, store, Fresh(args, tx)))
    modifies project`journals
    ensures Reached(s0, faults, at + 1, Snap(project, store, Onward(signal, Ready(args, tx), Releasing)))
  {
    ghost var s := Snap(project, store, Fresh(args, tx));
    signal := project.CreateJournal(tx, OutcomeAt(faults, at));
    Advance(s0, faults, at, s, Snap(project, store, Onward(signal, Ready(args, tx), Releasing)));
  }

  /** Consume the receipt; if it was consumed before, resume it. */
  method UseReceipt(
    project: Project, store: IngestApprovalStore, args: Args, tx: Journal, faults: seq<Outcome>, at: nat, ghost s0: State)
    returns (signal: Signal)
    requires store.project == project
    requires Reached(s0, faults, at, Snap(project, store, Ready(args, tx)))
    modifies store`marks
    ensures Reached(s0, faults, at + 1, Snap(project, store, Onward(signal, Granted(args, tx), Releasing)))
  {
    ghost var s := Snap(project, store, Ready(args, tx));
    signal := Grant(store, args, tx, OutcomeAt(faults, at));
    Advance(s0, faults, at, s, Snap(project, store, Onward(signal, Granted(args, tx), Releasing)));
  }

  method MarkApplying(
    project: Project, store: IngestApprovalStore, args: Args, tx: Journal, faults: seq<Outcome>, at: nat, ghost s0: State)
    returns (signal: Signal, tx': Journal)
    requires store.project == project
    requires Reached(s0, faults, at, Snap(project, store, Granted(args, tx)))
    modifies project`journals
    ensures Reached(s0, faults, at + 1, Snap(project, store, Onward(signal, Applying(args, tx', 0), Releasing)))
  {
    ghost var s := Snap(project, store, Granted(args, tx));
    tx' := tx.(status := ApplyingOps);
    signal := project.StoreTransaction(tx', OutcomeAt(faults, at));
    Advance(s0, faults, at, s, Snap(project, store, Onward(signal, Applying(args, tx', 0), Releasing)));
  }

  /** Journal, receipt, status: the writes before the first append, in this order. */
  method BeginTransaction(
    project: Project, store: IngestApprovalStore, args: Args, checked: Checked, faults: seq<Outcome>, from: nat,
    ghost s0: State)
    returns (signal: Signal, tx: Journal, steps: nat)
    requires store.project == project && !checked.Refused? && checked.tx.draftId == args.draftId
    requires Reached(s0, faults, from, Snap(project, store, Stage(checked, args)))
    modifies project`journals, store`marks
    ensures Reached(s0, faults, steps, Snap(project, store, Onward(signal, Applying(args, tx, 0), Releasing)))
  {
    tx, steps, signal := checked.tx, from, Went;
    if checked.NewTx? {
      signal := CreateTransaction(project, store, args, tx, faults, steps, s0);
      steps := steps + 1;
      if signal != Went {
        return;
      }
    }
    signal := UseReceipt(project, store, args, tx, faults, steps, s0);
    steps := steps + 1;
    if signal != Went {
      return;
    }
    signal, tx := MarkApplying(project, store, args, tx, faults, steps, s0);
    steps := steps + 1;
  }

  /** The writes of a commit that passed its checks. */
  method PerformTransaction(
    project: Project, store: IngestApprovalStore, args: Args, checked: Checked, faults: seq<Outcome>, from: nat,
    ghost s0: State)
    returns (signal: Signal, steps: nat)
    requires store.project == project && !checked.Refused? && checked.tx.draftId == args.draftId
    requires Reached(s0, faults, from, Snap(project, store, Stage(checked, args)))
    modifies project`ledger, project`log, project`journals, project`consumed, store`marks
    ensures Reached(s0, faults, steps, Snap(project, store, Onward(signal, Releasing, Releasing)))
    ensures MarkerTells(project.consumed, old(project.consumed), args, signal == Went, faults)
  {
    var tx;
    signal, tx, steps := BeginTransaction(project, store, args, checked, faults, from, s0);
    if signal != Went {
      return;
    }
    signal, tx, steps := ApplyTransaction(project, store, args, tx, faults, steps, s0);
    if signal != Died {
      signal := EndTransaction(project, store, args, tx, signal == Raised, faults, steps, s0);
      steps := steps + 1;
    }
  }

  /** The reading phase as one step: it may be interrupted, and it decides how the call goes on. */
  method CheckAll(project: Project, store: IngestApprovalStore, args: Args, faults: seq<Outcome>)
    returns (signal: Signal, checked: Checked)
    requires store.project == project
    ensures Reached(Snap(project, store, Checking(args)), faults, 1,
      Snap(project, store, Onward(signal, Stage(checked, args), Releasing)))
    ensures !checked.Refused? ==> checked.tx.draftId == args.draftId
  {
    ghost var s0 := Snap(project, store, Checking(args));
    checked := Check(project, store, args);
    signal := SignalOf(OutcomeAt(faults, 0));
    Origin(s0, faults);
    Advance(s0, faults, 0, s0, Snap(project, store, Onward(signal, Stage(checked, args), Releasing)));
  }

  method CommitIngestLocked(project: Project, store: IngestApprovalStore, args: Args, faults: seq<Outcome>)
    returns (signal: Signal, steps: nat)
    requires store.project == project
    modifies project`ledger, project`log, project`journals, project`consumed, store`marks
    ensures Reached(old(Snap(project, store, Checking(args))), faults, steps,
      Snap(project, store, Onward(signal, Releasing, Releasing)))
    ensures MarkerTells(project.consumed, old(project.consumed), args, signal == Went, faults)
  {
    ghost var s0 := Snap(project, store, Checking(args));
    var checked;
    signal, checked := CheckAll(project, store, args, faults);
    steps := 1;
    if signal == Went {
      if checked.Refused? {
        signal := Raised;
      } else {
        signal, steps := PerformTransaction(project, store, args, checked, faults, steps, s0);
      }
    }
  }

  /** The lock is freed by whoever still lives; a failed removal leaves it behind. */
  method LeaveLock(project: Project, store: IngestApprovalStore, faults: seq<Outcome>, at: nat, ghost s0: State)
    requires Reached(s0, faults, at, Snap(project, store, Releasing))
    modifies project`locked
    ensures Reached(s0, faults, at + 1, Snap(project, store, Idle))
  {
    ghost var s := Snap(project, store, Releasing);
    project.RemoveLock(OutcomeAt(faults, at));
    Advance(s0, faults, at, s, Snap(project, store, Idle));
  }

  /**
    The commit call. Whatever the schedule of faults does to it, the project ends exactly where the protocol
    ends after as many steps of the holder, and the process has let go of the lock or is dead.
   */
  method CommitIngest(project: Project, store: IngestApprovalStore, args: Args, faults: seq<Outcome>)
    returns (committed: bool, steps: nat)
    requires store.project == project
    modifies project, store
    ensures Snap(project, store, Idle) == Run(old(Snap(project, store, Idle)), Script(Commit(args), faults, steps))
    ensures MarkerTells(project.consumed, old(project.consumed), args, committed, faults)
  {
    ghost var before := Snap(project, store, Idle);
    ghost var s0 := Step(before, Commit(args));
    steps, committed := 0, false;
    var taken := project.TakeLock();
    Origin(s0, faults);
    if taken {
      var signal;
      signal, steps := CommitIngestLocked(project, store, args, faults);
      committed := signal == Went;
      if signal != Died {
        LeaveLock(project, store, faults, steps, s0);
        steps := steps + 1;
      }
    }
    ReachedIsRun(before, Commit(args), faults, steps, Snap(project, store, Idle));
  }

  // ----- What a call without faults decides -----

  /** Two fault-free runs that have both come to rest are the same. */
  lemma {:induction false} RestIsUnique(s: State, fewer: nat, more: nat)
    requires fewer <= more && Drive(s, fewer).process.Idle?
    ensures Drive(s, more) == Drive(s, fewer)
    decreases fewer
  {
    if fewer == 0 { DriveIdle(s, more); } else { RestIsUnique(HoldStep(s, Go), fewer - 1, more - 1); }
  }

  lemma ScriptIsDrive(s: State, call: Event, steps: nat)
    ensures Run(s, Script(call, [], steps)) == Drive(Step(s, call), steps)
  {
    assert Script(call, [], steps)[1..] == Quietly(steps);
    DriveIsRun(Step(s, call), steps);
  }

  lemma AttemptRests(base: Ledger, s: State, args: Args)
    requires Inv(base, s) && s.process.Idle?
    ensures Run(s, Attempt(args)).process.Idle?
  {
    if WouldCommit(s, args) { Commits(base, s, args); } else { Refuses(base, s, args); }
  }

  lemma QuietCallIsAttempt(base: Ledger, s: State, args: Args, steps: nat)
    requires Inv(base, s) && s.process.Idle? && Run(s, Script(Commit(args), [], steps)).process.Idle?
    ensures Run(s, Script(Commit(args), [], steps)) == Run(s, Attempt(args))
  {
    var taken := Step(s, Commit(args));
    AttemptRests(base, s, args);
    AttemptIsDrive(s, args);
    ScriptIsDrive(s, Commit(args), steps);
    if steps <= 15 { RestIsUnique(taken, steps, 15); } else { RestIsUnique(taken, 15, steps); }
  }

  /**
    However many steps a fault-free call took to come to rest, its marker is new exactly when the guard of
    `CommitsExactlyWhen` held before the call.
   */
  lemma QuietCallDecides(
    base: Ledger, artifacts: Artifacts, clock: int, events: seq<Event>, args: Args, steps: nat)
    requires var s := Run(Start(base, artifacts, clock), events);
      s.process.Idle? && Run(s, Script(Commit(args), [], steps)).process.Idle?
    ensures var s := Run(Start(base, artifacts, clock), events);
      var f := Run(s, Script(Commit(args), [], steps));
      !s.consumed.Has(args.draftId) && f.consumed.Has(args.draftId) <==> WouldCommit(s, args)
  {
    var s := Run(Start(base, artifacts, clock), events);
    RunInv(base, artifacts, clock, events);
    QuietCallIsAttempt(base, s, args, steps);
    CommitsExactlyWhen(base, artifacts, clock, events, args);
  }

  // ----- The status report -----

  /** The report of one draft as the call reads it from the files. */
  method PendingStatus(project: Project, store: IngestApprovalStore, id: string) returns (report: Option<Report>)
    requires store.project == project
    ensures report == PendingIngestStatus(Snap(project, store, Idle), id)
  {
    if !project.drafts.IsWhole(id) {
      return None;
    }
    var status, count := None, 0;
    if id in project.journals.entries {
      if project.journals.entries[id].Torn? {
        return None;
      }
      var tx := project.journals.Value(id);
      status, count := Some(tx.status), tx.applied;
    }
    if id in project.consumed.entries {
      return Some(Report(ConsumedDraft, count));
    }
    if status in [Some(ApplyingOps), Some(CanonicalCommitted), Some(FailedRecoverable)] {
      return Some(Report(RecoveryRequired, count));
    }
    return Some(Report(PendingDraft, count));
  }

  // ----- The administrator's writers -----

  method PrepareRecord(project: Project, record: Record) returns (op: Option<Op>)
    ensures op == if CandidateOk(project.ledger, Lines(project.ledger, Sources), project.artifacts, record) && record.day.Some?
      then Some(PrepareAppend(project.ledger, Daily(record.day.value), [RecordLine(record)])) else None
  {
    if !CandidateOk(project.ledger, Lines(project.ledger, Sources), project.artifacts, record) || record.day.None? {
      return None;
    }
    return Some(PrepareAppend(project.ledger, Daily(record.day.value), [RecordLine(record)]));
  }

  method PrepareSource(project: Project, sourceId: string, path: string, sourceType: string) returns (op: Option<Op>)
    requires path in project.artifacts.content
    ensures var line := SourceLine(Registration(sourceId, path, project.artifacts.content[path], sourceType));
      var known := Lines(project.ledger, Sources);
      op == if exists i | 0 <= i < |known| :: RegistrationsClash(known[i], line) then None
            else Some(PrepareAppend(project.ledger, Sources, [line]))
  {
    var line := SourceLine(Registration(sourceId, path, project.artifacts.content[path], sourceType));
    var existing := Lines(project.ledger, Sources);
    for i := 0 to |existing|
      invariant forall j | 0 <= j < i :: !RegistrationsClash(existing[j], line)
    {
      if RegistrationsClash(existing[i], line) {
        return None;
      }
    }
    return Some(PrepareAppend(project.ledger, Sources, [line]));
  }

  function CommandStage(prepared: Option<Op>): Process {
    if prepared.Some? then Appending(prepared.value) else Releasing
  }

  method AppendPrepared(
    project: Project, store: IngestApprovalStore, op: Op, faults: seq<Outcome>, at: nat, ghost s0: State)
    returns (signal: Signal)
    requires store.project == project && StateOf(project.ledger, op) == Pending
    requires Reached(s0, faults, at, Snap(project, store, Appending(op)))
    modifies project`ledger, project`log
    ensures Reached(s0, faults, at + 1, Snap(project, store, Onward(signal, Releasing, Releasing)))
    ensures signal == Went ==> project.ledger == Replace(old(project.ledger), op)
  {
    ghost var s := Snap(project, store, Appending(op));
    signal := project.ApplyAppend(op, OutcomeAt(faults, at), FromCommand);
    Advance(s0, faults, at, s, Snap(project, store, Onward(signal, Releasing, Releasing)));
  }

  /** After the checks of a command: its one append, if it is allowed, and the release of the lock. */
  method PerformCommand(
    project: Project, store: IngestApprovalStore, signal: Signal, prepared: Option<Op>, faults: seq<Outcome>, ghost s0: State)
    returns (done: bool, steps: nat)
    requires store.project == project
    requires prepared.Some? ==> StateOf(project.ledger, prepared.value) == Pending
    requires Reached(s0, faults, 1, Snap(project, store, Onward(signal, CommandStage(prepared), Releasing)))
    modifies project`ledger, project`log, project`locked
    ensures Reached(s0, faults, steps, Snap(project, store, Idle))
    ensures done ==> prepared.Some? && project.ledger == Replace(old(project.ledger), prepared.value)
  {
    steps, done := 1, false;
    if signal == Died {
      return;
    }
    if signal == Went && prepared.Some? {
      var answer := AppendPrepared(project, store, prepared.value, faults, steps, s0);
      steps, done := steps + 1, answer == Went;
      if answer == Died {
        return;
      }
    }
    LeaveLock(project, store, faults, steps, s0);
    steps := steps + 1;
  }

  /** What must hold of a record before the lock is even taken. */
  predicate MayAppend(record: Record, approvalRef: string, bootstrap: bool) {
    if record.kind == "approval" then bootstrap && record.status == "approved" && record.actor == "human"
    else approvalRef != "" && approvalRef in record.approvalRefs
  }

  /** The administrator's append is the run of its command; a refusal before the lock does nothing at all. */
  method AppendRecord(
    project: Project, store: IngestApprovalStore, record: Record, approvalRef: string, bootstrap: bool, faults: seq<Outcome>)
    returns (done: bool, called: bool, steps: nat)
    requires store.project == project
    modifies project
    ensures called == MayAppend(record, approvalRef, bootstrap)
    ensures Snap(project, store, Idle) == Run(old(Snap(project, store, Idle)),
      if called then Script(Administer(IngestProtocol.AppendRecord(record, approvalRef, bootstrap)), faults, steps) else [])
    ensures done ==> called && record.day.Some?
    ensures done ==>
      var op := PrepareAppend(old(project.ledger), Daily(record.day.value), [RecordLine(record)]);
      project.ledger == Replace(old(project.ledger), op)
  {
    steps, done, called := 0, false, MayAppend(record, approvalRef, bootstrap);
    if !called {
      return;
    }
    ghost var call := Administer(IngestProtocol.AppendRecord(record, approvalRef, bootstrap));
    ghost var before := Snap(project, store, Idle);
    ghost var s0 := Step(before, call);
    var taken := project.TakeLock();
    Origin(s0, faults);
    if taken {
      var prepared := PrepareRecord(project, record);
      if prepared.Some? { PreparedIsPending(project.ledger, Daily(record.day.value), [RecordLine(record)]); }
      var signal := SignalOf(OutcomeAt(faults, 0));
      Advance(s0, faults, 0, s0, Snap(project, store, Onward(signal, CommandStage(prepared), Releasing)));
      done, steps := PerformCommand(project, store, signal, prepared, faults, s0);
    }
    ReachedIsRun(before, call, faults, steps, Snap(project, store, Idle));
  }

  /** Registering a source is the run of its command; a missing file is refused before the lock. */
  method RegisterSource(
    project: Project, store: IngestApprovalStore, sourceId: string, path: string, sourceType: string, faults: seq<Outcome>)
    returns (done: bool, called: bool, steps: nat)
    requires store.project == project
    modifies project
    ensures called == (path in old(project.artifacts).content)
    ensures Snap(project, store, Idle) == Run(old(Snap(project, store, Idle)),
      if called then Script(Administer(IngestProtocol.RegisterSource(sourceId, path, sourceType)), faults, steps) else [])
    ensures done ==> called
    ensures done ==>
      var source := Registration(sourceId, path, old(project.artifacts).content[path], sourceType);
      project.ledger == Replace(old(project.ledger), PrepareAppend(old(project.ledger), Sources, [SourceLine(source)]))
  {
    steps, done, called := 0, false, path in project.artifacts.content;
    if !called {
      return;
    }
    ghost var call := Administer(IngestProtocol.RegisterSource(sourceId, path, sourceType));
    ghost var before := Snap(project, store, Idle);
    ghost var s0 := Step(before, call);
    var taken := project.TakeLock();
    Origin(s0, faults);
    if taken {
      var prepared := PrepareSource(project, sourceId, path, sourceType);
      ghost var source := Registration(sourceId, path, project.artifacts.content[path], sourceType);
      if prepared.Some? { PreparedIsPending(project.ledger, Sources, [SourceLine(source)]); }
      var signal := SignalOf(OutcomeAt(faults, 0));
      Advance(s0, faults, 0, s0, Snap(project, store, Onward(signal, CommandStage(prepared), Releasing)));
      done, steps := PerformCommand(project, store, signal, prepared, faults, s0);
    }
    ReachedIsRun(before, call, faults, steps, Snap(project, store, Idle));
  }
}
