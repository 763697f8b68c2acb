/** Preparing a draft: three unlocked looks at the project, and what they promise when nothing moves between. */
module IngestPrepare {
  import opened Common
  import opened Ledger
  import opened CanonicalIo
  import opened IngestProtocol

  datatype SourceInput = SourceInput(path: string, sourceId: string, sourceType: string)

  predicate Clashes(lines: seq<Line>, line: Line) {
    exists i | 0 <= i < |lines| :: RegistrationsClash(lines[i], line)
  }

  function Registered(artifacts: Artifacts, input: SourceInput): Registration
    requires input.path in artifacts.content
  {
    Registration(input.sourceId, input.path, artifacts.content[input.path], input.sourceType)
  }

  /** Stage the inputs one by one; refuse a missing file and a path or ID that is registered or staged. */
  function Normalize(
    manifest: seq<Line>, artifacts: Artifacts, inputs: seq<SourceInput>, staged: seq<Registration>)
    : Option<seq<Registration>>
    decreases |inputs|
  {
    if inputs == [] then Some(staged)
    else if inputs[0].path !in artifacts.content then None
    else
      var next := Registered(artifacts, inputs[0]);
      if Clashes(manifest + SourceLines(staged), SourceLine(next)) then None
      else Normalize(manifest, artifacts, inputs[1..], staged + [next])
  }

  predicate AllPresent(artifacts: Artifacts, inputs: seq<SourceInput>) {
    forall i | 0 <= i < |inputs| :: inputs[i].path in artifacts.content
  }

  function AllRegistered(artifacts: Artifacts, inputs: seq<SourceInput>): seq<Registration>
    requires AllPresent(artifacts, inputs)
  {
    seq(|inputs|, i requires 0 <= i < |inputs| => Registered(artifacts, inputs[i]))
  }

  lemma OneMore(lines: seq<Line>, line: Line)
    requires UniqueRegistrations(lines)
    ensures UniqueRegistrations(lines + [line]) <==> !Clashes(lines, line)
  {
    var more := lines + [line];
    if Clashes(lines, line) {
      var i :| 0 <= i < |lines| && RegistrationsClash(lines[i], line);
      assert RegistrationsClash(more[i], more[|lines|]);
    }
  }

  lemma UniquePrefix(lines: seq<Line>, more: seq<Line>)
    requires UniqueRegistrations(lines + more)
    ensures UniqueRegistrations(lines)
  {
    forall i, j | 0 <= i < j < |lines| ensures !RegistrationsClash(lines[i], lines[j]) {
      assert !RegistrationsClash((lines + more)[i], (lines + more)[j]);
    }
  }

  /** Staging succeeds exactly when every file exists and the manifest with all staged lines has no clash. */
  lemma {:induction false} NormalizeExactly(
    manifest: seq<Line>, artifacts: Artifacts, inputs: seq<SourceInput>, staged: seq<Registration>)
    requires UniqueRegistrations(manifest + SourceLines(staged))
    ensures var result := Normalize(manifest, artifacts, inputs, staged);
      && (result.Some? <==>
            AllPresent(artifacts, inputs)
            && UniqueRegistrations(manifest + SourceLines(staged + AllRegistered(artifacts, inputs))))
      && (result.Some? ==> result.value == staged + AllRegistered(artifacts, inputs))
    decreases |inputs|
  {
    var here := manifest + SourceLines(staged);
    if inputs == [] {
      if AllPresent(artifacts, inputs) { assert staged + AllRegistered(artifacts, inputs) == staged; }
    } else if inputs[0].path in artifacts.content {
      var next := Registered(artifacts, inputs[0]);
      OneMore(here, SourceLine(next));
      assert manifest + SourceLines(staged + [next]) == here + [SourceLine(next)];
      assert AllPresent(artifacts, inputs) <==> AllPresent(artifacts, inputs[1..]);
      if AllPresent(artifacts, inputs) {
        var all := AllRegistered(artifacts, inputs);
        assert staged + all == (staged + [next]) + AllRegistered(artifacts, inputs[1..]);
        assert manifest + SourceLines(staged + all) == (here + [SourceLine(next)]) + SourceLines(all[1..]);
        if UniqueRegistrations(manifest + SourceLines(staged + all)) {
          UniquePrefix(here + [SourceLine(next)], SourceLines(all[1..]));
        }
      }
      if !Clashes(here, SourceLine(next)) { NormalizeExactly(manifest, artifacts, inputs[1..], staged + [next]); }
    }
  }

  /** One registration for each input, in order, with the digest of its file. */
  predicate StagesInputs(artifacts: Artifacts, inputs: seq<SourceInput>, staged: seq<Registration>) {
    |staged| == |inputs|
    && forall i | 0 <= i < |inputs| ::
         && staged[i].path == inputs[i].path && staged[i].sourceId == inputs[i].sourceId
         && staged[i].sourceType == inputs[i].sourceType
         && inputs[i].path in artifacts.content && staged[i].sha == artifacts.content[inputs[i].path]
  }

  function PathsOf(lines: seq<Line>): set<string> {
    set i | 0 <= i < |lines| && lines[i].SourceLine? :: lines[i].registration.path
  }

  function IdsOf(lines: seq<Line>): set<string> {
    set i | 0 <= i < |lines| && lines[i].SourceLine? :: lines[i].registration.sourceId
  }

  lemma ClashesByKeys(lines: seq<Line>, line: Line)
    requires line.SourceLine?
    ensures Clashes(lines, line) <==> line.registration.path in PathsOf(lines) || line.registration.sourceId in IdsOf(lines)
  {
    if Clashes(lines, line) {
      var i :| 0 <= i < |lines| && RegistrationsClash(lines[i], line);
      assert lines[i].registration.path in PathsOf(lines) && lines[i].registration.sourceId in IdsOf(lines);
    } else {
      assert forall i | 0 <= i < |lines| :: !RegistrationsClash(lines[i], line);
    }
  }

  lemma ClashesSplit(lines: seq<Line>, more: seq<Line>, line: Line)
    ensures Clashes(lines + more, line) <==> Clashes(lines, line) || Clashes(more, line)
  {
    var all := lines + more;
    if Clashes(all, line) {
      var i :| 0 <= i < |all| && RegistrationsClash(all[i], line);
      assert if i < |lines| then RegistrationsClash(lines[i], line) else RegistrationsClash(more[i - |lines|], line);
    }
    if Clashes(lines, line) {
      var i :| 0 <= i < |lines| && RegistrationsClash(lines[i], line);
      assert RegistrationsClash(all[i], line);
    }
    if Clashes(more, line) {
      var i :| 0 <= i < |more| && RegistrationsClash(more[i], line);
      assert RegistrationsClash(all[|lines| + i], line);
    }
  }

  /** The loop over the inputs, with the registered and the pending paths and IDs in sets. */
  method NormalizeSourceRegistrations(manifest: seq<Line>, artifacts: Artifacts, inputs: seq<SourceInput>)
    returns (result: Option<seq<Registration>>)
    ensures result == Normalize(manifest, artifacts, inputs, [])
    ensures UniqueRegistrations(manifest) && result.Some? ==> StagesInputs(artifacts, inputs, result.value)
    ensures UniqueRegistrations(manifest) ==> (result.Some? <==>
      AllPresent(artifacts, inputs) && UniqueRegistrations(manifest + SourceLines(AllRegistered(artifacts, inputs))))
  {
    var existingPaths, existingIds := PathsOf(manifest), IdsOf(manifest);
    var pendingPaths: set<string>, pendingIds: set<string> := {}, {};
    var normalized: seq<Registration> := [];
    assert manifest + SourceLines([]) == manifest;
    if UniqueRegistrations(manifest) {
      NormalizeExactly(manifest, artifacts, inputs, []);
      if AllPresent(artifacts, inputs) { assert [] + AllRegistered(artifacts, inputs) == AllRegistered(artifacts, inputs); }
    }
    for i := 0 to |inputs|
      invariant Normalize(manifest, artifacts, inputs, []) == Normalize(manifest, artifacts, inputs[i..], normalized)
      invariant pendingPaths == PathsOf(SourceLines(normalized)) && pendingIds == IdsOf(SourceLines(normalized))
    {
      assert inputs[i..][0] == inputs[i] && inputs[i..][1..] == inputs[i + 1..];
      if inputs[i].path !in artifacts.content {
        return None;
      }
      var next := Registered(artifacts, inputs[i]);
      ClashesSplit(manifest, SourceLines(normalized), SourceLine(next));
      ClashesByKeys(manifest, SourceLine(next));
      ClashesByKeys(SourceLines(normalized), SourceLine(next));
      if next.path in existingPaths || next.path in pendingPaths {
        return None;
      }
      if next.sourceId in existingIds || next.sourceId in pendingIds {
        return None;
      }
      KeysGrow(normalized, next);
      pendingPaths, pendingIds := pendingPaths + {next.path}, pendingIds + {next.sourceId};
      normalized := normalized + [next];
    }
    return Some(normalized);
  }

  lemma KeysGrow(staged: seq<Registration>, next: Registration)
    ensures PathsOf(SourceLines(staged + [next])) == PathsOf(SourceLines(staged)) + {next.path}
    ensures IdsOf(SourceLines(staged + [next])) == IdsOf(SourceLines(staged)) + {next.sourceId}
  {
    var lines, more := SourceLines(staged), SourceLines(staged + [next]);
    assert more[|staged|] == SourceLine(next);
    forall path ensures path in PathsOf(more) <==> path in PathsOf(lines) || path == next.path {
      assert forall i | 0 <= i < |lines| :: more[i] == lines[i];
    }
    forall id ensures id in IdsOf(more) <==> id in IdsOf(lines) || id == next.sourceId {
      assert forall i | 0 <= i < |lines| :: more[i] == lines[i];
    }
  }

  /**
    A draft built from three looks: the sources are normalised in one state, the record is checked in a second,
    the head is fingerprinted in a third. Nothing holds the canonical lock between them.
   */
  function PrepareIngest(
    normalized: State, checked: State, fingerprinted: State,
    id: string, record: Record, approvalRef: string, inputs: seq<SourceInput>): Option<Draft>
  {
    var staged := Normalize(Lines(normalized.ledger, Sources), normalized.artifacts, inputs, []);
    if staged.None? then None
    else
      var draft := Draft(id, fingerprinted.ledger, approvalRef, record, staged.value);
      if DraftRecordOk(checked, draft) then Some(draft) else None
  }

  /** The staged lines fit the manifest of the head that the draft is bound to. */
  predicate FitsItsHead(draft: Draft) {
    UniqueRegistrations(Lines(draft.head, Sources) + SourceLines(draft.registrations))
  }

  /** The draft is the result of a preparation during which the project did not change. */
  ghost predicate AtomicallyPrepared(s: State, draft: Draft) {
    exists inputs :: PrepareIngest(s, s, s, draft.id, draft.record, draft.approvalRef, inputs) == Some(draft)
  }

  lemma AtomicDraftFits(s: State, draft: Draft)
    requires UniqueRegistrations(Lines(s.ledger, Sources)) && AtomicallyPrepared(s, draft)
    ensures draft.head == s.ledger && FitsItsHead(draft)
  {
    var inputs :| PrepareIngest(s, s, s, draft.id, draft.record, draft.approvalRef, inputs) == Some(draft);
    var manifest := Lines(s.ledger, Sources);
    assert manifest + SourceLines([]) == manifest;
    NormalizeExactly(manifest, s.artifacts, inputs, []);
    assert [] + AllRegistered(s.artifacts, inputs) == draft.registrations;
  }

  /** In the state it was prepared in, such a draft passes the record and source checks of a commit. */
  lemma PreparedIsAdmitted(s: State, draft: Draft)
    requires UniqueRegistrations(Lines(s.ledger, Sources)) && AtomicallyPrepared(s, draft)
    ensures DraftRecordOk(s, draft) && SourcesUnchanged(s, draft)
  {
    var inputs :| PrepareIngest(s, s, s, draft.id, draft.record, draft.approvalRef, inputs) == Some(draft);
    var manifest := Lines(s.ledger, Sources);
    assert manifest + SourceLines([]) == manifest;
    NormalizeExactly(manifest, s.artifacts, inputs, []);
    assert [] + AllRegistered(s.artifacts, inputs) == draft.registrations;
  }
}
