/** Canonical records, the ledger they live in, and the checks a candidate record must pass. */
module Ledger {
  import opened Common

  /** One canonical JSONL file: the source manifest, or the event ledger of one day. */
  datatype Target = Sources | Daily(day: string)

  /** What an approval record covers. */
  datatype Scope = Scope(recordIds: seq<string>, studyIds: seq<string>, recordKinds: seq<string>)

  /** A reference to a registered source; `pinned` is the digest its artifact revision names, if any. */
  datatype SourceRef = SourceRef(path: string, pinned: Option<string>)

  /**
    A record. An absent identifier is the empty string. `wellFormed` is the verdict of the field checks
    that look at this record alone: patterns, date-times, enumerations, unexpected fields.
   */
  datatype Record = Record(
    core: bool, recordId: string, eventId: string, kind: string, study: Option<string>,
    status: string, actor: string, approvalRefs: seq<string>, relationTargets: seq<string>,
    sourceRefs: seq<SourceRef>, scope: Option<Scope>, day: Option<string>, payload: string, wellFormed: bool)

  /** A registered source revision; `sha` is the digest of the artifact's content. */
  datatype Registration = Registration(sourceId: string, path: string, sha: string, sourceType: string)

  datatype Line = SourceLine(registration: Registration) | RecordLine(record: Record)

  /** The canonical files that exist, each as its list of JSONL lines. */
  datatype Ledger = Ledger(files: map<Target, seq<Line>>)

  /** The source files of the project by path. A digest is injective, so content stands for its digest. */
  datatype Artifacts = Artifacts(content: map<string, string>)

  /** What a reader of one file sees; a missing file reads as empty. */
  function Lines(ledger: Ledger, target: Target): seq<Line> {
    if target in ledger.files then ledger.files[target] else []
  }

  /** `after` is `before` with lines added at the ends of files, and possibly with new files. */
  ghost predicate Grows(before: Ledger, after: Ledger) {
    forall target :: FileGrows(before, after, target)
  }

  predicate FileGrows(before: Ledger, after: Ledger, target: Target) {
    (target in before.files ==> target in after.files) && Lines(before, target) <= Lines(after, target)
  }

  lemma GrowsTransitive(a: Ledger, b: Ledger, c: Ledger)
    requires Grows(a, b) && Grows(b, c)
    ensures Grows(a, c)
  {
    forall target ensures FileGrows(a, c, target) {
      assert FileGrows(a, b, target) && FileGrows(b, c, target);
    }
  }

  // ----- Records by their place in the ledger -----

  function Identifier(record: Record): string {
    if record.recordId != "" then record.recordId else record.eventId
  }

  predicate HasRecordAt(ledger: Ledger, target: Target, index: int) {
    target in ledger.files && 0 <= index < |ledger.files[target]| && ledger.files[target][index].RecordLine?
  }

  function RecordAt(ledger: Ledger, target: Target, index: int): Record
    requires HasRecordAt(ledger, target, index)
  {
    ledger.files[target][index].record
  }

  predicate SameIdentifier(ledger: Ledger, t: Target, i: int, u: Target, j: int) {
    HasRecordAt(ledger, t, i) && HasRecordAt(ledger, u, j)
    && Identifier(RecordAt(ledger, t, i)) == Identifier(RecordAt(ledger, u, j))
  }

  /** No two places of the ledger hold records with one identifier. */
  predicate UniqueIdentifiers(ledger: Ledger) {
    forall t, i, u, j | t in ledger.files && 0 <= i < |ledger.files[t]| && u in ledger.files && 0 <= j < |ledger.files[u]| ::
      SameIdentifier(ledger, t, i, u, j) ==> t == u && i == j
  }

  predicate UsesIdentifier(ledger: Ledger, id: string) {
    exists t, i | t in ledger.files && 0 <= i < |ledger.files[t]| ::
      HasRecordAt(ledger, t, i) && Identifier(RecordAt(ledger, t, i)) == id
  }

  predicate HasRecordId(ledger: Ledger, id: string) {
    exists t, i | t in ledger.files && 0 <= i < |ledger.files[t]| ::
      HasRecordAt(ledger, t, i) && RecordAt(ledger, t, i).recordId == id && id != ""
  }

  predicate RelationsResolve(ledger: Ledger, record: Record) {
    record.core ==> forall id | id in record.relationTargets :: HasRecordId(ledger, id)
  }

  /** Every relation of every core record names a record of this ledger. */
  predicate AllRelationsResolve(ledger: Ledger) {
    forall t, i | t in ledger.files && 0 <= i < |ledger.files[t]| ::
      HasRecordAt(ledger, t, i) ==> RelationsResolve(ledger, RecordAt(ledger, t, i))
  }

  predicate AllWellFormed(ledger: Ledger) {
    forall t, i | t in ledger.files && 0 <= i < |ledger.files[t]| ::
      HasRecordAt(ledger, t, i) ==> RecordAt(ledger, t, i).wellFormed
  }

  // ----- Source registrations -----

  predicate RegistrationsClash(a: Line, b: Line) {
    a.SourceLine? && b.SourceLine?
    && (a.registration.path == b.registration.path || a.registration.sourceId == b.registration.sourceId)
  }

  /** No two lines of the manifest share a path or a source ID. */
  predicate UniqueRegistrations(lines: seq<Line>) {
    forall i, j | 0 <= i < j < |lines| :: !RegistrationsClash(lines[i], lines[j])
  }

  /** The manifest entry that decides a path: the last line that names it. */
  function RegisteredSha(lines: seq<Line>, path: string): Option<string> {
    if lines == [] then None
    else
      var last := lines[|lines| - 1];
      if last.SourceLine? && last.registration.path == path then Some(last.registration.sha)
      else RegisteredSha(lines[..|lines| - 1], path)
  }

  function SourceLines(registrations: seq<Registration>): (lines: seq<Line>)
    ensures |lines| == |registrations|
    ensures forall i | 0 <= i < |lines| :: lines[i] == SourceLine(registrations[i])
  {
    seq(|registrations|, i requires 0 <= i < |registrations| => SourceLine(registrations[i]))
  }

  /** Every reference names a registered path whose recorded digest agrees with the pin and with the file. */
  predicate SourceRefsResolve(manifest: seq<Line>, artifacts: Artifacts, record: Record) {
    forall ref | ref in record.sourceRefs ::
      var sha := RegisteredSha(manifest, ref.path);
      && sha.Some?
      && (ref.pinned.Some? ==> ref.pinned == sha)
      && ref.path in artifacts.content && artifacts.content[ref.path] == sha.value
  }

  // ----- Approval -----

  /** The law: a human's approved approval that lists the record, or lists both its study and its kind. */
  predicate Covers(approval: Record, record: Record) {
    && approval.kind == "approval" && approval.status == "approved" && approval.actor == "human"
    && approval.scope.Some?
    && ((record.recordId != "" && record.recordId in approval.scope.value.recordIds)
        || (record.study.Some? && record.study.value in approval.scope.value.studyIds
            && record.kind in approval.scope.value.recordKinds))
  }

  datatype Objection = NotAnApproval | NotApproved | NotHuman | NoScope | StudyNotCovered | KindNotCovered

  /** The check: the first reason against the approval, if there is one. */
  function ApprovalObjection(record: Record, approval: Record): Option<Objection> {
    if approval.kind != "approval" then Some(NotAnApproval)
    else if approval.status != "approved" then Some(NotApproved)
    else if approval.actor != "human" then Some(NotHuman)
    else if approval.scope.None? then Some(NoScope)
    else
      var scope := approval.scope.value;
      if record.recordId != "" && record.recordId in scope.recordIds then None
      else if record.study.None? || record.study.value !in scope.studyIds then Some(StudyNotCovered)
      else if record.kind !in scope.recordKinds then Some(KindNotCovered)
      else None
  }

  predicate ApprovalAllows(record: Record, approval: Record) {
    ApprovalObjection(record, approval).None?
  }

  /** The check makes the law. */
  lemma AllowsExactlyWhenCovers(record: Record, approval: Record)
    ensures ApprovalAllows(record, approval) <==> Covers(approval, record)
  {
  }

  /** An approval in this ledger that `ref` names and whose scope covers `record`. */
  predicate ApprovedBy(ledger: Ledger, record: Record, ref: string) {
    ref != "" && exists t, i | t in ledger.files && 0 <= i < |ledger.files[t]| ::
      HasRecordAt(ledger, t, i) && RecordAt(ledger, t, i).recordId == ref
      && ApprovalAllows(record, RecordAt(ledger, t, i))
  }

  predicate Authorized(ledger: Ledger, record: Record) {
    record.kind != "approval" ==> forall ref | ref in record.approvalRefs :: ApprovedBy(ledger, record, ref)
  }

  // ----- The check of one candidate against the ledger -----

  predicate KnownWith(ledger: Ledger, record: Record, id: string) {
    HasRecordId(ledger, id) || (id == record.recordId && id != "")
  }

  predicate RelationsResolveWith(ledger: Ledger, candidate: Record, record: Record) {
    record.core ==> forall id | id in record.relationTargets :: KnownWith(ledger, candidate, id)
  }

  /** The validator reports no issue: the ledger with the candidate added is valid and the candidate is covered. */
  predicate CandidateOk(ledger: Ledger, manifest: seq<Line>, artifacts: Artifacts, candidate: Record) {
    && AllWellFormed(ledger) && candidate.wellFormed
    && UniqueIdentifiers(ledger) && !UsesIdentifier(ledger, Identifier(candidate))
    && (forall t, i | t in ledger.files && 0 <= i < |ledger.files[t]| ::
          HasRecordAt(ledger, t, i) ==> RelationsResolveWith(ledger, candidate, RecordAt(ledger, t, i)))
    && RelationsResolveWith(ledger, candidate, candidate)
    && SourceRefsResolve(manifest, artifacts, candidate)
    && Authorized(ledger, candidate)
  }
}
