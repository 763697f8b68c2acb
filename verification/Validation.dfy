/** The record validator as it runs over the list of all records, and what it decides about a ledger. */
module Validation {
  import opened Common
  import opened Ledger

  datatype Fault = DuplicateIdentifier | Malformed | UnknownRelation(target: string)

  /** One reported fault of the record at one place of the list. */
  datatype Issue = Issue(at: nat, fault: Fault)

  function KnownIds(records: seq<Record>): set<string> {
    set i | 0 <= i < |records| && records[i].recordId != "" :: records[i].recordId
  }

  predicate RepeatsEarlier(records: seq<Record>, at: nat)
    requires at < |records|
  {
    exists j | 0 <= j < at :: Identifier(records[j]) == Identifier(records[at])
  }

  predicate IssueHolds(records: seq<Record>, issue: Issue) {
    issue.at < |records|
    && match issue.fault
       case DuplicateIdentifier => RepeatsEarlier(records, issue.at)
       case Malformed => !records[issue.at].wellFormed
       case UnknownRelation(target) =>
         records[issue.at].core && target in records[issue.at].relationTargets && target !in KnownIds(records)
  }

  method RelationIssues(record: Record, at: nat, coreIds: set<string>) returns (issues: seq<Issue>)
    ensures forall issue :: issue in issues <==>
      issue.at == at && issue.fault.UnknownRelation? && record.core
      && issue.fault.target in record.relationTargets && issue.fault.target !in coreIds
  {
    issues := [];
    if record.core {
      for i := 0 to |record.relationTargets|
        invariant forall issue :: issue in issues <==>
          issue.at == at && issue.fault.UnknownRelation?
          && issue.fault.target in record.relationTargets[..i] && issue.fault.target !in coreIds
      {
        var target := record.relationTargets[i];
        assert record.relationTargets[..i + 1] == record.relationTargets[..i] + [target];
        if target !in coreIds { issues := issues + [Issue(at, UnknownRelation(target))]; }
      }
      assert record.relationTargets[..|record.relationTargets|] == record.relationTargets;
    }
  }

  predicate IssueBefore(records: seq<Record>, n: nat, issue: Issue) {
    issue.at < n && IssueHolds(records, issue)
  }

  /** The report lists a fault of a record exactly when it has it. */
  method ValidateRecords(records: seq<Record>) returns (issues: seq<Issue>)
    ensures forall issue :: issue in issues <==> IssueHolds(records, issue)
  {
    var coreIds := KnownIds(records);
    var seen: set<string> := {};
    issues := [];
    for i := 0 to |records|
      invariant forall id :: id in seen <==> exists j | 0 <= j < i :: Identifier(records[j]) == id
      invariant forall issue :: issue in issues <==> IssueBefore(records, i, issue)
    {
      var here := [];
      if Identifier(records[i]) in seen { here := [Issue(i, DuplicateIdentifier)]; }
      seen := seen + {Identifier(records[i])};
      if !records[i].wellFormed { here := here + [Issue(i, Malformed)]; }
      var relations := RelationIssues(records[i], i, coreIds);
      here := here + relations;
      assert forall issue :: issue in here <==> issue.at == i && IssueHolds(records, issue);
      issues := issues + here;
    }
  }

  // ----- What a clean report means for the ledger -----

  function Records(lines: seq<Line>): (r: seq<Record>)
    requires forall i | 0 <= i < |lines| :: lines[i].RecordLine?
    ensures |r| == |lines| && forall i | 0 <= i < |r| :: r[i] == lines[i].record
  {
    seq(|lines|, i requires 0 <= i < |lines| => lines[i].record)
  }

  /** Daily files hold records, the manifest holds sources. */
  predicate TypedLedger(ledger: Ledger) {
    forall t, i | t in ledger.files && 0 <= i < |ledger.files[t]| :: ledger.files[t][i].RecordLine? <==> t.Daily?
  }

  /** The daily files, each once. */
  ghost predicate ListsDaily(ledger: Ledger, order: seq<Target>) {
    && (forall t :: t in order <==> t.Daily? && t in ledger.files)
    && (forall i, j | 0 <= i < j < |order| :: order[i] != order[j])
  }

  predicate DailyOf(ledger: Ledger, order: seq<Target>) {
    forall k | 0 <= k < |order| :: order[k].Daily? && order[k] in ledger.files
  }

  function AllRecords(ledger: Ledger, order: seq<Target>): seq<Record>
    requires TypedLedger(ledger) && DailyOf(ledger, order)
  {
    if order == [] then []
    else AllRecords(ledger, order[..|order| - 1]) + Records(ledger.files[order[|order| - 1]])
  }

  /** Where the records of the k-th file begin in the list. */
  function Offset(ledger: Ledger, order: seq<Target>, k: nat): nat
    requires TypedLedger(ledger) && DailyOf(ledger, order) && k <= |order|
  {
    |AllRecords(ledger, order[..k])|
  }

  lemma OffsetStep(ledger: Ledger, order: seq<Target>, k: nat)
    requires TypedLedger(ledger) && DailyOf(ledger, order) && k < |order|
    ensures Offset(ledger, order, k + 1) == Offset(ledger, order, k) + |ledger.files[order[k]]|
    ensures AllRecords(ledger, order[..k + 1]) == AllRecords(ledger, order[..k]) + Records(ledger.files[order[k]])
  {
    assert order[..k + 1][..k] == order[..k] && order[..k + 1][k] == order[k];
  }

  lemma {:induction false} PrefixOf(ledger: Ledger, order: seq<Target>, k: nat)
    requires TypedLedger(ledger) && DailyOf(ledger, order) && k <= |order|
    ensures AllRecords(ledger, order[..k]) <= AllRecords(ledger, order)
    decreases |order| - k
  {
    if k == |order| {
      assert order[..k] == order;
    } else {
      OffsetStep(ledger, order, k);
      PrefixOf(ledger, order, k + 1);
    }
  }

  /** The record at a place of the ledger is in the list, at the offset of its file plus its index. */
  lemma PlaceInList(ledger: Ledger, order: seq<Target>, k: nat, i: nat)
    requires TypedLedger(ledger) && DailyOf(ledger, order) && k < |order| && i < |ledger.files[order[k]]|
    ensures Offset(ledger, order, k) + i < |AllRecords(ledger, order)|
    ensures AllRecords(ledger, order)[Offset(ledger, order, k) + i] == RecordAt(ledger, order[k], i)
  {
    OffsetStep(ledger, order, k);
    PrefixOf(ledger, order, k + 1);
  }

  /** Later files begin after earlier ones end. */
  lemma {:induction false} OffsetsGrow(ledger: Ledger, order: seq<Target>, k: nat, l: nat)
    requires TypedLedger(ledger) && DailyOf(ledger, order) && k < l <= |order|
    ensures Offset(ledger, order, k) + |ledger.files[order[k]]| <= Offset(ledger, order, l)
    decreases l
  {
    OffsetStep(ledger, order, k);
    if k + 1 < l {
      OffsetsGrow(ledger, order, k, l - 1);
      OffsetStep(ledger, order, l - 1);
    }
  }

  /** Every position of the list is a place of the ledger. */
  lemma {:induction false} ListFromPlace(ledger: Ledger, order: seq<Target>, p: nat) returns (k: nat, i: nat)
    requires TypedLedger(ledger) && DailyOf(ledger, order) && p < |AllRecords(ledger, order)|
    ensures k < |order| && i < |ledger.files[order[k]]| && p == Offset(ledger, order, k) + i
    ensures AllRecords(ledger, order)[p] == RecordAt(ledger, order[k], i)
    decreases |order|
  {
    var n := |order| - 1;
    var front := order[..n];
    if p < |AllRecords(ledger, front)| {
      k, i := ListFromPlace(ledger, front, p);
      assert front[..k] == order[..k];
    } else {
      k, i := n, p - |AllRecords(ledger, front)|;
    }
  }

  predicate DistinctIdentifiers(records: seq<Record>) {
    forall i, j | 0 <= i < j < |records| :: Identifier(records[i]) != Identifier(records[j])
  }

  lemma DistinctMeansUnique(ledger: Ledger, order: seq<Target>)
    requires TypedLedger(ledger) && ListsDaily(ledger, order)
    ensures DistinctIdentifiers(AllRecords(ledger, order)) <==> UniqueIdentifiers(ledger)
  {
    var all := AllRecords(ledger, order);
    if DistinctIdentifiers(all) {
      forall t, i, u, j | SameIdentifier(ledger, t, i, u, j) ensures t == u && i == j {
        var k :| 0 <= k < |order| && order[k] == t;
        var l :| 0 <= l < |order| && order[l] == u;
        PlaceInList(ledger, order, k, i);
        PlaceInList(ledger, order, l, j);
        if k < l { OffsetsGrow(ledger, order, k, l); }
        if l < k { OffsetsGrow(ledger, order, l, k); }
      }
    }
    if UniqueIdentifiers(ledger) {
      forall p, q | 0 <= p < q < |all| ensures Identifier(all[p]) != Identifier(all[q]) {
        var k, i := ListFromPlace(ledger, order, p);
        var l, j := ListFromPlace(ledger, order, q);
        var same := SameIdentifier(ledger, order[k], i, order[l], j);
      }
    }
  }

  lemma ListedIds(ledger: Ledger, order: seq<Target>, id: string)
    requires TypedLedger(ledger) && ListsDaily(ledger, order)
    ensures (exists p | 0 <= p < |AllRecords(ledger, order)| :: Identifier(AllRecords(ledger, order)[p]) == id) <==> UsesIdentifier(ledger, id)
    ensures id in KnownIds(AllRecords(ledger, order)) <==> HasRecordId(ledger, id)
  {
    var all := AllRecords(ledger, order);
    forall p | 0 <= p < |all| ensures Identifier(all[p]) == id ==> UsesIdentifier(ledger, id)
      ensures all[p].recordId == id && id != "" ==> HasRecordId(ledger, id)
    {
      var k, i := ListFromPlace(ledger, order, p);
      assert HasRecordAt(ledger, order[k], i);
    }
    forall t, i | HasRecordAt(ledger, t, i)
      ensures Identifier(RecordAt(ledger, t, i)) == id ==> exists p | 0 <= p < |all| :: Identifier(all[p]) == id
      ensures RecordAt(ledger, t, i).recordId == id && id != "" ==> id in KnownIds(all)
    {
      var k :| 0 <= k < |order| && order[k] == t;
      PlaceInList(ledger, order, k, i);
    }
  }

  ghost predicate Clean(records: seq<Record>) {
    forall issue :: !IssueHolds(records, issue)
  }

  lemma CleanMeans(records: seq<Record>)
    ensures Clean(records) <==>
      && DistinctIdentifiers(records)
      && (forall i | 0 <= i < |records| :: records[i].wellFormed)
      && (forall i | 0 <= i < |records| :: records[i].core ==>
            forall id | id in records[i].relationTargets :: id in KnownIds(records))
  {
    if Clean(records) {
      forall i, j | 0 <= i < j < |records| ensures Identifier(records[i]) != Identifier(records[j]) {
        assert !IssueHolds(records, Issue(j, DuplicateIdentifier));
      }
      forall i | 0 <= i < |records| ensures records[i].wellFormed { assert !IssueHolds(records, Issue(i, Malformed)); }
      forall i, id | 0 <= i < |records| && records[i].core && id in records[i].relationTargets
        ensures id in KnownIds(records)
      {
        assert !IssueHolds(records, Issue(i, UnknownRelation(id)));
      }
    }
  }

  /** The record part of the ledger check, by places. */
  predicate RecordsOk(ledger: Ledger, candidate: Record) {
    && AllWellFormed(ledger) && candidate.wellFormed
    && UniqueIdentifiers(ledger) && !UsesIdentifier(ledger, Identifier(candidate))
    && (forall t, i | t in ledger.files && 0 <= i < |ledger.files[t]| ::
          HasRecordAt(ledger, t, i) ==> RelationsResolveWith(ledger, candidate, RecordAt(ledger, t, i)))
    && RelationsResolveWith(ledger, candidate, candidate)
  }

  lemma KnownMore(ledger: Ledger, order: seq<Target>, candidate: Record, id: string)
    requires TypedLedger(ledger) && ListsDaily(ledger, order)
    ensures id in KnownIds(AllRecords(ledger, order) + [candidate]) <==> KnownWith(ledger, candidate, id)
  {
    var all := AllRecords(ledger, order);
    var more := all + [candidate];
    ListedIds(ledger, order, id);
    assert more[|all|] == candidate;
    if id in KnownIds(all) {
      var i :| 0 <= i < |all| && all[i].recordId == id && id != "";
      assert more[i].recordId == id;
    }
    if id in KnownIds(more) {
      var i :| 0 <= i < |more| && more[i].recordId == id && id != "";
      assert i < |all| ==> all[i].recordId == id;
    }
  }

  lemma CandidateDistinct(ledger: Ledger, order: seq<Target>, candidate: Record)
    requires TypedLedger(ledger) && ListsDaily(ledger, order)
    ensures DistinctIdentifiers(AllRecords(ledger, order) + [candidate]) <==>
      UniqueIdentifiers(ledger) && !UsesIdentifier(ledger, Identifier(candidate))
  {
    var all := AllRecords(ledger, order);
    var more := all + [candidate];
    DistinctMeansUnique(ledger, order);
    ListedIds(ledger, order, Identifier(candidate));
    assert forall i | 0 <= i < |all| :: more[i] == all[i];
    assert more[|all|] == candidate;
    if DistinctIdentifiers(more) {
      forall i, j | 0 <= i < j < |all| ensures Identifier(all[i]) != Identifier(all[j]) {
        assert Identifier(more[i]) != Identifier(more[j]);
      }
    }
  }

  predicate RecordFits(ledger: Ledger, candidate: Record, record: Record) {
    record.wellFormed && RelationsResolveWith(ledger, candidate, record)
  }

  lemma AllFit(ledger: Ledger, order: seq<Target>, candidate: Record)
    requires TypedLedger(ledger) && ListsDaily(ledger, order)
    ensures (forall p | 0 <= p < |AllRecords(ledger, order)| :: RecordFits(ledger, candidate, AllRecords(ledger, order)[p])) <==>
      forall t, i | t in ledger.files && 0 <= i < |ledger.files[t]| ::
        HasRecordAt(ledger, t, i) ==> RecordFits(ledger, candidate, RecordAt(ledger, t, i))
  {
    var all := AllRecords(ledger, order);
    if forall p | 0 <= p < |all| :: RecordFits(ledger, candidate, all[p]) {
      forall t, i | HasRecordAt(ledger, t, i) ensures RecordFits(ledger, candidate, RecordAt(ledger, t, i)) {
        var k :| 0 <= k < |order| && order[k] == t;
        PlaceInList(ledger, order, k, i);
      }
    } else {
      var p :| 0 <= p < |all| && !RecordFits(ledger, candidate, all[p]);
      var k, i := ListFromPlace(ledger, order, p);
      assert HasRecordAt(ledger, order[k], i);
    }
  }

  /** The report over all records and a candidate is empty exactly when the candidate fits the ledger. */
  lemma CleanIsRecordsOk(ledger: Ledger, order: seq<Target>, candidate: Record)
    requires TypedLedger(ledger) && ListsDaily(ledger, order)
    ensures Clean(AllRecords(ledger, order) + [candidate]) <==> RecordsOk(ledger, candidate)
  {
    var all := AllRecords(ledger, order);
    var more := all + [candidate];
    CleanMeans(more);
    CandidateDistinct(ledger, order, candidate);
    AllFit(ledger, order, candidate);
    forall id ensures id in KnownIds(more) <==> KnownWith(ledger, candidate, id) { KnownMore(ledger, order, candidate, id); }
    assert forall p | 0 <= p < |all| :: more[p] == all[p];
    assert more[|all|] == candidate;
    assert (forall p | 0 <= p < |more| :: RecordFits(ledger, candidate, more[p])) <==>
      (forall p | 0 <= p < |all| :: RecordFits(ledger, candidate, all[p])) && RecordFits(ledger, candidate, candidate);
  }

  // ----- The whole check of one candidate -----

  /** Each path with the digest of the last line that names it. */
  method PathTable(sources: seq<Line>) returns (byPath: map<string, string>)
    ensures forall path :: RegisteredSha(sources, path) == if path in byPath then Some(byPath[path]) else None
  {
    byPath := map[];
    for i := 0 to |sources|
      invariant forall path :: RegisteredSha(sources[..i], path) == if path in byPath then Some(byPath[path]) else None
    {
      assert sources[..i + 1][..i] == sources[..i];
      if sources[i].SourceLine? {
        byPath := byPath[sources[i].registration.path := sources[i].registration.sha];
      }
    }
    assert sources[..|sources|] == sources;
  }

  method SourcesResolve(sources: seq<Line>, artifacts: Artifacts, record: Record) returns (ok: bool)
    ensures ok <==> SourceRefsResolve(sources, artifacts, record)
  {
    var byPath := PathTable(sources);
    for i := 0 to |record.sourceRefs|
      invariant forall j | 0 <= j < i ::
        var ref := record.sourceRefs[j];
        var sha := RegisteredSha(sources, ref.path);
        && sha.Some? && (ref.pinned.Some? ==> ref.pinned == sha)
        && ref.path in artifacts.content && artifacts.content[ref.path] == sha.value
    {
      var ref := record.sourceRefs[i];
      if ref.path !in byPath { return false; }
      if ref.pinned.Some? && byPath[ref.path] != ref.pinned.value { return false; }
      if ref.path !in artifacts.content || artifacts.content[ref.path] != byPath[ref.path] { return false; }
    }
    return true;
  }

  predicate ApprovedIn(records: seq<Record>, record: Record, ref: string) {
    ref != "" && exists p | 0 <= p < |records| :: records[p].recordId == ref && ApprovalAllows(record, records[p])
  }

  /** The approvals by record ID, the last one of each ID; a list without repeated IDs loses nothing. */
  method ApprovalTable(records: seq<Record>) returns (byId: map<string, Record>)
    requires DistinctIdentifiers(records)
    ensures forall record, ref :: ApprovedIn(records, record, ref) <==> ref in byId && ApprovalAllows(record, byId[ref])
  {
    byId := map[];
    for i := 0 to |records|
      invariant forall ref :: ref in byId <==> ref != "" && exists p | 0 <= p < i :: records[p].recordId == ref
      invariant forall ref | ref in byId :: byId[ref] in records && byId[ref].recordId == ref
    {
      if records[i].recordId != "" { byId := byId[records[i].recordId := records[i]]; }
    }
    forall record, ref
      ensures ApprovedIn(records, record, ref) <==> ref in byId && ApprovalAllows(record, byId[ref])
    {
      if ref in byId {
        var p :| 0 <= p < |records| && records[p] == byId[ref];
        assert forall q | 0 <= q < |records| && records[q].recordId == ref :: Identifier(records[q]) == Identifier(records[p]);
      }
    }
  }

  /** No record of the list that this reference names is an approval that covers the candidate. */
  predicate NoneCovers(existing: seq<Record>, candidate: Record, ref: string) {
    forall p | 0 <= p < |existing| && existing[p].recordId == ref :: !Covers(existing[p], candidate)
  }

  lemma NoneCoversMeans(existing: seq<Record>, candidate: Record, ref: string)
    requires candidate.kind != "approval" && NoneCovers(existing, candidate, ref)
    ensures !ApprovedIn(existing + [candidate], candidate, ref)
  {
    var all := existing + [candidate];
    forall p | 0 <= p < |all| && all[p].recordId == ref ensures !ApprovalAllows(candidate, all[p]) {
      AllowsExactlyWhenCovers(candidate, all[p]);
    }
  }

  /** The verdict of the validator on one candidate after a list of existing records. */
  method ValidateCandidate(existing: seq<Record>, sources: seq<Line>, artifacts: Artifacts, candidate: Record) returns (ok: bool)
    ensures ok <==>
      && Clean(existing + [candidate])
      && SourceRefsResolve(sources, artifacts, candidate)
      && (candidate.kind != "approval" ==>
            forall ref | ref in candidate.approvalRefs :: ApprovedIn(existing + [candidate], candidate, ref))
    ensures forall ref | candidate.kind != "approval" && ref in candidate.approvalRefs && NoneCovers(existing, candidate, ref) :: !ok
  {
    forall ref | candidate.kind != "approval" && NoneCovers(existing, candidate, ref)
      ensures !ApprovedIn(existing + [candidate], candidate, ref)
    {
      NoneCoversMeans(existing, candidate, ref);
    }
    var combined := existing + [candidate];
    var issues := ValidateRecords(combined);
    if issues != [] {
      assert issues[0] in issues;
      return false;
    }
    CleanMeans(combined);
    ok := SourcesResolve(sources, artifacts, candidate);
    if ok && candidate.kind != "approval" {
      var approvals := ApprovalTable(combined);
      for i := 0 to |candidate.approvalRefs|
        invariant forall j | 0 <= j < i :: ApprovedIn(combined, candidate, candidate.approvalRefs[j])
      {
        var ref := candidate.approvalRefs[i];
        assert ref in candidate.approvalRefs;
        if ref !in approvals || !ApprovalAllows(candidate, approvals[ref]) { return false; }
      }
    }
  }

  lemma ApprovedInList(ledger: Ledger, order: seq<Target>, candidate: Record, ref: string)
    requires TypedLedger(ledger) && ListsDaily(ledger, order) && candidate.kind != "approval"
    ensures ApprovedIn(AllRecords(ledger, order) + [candidate], candidate, ref) <==> ApprovedBy(ledger, candidate, ref)
  {
    var all := AllRecords(ledger, order);
    var more := all + [candidate];
    if ApprovedIn(more, candidate, ref) {
      var p :| 0 <= p < |more| && more[p].recordId == ref && ApprovalAllows(candidate, more[p]);
      var k, i := ListFromPlace(ledger, order, p);
      assert HasRecordAt(ledger, order[k], i);
    }
    if ApprovedBy(ledger, candidate, ref) {
      var t, i :| t in ledger.files && 0 <= i < |ledger.files[t]| && HasRecordAt(ledger, t, i)
        && RecordAt(ledger, t, i).recordId == ref && ApprovalAllows(candidate, RecordAt(ledger, t, i));
      var k :| 0 <= k < |order| && order[k] == t;
      PlaceInList(ledger, order, k, i);
      assert more[Offset(ledger, order, k) + i] == RecordAt(ledger, t, i);
    }
  }

  /**
    The validator, run over the daily files in whatever order they are read, decides exactly the check that
    the protocol makes of a candidate.
   */
  lemma ValidatorDecidesCandidateOk(
    ledger: Ledger, order: seq<Target>, sources: seq<Line>, artifacts: Artifacts, candidate: Record)
    requires TypedLedger(ledger) && ListsDaily(ledger, order)
    ensures CandidateOk(ledger, sources, artifacts, candidate) <==>
      && Clean(AllRecords(ledger, order) + [candidate])
      && SourceRefsResolve(sources, artifacts, candidate)
      && (candidate.kind != "approval" ==> forall ref | ref in candidate.approvalRefs ::
            ApprovedIn(AllRecords(ledger, order) + [candidate], candidate, ref))
  {
    CleanIsRecordsOk(ledger, order, candidate);
    if candidate.kind != "approval" {
      forall ref ensures ApprovedIn(AllRecords(ledger, order) + [candidate], candidate, ref) <==> ApprovedBy(ledger, candidate, ref) {
        ApprovedInList(ledger, order, candidate, ref);
      }
    }
  }
}
