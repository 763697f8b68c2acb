/**
  The evidence gate of a server session: fetches leave a log, and a material claim is eligible only if its
  citations verify again now and no logged mismatch is passed over in silence.
 */
module SessionGate {
  import opened Common

  const MAX_FETCH_LINES: int := 500
  const SESSION_FETCH_LOG_LIMIT: nat := 500

  // ----- What a fetch finds -----

  /** One row of the index: an event's exact source locator. */
  datatype Locator = Locator(eventId: string, path: string, sha: string, start: int, end: int)

  datatype SourceFile = SourceFile(sha: string, lines: nat)

  /** The index and the files at one moment; `files` holds those that may be read. */
  datatype World = World(
    indexCurrent: bool, locators: set<Locator>, registered: set<(string, string)>, files: map<string, SourceFile>)

  datatype FetchArgs = FetchArgs(
    path: string, start: int, end: Option<int>, context: int, eventId: Option<string>, expected: Option<string>)

  datatype Fetched = Fetched(
    eventId: Option<string>, path: string, start: int, end: int, expected: string, current: string, rangeValid: bool)
  {
    predicate Matched() { expected == current }
  }

  /** The hashes registered for a path, or for a path of one event. */
  function Hashes(w: World, path: string, eventId: Option<string>): set<string> {
    match eventId
    case None => set source | source in w.registered && source.0 == path :: source.1
    case Some(id) => set row | row in w.locators && row.eventId == id && row.path == path && (path, row.sha) in w.registered :: row.sha
  }

  /** The ends of the locators of an event that begin at `start`. */
  function Ends(w: World, path: string, id: string, sha: string, start: int, end: Option<int>): set<int> {
    set row | row in w.locators && row.eventId == id && row.path == path && row.sha == sha && row.start == start
              && (end.None? || row.end == end.value) :: row.end
  }

  lemma OneElement<T>(s: set<T>)
    requires |s| == 1
    ensures exists x :: s == {x}
    ensures forall x, y | x in s && y in s :: x == y
  {
    var x :| x in s;
    assert s == {x} by { assert |s - {x}| == 0; }
  }

  /** The only element of a set, if it has exactly one. */
  function Only<T(==, !new)>(s: set<T>): (r: Option<T>)
    ensures forall x :: r == Some(x) <==> s == {x}
  {
    if |s| == 1 then
      OneElement(s);
      var x :| x in s;
      Some(x)
    else None
  }

  function Larger(a: int, b: int): int { if a < b then b else a }
  function Smaller(a: int, b: int): int { if a < b then a else b }

  /** The fetch as a function of what it finds; none when it raises. */
  function Fetch(w: World, a: FetchArgs): Option<Fetched> {
    if a.start < 1 || (a.end.Some? && a.end.value < a.start) || a.eventId == Some("") || !w.indexCurrent then None
    else
      var hashes := Hashes(w, a.path, a.eventId);
      var expected := if a.expected.None? then Only(hashes) else if a.expected.value in hashes then a.expected else None;
      if expected.None? then None else FetchRange(w, a, expected.value)
  }

  function FetchRange(w: World, a: FetchArgs, expected: string): Option<Fetched> {
    var end :=
      match a.eventId
      case Some(id) => Only(Ends(w, a.path, id, expected, a.start, a.end))
      case None => Some(if a.end.Some? then a.end.value else a.start + 40);
    if end.None? || end.value < a.start then None else FetchFile(w, a, expected, end.value)
  }

  function FetchFile(w: World, a: FetchArgs, expected: string, end: int): Option<Fetched> {
    var context := Larger(0, Smaller(a.context, 50));
    if end + context - Larger(1, a.start - context) + 1 > MAX_FETCH_LINES || a.path !in w.files then None
    else
      var file := w.files[a.path];
      var last := if a.eventId.None? && a.end.None? then Smaller(end, file.lines) else end;
      var valid := 1 <= a.start <= last <= file.lines;
      if !valid && expected == file.sha then None
      else Some(Fetched(a.eventId, a.path, a.start, last, expected, file.sha, valid))
  }

  // ----- Citations -----

  /** A field of a citation: absent or null, a string, or something else. */
  datatype Text = Null | Text(value: string) | OtherText
  datatype Line = Number(value: int) | OtherLine

  datatype Citation =
    | NotAnObject
    | Citation(eventId: Text, path: Text, start: Line, end: Line, expected: Text, unexpected: bool)

  /** The fields of a citation that may be fetched at all. */
  predicate Complete(c: Citation) {
    && c.Citation? && !c.unexpected
    && c.eventId.Text? && c.eventId.value != "" && c.path.Text? && c.path.value != ""
    && c.start.Number? && c.start.value >= 1 && c.end.Number? && c.end.value >= c.start.value
    && c.expected.Text? && |c.expected.value| == 64
  }

  function ArgsOf(c: Citation): FetchArgs
    requires Complete(c)
  {
    FetchArgs(c.path.value, c.start.value, Some(c.end.value), 0, Some(c.eventId.value), Some(c.expected.value))
  }

  /** The citation names one registered locator exactly, and the file still is the registered revision. */
  predicate Verifies(w: World, c: Citation) {
    && Complete(c) && w.indexCurrent
    && Locator(c.eventId.value, c.path.value, c.expected.value, c.start.value, c.end.value) in w.locators
    && (c.path.value, c.expected.value) in w.registered
    && c.path.value in w.files && w.files[c.path.value].sha == c.expected.value
    && c.end.value <= w.files[c.path.value].lines && c.end.value - c.start.value < MAX_FETCH_LINES
  }

  predicate FetchVerifies(f: Option<Fetched>) {
    f.Some? && f.value.Matched() && f.value.eventId.Some? && f.value.rangeValid
  }

  lemma ExactEnd(w: World, c: Citation)
    requires Complete(c)
    ensures var row := Locator(c.eventId.value, c.path.value, c.expected.value, c.start.value, c.end.value);
      Only(Ends(w, c.path.value, c.eventId.value, c.expected.value, c.start.value, Some(c.end.value)))
      == if row in w.locators then Some(c.end.value) else None
  {
    var row := Locator(c.eventId.value, c.path.value, c.expected.value, c.start.value, c.end.value);
    var ends := Ends(w, c.path.value, c.eventId.value, c.expected.value, c.start.value, Some(c.end.value));
    if row in w.locators {
      assert ends == {c.end.value};
    } else {
      assert ends == {};
    }
  }

  /** A fetch of the cited reference is verified exactly when the reference is registered and the file unchanged. */
  lemma FetchVerifiesExactly(w: World, c: Citation)
    requires Complete(c)
    ensures FetchVerifies(Fetch(w, ArgsOf(c))) <==> Verifies(w, c)
  {
    var a := ArgsOf(c);
    ExactEnd(w, c);
    var row := Locator(c.eventId.value, c.path.value, c.expected.value, c.start.value, c.end.value);
    if row in w.locators && (c.path.value, c.expected.value) in w.registered {
      assert row.sha in Hashes(w, a.path, a.eventId);
    }
    if c.expected.value in Hashes(w, a.path, a.eventId) {
      assert (c.path.value, c.expected.value) in w.registered;
    }
  }

  // ----- The log -----

  datatype Entry = Entry(eventId: Option<string>, path: string, start: int, end: int, expected: string, mismatched: bool)

  function EntryOf(f: Fetched): Entry {
    Entry(f.eventId, f.path, f.start, f.end, f.expected, !f.Matched())
  }

  /** A fetch that returns is logged as long as there is room. */
  function Logged(log: seq<Entry>, f: Option<Fetched>): seq<Entry> {
    if f.Some? && |log| < SESSION_FETCH_LOG_LIMIT then log + [EntryOf(f.value)] else log
  }

  /** The citation counts as citing the logged fetch: by its event, or by its path when neither has an event. */
  predicate Cites(c: Citation, entry: Entry) {
    c.Citation?
    && match entry.eventId
       case Some(id) => c.eventId == Text(id)
       case None => c.eventId == Null && c.path == Text(entry.path)
  }

  predicate IsCited(evidence: seq<Citation>, entry: Entry) {
    exists i | 0 <= i < |evidence| :: Cites(evidence[i], entry)
  }

  predicate SameKey(a: Entry, b: Entry) {
    a.eventId == b.eventId && a.path == b.path
  }

  predicate ListsKey(entries: seq<Entry>, entry: Entry) {
    exists i | 0 <= i < |entries| :: SameKey(entries[i], entry)
  }

  lemma ListsMore(entries: seq<Entry>, more: Entry)
    ensures forall entry: Entry :: ListsKey(entries + [more], entry) <==> ListsKey(entries, entry) || SameKey(more, entry)
  {
    var all := entries + [more];
    forall entry: Entry ensures ListsKey(all, entry) <==> ListsKey(entries, entry) || SameKey(more, entry) {
      assert all[|entries|] == more;
      if i :| 0 <= i < |entries| && SameKey(entries[i], entry) { assert all[i] == entries[i]; }
    }
  }

  predicate NothingOmitted(evidence: seq<Citation>, log: seq<Entry>) {
    forall i | 0 <= i < |log| :: log[i].mismatched ==> IsCited(evidence, log[i])
  }

  // ----- The plan -----

  datatype ClaimType = Factual | ResultClaim | Comparative | Causal | Release | Recommendation | Creative
  datatype Materiality = Auto | Routine | Material

  predicate Active(claim: ClaimType, materiality: Materiality) {
    materiality.Material? || (materiality.Auto? && (claim.ResultClaim? || claim.Comparative? || claim.Causal? || claim.Release?))
  }

  function Minimum(claim: ClaimType, materiality: Materiality): nat {
    if !Active(claim, materiality) then 0
    else if claim.Comparative? || claim.Causal? || claim.Release? then 2 else 1
  }

  datatype Status = NotRequired | Eligible | Blocked

  /** What the evaluation sees of one resolved citation. */
  datatype CheckResult = CheckResult(eventId: Option<string>, verified: bool)

  function Events(checks: seq<CheckResult>): set<string> {
    set i | 0 <= i < |checks| && checks[i].eventId.Some? && checks[i].eventId.value != "" :: checks[i].eventId.value
  }

  /** The loop over the checks: blockers for what is not verified, and the distinct events. */
  method Evaluate(claim: ClaimType, materiality: Materiality, checks: seq<CheckResult>) returns (status: Status, blockers: nat)
    ensures status == NotRequired <==> !Active(claim, materiality)
    ensures status == NotRequired <==>
      materiality == Routine || (materiality == Auto && (claim == Factual || claim == Recommendation || claim == Creative))
    ensures status == Eligible <==>
      && Active(claim, materiality)
      && (forall i | 0 <= i < |checks| :: checks[i].verified)
      && |Events(checks)| >= Minimum(claim, materiality)
    ensures status == Eligible ==> blockers == 0
    ensures status == Blocked <==> Active(claim, materiality) && blockers > 0
  {
    blockers := 0;
    var distinct: set<string> := {};
    for i := 0 to |checks|
      invariant distinct == Events(checks[..i])
      invariant blockers == 0 <==> forall j | 0 <= j < i :: checks[j].verified
    {
      EventsMore(checks, i);
      if checks[i].eventId.Some? && checks[i].eventId.value != "" {
        distinct := distinct + {checks[i].eventId.value};
      }
      if !checks[i].verified { blockers := blockers + 1; }
    }
    assert checks[..|checks|] == checks;
    if !Active(claim, materiality) {
      return NotRequired, 0;
    }
    if |distinct| < Minimum(claim, materiality) { blockers := blockers + 1; }
    status := if blockers > 0 then Blocked else Eligible;
  }

  lemma EventsMore(checks: seq<CheckResult>, i: nat)
    requires i < |checks|
    ensures Events(checks[..i + 1]) == Events(checks[..i]) + (
      if checks[i].eventId.Some? && checks[i].eventId.value != "" then {checks[i].eventId.value} else {})
  {
    var before, after := checks[..i], checks[..i + 1];
    assert after[i] == checks[i];
    forall id ensures id in Events(after) <==> id in Events(before) || (checks[i].eventId == Some(id) && id != "") {
      if id in Events(before) {
        var j :| 0 <= j < |before| && before[j].eventId.Some? && before[j].eventId.value == id && id != "";
        assert after[j].eventId.value == id;
      }
    }
  }

  // ----- The session as a function -----

  /** One call of a session: a fetch, or a claim whose citations are looked up one after the other. */
  datatype Call =
    | FetchCall(world: World, args: FetchArgs)
    | ClaimCall(claim: ClaimType, materiality: Materiality, evidence: seq<Citation>, worlds: seq<World>)

  predicate CallOk(call: Call) {
    call.ClaimCall? ==> |call.worlds| == |call.evidence|
  }

  function CheckOf(w: World, c: Citation): CheckResult {
    if !Complete(c) then CheckResult(None, false)
    else CheckResult(Some(c.eventId.value), FetchVerifies(Fetch(w, ArgsOf(c))))
  }

  function LogCheck(log: seq<Entry>, w: World, c: Citation): seq<Entry> {
    if !Complete(c) then log else Logged(log, Fetch(w, ArgsOf(c)))
  }

  /** The log after the first `n` citations of a claim were fetched. */
  function LogChecks(log: seq<Entry>, worlds: seq<World>, evidence: seq<Citation>, n: nat): seq<Entry>
    requires n <= |evidence| == |worlds|
  {
    if n == 0 then log else LogCheck(LogChecks(log, worlds, evidence, n - 1), worlds[n - 1], evidence[n - 1])
  }

  function LogAfter(log: seq<Entry>, call: Call): seq<Entry>
    requires CallOk(call)
  {
    match call
    case FetchCall(world, args) => Logged(log, Fetch(world, args))
    case ClaimCall(_, _, evidence, worlds) => LogChecks(log, worlds, evidence, |evidence|)
  }

  function CitedEvents(evidence: seq<Citation>): set<string> {
    set i | 0 <= i < |evidence| && evidence[i].Citation? && evidence[i].eventId.Text? :: evidence[i].eventId.value
  }

  /**
    The meaning of `eligible`: the claim is material, every citation verifies in the world of this very call,
    enough distinct events are cited, and every mismatched fetch in the log is cited.
   */
  predicate EligibleNow(log: seq<Entry>, call: Call)
    requires CallOk(call) && call.ClaimCall?
  {
    && Active(call.claim, call.materiality)
    && (forall i | 0 <= i < |call.evidence| :: Verifies(call.worlds[i], call.evidence[i]))
    && |CitedEvents(call.evidence)| >= Minimum(call.claim, call.materiality)
    && NothingOmitted(call.evidence, LogAfter(log, call))
  }

  // ----- The session object -----

  class Session {
    var log: seq<Entry>

    constructor ()
      ensures log == []
    {
      log := [];
    }

    method RecordSessionFetch(entry: Entry)
      modifies this
      ensures log == if |old(log)| < SESSION_FETCH_LOG_LIMIT then old(log) + [entry] else old(log)
    {
      if |log| < SESSION_FETCH_LOG_LIMIT { log := log + [entry]; }
    }

    method MemoryFetchEvidence(w: World, a: FetchArgs) returns (r: Option<Fetched>)
      modifies this
      ensures r == Fetch(w, a) && log == Logged(old(log), r)
    {
      r := Fetch(w, a);
      if r.Some? { RecordSessionFetch(EntryOf(r.value)); }
    }

    /** One citation, resolved by a fetch of exactly that reference. */
    method ClaimEvidenceCheck(w: World, c: Citation) returns (check: CheckResult)
      modifies this
      ensures check == CheckOf(w, c) && log == LogCheck(old(log), w, c)
      ensures check.verified <==> Verifies(w, c)
      ensures check.verified ==> check.eventId == Some(c.eventId.value)
    {
      if !c.Citation? || c.unexpected {
        return CheckResult(None, false);
      }
      if !c.eventId.Text? || c.eventId.value == "" || !c.path.Text? || c.path.value == "" {
        return CheckResult(None, false);
      }
      if !c.start.Number? || c.start.value < 1 || !c.end.Number? || c.end.value < c.start.value {
        return CheckResult(None, false);
      }
      if !c.expected.Text? || |c.expected.value| != 64 {
        return CheckResult(None, false);
      }
      FetchVerifiesExactly(w, c);
      var fetched := MemoryFetchEvidence(w, ArgsOf(c));
      return CheckResult(Some(c.eventId.value), FetchVerifies(fetched));
    }

    /** The mismatched fetches that no citation covers, each event and path once. */
    method OmittedMismatchedFetches(evidence: seq<Citation>) returns (omitted: seq<Entry>)
      ensures omitted == [] <==> NothingOmitted(evidence, log)
      ensures forall entry | entry in omitted :: entry in log && entry.mismatched && !IsCited(evidence, entry)
      ensures forall entry | entry in log && entry.mismatched && !IsCited(evidence, entry) :: ListsKey(omitted, entry)
      ensures forall i, j | 0 <= i < j < |omitted| :: !SameKey(omitted[i], omitted[j])
    {
      omitted := [];
      var seen: set<(Option<string>, string)> := {};
      for i := 0 to |log|
        invariant forall entry | entry in omitted :: entry in log && entry.mismatched && !IsCited(evidence, entry)
        invariant forall entry: Entry :: (entry.eventId, entry.path) in seen <==> ListsKey(omitted, entry)
        invariant forall j | 0 <= j < i && log[j].mismatched && !IsCited(evidence, log[j]) :: ListsKey(omitted, log[j])
        invariant forall j, k | 0 <= j < k < |omitted| :: !SameKey(omitted[j], omitted[k])
      {
        var entry := log[i];
        var key := (entry.eventId, entry.path);
        if entry.mismatched && key !in seen && !IsCited(evidence, entry) {
          ListsMore(omitted, entry);
          seen := seen + {key};
          omitted := omitted + [entry];
        }
      }
      if omitted != [] { assert omitted[0] in omitted; }
    }

    /** Every citation is fetched again, one after the other, each in the world as it then is. */
    method CheckAll(evidence: seq<Citation>, worlds: seq<World>) returns (checks: seq<CheckResult>)
      requires |worlds| == |evidence|
      modifies this
      ensures |checks| == |evidence| && log == LogChecks(old(log), worlds, evidence, |evidence|)
      ensures forall i | 0 <= i < |evidence| :: checks[i].verified <==> Verifies(worlds[i], evidence[i])
      ensures forall i | 0 <= i < |evidence| :: checks[i].verified ==> Complete(evidence[i]) && checks[i].eventId == Some(evidence[i].eventId.value)
    {
      checks := [];
      for i := 0 to |evidence|
        invariant |checks| == i && log == LogChecks(old(log), worlds, evidence, i)
        invariant forall j | 0 <= j < i :: checks[j].verified <==> Verifies(worlds[j], evidence[j])
        invariant forall j | 0 <= j < i :: checks[j].verified ==> Complete(evidence[j]) && checks[j].eventId == Some(evidence[j].eventId.value)
      {
        var check := ClaimEvidenceCheck(worlds[i], evidence[i]);
        checks := checks + [check];
      }
    }

    /** The receipt: the evaluation of the fresh checks, blocked when a logged mismatch is passed over. */
    method EvidenceEligibilityReceipt(
      claim: ClaimType, materiality: Materiality, evidence: seq<Citation>, worlds: seq<World>) returns (status: Status)
      requires |worlds| == |evidence|
      modifies this
      ensures log == LogAfter(old(log), ClaimCall(claim, materiality, evidence, worlds))
      ensures status == Eligible <==> EligibleNow(old(log), ClaimCall(claim, materiality, evidence, worlds))
      ensures status == NotRequired <==> !Active(claim, materiality)
    {
      var checks := CheckAll(evidence, worlds);
      var blockers;
      status, blockers := Evaluate(claim, materiality, checks);
      if forall i | 0 <= i < |checks| :: checks[i].verified { VerifiedEvents(checks, evidence); }
      var omitted := OmittedMismatchedFetches(evidence);
      if omitted != [] && status == Eligible { status := Blocked; }
    }
  }

  lemma VerifiedEvents(checks: seq<CheckResult>, evidence: seq<Citation>)
    requires |checks| == |evidence|
    requires forall i | 0 <= i < |evidence| :: Complete(evidence[i]) && checks[i].eventId == Some(evidence[i].eventId.value)
    ensures Events(checks) == CitedEvents(evidence)
  {
    forall id ensures id in Events(checks) <==> id in CitedEvents(evidence) {
      if id in CitedEvents(evidence) {
        var i :| 0 <= i < |evidence| && evidence[i].Citation? && evidence[i].eventId.Text? && evidence[i].eventId.value == id;
        assert checks[i].eventId.value == id;
      }
    }
  }

  // ----- Whole sessions -----

  predicate SessionOk(calls: seq<Call>) {
    forall i | 0 <= i < |calls| :: CallOk(calls[i])
  }

  /** The log before the n-th call. */
  function LogBefore(calls: seq<Call>, n: nat): seq<Entry>
    requires SessionOk(calls) && n <= |calls|
  {
    if n == 0 then [] else LogAfter(LogBefore(calls, n - 1), calls[n - 1])
  }

  lemma {:induction false} ChecksExtendLog(log: seq<Entry>, worlds: seq<World>, evidence: seq<Citation>, n: nat)
    requires n <= |evidence| == |worlds|
    ensures log <= LogChecks(log, worlds, evidence, n)
    ensures |log| >= SESSION_FETCH_LOG_LIMIT ==> LogChecks(log, worlds, evidence, n) == log
  {
    if n > 0 { ChecksExtendLog(log, worlds, evidence, n - 1); }
  }

  /** The log only grows. */
  lemma {:induction false} LogGrows(calls: seq<Call>, n: nat, m: nat)
    requires SessionOk(calls) && n <= m <= |calls|
    ensures LogBefore(calls, n) <= LogBefore(calls, m)
    decreases m
  {
    if n < m {
      LogGrows(calls, n, m - 1);
      var call := calls[m - 1];
      if call.ClaimCall? { ChecksExtendLog(LogBefore(calls, m - 1), call.worlds, call.evidence, |call.evidence|); }
    }
  }

  /** The log a call leaves is the log before the next one. */
  lemma CallExtendsLog(calls: seq<Call>, n: nat)
    requires SessionOk(calls) && n < |calls|
    ensures LogBefore(calls, n) <= LogAfter(LogBefore(calls, n), calls[n]) == LogBefore(calls, n + 1)
  {
    LogGrows(calls, n, n + 1);
  }

  /**
    Over any session: a claim is found eligible only if it cites the event of every mismatch logged before it,
    and no mismatch without an event was ever logged.
   */
  lemma EligibleCitesEveryLoggedMismatch(calls: seq<Call>, n: nat, entry: Entry)
    requires SessionOk(calls) && n < |calls| && calls[n].ClaimCall?
    requires EligibleNow(LogBefore(calls, n), calls[n])
    requires entry in LogBefore(calls, n + 1) && entry.mismatched
    ensures entry.eventId.Some?
    ensures exists i | 0 <= i < |calls[n].evidence| ::
      Verifies(calls[n].worlds[i], calls[n].evidence[i]) && calls[n].evidence[i].eventId == Text(entry.eventId.value)
  {
    CallExtendsLog(calls, n);
    var log := LogAfter(LogBefore(calls, n), calls[n]);
    var k :| 0 <= k < |log| && log[k] == entry;
    var i :| 0 <= i < |calls[n].evidence| && Cites(calls[n].evidence[i], entry);
    assert Verifies(calls[n].worlds[i], calls[n].evidence[i]);
  }

  /** A mismatch without an event that was once logged blocks every later material claim of the session. */
  lemma EventlessMismatchBlocksForGood(calls: seq<Call>, m: nat, n: nat, entry: Entry)
    requires SessionOk(calls) && m <= n < |calls| && calls[n].ClaimCall?
    requires entry in LogBefore(calls, m) && entry.mismatched && entry.eventId.None?
    ensures !EligibleNow(LogBefore(calls, n), calls[n])
  {
    LogGrows(calls, m, n + 1);
    if EligibleNow(LogBefore(calls, n), calls[n]) {
      EligibleCitesEveryLoggedMismatch(calls, n, entry);
    }
  }

  /**
    Whether a mismatched fetch binds later claims is decided by the room in the log: with room it is in every
    later log; without, the log and so every later verdict is as if it had not happened.
   */
  lemma MismatchBindsExactlyWithRoom(calls: seq<Call>, m: nat, n: nat)
    requires SessionOk(calls) && m < n <= |calls| && calls[m].FetchCall?
    requires Fetch(calls[m].world, calls[m].args).Some?
    ensures |LogBefore(calls, m)| < SESSION_FETCH_LOG_LIMIT ==>
      EntryOf(Fetch(calls[m].world, calls[m].args).value) in LogBefore(calls, n)
    ensures |LogBefore(calls, m)| >= SESSION_FETCH_LOG_LIMIT ==> LogBefore(calls, n) == LogBefore(calls, m)
  {
    LogGrows(calls, m + 1, n);
    var f := Fetch(calls[m].world, calls[m].args).value;
    if |LogBefore(calls, m)| < SESSION_FETCH_LOG_LIMIT {
      assert LogBefore(calls, m + 1) == LogBefore(calls, m) + [EntryOf(f)];
      assert LogBefore(calls, m + 1)[|LogBefore(calls, m)|] == EntryOf(f);
      assert LogBefore(calls, n)[|LogBefore(calls, m)|] == EntryOf(f);
    } else {
      FullLogStays(calls, m, n);
    }
  }

  lemma {:induction false} FullLogStays(calls: seq<Call>, m: nat, n: nat)
    requires SessionOk(calls) && m <= n <= |calls| && |LogBefore(calls, m)| >= SESSION_FETCH_LOG_LIMIT
    ensures LogBefore(calls, n) == LogBefore(calls, m)
    decreases n
  {
    if m < n {
      FullLogStays(calls, m, n - 1);
      var call := calls[n - 1];
      if call.ClaimCall? { ChecksExtendLog(LogBefore(calls, n - 1), call.worlds, call.evidence, |call.evidence|); }
    }
  }

  // ----- Sessions in the words of the files -----

  /** A hash that the index has for the fetched path, and for the event if one is named. */
  predicate IsRegistered(w: World, a: FetchArgs, sha: string) {
    && (a.path, sha) in w.registered
    && (a.eventId.Some? ==> exists row | row in w.locators :: row.eventId == a.eventId.value && row.path == a.path && row.sha == sha)
  }

  /** The hash that a fetch goes by: the one it asks for, or the only registered one. */
  ghost predicate Expects(w: World, a: FetchArgs, sha: string) {
    && IsRegistered(w, a, sha)
    && (a.expected == Some(sha) || (a.expected == None && forall other | IsRegistered(w, a, other) :: other == sha))
  }

  lemma HashesAreRegistered(w: World, a: FetchArgs, sha: string)
    ensures sha in Hashes(w, a.path, a.eventId) <==> IsRegistered(w, a, sha)
  {
    if a.eventId.Some? && IsRegistered(w, a, sha) {
      var row :| row in w.locators && row.eventId == a.eventId.value && row.path == a.path && row.sha == sha;
      assert row.sha in Hashes(w, a.path, a.eventId);
    }
    if a.eventId.None? && IsRegistered(w, a, sha) { assert (a.path, sha).1 in Hashes(w, a.path, None); }
  }

  /** What an accepted fetch returns of its request, of the index and of the file. */
  lemma FetchedIsExpected(w: World, a: FetchArgs)
    requires Fetch(w, a).Some?
    ensures var f := Fetch(w, a).value;
      && f.eventId == a.eventId && f.path == a.path && f.start == a.start
      && a.path in w.files && f.current == w.files[a.path].sha
      && forall sha :: Expects(w, a, sha) <==> sha == f.expected
  {
    var f := Fetch(w, a).value;
    var hashes := Hashes(w, a.path, a.eventId);
    forall sha ensures sha in hashes <==> IsRegistered(w, a, sha) { HashesAreRegistered(w, a, sha); }
    if a.expected.None? { assert hashes == {f.expected}; }
  }

  /** Where a fetch without an event ends: at the line it names, or forty lines on, but then within the file. */
  function EventlessEnd(a: FetchArgs, lines: nat): int {
    if a.end.Some? then a.end.value else if a.start + 40 <= lines then a.start + 40 else lines
  }

  /** The lines to be shown around it are at most 500; the range is counted before it is cut to the file. */
  predicate EventlessRangeFits(a: FetchArgs) {
    var around := if a.context < 0 then 0 else if a.context > 50 then 50 else a.context;
    var first := if a.start - around < 1 then 1 else a.start - around;
    (if a.end.Some? then a.end.value else a.start + 40) + around - first + 1 <= 500
  }

  /**
    A fetch without an event is accepted exactly when its range is sane, the index current, one hash is meant, the
    file is there, and the lines are in it if it is the registered revision; it returns them with both hashes.
   */
  lemma EventlessFetchExactly(w: World, a: FetchArgs, sha: string)
    requires a.eventId.None?
    ensures (Fetch(w, a).Some? && Fetch(w, a).value.expected == sha) <==>
      && a.start >= 1 && (a.end.Some? ==> a.end.value >= a.start) && w.indexCurrent && Expects(w, a, sha)
      && a.path in w.files && EventlessRangeFits(a)
      && (w.files[a.path].sha == sha ==> a.start <= EventlessEnd(a, w.files[a.path].lines) <= w.files[a.path].lines)
    ensures Fetch(w, a).Some? ==>
      var f := Fetch(w, a).value;
      && f.end == EventlessEnd(a, w.files[a.path].lines)
      && (f.rangeValid <==> a.start <= f.end <= w.files[a.path].lines)
  {
    var hashes := Hashes(w, a.path, a.eventId);
    forall other ensures other in hashes <==> IsRegistered(w, a, other) { HashesAreRegistered(w, a, other); }
    if Expects(w, a, sha) && a.expected.None? { assert hashes == {sha}; }
    if Fetch(w, a).Some? { FetchedIsExpected(w, a); }
  }

  /** No citation names the event; a fetch without an event is named by none that can verify. */
  predicate PassesOver(evidence: seq<Citation>, eventId: Option<string>) {
    eventId.Some? ==> forall i | 0 <= i < |evidence| :: !(evidence[i].Citation? && evidence[i].eventId == Text(eventId.value))
  }

  /**
    A fetch, with or without an event, finds a file that no longer is what the index registered, while the log has
    room. Every later claim that passes over it is not eligible, and after one without an event no claim is.
   */
  lemma ChangedFileBindsLaterClaims(calls: seq<Call>, m: nat, n: nat, sha: string)
    requires SessionOk(calls) && m < n < |calls| && calls[m].FetchCall? && calls[n].ClaimCall?
    requires Fetch(calls[m].world, calls[m].args).Some? && Expects(calls[m].world, calls[m].args, sha)
    requires calls[m].args.path in calls[m].world.files && calls[m].world.files[calls[m].args.path].sha != sha
    requires |LogBefore(calls, m)| < SESSION_FETCH_LOG_LIMIT
    requires PassesOver(calls[n].evidence, calls[m].args.eventId)
    ensures !EligibleNow(LogBefore(calls, n), calls[n])
  {
    var f := Fetch(calls[m].world, calls[m].args).value;
    FetchedIsExpected(calls[m].world, calls[m].args);
    MismatchBindsExactlyWithRoom(calls, m, n);
    CallExtendsLog(calls, n);
    assert EntryOf(f) in LogBefore(calls, n + 1);
    if EligibleNow(LogBefore(calls, n), calls[n]) { EligibleCitesEveryLoggedMismatch(calls, n, EntryOf(f)); }
  }

  predicate SameMismatches(a: seq<Entry>, b: seq<Entry>) {
    (forall i | 0 <= i < |a| && a[i].mismatched :: a[i] in b) && (forall i | 0 <= i < |b| && b[i].mismatched :: b[i] in a)
  }

  lemma SameMismatchesOmitAlike(a: seq<Entry>, b: seq<Entry>, evidence: seq<Citation>)
    requires SameMismatches(a, b)
    ensures NothingOmitted(evidence, a) <==> NothingOmitted(evidence, b)
  {
    if NothingOmitted(evidence, a) {
      forall i | 0 <= i < |b| && b[i].mismatched ensures IsCited(evidence, b[i]) {
        var j :| 0 <= j < |a| && a[j] == b[i];
      }
    }
    if NothingOmitted(evidence, b) {
      forall i | 0 <= i < |a| && a[i].mismatched ensures IsCited(evidence, a[i]) {
        var j :| 0 <= j < |b| && b[j] == a[i];
      }
    }
  }

  /** The fetches of citations that verify log no mismatch. */
  lemma {:induction false} VerifiedChecksAddNoMismatch(log: seq<Entry>, worlds: seq<World>, evidence: seq<Citation>, n: nat)
    requires n <= |evidence| == |worlds| && forall i | 0 <= i < n :: Verifies(worlds[i], evidence[i])
    ensures SameMismatches(LogChecks(log, worlds, evidence, n), log)
  {
    if n > 0 {
      VerifiedChecksAddNoMismatch(log, worlds, evidence, n - 1);
      FetchVerifiesExactly(worlds[n - 1], evidence[n - 1]);
    }
  }

  /** A fetch that finds what the index registered blocks no claim. */
  lemma IntactFetchBlocksNothing(log: seq<Entry>, w: World, a: FetchArgs, sha: string, call: Call)
    requires Fetch(w, a).Some? && Expects(w, a, sha) && a.path in w.files && w.files[a.path].sha == sha
    requires CallOk(call) && call.ClaimCall?
    ensures EligibleNow(LogAfter(log, FetchCall(w, a)), call) <==> EligibleNow(log, call)
  {
    FetchedIsExpected(w, a);
    var more := LogAfter(log, FetchCall(w, a));
    assert SameMismatches(more, log);
    if forall i | 0 <= i < |call.evidence| :: Verifies(call.worlds[i], call.evidence[i]) {
      var n := |call.evidence|;
      VerifiedChecksAddNoMismatch(log, call.worlds, call.evidence, n);
      VerifiedChecksAddNoMismatch(more, call.worlds, call.evidence, n);
      SameMismatchesOmitAlike(LogChecks(log, call.worlds, call.evidence, n), log, call.evidence);
      SameMismatchesOmitAlike(LogChecks(more, call.worlds, call.evidence, n), more, call.evidence);
      SameMismatchesOmitAlike(more, log, call.evidence);
    }
  }

  /** A comparison, a cause or a release is eligible only with two verified citations of different events. */
  lemma TwoEventsForStrongClaims(log: seq<Entry>, call: Call)
    requires CallOk(call) && call.ClaimCall? && EligibleNow(log, call)
    ensures |call.evidence| >= 1
    ensures call.claim.Comparative? || call.claim.Causal? || call.claim.Release? ==>
      exists i, j | 0 <= i < j < |call.evidence| ::
        && Verifies(call.worlds[i], call.evidence[i]) && Verifies(call.worlds[j], call.evidence[j])
        && call.evidence[i].eventId != call.evidence[j].eventId
  {
    var events := CitedEvents(call.evidence);
    var a :| a in events;
    var i :| 0 <= i < |call.evidence| && call.evidence[i].Citation? && call.evidence[i].eventId == Text(a);
    if call.claim.Comparative? || call.claim.Causal? || call.claim.Release? {
      assert |events - {a}| >= 1;
      var b :| b in events - {a};
      var j :| 0 <= j < |call.evidence| && call.evidence[j].Citation? && call.evidence[j].eventId == Text(b);
      assert Verifies(call.worlds[i], call.evidence[i]) && Verifies(call.worlds[j], call.evidence[j]);
      assert call.evidence[i].eventId != call.evidence[j].eventId;
      if j < i { assert call.evidence[j].eventId != call.evidence[i].eventId; }
    }
  }

  // ----- The limit of the log matters -----

  /** Two events with one source each: the first is intact, the file of the second has changed. */
  function TwoEvents(sha: string, changed: string): World {
    World(true, {Locator("kept", "a", sha, 1, 1), Locator("lost", "b", sha, 1, 1)}, {("a", sha), ("b", sha)},
      map["a" := SourceFile(sha, 1), "b" := SourceFile(changed, 1)])
  }

  function Cite(id: string, path: string, sha: string): Citation {
    Citation(Text(id), Text(path), Number(1), Number(1), Text(sha), false)
  }

  /** `n` fetches of the intact event, one of the changed one, and then a claim that cites only the intact one. */
  function LongSession(n: nat, sha: string, changed: string): (calls: seq<Call>)
    requires |sha| == 64
    ensures |calls| == n + 2 && SessionOk(calls)
    ensures forall i | 0 <= i < n :: calls[i] == FetchCall(TwoEvents(sha, changed), ArgsOf(Cite("kept", "a", sha)))
    ensures calls[n] == FetchCall(TwoEvents(sha, changed), ArgsOf(Cite("lost", "b", sha)))
    ensures calls[n + 1] == ClaimCall(ResultClaim, Auto, [Cite("kept", "a", sha)], [TwoEvents(sha, changed)])
  {
    seq(n, i requires 0 <= i => FetchCall(TwoEvents(sha, changed), ArgsOf(Cite("kept", "a", sha))))
    + [FetchCall(TwoEvents(sha, changed), ArgsOf(Cite("lost", "b", sha))),
       ClaimCall(ResultClaim, Auto, [Cite("kept", "a", sha)], [TwoEvents(sha, changed)])]
  }

  lemma BothFetches(sha: string, changed: string)
    requires |sha| == 64 && sha != changed
    ensures var w := TwoEvents(sha, changed);
      && Fetch(w, ArgsOf(Cite("kept", "a", sha))) == Some(Fetched(Some("kept"), "a", 1, 1, sha, sha, true))
      && Fetch(w, ArgsOf(Cite("lost", "b", sha))) == Some(Fetched(Some("lost"), "b", 1, 1, sha, changed, true))
  {
    var w := TwoEvents(sha, changed);
    ExactEnd(w, Cite("kept", "a", sha));
    ExactEnd(w, Cite("lost", "b", sha));
    assert Locator("kept", "a", sha, 1, 1).sha in Hashes(w, "a", Some("kept"));
    assert Locator("lost", "b", sha, 1, 1).sha in Hashes(w, "b", Some("lost"));
  }

  lemma {:induction false} LogOfIntactFetches(n: nat, sha: string, changed: string, k: nat)
    requires |sha| == 64 && sha != changed && k <= n
    ensures var log := LogBefore(LongSession(n, sha, changed), k);
      |log| == (if k < SESSION_FETCH_LOG_LIMIT then k else SESSION_FETCH_LOG_LIMIT)
      && forall i | 0 <= i < |log| :: !log[i].mismatched
  {
    if k > 0 {
      LogOfIntactFetches(n, sha, changed, k - 1);
      BothFetches(sha, changed);
    }
  }

  /** The claim that passes over the mismatch is eligible exactly when the log was full before the mismatch. */
  lemma FullLogForgetsMismatch(n: nat, sha: string, changed: string)
    requires |sha| == 64 && sha != changed
    ensures var calls := LongSession(n, sha, changed);
      EligibleNow(LogBefore(calls, n + 1), calls[n + 1]) <==> n >= SESSION_FETCH_LOG_LIMIT
  {
    var calls := LongSession(n, sha, changed);
    var cite := Cite("kept", "a", sha);
    LogOfIntactFetches(n, sha, changed, n);
    BothFetches(sha, changed);
    var lost := EntryOf(Fetched(Some("lost"), "b", 1, 1, sha, changed, true));
    var log, more := LogBefore(calls, n), LogBefore(calls, n + 1);
    assert more == if n < SESSION_FETCH_LOG_LIMIT then log + [lost] else log;
    assert Verifies(TwoEvents(sha, changed), cite);
    assert CitedEvents([cite]) == {"kept"} by { assert [cite][0] == cite; }
    var end := LogAfter(more, calls[n + 1]);
    assert LogChecks(more, [TwoEvents(sha, changed)], [cite], 0) == more;
    assert end == LogCheck(more, TwoEvents(sha, changed), cite);
    if n < SESSION_FETCH_LOG_LIMIT {
      assert end[|log|] == lost && !Cites(cite, lost);
      assert !IsCited([cite], lost);
    }
  }

  // ----- A mismatch without an event -----

  /** A diagnostic fetch of the changed file, with no event and no hash. */
  function Diagnostic(): FetchArgs {
    FetchArgs("b", 1, None, 8, None, None)
  }

  lemma DiagnosticIsAccepted(sha: string, changed: string)
    requires sha != changed
    ensures Fetch(TwoEvents(sha, changed), Diagnostic()).Some? && Expects(TwoEvents(sha, changed), Diagnostic(), sha)
  {
    var w := TwoEvents(sha, changed);
    assert forall source | source in w.registered && source.0 == "b" :: source.1 == sha;
    assert ("b", sha).1 in Hashes(w, "b", None);
    assert Hashes(w, "b", None) == {sha};
  }

  /** After one diagnostic fetch of a changed file, a claim that cites an intact event is not eligible any more. */
  lemma DiagnosticBlocksIntactClaim(sha: string, changed: string)
    requires |sha| == 64 && sha != changed
    ensures var w := TwoEvents(sha, changed);
      var claim := ClaimCall(ResultClaim, Auto, [Cite("kept", "a", sha)], [w]);
      && EligibleNow([], claim)
      && !EligibleNow(LogAfter([], FetchCall(w, Diagnostic())), claim)
  {
    var w := TwoEvents(sha, changed);
    var cite := Cite("kept", "a", sha);
    var claim := ClaimCall(ResultClaim, Auto, [cite], [w]);
    var calls := [FetchCall(w, Diagnostic()), claim];
    assert Verifies(w, cite);
    assert CitedEvents([cite]) == {"kept"} by { assert [cite][0] == cite; }
    VerifiedChecksAddNoMismatch([], [w], [cite], 1);
    SameMismatchesOmitAlike(LogChecks([], [w], [cite], 1), [], [cite]);
    DiagnosticIsAccepted(sha, changed);
    assert LogBefore(calls, 0) == [] && LogBefore(calls, 1) == LogAfter([], calls[0]);
    ChangedFileBindsLaterClaims(calls, 0, 1, sha);
  }
}
