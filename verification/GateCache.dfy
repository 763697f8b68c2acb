/**
  The server's gate in front of every read: a full check of the index, or the memory that it passed while the
  inspected files had the same stat identities. A stat is one file at one moment, and so is a read.
 */
module GateCache {
  import opened Common

  datatype Kind = Canonical | Derived

  /** An inspected file: the source manifest and daily ledgers, or the database and its health record. */
  datatype Path = Path(kind: Kind, name: string)

  /** Modification time and size. The content of a file is one for each stamp it ever had. */
  datatype Stamp = Stamp(mtime: int, size: nat)

  /** The stamps of the files that exist. */
  type Files = map<Path, Stamp>

  // ----- Histories in which every write makes a fresh stamp -----

  /** One write, creation or removal, or nothing. Canonical files are never removed. */
  ghost predicate Moves(history: seq<Files>, i: nat)
    requires i + 1 < |history|
  {
    forall p :: MovesFile(history, i, p)
  }

  ghost predicate MovesFile(history: seq<Files>, i: nat, p: Path)
    requires i + 1 < |history|
  {
    || Same(history[i], history[i + 1], p)
    || (p in history[i + 1] && NeverHad(history, i, p, history[i + 1][p]))
    || (p.kind == Derived && p !in history[i + 1])
  }

  predicate Same(a: Files, b: Files, p: Path) {
    (p in a <==> p in b) && (p in a ==> a[p] == b[p])
  }

  ghost predicate NeverHad(history: seq<Files>, i: nat, p: Path, stamp: Stamp)
    requires i < |history|
  {
    forall j | 0 <= j <= i :: p in history[j] ==> history[j][p] != stamp
  }

  ghost predicate FreshHistory(history: seq<Files>) {
    forall i | 0 <= i < |history| - 1 :: Moves(history, i)
  }

  /** A file that has the same stamp at two moments was not written between them. */
  lemma {:induction false} SameStampMeansUntouched(history: seq<Files>, i: nat, m: nat, j: nat, p: Path)
    requires FreshHistory(history) && i <= m <= j < |history|
    requires p in history[i] && p in history[j] && history[i][p] == history[j][p]
    ensures p in history[m] && history[m][p] == history[i][p]
    decreases j - m
  {
    if m < j {
      LastStampIsOld(history, i, j, p);
      SameStampMeansUntouched(history, i, m, j - 1, p);
    }
  }

  lemma LastStampIsOld(history: seq<Files>, i: nat, j: nat, p: Path)
    requires FreshHistory(history) && i < j < |history|
    requires p in history[i] && p in history[j] && history[i][p] == history[j][p]
    ensures p in history[j - 1] && history[j - 1][p] == history[j][p]
  {
    assert Moves(history, j - 1) && MovesFile(history, j - 1, p);
  }

  lemma {:induction false} CanonicalStays(history: seq<Files>, i: nat, j: nat, p: Path)
    requires FreshHistory(history) && i <= j < |history| && p in history[i] && p.kind == Canonical
    ensures p in history[j]
    decreases j
  {
    if i < j {
      CanonicalStays(history, i, j - 1, p);
      assert Moves(history, j - 1) && MovesFile(history, j - 1, p);
    }
  }

  // ----- What a call looks at -----

  /** A look at all inspected files, each at its own moment: found or not, and then its stamp, or its content. */
  datatype Look = Look(from: nat, to: nat, seen: Files)

  ghost predicate SeenFile(history: seq<Files>, look: Look, p: Path, listed: nat, at: nat) {
    && look.from <= listed <= at <= look.to < |history|
    && (p in look.seen <==> p in history[listed])
    && (p in look.seen ==> p in history[at] && history[at][p] == look.seen[p])
  }

  ghost predicate SeenSometime(history: seq<Files>, look: Look, p: Path) {
    exists listed: nat, at: nat :: SeenFile(history, look, p, listed, at)
  }

  ghost predicate Looked(history: seq<Files>, look: Look) {
    look.from <= look.to < |history| && forall p :: SeenSometime(history, look, p)
  }

  /**
    A stat signature exists only when every file it lists could be read, and it always lists the database and
    the health record.
   */
  predicate Complete(files: Files, derived: set<Path>) {
    forall p | p in derived :: p in files
  }

  /** No derived file but the database and the health record is inspected. */
  predicate Inspected(files: Files, derived: set<Path>) {
    forall p | p in files && p.kind == Derived :: p in derived
  }

  ghost predicate OnlyInspected(history: seq<Files>, derived: set<Path>) {
    forall i | 0 <= i < |history| :: Inspected(history[i], derived)
  }

  /**
    Two signatures that agree, with a check between them: at the moment the second one begins, every file is as
    the check saw it.
   */
  lemma EqualSignaturesMeanNothingMoved(
    history: seq<Files>, derived: set<Path>, first: Look, check: Look, second: Look)
    requires FreshHistory(history) && OnlyInspected(history, derived)
    requires Looked(history, first) && Looked(history, check) && Looked(history, second)
    requires first.to <= check.from && check.to <= second.from
    requires Complete(first.seen, derived) && first.seen == second.seen
    ensures history[second.from] == check.seen
  {
    forall p ensures Same(history[second.from], check.seen, p) {
      assert SeenSometime(history, first, p) && SeenSometime(history, check, p) && SeenSometime(history, second, p);
      var listed1: nat, at1: nat :| SeenFile(history, first, p, listed1, at1);
      var listed: nat, at: nat :| SeenFile(history, check, p, listed, at);
      var listed2: nat, at2: nat :| SeenFile(history, second, p, listed2, at2);
      if p in first.seen {
        SameStampMeansUntouched(history, at1, listed, at2, p);
        SameStampMeansUntouched(history, at1, at, at2, p);
        SameStampMeansUntouched(history, at1, second.from, at2, p);
      } else {
        assert p.kind == Canonical || (p !in history[listed] && p !in history[second.from]);
        if p in history[listed] && p.kind == Canonical { CanonicalStays(history, listed, listed2, p); }
        if p in history[second.from] && p.kind == Canonical { CanonicalStays(history, second.from, listed2, p); }
      }
    }
    assert history[second.from].Keys == check.seen.Keys by {
      forall p ensures p in history[second.from] <==> p in check.seen { assert Same(history[second.from], check.seen, p); }
    }
    forall p | p in check.seen ensures history[second.from][p] == check.seen[p] { assert Same(history[second.from], check.seen, p); }
    assert history[second.from] == check.seen;
  }

  // ----- The gate -----

  /** One call: its stat signature, if it could be taken and the cache is not switched off, and the full check. */
  datatype Call = Call(signature: Option<Look>, check: Look)

  ghost predicate CallOk(history: seq<Files>, derived: set<Path>, call: Call) {
    && Looked(history, call.check)
    && (call.signature.Some? ==>
          Looked(history, call.signature.value) && Complete(call.signature.value.seen, derived)
          && call.signature.value.to <= call.check.from)
  }

  /** The signature in the cache was taken before a full check that found the index current. */
  ghost predicate CacheOk(history: seq<Files>, derived: set<Path>, current: Files -> bool, cache: Option<Files>, now: nat) {
    cache.Some? ==> Backed(history, derived, current, cache.value, now)
  }

  ghost predicate Backed(history: seq<Files>, derived: set<Path>, current: Files -> bool, cached: Files, now: nat) {
    exists first: Look, check: Look ::
      && Looked(history, first) && Looked(history, check) && first.to <= check.from && check.to <= now
      && first.seen == cached && Complete(cached, derived) && current(check.seen)
  }

  /** A full check made by this call, over some look at the files that lies within it, reports `current`. */
  ghost predicate ReallyCurrent(history: seq<Files>, current: Files -> bool, from: nat, to: nat) {
    exists look: Look :: from <= look.from && look.to <= to && Looked(history, look) && current(look.seen)
  }

  function Begins(call: Call): nat {
    if call.signature.Some? then call.signature.value.from else call.check.from
  }

  lemma InstantLook(history: seq<Files>, i: nat)
    requires i < |history|
    ensures Looked(history, Look(i, i, history[i]))
  {
    forall p ensures SeenSometime(history, Look(i, i, history[i]), p) {
      assert SeenFile(history, Look(i, i, history[i]), p, i, i);
    }
  }

  lemma HitIsCurrent(
    history: seq<Files>, derived: set<Path>, current: Files -> bool, cached: Files, second: Look)
    requires FreshHistory(history) && OnlyInspected(history, derived)
    requires Looked(history, second) && second.seen == cached && Backed(history, derived, current, cached, second.from)
    ensures current(history[second.from]) && ReallyCurrent(history, current, second.from, second.to)
  {
    var first: Look, check: Look :|
      && Looked(history, first) && Looked(history, check) && first.to <= check.from && check.to <= second.from
      && first.seen == cached && Complete(cached, derived) && current(check.seen);
    EqualSignaturesMeanNothingMoved(history, derived, first, check, second);
    InstantLook(history, second.from);
  }

  class Gate {
    var cache: Option<Files>

    constructor ()
      ensures cache == None
    {
      cache := None;
    }

    /**
      The gate admits a read only when a full check within the call itself reports `current`, whether that
      check was made or skipped; and it never remembers another verdict.
     */
    method RequireCurrent(
      ghost history: seq<Files>, ghost derived: set<Path>, call: Call, current: Files -> bool, ghost now: nat)
      returns (admitted: bool)
      requires FreshHistory(history) && OnlyInspected(history, derived) && CallOk(history, derived, call)
      requires CacheOk(history, derived, current, cache, now) && now <= Begins(call)
      modifies this
      ensures admitted ==> ReallyCurrent(history, current, Begins(call), call.check.to)
      ensures admitted <==> current(call.check.seen) || (call.signature.Some? && old(cache) == Some(call.signature.value.seen))
      ensures CacheOk(history, derived, current, cache, call.check.to)
      ensures !admitted ==> cache == None
      ensures (admitted, cache) == Gated(old(cache), call, current)
    {
      if call.signature.Some? && cache == Some(call.signature.value.seen) {
        BackedLater(history, derived, current, cache.value, now, call.signature.value.from);
        BackedLater(history, derived, current, cache.value, now, call.check.to);
        HitIsCurrent(history, derived, current, cache.value, call.signature.value);
        return true;
      }
      cache := None;
      if !current(call.check.seen) {
        return false;
      }
      if call.signature.Some? {
        cache := Some(call.signature.value.seen);
        assert Backed(history, derived, current, cache.value, call.check.to);
      }
      return true;
    }
  }

  lemma BackedLater(history: seq<Files>, derived: set<Path>, current: Files -> bool, cached: Files, now: nat, later: nat)
    requires Backed(history, derived, current, cached, now) && now <= later
    ensures Backed(history, derived, current, cached, later)
  {
  }

  // ----- Whole sequences of calls -----

  function Gated(cache: Option<Files>, call: Call, current: Files -> bool): (bool, Option<Files>) {
    if call.signature.Some? && cache == Some(call.signature.value.seen) then (true, cache)
    else if !current(call.check.seen) then (false, None)
    else (true, if call.signature.Some? then Some(call.signature.value.seen) else None)
  }

  /** The cache before the k-th call. */
  function CacheBefore(calls: seq<Call>, k: nat, current: Files -> bool): Option<Files>
    requires k <= |calls|
  {
    if k == 0 then None else Gated(CacheBefore(calls, k - 1, current), calls[k - 1], current).1
  }

  ghost predicate InOrder(history: seq<Files>, derived: set<Path>, calls: seq<Call>) {
    && (forall k | 0 <= k < |calls| :: CallOk(history, derived, calls[k]))
    && (forall k | 0 <= k < |calls| - 1 :: calls[k].check.to <= Begins(calls[k + 1]))
  }

  lemma {:induction false} CacheStaysBacked(
    history: seq<Files>, derived: set<Path>, calls: seq<Call>, current: Files -> bool, k: nat)
    requires FreshHistory(history) && OnlyInspected(history, derived) && InOrder(history, derived, calls) && k < |calls|
    ensures CacheOk(history, derived, current, CacheBefore(calls, k, current), Begins(calls[k]))
  {
    if k > 0 {
      var before := CacheBefore(calls, k - 1, current);
      var call := calls[k - 1];
      CacheStaysBacked(history, derived, calls, current, k - 1);
      assert CallOk(history, derived, call) && call.check.to <= Begins(calls[k]);
      if call.signature.Some? && before == Some(call.signature.value.seen) {
        BackedLater(history, derived, current, before.value, Begins(call), Begins(calls[k]));
      } else if CacheBefore(calls, k, current).Some? {
        assert Backed(history, derived, current, call.signature.value.seen, call.check.to);
      }
    }
  }

  /**
    Whatever is written between and during the calls, as long as every write makes a fresh stamp: the k-th call
    admits a read only when the full check, made within that call, would report `current`.
   */
  lemma CachedGateRefinesFullCheck(
    history: seq<Files>, derived: set<Path>, calls: seq<Call>, current: Files -> bool, k: nat)
    requires FreshHistory(history) && OnlyInspected(history, derived) && InOrder(history, derived, calls) && k < |calls|
    requires Gated(CacheBefore(calls, k, current), calls[k], current).0
    ensures ReallyCurrent(history, current, Begins(calls[k]), calls[k].check.to)
  {
    var cache := CacheBefore(calls, k, current);
    CacheStaysBacked(history, derived, calls, current, k);
    assert CallOk(history, derived, calls[k]);
    if calls[k].signature.Some? && cache == Some(calls[k].signature.value.seen) {
      HitIsCurrent(history, derived, current, cache.value, calls[k].signature.value);
    }
  }
}
