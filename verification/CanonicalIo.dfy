/** Journalled appends to one canonical file: each names the exact content before and after. */
module CanonicalIo {
  import opened Ledger

  /** SHA-256 as an injective function: a digest is identified with what was hashed. */
  datatype Digest<+T> = Sha256(of: T)

  datatype Op = Op(target: Target, beforeExists: bool, before: Digest<seq<Line>>, append: seq<Line>, after: Digest<seq<Line>>)

  datatype AppendState = Applied | Pending | Changed

  function PrepareAppend(ledger: Ledger, target: Target, lines: seq<Line>): Op {
    var before := Lines(ledger, target);
    Op(target, target in ledger.files, Sha256(before), lines, Sha256(before + lines))
  }

  /** The file is compared with the content after the append first, and with the content before it second. */
  function StateOf(ledger: Ledger, op: Op): AppendState {
    var current := Sha256(Lines(ledger, op.target));
    if current == op.after then Applied
    else if current == op.before && (op.target in ledger.files) == op.beforeExists then Pending
    else Changed
  }

  /** The atomic replacement of the target by its old content and the appended lines. */
  function Replace(ledger: Ledger, op: Op): Ledger {
    Ledger(ledger.files[op.target := Lines(ledger, op.target) + op.append])
  }

  /** What every operation that `PrepareAppend` builds satisfies. */
  predicate Coherent(op: Op) {
    op.append != [] && op.after.of == op.before.of + op.append && (!op.beforeExists ==> op.before.of == [])
  }

  /** The operation's lines are in place: the file begins with the content after the append. */
  predicate InPlace(ledger: Ledger, op: Op) {
    op.after.of <= Lines(ledger, op.target)
  }

  lemma PreparedIsPending(ledger: Ledger, target: Target, lines: seq<Line>)
    requires lines != []
    ensures var op := PrepareAppend(ledger, target, lines);
      Coherent(op) && StateOf(ledger, op) == Pending && !InPlace(ledger, op)
  {
  }

  lemma ReplaceApplies(ledger: Ledger, op: Op)
    requires Coherent(op) && StateOf(ledger, op) == Pending
    ensures StateOf(Replace(ledger, op), op) == Applied
    ensures InPlace(Replace(ledger, op), op)
    ensures Grows(ledger, Replace(ledger, op))
  {
  }

  lemma GrowthKeepsInPlace(before: Ledger, after: Ledger, op: Op)
    requires Grows(before, after) && InPlace(before, op)
    ensures InPlace(after, op)
  {
    assert FileGrows(before, after, op.target);
  }

  /** An append that has once taken effect is never found pending again, whatever is appended later. */
  lemma InPlaceIsNeverPending(ledger: Ledger, op: Op)
    requires Coherent(op) && InPlace(ledger, op)
    ensures StateOf(ledger, op) != Pending
  {
    assert |op.before.of| < |op.after.of|;
  }
}
