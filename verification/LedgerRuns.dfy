/**
 Whole histories of the ledger: any sequence of its operations, in any order, from the empty store
 (src/storage/commitAttributionLedger.ts).
 */
module LedgerRuns {
  import opened Prelude
  import opened Types
  import opened CommitAttributionLedger
  import opened LedgerTransitions
  import opened CommitCosts

  datatype Op =
    | Upsert(record: Attribution)
    | Claim(input: ClaimInput, ids: seq<Id>, now: Time)
    | Transfer(input: ClaimInput, superseded: Id, ids: seq<Id>, now: Time)
    | Sweep(sweep: LedgerTransitions.Sweep)
    | Native(evidence: seq<Evidence>, candidates: seq<Candidate>, now: Time)

  /** The records the operation tries to write; a claim or transfer may already have failed. */
  ghost function Attempt(s: Records, op: Op): Option<Records> {
    match op
    case Upsert(a) => if Writable(a) then Some(Put(s, a)) else None
    case Claim(input, ids, now) =>
      var m := MoveAll(s, input, None, ids, now); if m.failed then None else Some(m.records)
    case Transfer(input, from, ids, now) =>
      var m := MoveAll(s, input, Some(from), ids, now); if m.failed then None else Some(m.records)
    case Sweep(w) => Some(SweepAll(w, s))
    case Native(evidence, candidates, now) => Some(NativeAll(s, evidence, candidates, now))
  }

  /** Does the write guard (or the record check inside a claim) throw? */
  ghost predicate Throws(s: Records, op: Op) {
    Attempt(s, op).None? || !AllWritable(Attempt(s, op).value)
  }

  /** A throwing operation leaves the store as it was. */
  ghost function Step(s: Records, op: Op): Records {
    if Throws(s, op) then s else Attempt(s, op).value
  }

  ghost function Run(ops: seq<Op>): Records {
    if ops == [] then [] else Step(Run(ops[..|ops| - 1]), ops[|ops| - 1])
  }

  // ---- one live claim per query, always -----------------------------------------------------------

  lemma StepKeepsInv(s: Records, op: Op)
    requires Inv(s)
    ensures Inv(Step(s, op))
    ensures (op.Claim? || op.Sweep? || op.Native?) ==> !Throws(s, op)
  {
    match op
    case Upsert(a) => PutGet(s, a, a.queryId);
    case Claim(input, ids, now) => MoveKeepsInv(s, input, None, ids, now);
    case Transfer(input, from, ids, now) => MoveKeepsInv(s, input, Some(from), ids, now);
    case Sweep(w) => SweepKeepsInv(w, s);
    case Native(evidence, candidates, now) => NativeKeepsInv(s, evidence, candidates, now);
  }

  /** Neither claim ever stores an unsound record; a plain claim never even fails. */
  lemma {:induction false} MoveKeepsInv(s: Records, input: ClaimInput, from: Origin, ids: seq<Id>, now: Time)
    requires Inv(s)
    ensures Inv(MoveAll(s, input, from, ids, now).records)
    ensures from.None? ==> !MoveAll(s, input, from, ids, now).failed
  {
    if ids != [] {
      var n := |ids| - 1;
      MoveKeepsInv(s, input, from, ids[..n], now);
      var m := MoveAll(s, input, from, ids[..n], now);
      var a := Get(m.records, ids[n]);
      if Movable(a, from) {
        PutGet(m.records, Moved(a, input, from, now), ids[n]);
        MoveWritableIff(a, input, from, now);
      }
    }
  }

  lemma {:induction false} RunKeepsInv(ops: seq<Op>)
    ensures Inv(Run(ops))
  {
    if ops != [] {
      RunKeepsInv(ops[..|ops| - 1]);
      StepKeepsInv(Run(ops[..|ops| - 1]), ops[|ops| - 1]);
    }
  }

  /** In every reachable ledger no query charges two claims, on one commit or on two. */
  lemma OneLiveClaimPerQuery(ops: seq<Op>, a: Attribution, x: Allocation, y: Allocation)
    requires a in Run(ops) && IsLiveClaimOf(a, x) && IsLiveClaimOf(a, y)
    ensures x == y
    ensures forall b :: b in Run(ops) && b.queryId == a.queryId ==> b == a
  {
    RunKeepsInv(ops);
    LiveClaimUnique(a, x, y);
    forall b | b in Run(ops) && b.queryId == a.queryId ensures b == a {
      GetOfMember(Run(ops), a);
      GetOfMember(Run(ops), b);
    }
  }

  // ---- the write guard never fires in a claim or transition -----------------------------------------

  /** Records as the program produces them: live claims are first claims, and active ones are reportable. */
  ghost predicate Clean(a: Attribution) {
    forall x :: x in a.allocations && LiveStatus(x) ==>
      x.policy == FirstClaim && (x.status == Active ==> x.decision == Some(Reportable))
  }

  ghost predicate CleanLedger(s: Records) {
    Inv(s) && forall a :: a in s ==> Clean(a)
  }

  /** What callers keep to: clean upserts, and no transfer of a commit to itself. */
  ghost predicate Disciplined(op: Op) {
    match op
    case Upsert(a) => Clean(a)
    case Transfer(input, from, _, _) => from != input.candidate.commitHash
    case _ => true
  }

  lemma MovedClean(a: Attribution, input: ClaimInput, from: Origin, now: Time)
    requires Movable(a, from) && Clean(a)
    ensures Clean(Moved(a, input, from, now))
  {
    var next := Moved(a, input, from, now);
    forall x | x in next.allocations && LiveStatus(x)
      ensures x.policy == FirstClaim && (x.status == Active ==> x.decision == Some(Reportable))
    {
      var i :| 0 <= i < |next.allocations| && next.allocations[i] == x;
      if i < |a.allocations| { assert a.allocations[i] in a.allocations; }
    }
  }

  lemma {:induction false} MoveAllClean(s: Records, input: ClaimInput, from: Origin, ids: seq<Id>, now: Time)
    requires CleanLedger(s)
    ensures forall a :: a in MoveAll(s, input, from, ids, now).records ==> Clean(a)
  {
    if ids != [] {
      var n := |ids| - 1;
      MoveAllClean(s, input, from, ids[..n], now);
      var m := MoveAll(s, input, from, ids[..n], now);
      var a := Get(m.records, ids[n]);
      if Movable(a, from) { MovedClean(a, input, from, now); }
    }
  }

  lemma SweepClean(w: LedgerTransitions.Sweep, s: Records)
    requires forall a :: a in s ==> Clean(a)
    ensures forall a :: a in SweepAll(w, s) ==> Clean(a)
  {
    forall b, y | b in SweepAll(w, s) && y in b.allocations && LiveStatus(y)
      ensures y.policy == FirstClaim && (y.status == Active ==> y.decision == Some(Reportable))
    {
      var i :| 0 <= i < |s| && b == SweepRecord(w, s[i]);
      var j :| 0 <= j < |b.allocations| && b.allocations[j] == y;
      assert y == SweepAllocation(w, s[i].allocations[j]);
      assert s[i] in s && s[i].allocations[j] in s[i].allocations;
    }
  }

  lemma NativeClean(s: Records, evidence: seq<Evidence>, candidates: seq<Candidate>, now: Time)
    requires forall a :: a in s ==> Clean(a)
    ensures forall a :: a in NativeAll(s, evidence, candidates, now) ==> Clean(a)
  {
    forall b, y | b in NativeAll(s, evidence, candidates, now) && y in b.allocations && LiveStatus(y)
      ensures y.policy == FirstClaim && (y.status == Active ==> y.decision == Some(Reportable))
    {
      var i :| 0 <= i < |s| && b == NativeRecord(s[i], evidence, candidates, now);
      var j :| 0 <= j < |b.allocations| && b.allocations[j] == y;
      assert y == NativeAllocation(s[i].allocations[j], evidence, candidates, now);
      assert s[i] in s && s[i].allocations[j] in s[i].allocations;
    }
  }

  /** Over every disciplined history the guard fires in no operation except an unwritable upsert. */
  lemma GuardNeverFires(s: Records, op: Op)
    requires CleanLedger(s) && Disciplined(op)
    ensures CleanLedger(Step(s, op))
    ensures Throws(s, op) <==> op.Upsert? && !Writable(op.record)
  {
    StepKeepsInv(s, op);
    assert NoLiveLinks(s);
    match op
    case Upsert(a) => PutGet(s, a, a.queryId);
    case Claim(input, ids, now) => MoveAllClean(s, input, None, ids, now);
    case Transfer(input, from, ids, now) =>
      MoveAllResult(s, input, Some(from), ids, now);
      MoveAllClean(s, input, Some(from), ids, now);
    case Sweep(w) => SweepClean(w, s);
    case Native(evidence, candidates, now) => NativeClean(s, evidence, candidates, now);
  }

  lemma {:induction false} DisciplinedRun(ops: seq<Op>)
    requires forall op :: op in ops ==> Disciplined(op)
    ensures CleanLedger(Run(ops))
  {
    if ops != [] {
      var n := |ops| - 1;
      assert forall op :: op in ops[..n] ==> op in ops;
      DisciplinedRun(ops[..n]);
      GuardNeverFires(Run(ops[..n]), ops[n]);
    }
  }

  /** At no point of a disciplined history does the guard fire, except at an unwritable upsert. */
  lemma GuardQuietThroughout(ops: seq<Op>, i: nat)
    requires (forall op :: op in ops ==> Disciplined(op)) && i < |ops|
    ensures Throws(Run(ops[..i]), ops[i]) <==> ops[i].Upsert? && !Writable(ops[i].record)
  {
    assert forall op :: op in ops[..i] ==> op in ops;
    DisciplinedRun(ops[..i]);
    GuardNeverFires(Run(ops[..i]), ops[i]);
  }

  // ---- where live claims come from --------------------------------------------------------------------

  /** The operation put, or may have put, a live claim of the query on the commit. */
  ghost predicate Grants(op: Op, q: Id, commit: Id) {
    match op
    case Upsert(a) => a.queryId == q && LiveOn(a, commit)
    case Claim(input, ids, _) => q in ids && input.candidate.commitHash == commit
    case Transfer(input, _, ids, _) => q in ids && input.candidate.commitHash == commit
    case _ => false
  }

  lemma WeakenedLiveOn(s: Records, r: Records, q: Id, commit: Id)
    requires UniqueIds(s) && UniqueIds(r) && AllWeaken(s, r) && LiveOn(Get(r, q), commit)
    ensures LiveOn(Get(s, q), commit)
  {
    var b := Get(r, q);
    var y :| y in b.allocations && LiveClaim(y) && y.commitHash == commit;
    var i :| 0 <= i < |r| && r[i] == b;
    var j :| 0 <= j < |b.allocations| && b.allocations[j] == y;
    assert RecordWeakens(s[i], r[i]) && Weakens(s[i].allocations[j], y);
    GetOfMember(s, s[i]);
    assert s[i].allocations[j] in Get(s, q).allocations;
  }

  /** A record that could be written after a move is live on the new commit and nowhere else. */
  lemma MovedOnlyThere(a: Attribution, input: ClaimInput, from: Origin, now: Time, commit: Id)
    requires Movable(a, from) && Writable(Moved(a, input, from, now))
    ensures LiveOn(Moved(a, input, from, now), commit) <==> commit == input.candidate.commitHash
  {
    var b := Moved(a, input, from, now);
    var claim := b.allocations[|a.allocations|];
    assert IsLiveClaimOf(b, claim);
    if LiveOn(b, commit) {
      var y :| y in b.allocations && LiveClaim(y) && y.commitHash == commit;
      LiveClaimUnique(b, y, claim);
    }
  }

  lemma {:induction false} MoveGrants(s: Records, input: ClaimInput, from: Origin, ids: seq<Id>, now: Time, q: Id, commit: Id)
    requires Inv(s) && LiveOn(Get(MoveAll(s, input, from, ids, now).records, q), commit)
    ensures LiveOn(Get(s, q), commit) || (q in ids && input.candidate.commitHash == commit)
  {
    if ids != [] {
      var n := |ids| - 1;
      assert ids == ids[..n] + [ids[n]];
      var m := MoveAll(s, input, from, ids[..n], now);
      MoveKeepsInv(s, input, from, ids[..n], now);
      var a := Get(m.records, ids[n]);
      if !m.failed && Movable(a, from) && Writable(Moved(a, input, from, now)) {
        var next := Moved(a, input, from, now);
        PutGet(m.records, next, q);
        if q == ids[n] { MovedOnlyThere(a, input, from, now, commit); }
      }
      if LiveOn(Get(m.records, q), commit) {
        MoveGrants(s, input, from, ids[..n], now, q, commit);
      }
    }
  }

  lemma StepGrants(s: Records, op: Op, q: Id, commit: Id)
    requires Inv(s) && LiveOn(Get(Step(s, op), q), commit)
    ensures LiveOn(Get(s, q), commit) || Grants(op, q, commit)
  {
    StepKeepsInv(s, op);
    if !Throws(s, op) {
      match op
      case Upsert(a) => PutGet(s, a, q);
      case Claim(input, ids, now) => MoveGrants(s, input, None, ids, now, q, commit);
      case Transfer(input, from, ids, now) => MoveGrants(s, input, Some(from), ids, now, q, commit);
      case Sweep(w) => SweepKeepsInv(w, s); WeakenedLiveOn(s, SweepAll(w, s), q, commit);
      case Native(evidence, candidates, now) =>
        NativeKeepsInv(s, evidence, candidates, now);
        WeakenedLiveOn(s, NativeAll(s, evidence, candidates, now), q, commit);
    }
  }

  /**
   Nothing is charged out of thin air: whenever a query is live on a commit, some operation of the
   history claimed it for that commit, transferred it there, or stored it so.
   */
  lemma {:induction false} LiveClaimsHaveOrigin(ops: seq<Op>, q: Id, commit: Id)
    requires LiveOn(Get(Run(ops), q), commit)
    ensures exists op :: op in ops && Grants(op, q, commit)
  {
    if ops != [] {
      var n := |ops| - 1;
      assert ops == ops[..n] + [ops[n]];
      RunKeepsInv(ops[..n]);
      StepGrants(Run(ops[..n]), ops[n], q, commit);
      if LiveOn(Get(Run(ops[..n]), q), commit) {
        LiveClaimsHaveOrigin(ops[..n], q, commit);
      } else {
        assert ops[n] in ops;
      }
    }
  }

  /** In a clean ledger every active claim is surfaced, so summaries miss none of them. */
  lemma ActiveClaimsSurface(s: Records, a: Attribution, x: Allocation)
    requires CleanLedger(s) && a in s && x in a.allocations && x.status == Active
    ensures Surfaced(x)
  {
    assert Clean(a) && Writable(a);
  }

  /** The cost of every active claim of a list, whether surfaced or not. */
  function ActiveCharges(xs: seq<Allocation>): Option<int> {
    if xs == [] then None
    else AddOptional(ActiveCharges(xs[..|xs| - 1]), if xs[|xs| - 1].status == Active then xs[|xs| - 1].allocatedNanoUsd else None)
  }

  function ActiveTotal(s: Records): Option<int> {
    if s == [] then None else AddOptional(ActiveTotal(s[..|s| - 1]), ActiveCharges(s[|s| - 1].allocations))
  }

  lemma {:induction false} SurfacedCharges(xs: seq<Allocation>)
    requires forall x :: x in xs && x.status == Active ==> Surfaced(x)
    ensures ClaimCost(xs) == ActiveCharges(xs)
  {
    if xs != [] {
      assert xs == xs[..|xs| - 1] + [xs[|xs| - 1]];
      SurfacedCharges(xs[..|xs| - 1]);
    }
  }

  lemma {:induction false} SurfacedTotal(s: Records)
    requires forall a, x :: a in s && x in a.allocations && x.status == Active ==> Surfaced(x)
    ensures ClaimedTotal(s) == ActiveTotal(s)
  {
    if s != [] {
      var n := |s| - 1;
      assert s == s[..n] + [s[n]];
      SurfacedTotal(s[..n]);
      SurfacedCharges(s[n].allocations);
    }
  }

  /** In every disciplined history the commit summaries add up to exactly the cost of all active claims. */
  lemma SummariesChargeEveryActiveClaim(ops: seq<Op>)
    requires forall op :: op in ops ==> Disciplined(op)
    ensures SummaryTotal(SummarizeCommits(Run(ops))) == ActiveTotal(Run(ops))
  {
    var s := Run(ops);
    DisciplinedRun(ops);
    SummariesConserve(s);
    forall a, x | a in s && x in a.allocations && x.status == Active ensures Surfaced(x) { ActiveClaimsSurface(s, a, x); }
    SurfacedTotal(s);
  }
}
