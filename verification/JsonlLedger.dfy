/**
 The ledger as the program runs it: one serialised operation at a time over the stored records
 (src/storage/commitAttributionLedger.ts).  Every operation builds the next records in loops
 and persists them through the write guard.
 */
module JsonlLedger {
  import opened Prelude
  import opened Types
  import opened CommitAttributionLedger
  import opened LedgerTransitions

  class JsonlCommitAttributionLedger {
    var records: Records

    ghost predicate Valid()
      reads this
    {
      Inv(records)
    }

    constructor ()
      ensures Valid() && records == []
    {
      records := [];
    }

    /** Writes all records, or none when one of them breaks the write guard. */
    method Persist(next: Records) returns (ok: bool)
      modifies this
      ensures ok == AllWritable(next)
      ensures records == if ok then next else old(records)
    {
      ok := AllWritable(next);
      if ok {
        records := next;
      }
    }

    method UpsertQueryAttribution(a: Attribution) returns (ok: bool)
      requires Valid()
      modifies this
      ensures Valid()
      ensures ok == Writable(a)
      ensures records == if ok then Put(old(records), a) else old(records)
    {
      ok := Writable(a);
      if ok {
        PutGet(records, a, a.queryId);
        ok := Persist(Put(records, a));
      }
    }

    /** Claims every listed query that is still free for the candidate's commit. */
    method TryFirstClaim(input: ClaimInput, ids: seq<Id>, now: Time)
      returns (claimed: seq<Id>, skipped: seq<Id>, failed: bool)
      requires Valid()
      modifies this
      ensures Valid() && !failed
      ensures var m := MoveAll(old(records), input, None, ids, now);
        records == m.records && claimed == m.claimed && skipped == m.skipped
    {
      ClaimNeverFails(records, input, ids, now);
      claimed, skipped, failed := Move(input, None, ids, now);
    }

    /** Moves every listed query that is live on the superseded commit to the candidate's commit. */
    method TransferFirstClaim(input: ClaimInput, superseded: Id, ids: seq<Id>, now: Time)
      returns (claimed: seq<Id>, skipped: seq<Id>, failed: bool)
      requires Valid()
      modifies this
      ensures Valid()
      ensures var m := MoveAll(old(records), input, Some(superseded), ids, now);
        && failed == m.failed
        && records == (if m.failed then old(records) else m.records)
        && (!failed ==> claimed == m.claimed && skipped == m.skipped)
    {
      claimed, skipped, failed := Move(input, Some(superseded), ids, now);
    }

    /** The loop both claim operations share: a failed record check leaves the store untouched. */
    method Move(input: ClaimInput, from: Origin, ids: seq<Id>, now: Time)
      returns (claimed: seq<Id>, skipped: seq<Id>, failed: bool)
      requires Valid()
      modifies this
      ensures Valid()
      ensures var m := MoveAll(old(records), input, from, ids, now);
        && failed == m.failed
        && records == (if m.failed then old(records) else m.records)
        && (!failed ==> claimed == m.claimed && skipped == m.skipped)
    {
      var byQuery := records;
      claimed, skipped, failed := [], [], false;
      for i := 0 to |ids|
        invariant !failed && records == old(records)
        invariant MoveAll(records, input, from, ids[..i], now) == MoveState(byQuery, claimed, skipped, false)
        invariant Inv(byQuery)
      {
        assert ids[..i + 1][..i] == ids[..i];
        var a := Get(byQuery, ids[i]);
        if !Movable(a, from) {
          skipped := skipped + [ids[i]];
        } else {
          var next := Moved(a, input, from, now);
          if !Writable(next) {
            failed := true;
            FailureStays(records, input, from, ids, i + 1, now);
            return;
          }
          PutGet(byQuery, next, ids[i]);
          byQuery := Put(byQuery, next);
          claimed := claimed + [ids[i]];
        }
      }
      assert ids[..|ids|] == ids;
      var ok := Persist(byQuery);
    }

    /** Marking, expiring or quarantining: a nested loop over records and their allocations. */
    method SweepRecords(w: Sweep) returns (changed: nat)
      requires Valid()
      modifies this
      ensures Valid()
      ensures records == SweepAll(w, old(records))
      ensures changed == ChangesInAll(w, old(records))
    {
      var next := records;
      changed := 0;
      for i := 0 to |records|
        invariant records == old(records) && |next| == |records|
        invariant forall j :: 0 <= j < i ==> next[j] == SweepRecord(w, records[j])
        invariant forall j :: i <= j < |next| ==> next[j] == records[j]
        invariant changed == ChangesInAll(w, records[..i])
      {
        assert records[..i + 1][..i] == records[..i];
        var b, k := SweepOne(w, records[i]);
        next := next[i := b];
        changed := changed + k;
      }
      assert records[..|records|] == records;
      assert next == SweepAll(w, records);
      SweepKeepsInv(w, records);
      if changed > 0 {
        var ok := Persist(next);
      } else {
        UntouchedSame(w, records);
      }
    }

    /** One record of a sweep: change its allocations one by one, then its own status. */
    method SweepOne(w: Sweep, a: Attribution) returns (b: Attribution, changed: nat)
      ensures b == SweepRecord(w, a)
      ensures changed == ChangesIn(w, a)
    {
      var xs, touched;
      xs, changed, touched := SweepEach(w, a.allocations);
      b := a.(allocations := xs);
      match w
      case MarkRewrite(_, _, _) => if touched { b := b.(status := QueryRewritePending); }
      case ExpireRewrite(_, _) => if touched { b := b.(status := QueryExpired); }
      case QuarantineLegacy(epochs) =>
        if TurnsLegacy(a, xs, epochs) {
          if a.status != QueryLegacy { changed := changed + 1; }
          b := b.(status := QueryLegacy);
        }
    }

    method SweepEach(w: Sweep, was: seq<Allocation>) returns (xs: seq<Allocation>, changed: nat, touched: bool)
      ensures xs == SweepAllocations(w, was) && changed == TouchedCount(w, was)
      ensures touched <==> exists x :: x in was && Touches(w, x)
    {
      xs, changed, touched := was, 0, false;
      for i := 0 to |was|
        invariant |xs| == |was|
        invariant forall j :: 0 <= j < i ==> xs[j] == SweepAllocation(w, was[j])
        invariant forall j :: i <= j < |xs| ==> xs[j] == was[j]
        invariant changed == TouchedCount(w, was[..i])
        invariant touched <==> exists x :: x in was[..i] && Touches(w, x)
      {
        assert was[..i + 1][..i] == was[..i];
        assert was[..i + 1] == was[..i] + [was[i]];
        if Touches(w, was[i]) {
          xs := xs[i := SweepAllocation(w, was[i])];
          changed := changed + 1;
          touched := true;
        }
      }
      assert was[..|was|] == was;
    }

    method MarkRewritePending(repoKey: Id, commits: set<Id>, at: Time) returns (changed: nat)
      requires Valid()
      modifies this
      ensures Valid()
      ensures records == SweepAll(MarkRewrite(repoKey, commits, at), old(records))
      ensures changed == ChangesInAll(MarkRewrite(repoKey, commits, at), old(records))
    {
      changed := SweepRecords(MarkRewrite(repoKey, commits, at));
    }

    method ExpireRewritePending(before: Time, now: Time) returns (changed: nat)
      requires Valid()
      modifies this
      ensures Valid()
      ensures records == SweepAll(ExpireRewrite(before, now), old(records))
      ensures changed == ChangesInAll(ExpireRewrite(before, now), old(records))
    {
      changed := SweepRecords(ExpireRewrite(before, now));
    }

    method Quarantine(activeEpochs: Option<set<Id>>) returns (changed: nat)
      requires Valid()
      modifies this
      ensures Valid()
      ensures records == SweepAll(QuarantineLegacy(activeEpochs), old(records))
      ensures changed == ChangesInAll(QuarantineLegacy(activeEpochs), old(records))
    {
      changed := SweepRecords(QuarantineLegacy(activeEpochs));
    }

    /** Reconciles every stored claim with the native permission decisions known now. */
    method ReconcileNativeRejectedCausalClaims(evidence: seq<Evidence>, candidates: seq<Candidate>, now: Time)
      returns (report: NativeReport)
      requires Valid()
      modifies this
      ensures Valid()
      ensures records == NativeAll(old(records), evidence, candidates, now)
      ensures report == ReportOf(old(records), evidence, candidates)
    {
      var next := records;
      report := NOTHING_REPORTED;
      for i := 0 to |records|
        invariant records == old(records) && |next| == |records|
        invariant forall j :: 0 <= j < i ==> next[j] == NativeRecord(records[j], evidence, candidates, now)
        invariant forall j :: i <= j < |next| ==> next[j] == records[j]
        invariant report == ReportOf(records[..i], evidence, candidates)
      {
        assert records[..i + 1][..i] == records[..i];
        var b, gone, renewed := NativeOne(records[i], evidence, candidates, now);
        next := next[i := b];
        report := Reported(report, records[i].queryId, gone, renewed);
      }
      assert records[..|records|] == records;
      assert next == NativeAll(records, evidence, candidates, now);
      NativeKeepsInv(records, evidence, candidates, now);
      if report.revokedQueries != {} || report.revalidatedQueries != {} {
        var ok := Persist(next);
      } else {
        NothingReported(records, evidence, candidates, now);
      }
    }

    /** One record of the reconciliation. */
    method NativeOne(a: Attribution, evidence: seq<Evidence>, candidates: seq<Candidate>, now: Time)
      returns (b: Attribution, gone: set<Id>, renewed: set<Id>)
      ensures b == NativeRecord(a, evidence, candidates, now)
      ensures gone == RevokedHashes(a.allocations, Verdicts(a.allocations, evidence, candidates))
      ensures renewed == RenewedHashes(a.allocations, Verdicts(a.allocations, evidence, candidates))
    {
      var xs;
      xs, gone, renewed := NativeEach(a.allocations, evidence, candidates, now);
      b := a.(allocations := xs);
      if gone != {} && !HasLiveClaim(b) {
        b := b.(status := QueryRejected);
      }
    }

    /** Its allocations, one by one. */
    method NativeEach(was: seq<Allocation>, evidence: seq<Evidence>, candidates: seq<Candidate>, now: Time)
      returns (xs: seq<Allocation>, gone: set<Id>, renewed: set<Id>)
      ensures xs == NativeAllocations(was, evidence, candidates, now)
      ensures gone == RevokedHashes(was, Verdicts(was, evidence, candidates))
      ensures renewed == RenewedHashes(was, Verdicts(was, evidence, candidates))
    {
      xs, gone, renewed := was, {}, {};
      for i := 0 to |was|
        invariant |xs| == |was|
        invariant forall j :: 0 <= j < i ==> xs[j] == NativeAllocation(was[j], evidence, candidates, now)
        invariant forall j :: i <= j < |xs| ==> xs[j] == was[j]
        invariant gone == RevokedHashes(was[..i], Verdicts(was[..i], evidence, candidates))
        invariant renewed == RenewedHashes(was[..i], Verdicts(was[..i], evidence, candidates))
      {
        HashesNext(was, evidence, candidates, i);
        var v := NativeVerdict(was[i], evidence, candidates);
        xs := xs[i := ApplyVerdict(was[i], v, now)];
        if v.Revalidate? { renewed := renewed + {was[i].commitHash}; }
        if v.Revoke? { gone := gone + {was[i].commitHash}; }
      }
      assert was[..|was|] == was;
    }

    /** All stored records, for readers that keep their own copy. */
    method ListQueryAttributions() returns (r: Records)
      requires Valid()
      ensures r == records
    {
      r := records;
    }
  }

  // ---- what the loops rely on ---------------------------------------------------------------------

  /** The reported commits after one more allocation. */
  lemma HashesNext(was: seq<Allocation>, evidence: seq<Evidence>, candidates: seq<Candidate>, i: nat)
    requires i < |was|
    ensures var v := NativeVerdict(was[i], evidence, candidates);
      && RevokedHashes(was[..i + 1], Verdicts(was[..i + 1], evidence, candidates))
           == RevokedHashes(was[..i], Verdicts(was[..i], evidence, candidates))
              + (if v == Revoke then {was[i].commitHash} else {})
      && RenewedHashes(was[..i + 1], Verdicts(was[..i + 1], evidence, candidates))
           == RenewedHashes(was[..i], Verdicts(was[..i], evidence, candidates))
              + (if v.Revalidate? then {was[i].commitHash} else {})
  {
    assert was[..i + 1][..i] == was[..i] && was[..i + 1] == was[..i] + [was[i]];
    HashesGrow(was[..i], Verdicts(was[..i], evidence, candidates), was[i], NativeVerdict(was[i], evidence, candidates));
  }

  /** A plain claim can never trip the write guard. */
  lemma {:induction false} ClaimNeverFails(s: Records, input: ClaimInput, ids: seq<Id>, now: Time)
    requires Inv(s)
    ensures var m := MoveAll(s, input, None, ids, now); !m.failed && Inv(m.records)
  {
    if ids != [] {
      var n := |ids| - 1;
      ClaimNeverFails(s, input, ids[..n], now);
      var m := MoveAll(s, input, None, ids[..n], now);
      var a := Get(m.records, ids[n]);
      if Movable(a, None) {
        MoveWritableIff(a, input, None, now);
        PutGet(m.records, Moved(a, input, None, now), ids[n]);
      }
    }
  }

  lemma {:induction false} FailureStays(s: Records, input: ClaimInput, from: Origin, ids: seq<Id>, i: nat, now: Time)
    requires i <= |ids| && MoveAll(s, input, from, ids[..i], now).failed
    ensures MoveAll(s, input, from, ids, now).failed
    decreases |ids| - i
  {
    if i == |ids| {
      assert ids[..i] == ids;
    } else {
      assert ids[..i + 1][..i] == ids[..i];
      FailureStays(s, input, from, ids, i + 1, now);
    }
  }

  lemma {:induction false} NothingTouched(w: Sweep, xs: seq<Allocation>)
    requires TouchedCount(w, xs) == 0
    ensures forall x :: x in xs ==> !Touches(w, x)
  {
    if xs != [] {
      var n := |xs| - 1;
      assert xs == xs[..n] + [xs[n]];
      NothingTouched(w, xs[..n]);
    }
  }

  lemma {:induction false} UntouchedSame(w: Sweep, s: Records)
    requires ChangesInAll(w, s) == 0
    ensures SweepAll(w, s) == s
  {
    if s != [] {
      var n := |s| - 1;
      var a := s[n];
      UntouchedSame(w, s[..n]);
      NothingTouched(w, a.allocations);
      forall j | 0 <= j < |a.allocations| ensures SweepAllocation(w, a.allocations[j]) == a.allocations[j] {
        assert a.allocations[j] in a.allocations && !Touches(w, a.allocations[j]);
      }
      assert SweepAllocations(w, a.allocations) == a.allocations;
      assert SweepAll(w, s) == SweepAll(w, s[..n]) + [SweepRecord(w, a)];
      assert s == s[..n] + [a];
    }
  }
}
