/**
 Repeating the whole reconciliation pass (src/attribution/gitAttribution.ts): after one pass expiry,
 quarantine, native reconciliation and status synchronisation find nothing left to do, so that what
 repeats is the candidate loop, and that settles.
 */
module WholePassProgress {
  import opened Prelude
  import opened Types
  import opened CommitAttributionPolicy
  import opened CommitAttributionLedger
  import opened LedgerTransitions
  import opened ReconcilePass
  import opened ReconcileProgress
  import opened GitAttribution

  ghost function WholeOn(s: Records, i: PassInput): PassState {
    WholePass(s, i.candidates, i.episodes, i.activeEpochs, i.isAncestor, i.now)
  }

  ghost function PreparedBy(s: Records, i: PassInput): Records {
    Prepared(s, i.candidates, i.episodes, i.activeEpochs, i.now)
  }

  // ---- records with nothing left to do ----------------------------------------------------------------------

  /** Neither expiry nor quarantine nor native reconciliation touches the allocation. */
  ghost predicate AllocationRests(x: Allocation, i: PassInput) {
    && !Expires(x, i.now - CANDIDATE_TTL_MS)
    && !Quarantines(x, Some(i.activeEpochs))
    && NativeVerdict(x, EvidenceIn(i.episodes), i.candidates) == Keep
  }

  ghost predicate AllocationsRest(a: Attribution, i: PassInput) {
    forall k :: 0 <= k < |a.allocations| ==> AllocationRests(a.allocations[k], i)
  }

  ghost predicate StatusRests(a: Attribution, i: PassInput) {
    && (TurnsLegacy(a, a.allocations, Some(i.activeEpochs)) ==> a.status == QueryLegacy)
    && SyncedStatus(a, i.episodes, i.now) == a.status
  }

  ghost predicate Rests(a: Attribution, i: PassInput) {
    AllocationsRest(a, i) && StatusRests(a, i)
  }

  lemma RestingSwept(a: Attribution, i: PassInput)
    requires Rests(a, i)
    ensures SweepRecord(ExpireRewrite(i.now - CANDIDATE_TTL_MS, i.now), a) == a
    ensures SweepRecord(QuarantineLegacy(Some(i.activeEpochs)), a) == a
  {
    assert SweepAllocations(ExpireRewrite(i.now - CANDIDATE_TTL_MS, i.now), a.allocations) == a.allocations;
    assert SweepAllocations(QuarantineLegacy(Some(i.activeEpochs)), a.allocations) == a.allocations;
    assert forall x :: x in a.allocations ==> AllocationRests(x, i);
  }

  lemma RestingKept(a: Attribution, i: PassInput)
    requires AllocationsRest(a, i)
    ensures NativeRecord(a, EvidenceIn(i.episodes), i.candidates, i.now) == a
  {
    var xs, vs := a.allocations, Verdicts(a.allocations, EvidenceIn(i.episodes), i.candidates);
    forall j | 0 <= j < |xs| ensures vs[j] == Keep { VerdictAt(xs, EvidenceIn(i.episodes), i.candidates, j); }
    assert RevokedHashes(xs, vs) == {} && RenewedHashes(xs, vs) == {};
    UntouchedRecord(a, EvidenceIn(i.episodes), i.candidates, i.now);
  }

  /** What a pass does before its loop leaves a ledger at rest and its candidates as they are. */
  lemma RestingPrepared(s: Records, i: PassInput)
    requires forall k :: 0 <= k < |s| ==> Rests(s[k], i)
    ensures PreparedBy(s, i) == s
    ensures ReviewedCandidates(s, i.candidates, i.episodes, i.activeEpochs, i.now) == i.candidates
  {
    RestingAllSwept(s, i);
    RestingAllKept(s, i);
    RestingAllSynced(s, i);
    PreparedStays(s, i);
  }

  lemma PreparedStays(s: Records, i: PassInput)
    requires SweepAll(ExpireRewrite(i.now - CANDIDATE_TTL_MS, i.now), s) == s
    requires SweepAll(QuarantineLegacy(Some(i.activeEpochs)), s) == s
    requires NativeAll(s, EvidenceIn(i.episodes), i.candidates, i.now) == s
    requires ReportOf(s, EvidenceIn(i.episodes), i.candidates) == NOTHING_REPORTED
    requires Synced(s, i.episodes, i.now) == s
    ensures PreparedBy(s, i) == s
    ensures ReviewedCandidates(s, i.candidates, i.episodes, i.activeEpochs, i.now) == i.candidates
  {
    NoneRevoked(i.candidates, s);
  }

  lemma RestingAllSynced(s: Records, i: PassInput)
    requires forall k :: 0 <= k < |s| ==> Rests(s[k], i)
    ensures Synced(s, i.episodes, i.now) == s
  {
    forall k | 0 <= k < |s| ensures SyncedStatus(s[k], i.episodes, i.now) == s[k].status { assert Rests(s[k], i); }
  }

  lemma NoneRevoked(cs: seq<Candidate>, s: Records)
    ensures AllAfterRevocation(cs, s, {}) == cs
  {
  }

  lemma RestingAllKept(s: Records, i: PassInput)
    requires forall k :: 0 <= k < |s| ==> Rests(s[k], i)
    ensures NativeAll(s, EvidenceIn(i.episodes), i.candidates, i.now) == s
    ensures ReportOf(s, EvidenceIn(i.episodes), i.candidates) == NOTHING_REPORTED
  {
    forall k | 0 <= k < |s| ensures NativeRecord(s[k], EvidenceIn(i.episodes), i.candidates, i.now) == s[k] {
      RestingKept(s[k], i);
    }
    forall k, j | 0 <= k < |s| && 0 <= j < |s[k].allocations|
      ensures NativeVerdict(s[k].allocations[j], EvidenceIn(i.episodes), i.candidates) == Keep
    {
      assert Rests(s[k], i) && AllocationRests(s[k].allocations[j], i);
    }
    AllKeptReports(s, EvidenceIn(i.episodes), i.candidates);
  }

  lemma RestingAllSwept(s: Records, i: PassInput)
    requires forall k :: 0 <= k < |s| ==> Rests(s[k], i)
    ensures SweepAll(ExpireRewrite(i.now - CANDIDATE_TTL_MS, i.now), s) == s
    ensures SweepAll(QuarantineLegacy(Some(i.activeEpochs)), s) == s
  {
    forall k | 0 <= k < |s|
      ensures SweepRecord(ExpireRewrite(i.now - CANDIDATE_TTL_MS, i.now), s[k]) == s[k]
      ensures SweepRecord(QuarantineLegacy(Some(i.activeEpochs)), s[k]) == s[k]
    {
      RestingSwept(s[k], i);
    }
  }

  // ---- one pass brings its ledger to rest -------------------------------------------------------------------

  /** A live allocation that quarantine leaves alone stays verified when it is retired. */
  lemma RetiredRests(x: Allocation, i: PassInput, now: Time)
    requires LiveStatus(x) && !Quarantines(x, Some(i.activeEpochs))
    ensures AllocationRests(Retired(x, now), i)
  {
  }

  lemma AllocationComesToRest(x: Allocation, i: PassInput)
    requires KeyedEvidence(EvidenceIn(i.episodes))
    ensures
      var y := Quarantined(ExpiredAllocation(x, i.now - CANDIDATE_TTL_MS, i.now), Some(i.activeEpochs));
      var z := NativeAllocation(y, EvidenceIn(i.episodes), i.candidates, i.now);
      && AllocationRests(z, i)
      && !Quarantines(y, Some(i.activeEpochs))
      && (VerifiedAllocation(y) ==> VerifiedAllocation(z))
  {
    var y := Quarantined(ExpiredAllocation(x, i.now - CANDIDATE_TTL_MS, i.now), Some(i.activeEpochs));
    KeptAgain(y, EvidenceIn(i.episodes), i.candidates, i.now);
  }

  /** The record after expiry and quarantine, after native reconciliation, and after status synchronisation. */
  ghost function SweptRecord(a: Attribution, i: PassInput): Attribution {
    SweepRecord(QuarantineLegacy(Some(i.activeEpochs)), SweepRecord(ExpireRewrite(i.now - CANDIDATE_TTL_MS, i.now), a))
  }

  ghost function ReconciledRecord(a: Attribution, i: PassInput): Attribution {
    NativeRecord(SweptRecord(a, i), EvidenceIn(i.episodes), i.candidates, i.now)
  }

  ghost function PreparedRecord(a: Attribution, i: PassInput): Attribution {
    ReconciledRecord(a, i).(status := SyncedStatus(ReconciledRecord(a, i), i.episodes, i.now))
  }

  lemma PreparedAt(s: Records, i: PassInput, k: nat)
    requires k < |s|
    ensures |PreparedBy(s, i)| == |s| && PreparedBy(s, i)[k] == PreparedRecord(s[k], i)
  {
    var expired := SweepAll(ExpireRewrite(i.now - CANDIDATE_TTL_MS, i.now), s);
    var swept := SweepAll(QuarantineLegacy(Some(i.activeEpochs)), expired);
    assert swept[k] == SweptRecord(s[k], i);
    assert NativeAll(swept, EvidenceIn(i.episodes), i.candidates, i.now)[k] == ReconciledRecord(s[k], i);
  }

  lemma AllocationsComeToRest(a: Attribution, i: PassInput)
    requires KeyedEvidence(EvidenceIn(i.episodes))
    ensures AllocationsRest(PreparedRecord(a, i), i)
    ensures var swept, last := SweptRecord(a, i), PreparedRecord(a, i);
      && |last.allocations| == |swept.allocations|
      && forall k :: 0 <= k < |last.allocations| ==>
           && !Quarantines(swept.allocations[k], Some(i.activeEpochs))
           && (VerifiedAllocation(swept.allocations[k]) ==> VerifiedAllocation(last.allocations[k]))
  {
    var swept, last := SweptRecord(a, i), PreparedRecord(a, i);
    forall k | 0 <= k < |a.allocations|
      ensures AllocationRests(last.allocations[k], i) && !Quarantines(swept.allocations[k], Some(i.activeEpochs))
      ensures VerifiedAllocation(swept.allocations[k]) ==> VerifiedAllocation(last.allocations[k])
    {
      AllocationComesToRest(a.allocations[k], i);
    }
  }

  /** A record that quarantine left with nothing verified has no live claim for native reconciliation to touch. */
  lemma LegacyUntouched(b: Attribution, i: PassInput)
    requires forall x :: x in b.allocations ==> !VerifiedAllocation(x) && !Quarantines(x, Some(i.activeEpochs))
    ensures NativeRecord(b, EvidenceIn(i.episodes), i.candidates, i.now) == b
  {
    var xs, vs := b.allocations, Verdicts(b.allocations, EvidenceIn(i.episodes), i.candidates);
    forall j | 0 <= j < |xs| ensures vs[j] == Keep {
      VerdictAt(xs, EvidenceIn(i.episodes), i.candidates, j);
      assert xs[j] in xs;
    }
    assert RevokedHashes(xs, vs) == {} && RenewedHashes(xs, vs) == {};
    UntouchedRecord(b, EvidenceIn(i.episodes), i.candidates, i.now);
  }

  lemma SyncedAgain(a: Attribution, i: PassInput)
    ensures var b := a.(status := SyncedStatus(a, i.episodes, i.now)); SyncedStatus(b, i.episodes, i.now) == b.status
  {
  }

  lemma StatusComesToRest(a: Attribution, i: PassInput)
    requires KeyedEvidence(EvidenceIn(i.episodes))
    ensures StatusRests(PreparedRecord(a, i), i)
  {
    SyncedAgain(ReconciledRecord(a, i), i);
    if TurnsLegacy(PreparedRecord(a, i), PreparedRecord(a, i).allocations, Some(i.activeEpochs)) { LegacyComesToRest(a, i); }
  }

  lemma LegacyComesToRest(a: Attribution, i: PassInput)
    requires KeyedEvidence(EvidenceIn(i.episodes))
    requires TurnsLegacy(PreparedRecord(a, i), PreparedRecord(a, i).allocations, Some(i.activeEpochs))
    ensures PreparedRecord(a, i).status == QueryLegacy
  {
    var swept, last := SweptRecord(a, i), PreparedRecord(a, i);
    AllocationsComeToRest(a, i);
    forall x | x in swept.allocations ensures !VerifiedAllocation(x) && !Quarantines(x, Some(i.activeEpochs)) {
      var k :| 0 <= k < |swept.allocations| && swept.allocations[k] == x;
      assert last.allocations[k] in last.allocations;
    }
    LegacyUntouched(swept, i);
    assert swept.status == QueryLegacy;
  }

  lemma ComesToRest(s: Records, i: PassInput, k: nat)
    requires KeyedEvidence(EvidenceIn(i.episodes)) && k < |s|
    ensures |PreparedBy(s, i)| == |s| && Rests(PreparedBy(s, i)[k], i)
  {
    PreparedAt(s, i, k);
    AllocationsComeToRest(s[k], i);
    StatusComesToRest(s[k], i);
  }

  // ---- and claims keep it at rest ---------------------------------------------------------------------------

  lemma {:induction false} EvidenceInMember(episodes: seq<Episode>, ep: Episode)
    requires ep in episodes
    ensures forall e :: e in ep.evidence ==> e in EvidenceIn(episodes)
  {
    var n := |episodes| - 1;
    if episodes[n] != ep {
      assert ep in episodes[..n];
      EvidenceInMember(episodes[..n], ep);
    }
  }

  /** The claim was made for a commit of an active epoch, in a known episode, on a proof of the policy. */
  ghost predicate FreshInput(input: ClaimInput, i: PassInput) {
    input.candidate.epochId in i.activeEpochs && input.episode in i.episodes && FromPolicy(input)
  }

  lemma FreshRests(x: Allocation, a: Attribution, input: ClaimInput, i: PassInput)
    requires x == AllocationFromClaim(input, a, i.now) && input.candidate.epochId in i.activeEpochs
    requires NativeVerdict(x, EvidenceIn(i.episodes), i.candidates) == Keep
    ensures AllocationRests(x, i) && VerifiedAllocation(x)
  {
  }

  lemma FreshKept(a: Attribution, input: ClaimInput, i: PassInput)
    requires KeyedEvidence(EvidenceIn(i.episodes)) && FreshInput(input, i)
    ensures NativeVerdict(AllocationFromClaim(input, a, i.now), EvidenceIn(i.episodes), i.candidates) == Keep
  {
    var lineage, active, held :| Justifies(input, lineage, active, held);
    EvidenceInMember(i.episodes, input.episode);
    var proof := EvaluateCommitAttribution(input.candidate, input.episode, lineage, active, held).proof.value;
    assert input == ClaimInput(input.candidate, input.episode, proof);
    FreshClaimStands(a, input.candidate, input.episode, lineage, active, held, EvidenceIn(i.episodes), i.candidates, i.now);
  }

  lemma MovedRests(a: Attribution, input: ClaimInput, from: Origin, i: PassInput)
    requires KeyedEvidence(EvidenceIn(i.episodes)) && FreshInput(input, i)
    requires AllocationsRest(a, i) && Movable(a, from)
    ensures Rests(Moved(a, input, from, i.now), i)
  {
    var x := AllocationFromClaim(input, a, i.now);
    FreshKept(a, input, i);
    FreshRests(x, a, input, i);
    MovedAllocationsRest(a, input, from, i);
    MovedStatusRests(a, input, from, i);
  }

  lemma MovedAllocationsRest(a: Attribution, input: ClaimInput, from: Origin, i: PassInput)
    requires AllocationRests(AllocationFromClaim(input, a, i.now), i)
    requires AllocationsRest(a, i) && Movable(a, from)
    ensures AllocationsRest(Moved(a, input, from, i.now), i)
  {
    var b := Moved(a, input, from, i.now);
    forall k | 0 <= k < |a.allocations| ensures AllocationRests(b.allocations[k], i) {
      if from.Some? && k == FindLiveOn(a.allocations, from.value) {
        RetiredRests(a.allocations[k], i, i.now);
      } else {
        assert b.allocations[k] == a.allocations[k];
      }
    }
  }

  lemma MovedStatusRests(a: Attribution, input: ClaimInput, from: Origin, i: PassInput)
    requires VerifiedAllocation(AllocationFromClaim(input, a, i.now)) && Movable(a, from)
    ensures StatusRests(Moved(a, input, from, i.now), i)
  {
    var b := Moved(a, input, from, i.now);
    assert b.allocations[|a.allocations|] in b.allocations;
  }

  /** The records a pass leaves are at rest. */
  lemma PassLeavesRest(s: Records, i: PassInput, a: Attribution)
    requires Inv(s) && NoLiveLinks(s) && KeyedEvidence(EvidenceIn(i.episodes))
    requires a in WholeOn(s, i).records
    ensures Rests(a, i)
  {
    var start, p := PreparedBy(s, i), WholeOn(s, i);
    var reviewed := i.(candidates := ReviewedCandidates(s, i.candidates, i.episodes, i.activeEpochs, i.now));
    WholePassSafe(s, i.candidates, i.episodes, i.activeEpochs, i.isAncestor, i.now);
    LoopIdle(start, reviewed.candidates, i.episodes, i.activeEpochs, i.isAncestor, i.now);
    GetOfMember(p.records, a);
    var k := FindMove(p.moves, a.queryId);
    if k < |p.moves| {
      var m := p.moves[k];
      LoopSources(start, reviewed);
      assert m in p.moves && Sourced(m, reviewed);
      StartRests(s, i, Get(start, a.queryId));
      MovedRests(Get(start, a.queryId), m.input, m.from, i);
    } else {
      assert a in start;
      StartRests(s, i, a);
    }
  }

  lemma StartRests(s: Records, i: PassInput, a: Attribution)
    requires KeyedEvidence(EvidenceIn(i.episodes))
    requires a in PreparedBy(s, i) || a == EmptyAttribution(a.queryId)
    ensures AllocationsRest(a, i)
    ensures a in PreparedBy(s, i) ==> Rests(a, i)
  {
    if a in PreparedBy(s, i) {
      var k :| 0 <= k < |PreparedBy(s, i)| && PreparedBy(s, i)[k] == a;
      PreparedAt(s, i, 0);
      ComesToRest(s, i, k);
    }
  }

  /**
   After one whole pass, with one evidence record per query, repository and epoch, the next pass with the
   same inputs expires, quarantines, revokes, revalidates and relabels nothing: it is its candidate loop.
   */
  lemma HousekeepingIdle(s: Records, i: PassInput)
    requires Inv(s) && NoLiveLinks(s) && KeyedEvidence(EvidenceIn(i.episodes))
    ensures var r := WholeOn(s, i).records;
      && Inv(r) && NoLiveLinks(r)
      && PreparedBy(r, i) == r
      && WholeOn(r, i) == PassOn(r, i)
  {
    var r := WholeOn(s, i).records;
    WholePassSafe(s, i.candidates, i.episodes, i.activeEpochs, i.isAncestor, i.now);
    forall k | 0 <= k < |r| ensures Rests(r[k], i) { PassLeavesRest(s, i, r[k]); }
    RestingPrepared(r, i);
  }

  // ---- repeating the whole pass -----------------------------------------------------------------------------

  ghost function AfterWhole(s: Records, passes: seq<PassInput>): Records {
    if passes == [] then s else WholeOn(AfterWhole(s, passes[..|passes| - 1]), passes[|passes| - 1]).records
  }

  ghost function AfterWholePasses(s: Records, i: PassInput, k: nat): Records {
    AfterWhole(s, Repeat(i, k))
  }

  lemma WholeNext(s: Records, i: PassInput, k: nat)
    ensures AfterWholePasses(s, i, k + 1) == WholeOn(AfterWholePasses(s, i, k), i).records
  {
    var passes := Repeat(i, k + 1);
    assert passes[..k] == Repeat(i, k) && passes[k] == i;
  }

  /** From the second pass on a whole pass does what its loop does. */
  lemma {:induction false} LaterPassesAreLoops(s: Records, i: PassInput, k: nat)
    requires Inv(s) && NoLiveLinks(s) && KeyedEvidence(EvidenceIn(i.episodes))
    ensures Inv(AfterWholePasses(s, i, k)) && NoLiveLinks(AfterWholePasses(s, i, k))
    ensures AfterWholePasses(s, i, k + 1) == AfterRepeats(WholeOn(s, i).records, i, k)
  {
    if k == 0 {
      WholeNext(s, i, 0);
    } else {
      LaterPassesAreLoops(s, i, k - 1);
      NextPassIsLoop(s, i, k);
      AfterOneMore(WholeOn(s, i).records, i, k - 1);
    }
  }

  lemma NextPassIsLoop(s: Records, i: PassInput, k: nat)
    requires k > 0 && Inv(AfterWholePasses(s, i, k - 1)) && NoLiveLinks(AfterWholePasses(s, i, k - 1))
    requires KeyedEvidence(EvidenceIn(i.episodes))
    ensures Inv(AfterWholePasses(s, i, k)) && NoLiveLinks(AfterWholePasses(s, i, k))
    ensures AfterWholePasses(s, i, k + 1) == PassOn(AfterWholePasses(s, i, k), i).records
  {
    WholeNext(s, i, k - 1);
    WholeNext(s, i, k);
    HousekeepingIdle(AfterWholePasses(s, i, k - 1), i);
  }

  /** What repeated whole passes do after the first is what repeated loops do. */
  ghost predicate RunsAsLoops(s: Records, i: PassInput, r: Records) {
    forall k: nat :: AfterWholePasses(s, i, k + 1) == AfterRepeats(r, i, k)
  }

  lemma AllLaterAreLoops(s: Records, i: PassInput)
    requires Inv(s) && NoLiveLinks(s) && KeyedEvidence(EvidenceIn(i.episodes))
    ensures RunsAsLoops(s, i, WholeOn(s, i).records)
  {
    forall k: nat ensures AfterWholePasses(s, i, k + 1) == AfterRepeats(WholeOn(s, i).records, i, k) {
      LaterPassesAreLoops(s, i, k);
    }
  }

  /** From the k-th whole pass on the ledger no longer changes. */
  ghost predicate WholeSettledFrom(s: Records, i: PassInput, k: nat) {
    forall m: nat :: k <= m ==> AfterWholePasses(s, i, m) == AfterWholePasses(s, i, k)
  }

  lemma SettlesAsLoops(s: Records, i: PassInput, r: Records, k: nat)
    requires RunsAsLoops(s, i, r) && SettledFrom(r, i, k)
    ensures WholeSettledFrom(s, i, k + 1)
  {
    forall m: nat | k + 1 <= m ensures AfterWholePasses(s, i, m) == AfterWholePasses(s, i, k + 1) {
      assert AfterRepeats(r, i, m - 1) == AfterRepeats(r, i, k);
      assert AfterWholePasses(s, i, m - 1 + 1) == AfterRepeats(r, i, m - 1);
    }
  }

  /**
   Repeating the whole pass with the same inputs, and one evidence record per query, repository and epoch,
   reaches a fixed point of the ledger: after the first pass, within as many passes as it left moves possible.
   */
  lemma WholePassSettles(s: Records, i: PassInput, ids: set<Id>, times: set<Time>)
    requires Inv(s) && NoLiveLinks(s) && KeyedEvidence(EvidenceIn(i.episodes)) && Bounded(i, ids, times)
    ensures exists k :: 1 <= k <= 1 + |Remaining(WholeOn(s, i).records, ids, times)| && WholeSettledFrom(s, i, k)
  {
    HousekeepingIdle(s, i);
    AllLaterAreLoops(s, i);
    SettlesWithin(s, i, WholeOn(s, i).records, ids, times);
  }

  lemma SettlesWithin(s: Records, i: PassInput, r: Records, ids: set<Id>, times: set<Time>)
    requires Inv(r) && NoLiveLinks(r) && Bounded(i, ids, times) && RunsAsLoops(s, i, r)
    ensures exists k :: 1 <= k <= 1 + |Remaining(r, ids, times)| && WholeSettledFrom(s, i, k)
  {
    ReachesFixedPoint(r, i, ids, times);
    var k :| 0 <= k <= |Remaining(r, ids, times)| && SettledFrom(r, i, k);
    SettlesAsLoops(s, i, r, k);
  }
}
