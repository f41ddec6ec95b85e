/**
 The reconciliation pass as it runs (src/attribution/gitAttribution.ts): it lists the ledger once,
 then claims and transfers through the ledger while its own list goes stale.
 */
module GitAttribution {
  import opened Prelude
  import opened Types
  import opened Grouping
  import opened CommitAttributionPolicy
  import opened CommitAttributionLedger
  import opened LedgerTransitions
  import opened JsonlLedger
  import opened ReconcilePass

  // ---- status synchronisation -----------------------------------------------------------------------

  predicate SettledStatus(st: QueryStatus) {
    st == Attributed || st == QueryRewritePending || st == QueryLegacy || st == QueryRejected
  }

  predicate AllEpisodesClosed(q: Id, episodes: seq<Episode>) {
    forall ep | ep in episodes :: q in ep.queryIds ==> ep.status == Stale || ep.status == EpisodeExpired
  }

  predicate HasEvidence(q: Id, episodes: seq<Episode>) {
    exists ep | ep in episodes :: q in ep.queryIds && exists e | e in ep.evidence :: e.queryId == q
  }

  predicate AllEvidenceExpired(q: Id, episodes: seq<Episode>, now: Time) {
    forall ep | ep in episodes :: q in ep.queryIds ==>
      forall e | e in ep.evidence :: e.queryId == q ==> e.expiresAt.Some? && e.expiresAt.value <= now
  }

  function SyncedStatus(a: Attribution, episodes: seq<Episode>, now: Time): QueryStatus {
    if SettledStatus(a.status) then a.status
    else if !HasEvidence(a.queryId, episodes) then Unattributed
    else if AllEpisodesClosed(a.queryId, episodes) || AllEvidenceExpired(a.queryId, episodes, now) then QueryExpired
    else QueryPendingEvidence
  }

  function Synced(s: Records, episodes: seq<Episode>, now: Time): (r: Records)
    ensures |r| == |s| && forall i :: 0 <= i < |s| ==> r[i] == s[i].(status := SyncedStatus(s[i], episodes, now))
  {
    seq(|s|, i requires 0 <= i < |s| => s[i].(status := SyncedStatus(s[i], episodes, now)))
  }

  lemma SyncKeepsInv(s: Records, episodes: seq<Episode>, now: Time)
    requires Inv(s)
    ensures Inv(Synced(s, episodes, now))
    ensures NoLiveLinks(s) ==> NoLiveLinks(Synced(s, episodes, now))
  {
    var r := Synced(s, episodes, now);
    forall i | 0 <= i < |s| ensures RecordWeakens(s[i], r[i]) {}
    WeakenedInv(s, r);
  }

  // ---- candidates after a native revocation -----------------------------------------------------------

  predicate HoldsClaimOn(a: Attribution, c: Candidate) {
    exists x | x in a.allocations :: LiveClaim(x) && SameCommit(c, x)
  }

  function AfterRevocation(c: Candidate, s: Records, revokedCommits: set<Id>): Candidate {
    if c.commitHash !in revokedCommits || exists a | a in s :: HoldsClaimOn(a, c) then c
    else c.(decision := PendingEvidence, reasonCodes := (c.reasonCodes - {VerifiedContentContinuity}) + {NativeRetracted})
  }

  function AllAfterRevocation(cs: seq<Candidate>, s: Records, revokedCommits: set<Id>): seq<Candidate> {
    seq(|cs|, i requires 0 <= i < |cs| => AfterRevocation(cs[i], s, revokedCommits))
  }

  // ---- the whole pass -----------------------------------------------------------------------------------

  /** The ledger just before the candidate loop. */
  function Prepared(
    s: Records, candidates: seq<Candidate>, episodes: seq<Episode>, activeEpochs: set<Id>, now: Time): Records
  {
    var swept := SweepAll(QuarantineLegacy(Some(activeEpochs)), SweepAll(ExpireRewrite(now - CANDIDATE_TTL_MS, now), s));
    Synced(NativeAll(swept, EvidenceIn(episodes), candidates, now), episodes, now)
  }

  function EvidenceIn(episodes: seq<Episode>): seq<Evidence> {
    if episodes == [] then [] else EvidenceIn(episodes[..|episodes| - 1]) + episodes[|episodes| - 1].evidence
  }

  function ReviewedCandidates(
    s: Records, candidates: seq<Candidate>, episodes: seq<Episode>, activeEpochs: set<Id>, now: Time): seq<Candidate>
  {
    var swept := SweepAll(QuarantineLegacy(Some(activeEpochs)), SweepAll(ExpireRewrite(now - CANDIDATE_TTL_MS, now), s));
    AllAfterRevocation(candidates, NativeAll(swept, EvidenceIn(episodes), candidates, now),
                       ReportOf(swept, EvidenceIn(episodes), candidates).revokedCommits)
  }

  function WholePass(
    s: Records, candidates: seq<Candidate>, episodes: seq<Episode>, activeEpochs: set<Id>, isAncestor: Ancestry, now: Time)
    : PassState
  {
    CandidateLoop(
      Prepared(s, candidates, episodes, activeEpochs, now),
      ReviewedCandidates(s, candidates, episodes, activeEpochs, now), episodes, activeEpochs, isAncestor, now)
  }

  lemma PreparedOk(s: Records, candidates: seq<Candidate>, episodes: seq<Episode>, activeEpochs: set<Id>, now: Time)
    requires Inv(s) && NoLiveLinks(s)
    ensures Inv(Prepared(s, candidates, episodes, activeEpochs, now))
    ensures NoLiveLinks(Prepared(s, candidates, episodes, activeEpochs, now))
  {
    var expired := SweepAll(ExpireRewrite(now - CANDIDATE_TTL_MS, now), s);
    SweepKeepsInv(ExpireRewrite(now - CANDIDATE_TTL_MS, now), s);
    var swept := SweepAll(QuarantineLegacy(Some(activeEpochs)), expired);
    SweepKeepsInv(QuarantineLegacy(Some(activeEpochs)), expired);
    NativeKeepsInv(swept, EvidenceIn(episodes), candidates, now);
    SyncKeepsInv(NativeAll(swept, EvidenceIn(episodes), candidates, now), episodes, now);
  }

  /** A whole pass, with everything it does before its loop, never throws and keeps the ledger sound. */
  lemma WholePassSafe(
    s: Records, candidates: seq<Candidate>, episodes: seq<Episode>, activeEpochs: set<Id>, isAncestor: Ancestry, now: Time)
    requires Inv(s) && NoLiveLinks(s)
    ensures
      var p := WholePass(s, candidates, episodes, activeEpochs, isAncestor, now);
      PassInv(Prepared(s, candidates, episodes, activeEpochs, now), p, isAncestor, now)
  {
    PreparedOk(s, candidates, episodes, activeEpochs, now);
    PassSafety(Prepared(s, candidates, episodes, activeEpochs, now),
               ReviewedCandidates(s, candidates, episodes, activeEpochs, now), episodes, activeEpochs, isAncestor, now);
  }

  ghost predicate Vouches(e: Evidence, c: Candidate, isAncestor: Ancestry) {
    e.repoKey == c.repoKey && e.epochId == Some(c.epochId) && LineageOf(e, c, isAncestor)
  }

  /** The decision a candidate is left with, from what its turn did. */
  ghost function DecisionOf(c: Candidate, before: PassState, after: PassState, activeEpochs: set<Id>, now: Time): Decision {
    if !Considered(c, activeEpochs) then c.decision else DecisionAfter(c, after.moves != before.moves, now)
  }

  /** The decision the i-th candidate is left with: reportable once some query was charged to it. */
  ghost function DecisionAt(
    snapshot: Records, candidates: seq<Candidate>, episodes: seq<Episode>, activeEpochs: set<Id>, isAncestor: Ancestry,
    now: Time, i: nat): Decision
    requires i < |candidates|
  {
    var before := CandidateLoop(snapshot, candidates[..i], episodes, activeEpochs, isAncestor, now);
    var after := CandidateStep(before, snapshot, candidates[i], episodes, activeEpochs, isAncestor, now);
    DecisionOf(candidates[i], before, after, activeEpochs, now)
  }

  /** These are the decisions of the first candidates. */
  ghost predicate Decided(
    decisions: seq<Decision>, snapshot: Records, candidates: seq<Candidate>, episodes: seq<Episode>, activeEpochs: set<Id>,
    isAncestor: Ancestry, now: Time)
  {
    && |decisions| <= |candidates|
    && forall i :: 0 <= i < |decisions| ==>
         decisions[i] == DecisionAt(snapshot, candidates, episodes, activeEpochs, isAncestor, now, i)
  }

  lemma DecidedNext(
    decisions: seq<Decision>, decision: Decision, snapshot: Records, candidates: seq<Candidate>, episodes: seq<Episode>,
    activeEpochs: set<Id>, isAncestor: Ancestry, now: Time)
    requires Decided(decisions, snapshot, candidates, episodes, activeEpochs, isAncestor, now)
    requires |decisions| < |candidates|
    requires decision == DecisionAt(snapshot, candidates, episodes, activeEpochs, isAncestor, now, |decisions|)
    ensures Decided(decisions + [decision], snapshot, candidates, episodes, activeEpochs, isAncestor, now)
  {
  }

  /** The loop after one more candidate. */
  lemma LoopNext(
    snapshot: Records, candidates: seq<Candidate>, episodes: seq<Episode>, activeEpochs: set<Id>, isAncestor: Ancestry,
    now: Time, i: nat)
    requires i < |candidates|
    ensures CandidateLoop(snapshot, candidates[..i + 1], episodes, activeEpochs, isAncestor, now)
         == CandidateStep(CandidateLoop(snapshot, candidates[..i], episodes, activeEpochs, isAncestor, now),
                          snapshot, candidates[i], episodes, activeEpochs, isAncestor, now)
  {
    assert candidates[..i + 1][..i] == candidates[..i];
  }

  lemma EpisodesNext(
    p: PassState, snapshot: Records, c: Candidate, episodes: seq<Episode>, isAncestor: Ancestry, now: Time, i: nat)
    requires i < |episodes|
    ensures EpisodesStep(p, snapshot, c, episodes[..i + 1], isAncestor, now)
         == EpisodeStep(EpisodesStep(p, snapshot, c, episodes[..i], isAncestor, now), snapshot, c, episodes[i], isAncestor, now)
  {
    assert episodes[..i + 1][..i] == episodes[..i];
  }

  /** At no point of the loop has the pass thrown. */
  lemma LoopSafe(
    snapshot: Records, candidates: seq<Candidate>, episodes: seq<Episode>, activeEpochs: set<Id>, isAncestor: Ancestry, now: Time)
    requires Inv(snapshot) && NoLiveLinks(snapshot)
    ensures var p := CandidateLoop(snapshot, candidates, episodes, activeEpochs, isAncestor, now);
      !p.failed && Inv(p.records) && NoLiveLinks(p.records)
  {
    PassSafety(snapshot, candidates, episodes, activeEpochs, isAncestor, now);
  }

  class DefaultGitAttribution {
    const ledger: JsonlCommitAttributionLedger

    constructor (ledger: JsonlCommitAttributionLedger)
      ensures this.ledger == ledger
    {
      this.ledger := ledger;
    }

    /** Which queries of the episode started on an ancestor of the commit. */
    method LineageVerifiedQueryIds(c: Candidate, ep: Episode, isAncestor: Ancestry) returns (verified: set<Id>)
      ensures verified == Lineage(c, ep, isAncestor)
    {
      verified := {};
      for i := 0 to |ep.evidence|
        invariant forall q :: q in verified <==>
          exists j :: 0 <= j < i && ep.evidence[j].queryId == q && Vouches(ep.evidence[j], c, isAncestor)
      {
        var e := ep.evidence[i];
        if e.repoKey == c.repoKey && e.epochId == Some(c.epochId) && LineageOf(e, c, isAncestor) {
          verified := verified + {e.queryId};
        }
      }
      forall q ensures q in verified <==> q in Lineage(c, ep, isAncestor) {
        if e :| e in ep.evidence && e.queryId == q && Vouches(e, c, isAncestor) {
          var j :| 0 <= j < |ep.evidence| && ep.evidence[j] == e;
        }
      }
    }

    method ActiveEpisodeSupersessionGroups(snapshot: Records, c: Candidate, ep: Episode) returns (groups: ClaimGroups)
      ensures groups == SupersessionGroups(snapshot, c, ep)
    {
      groups := [];
      for i := 0 to |snapshot|
        invariant groups == SupersessionGroups(snapshot[..i], c, ep)
      {
        assert snapshot[..i + 1][..i] == snapshot[..i];
        var a := snapshot[i];
        var k := FindSupersedable(a.allocations, c, ep);
        if a.queryId in ep.queryIds && k < |a.allocations| {
          groups := AddTo(groups, a.allocations[k].commitHash, a.queryId);
        }
      }
      assert snapshot[..|snapshot|] == snapshot;
    }

    method RewritePendingGroups(snapshot: Records, wanted: seq<Id>, replacement: Id) returns (groups: ClaimGroups)
      ensures groups == RewriteGroups(snapshot, wanted, replacement)
    {
      groups := [];
      for i := 0 to |snapshot|
        invariant groups == RewriteGroups(snapshot[..i], wanted, replacement)
      {
        assert snapshot[..i + 1][..i] == snapshot[..i];
        var a := snapshot[i];
        var k := FindPending(a.allocations);
        if a.queryId in wanted && k < |a.allocations| && a.allocations[k].commitHash != replacement {
          groups := AddTo(groups, a.allocations[k].commitHash, a.queryId);
        }
      }
      assert snapshot[..|snapshot|] == snapshot;
    }

    /** Transfers group after group; stops at the first call that throws. */
    method TransferGroups(ghost p: PassState, input: ClaimInput, groups: ClaimGroups, now: Time)
      returns (transferred: set<Id>, failed: bool, ghost r: PassState)
      requires ledger.Valid() && p.records == ledger.records && !p.failed
      modifies ledger
      ensures ledger.Valid()
      ensures r == ApplyGroups(p, input, groups, now)
      ensures r.records == ledger.records && r.failed == failed
      ensures p.moves <= r.moves && transferred == MovedIds(r.moves[|p.moves|..])
    {
      transferred, failed, r := {}, false, p;
      for i := 0 to |groups|
        invariant ledger.Valid() && !failed && !r.failed
        invariant r == ApplyGroups(p, input, groups[..i], now) && r.records == ledger.records
        invariant p.moves <= r.moves && transferred == MovedIds(r.moves[|p.moves|..])
      {
        assert groups[..i + 1][..i] == groups[..i];
        var claimed, _, threw := ledger.TransferFirstClaim(input, groups[i].key, groups[i].items, now);
        ghost var before := r;
        r := Apply(r, input, Some(groups[i].key), groups[i].items, now);
        if threw {
          failed := true;
          FailedGroupsStay(p, input, groups, i + 1, now);
          return;
        }
        MovedIdsGrow(p.moves, before.moves, claimed, Some(groups[i].key), input);
        transferred := transferred + set q | q in claimed;
      }
      assert groups[..|groups|] == groups;
    }

    /** Claims and transfers for one commit and one episode. */
    method ChargeEpisode(
      ghost p: PassState, snapshot: Records, c: Candidate, ep: Episode, r: Evaluation, groups: ClaimGroups, now: Time)
      returns (moved: set<Id>, failed: bool, ghost after: PassState)
      requires ledger.Valid() && p.records == ledger.records && !p.failed
      requires r.proof.Some? && groups == SupersessionGroups(snapshot, c, ep)
      modifies ledger
      ensures ledger.Valid()
      ensures after == Charge(p, snapshot, c, ep, r, now)
      ensures after.records == ledger.records && after.failed == failed
      ensures p.moves <= after.moves && moved == MovedIds(after.moves[|p.moves|..])
    {
      var input := ClaimInput(c, ep, r.proof.value);
      var rewrites := RewritePendingGroups(snapshot, r.queryIds, c.commitHash);
      var earlier := FilterGroups(groups, r.queryIds);
      var regular := Outside(r.queryIds, GroupIds(rewrites) + GroupIds(earlier));
      ClaimNeverFails(p.records, input, regular, now);
      var claimed, _, threw := ledger.TryFirstClaim(input, regular, now);
      ghost var p1 := Apply(p, input, None, regular, now);
      MovedIdsGrow(p.moves, p.moves, claimed, None, input);
      moved := set q | q in claimed;
      var rewritten, failedRewrites, p2 := TransferGroups(p1, input, rewrites, now);
      MovedIdsJoin(p.moves, p1.moves, p2.moves);
      moved, failed, after := moved + rewritten, failedRewrites, p2;
      if failed {
        FailedGroupsIdle(p2, input, earlier, now);
      } else if claimed != [] || ActivitySinceClaim(ep) {
        var superseded, failedSupersession, p3 := TransferGroups(p2, input, earlier, now);
        MovedIdsJoin(p.moves, p2.moves, p3.moves);
        moved, failed, after := moved + superseded, failedSupersession, p3;
      }
    }

    /** One candidate against one episode: nothing unless the episode is relevant and makes it reportable. */
    method ConsiderEpisode(
      ghost p: PassState, active: set<Id>, snapshot: Records, c: Candidate, ep: Episode, isAncestor: Ancestry, now: Time)
      returns (moved: set<Id>, failed: bool, ghost after: PassState)
      requires ledger.Valid() && p.records == ledger.records && !p.failed
      requires active == ActiveQueries(snapshot) + MovedIds(p.moves)
      modifies ledger
      ensures ledger.Valid()
      ensures after == EpisodeStep(p, snapshot, c, ep, isAncestor, now)
      ensures after.records == ledger.records && after.failed == failed
      ensures p.moves <= after.moves && moved == MovedIds(after.moves[|p.moves|..])
    {
      moved, failed, after := {}, false, p;
      if Relevant(c, ep) {
        var groups := ActiveEpisodeSupersessionGroups(snapshot, c, ep);
        var lineage := LineageVerifiedQueryIds(c, ep, isAncestor);
        var r := EvaluateCommitAttribution(
          c, ep, lineage, active - GroupIds(groups), CandidateAnchors(snapshot, c, ep));
        if r.decision == Reportable && r.proof.Some? && r.queryIds != [] {
          moved, failed, after := ChargeEpisode(p, snapshot, c, ep, r, groups, now);
        }
      }
    }

    /** One candidate against every episode. */
    method ChargeCandidate(
      ghost p: PassState, active: set<Id>, snapshot: Records, c: Candidate, episodes: seq<Episode>, isAncestor: Ancestry, now: Time)
      returns (activeAfter: set<Id>, reported: bool, failed: bool, ghost after: PassState)
      requires ledger.Valid() && p.records == ledger.records && !p.failed
      requires active == ActiveQueries(snapshot) + MovedIds(p.moves)
      modifies ledger
      ensures ledger.Valid()
      ensures after == EpisodesStep(p, snapshot, c, episodes, isAncestor, now)
      ensures after.records == ledger.records && after.failed == failed
      ensures !failed ==> activeAfter == ActiveQueries(snapshot) + MovedIds(after.moves)
      ensures !failed ==> reported == (after.moves != p.moves)
    {
      activeAfter, reported, failed, after := active, false, false, p;
      for i := 0 to |episodes|
        invariant ledger.Valid() && !failed && !after.failed && p.moves <= after.moves
        invariant after == EpisodesStep(p, snapshot, c, episodes[..i], isAncestor, now) && after.records == ledger.records
        invariant activeAfter == ActiveQueries(snapshot) + MovedIds(after.moves)
        invariant reported == (after.moves != p.moves)
      {
        ghost var before := after;
        EpisodesNext(p, snapshot, c, episodes, isAncestor, now, i);
        var moved;
        moved, failed, after := ConsiderEpisode(after, activeAfter, snapshot, c, episodes[i], isAncestor, now);
        if failed {
          FailedEpisodesStay(p, snapshot, c, episodes, isAncestor, now, i + 1);
          return;
        }
        MovedIdsSplit(before.moves, after.moves);
        if moved != {} {
          reported := true;
          activeAfter := activeAfter + moved;
        }
      }
      assert episodes[..|episodes|] == episodes;
    }

    /** One candidate's turn. */
    method ReconcileCandidate(
      ghost p: PassState, active: set<Id>, snapshot: Records, c: Candidate, episodes: seq<Episode>, activeEpochs: set<Id>,
      isAncestor: Ancestry, now: Time)
      returns (activeAfter: set<Id>, decision: Decision, failed: bool, ghost after: PassState)
      requires ledger.Valid() && p.records == ledger.records && !p.failed
      requires active == ActiveQueries(snapshot) + MovedIds(p.moves)
      modifies ledger
      ensures ledger.Valid()
      ensures after == CandidateStep(p, snapshot, c, episodes, activeEpochs, isAncestor, now)
      ensures after.records == ledger.records && after.failed == failed
      ensures !failed ==> activeAfter == ActiveQueries(snapshot) + MovedIds(after.moves)
      ensures !failed ==> decision == DecisionOf(c, p, after, activeEpochs, now)
    {
      activeAfter, decision, failed, after := active, c.decision, false, p;
      if Considered(c, activeEpochs) {
        var reported;
        activeAfter, reported, failed, after := ChargeCandidate(p, active, snapshot, c, episodes, isAncestor, now);
        decision := DecisionAfter(c, reported, now);
      }
    }

    /** The candidate loop: returns the decision each candidate is left with. */
    method ReconcileCandidates(
      snapshot: Records, candidates: seq<Candidate>, episodes: seq<Episode>, activeEpochs: set<Id>, isAncestor: Ancestry, now: Time)
      returns (decisions: seq<Decision>, ghost p: PassState)
      requires ledger.Valid() && NoLiveLinks(ledger.records) && snapshot == ledger.records
      modifies ledger
      ensures ledger.Valid() && NoLiveLinks(ledger.records)
      ensures p == CandidateLoop(snapshot, candidates, episodes, activeEpochs, isAncestor, now)
      ensures ledger.records == p.records && !p.failed
      ensures |decisions| == |candidates|
      ensures forall i :: 0 <= i < |candidates| ==>
        decisions[i] == DecisionAt(snapshot, candidates, episodes, activeEpochs, isAncestor, now, i)
    {
      var active := ActiveQueries(snapshot);
      decisions := [];
      p := PassState(snapshot, [], false);
      for i := 0 to |candidates|
        invariant ledger.Valid() && |decisions| == i
        invariant p == CandidateLoop(snapshot, candidates[..i], episodes, activeEpochs, isAncestor, now)
        invariant p.records == ledger.records && !p.failed
        invariant active == ActiveQueries(snapshot) + MovedIds(p.moves)
        invariant Decided(decisions, snapshot, candidates, episodes, activeEpochs, isAncestor, now)
      {
        LoopNext(snapshot, candidates, episodes, activeEpochs, isAncestor, now, i);
        LoopSafe(snapshot, candidates[..i + 1], episodes, activeEpochs, isAncestor, now);
        var decision, failed;
        active, decision, failed, p :=
          ReconcileCandidate(p, active, snapshot, candidates[i], episodes, activeEpochs, isAncestor, now);
        DecidedNext(decisions, decision, snapshot, candidates, episodes, activeEpochs, isAncestor, now);
        decisions := decisions + [decision];
      }
      assert candidates[..|candidates|] == candidates;
      LoopSafe(snapshot, candidates, episodes, activeEpochs, isAncestor, now);
    }

    /** Writes back every status that no longer fits the episodes. */
    method SynchronizeQueryStatuses(snapshot: Records, episodes: seq<Episode>, now: Time) returns (changed: nat)
      requires ledger.Valid() && snapshot == ledger.records
      modifies ledger
      ensures ledger.Valid()
      ensures ledger.records == Synced(snapshot, episodes, now)
    {
      changed := 0;
      for i := 0 to |snapshot|
        invariant ledger.Valid() && |ledger.records| == |snapshot|
        invariant forall j :: 0 <= j < i ==>
          ledger.records[j] == snapshot[j].(status := SyncedStatus(snapshot[j], episodes, now))
        invariant forall j :: i <= j < |snapshot| ==> ledger.records[j] == snapshot[j]
      {
        var a := snapshot[i];
        var next := SyncedStatus(a, episodes, now);
        if a.status != next {
          var b := a.(status := next);
          assert ledger.records[i] in ledger.records && Writable(a);
          UniquePosition(ledger.records, i);
          var ok := ledger.UpsertQueryAttribution(b);
          changed := changed + 1;
        }
      }
      assert ledger.records == Synced(snapshot, episodes, now);
    }

    /** Expire, quarantine, reconcile native rejections, synchronise statuses, then run the loop. */
    method ReconcileInternal(
      candidates: seq<Candidate>, episodes: seq<Episode>, activeEpochs: set<Id>, isAncestor: Ancestry, now: Time)
      returns (decisions: seq<Decision>)
      requires ledger.Valid() && NoLiveLinks(ledger.records)
      modifies ledger
      ensures ledger.Valid() && NoLiveLinks(ledger.records)
      ensures ledger.records == WholePass(old(ledger.records), candidates, episodes, activeEpochs, isAncestor, now).records
      ensures |decisions| == |candidates|
      ensures forall i :: 0 <= i < |candidates| ==> decisions[i] == DecisionAt(
        Prepared(old(ledger.records), candidates, episodes, activeEpochs, now),
        ReviewedCandidates(old(ledger.records), candidates, episodes, activeEpochs, now),
        episodes, activeEpochs, isAncestor, now, i)
    {
      PreparedOk(ledger.records, candidates, episodes, activeEpochs, now);
      var expired := ledger.ExpireRewritePending(now - CANDIDATE_TTL_MS, now);
      var quarantined := ledger.Quarantine(Some(activeEpochs));
      var attributions := ledger.ListQueryAttributions();
      var evidence := EvidenceIn(episodes);
      ghost var swept := ledger.records;
      var report := ledger.ReconcileNativeRejectedCausalClaims(evidence, candidates, now);
      if report.revokedQueries != {} || report.revalidatedQueries != {} {
        attributions := ledger.ListQueryAttributions();
      } else {
        NothingReported(swept, evidence, candidates, now);
      }
      var reviewed := AllAfterRevocation(candidates, attributions, report.revokedCommits);
      var changed := SynchronizeQueryStatuses(attributions, episodes, now);
      attributions := ledger.ListQueryAttributions();
      ghost var p;
      decisions, p := ReconcileCandidates(attributions, reviewed, episodes, activeEpochs, isAncestor, now);
    }
  }

  // ---- what the loops rely on ---------------------------------------------------------------------------

  lemma UniquePosition(s: Records, i: nat)
    requires UniqueIds(s) && i < |s|
    ensures Find(s, s[i].queryId) == i
  {
  }

  lemma MovedIdsGrow(base: seq<ClaimMove>, moves: seq<ClaimMove>, claimed: seq<Id>, from: Origin, input: ClaimInput)
    requires base <= moves
    ensures var all := moves + MovesOf(claimed, from, input);
      base <= all && MovedIds(all[|base|..]) == MovedIds(moves[|base|..]) + set q | q in claimed
  {
    var added := MovesOf(claimed, from, input);
    var all := moves + added;
    assert all[|base|..] == moves[|base|..] + added;
    forall q ensures q in MovedIds(added) <==> q in claimed {
      if q in claimed {
        var i :| 0 <= i < |claimed| && claimed[i] == q;
        assert added[i] in added;
      }
    }
  }

  lemma MovedIdsJoin(a: seq<ClaimMove>, b: seq<ClaimMove>, c: seq<ClaimMove>)
    requires a <= b <= c
    ensures a <= c && MovedIds(c[|a|..]) == MovedIds(b[|a|..]) + MovedIds(c[|b|..])
  {
    assert c[|a|..] == b[|a|..] + c[|b|..];
  }

  lemma MovedIdsSplit(a: seq<ClaimMove>, b: seq<ClaimMove>)
    requires a <= b
    ensures MovedIds(b) == MovedIds(a) + MovedIds(b[|a|..])
    ensures MovedIds(b[|a|..]) == {} ==> a == b
  {
    assert b == a + b[|a|..];
    if b[|a|..] != [] {
      assert b[|a|] in b[|a|..];
      assert b[|a|].queryId in MovedIds(b[|a|..]);
    }
  }

  lemma {:induction false} FailedGroupsIdle(p: PassState, input: ClaimInput, groups: ClaimGroups, now: Time)
    requires p.failed
    ensures ApplyGroups(p, input, groups, now) == p
  {
    if groups != [] { FailedGroupsIdle(p, input, groups[..|groups| - 1], now); }
  }

  lemma {:induction false} FailedGroupsStay(p: PassState, input: ClaimInput, groups: ClaimGroups, i: nat, now: Time)
    requires i <= |groups| && ApplyGroups(p, input, groups[..i], now).failed
    ensures ApplyGroups(p, input, groups, now) == ApplyGroups(p, input, groups[..i], now)
    decreases |groups| - i
  {
    if i == |groups| {
      assert groups[..i] == groups;
    } else {
      assert groups[..i + 1][..i] == groups[..i];
      FailedGroupsStay(p, input, groups, i + 1, now);
    }
  }

  lemma {:induction false} FailedEpisodesStay(
    p: PassState, snapshot: Records, c: Candidate, episodes: seq<Episode>, isAncestor: Ancestry, now: Time, i: nat)
    requires i <= |episodes| && EpisodesStep(p, snapshot, c, episodes[..i], isAncestor, now).failed
    ensures EpisodesStep(p, snapshot, c, episodes, isAncestor, now) == EpisodesStep(p, snapshot, c, episodes[..i], isAncestor, now)
    decreases |episodes| - i
  {
    if i == |episodes| {
      assert episodes[..i] == episodes;
    } else {
      assert episodes[..i + 1][..i] == episodes[..i];
      FailedEpisodesStay(p, snapshot, c, episodes, isAncestor, now, i + 1);
    }
  }
}
