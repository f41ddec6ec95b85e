/**
 The ledger operations that rewrite allocations already stored: rewrite marking, expiry,
 quarantine and native-rejection reconciliation (src/storage/commitAttributionLedger.ts).
 */
module LedgerTransitions {
  import opened Prelude
  import opened Types
  import opened CommitAttributionPolicy
  import opened CommitAttributionLedger

  // ---- marking, expiring and quarantining one allocation -----------------------------------------

  predicate Marks(x: Allocation, repoKey: Id, commits: set<Id>) {
    x.repoKey == repoKey && x.commitHash in commits && x.status == Active
  }

  function Marked(x: Allocation, repoKey: Id, commits: set<Id>, at: Time): Allocation {
    if Marks(x, repoKey, commits)
    then x.(status := RewritePending, decision := Some(RewritePendingDecision),
            rewritePendingAt := Some(at), stateChangedAt := Some(at))
    else x
  }

  predicate Expires(x: Allocation, before: Time) {
    x.status == RewritePending && x.rewritePendingAt.Some? && x.rewritePendingAt.value <= before
  }

  function ExpiredAllocation(x: Allocation, before: Time, now: Time): Allocation {
    if Expires(x, before) then Retired(x, now) else x
  }

  predicate VerifiedDecision(d: Option<Decision>) {
    d == Some(Reportable) || d == Some(RewritePendingDecision) || d == Some(SupersededDecision)
  }

  predicate VerifiedAllocation(x: Allocation) {
    x.policy == FirstClaim && x.epochId.Some? && x.proof.Some? && VerifiedDecision(x.decision)
  }

  predicate EpochRetired(epochId: Option<Id>, activeEpochs: Option<set<Id>>) {
    epochId.None? || (activeEpochs.Some? && epochId.value !in activeEpochs.value)
  }

  predicate Unverifiable(x: Allocation, activeEpochs: Option<set<Id>>) {
    EpochRetired(x.epochId, activeEpochs) || x.proof.None? || !VerifiedDecision(x.decision)
  }

  predicate Quarantines(x: Allocation, activeEpochs: Option<set<Id>>) {
    Unverifiable(x, activeEpochs) && !(x.status == LegacyUnverified && x.decision == Some(LegacyDecision))
  }

  function Quarantined(x: Allocation, activeEpochs: Option<set<Id>>): Allocation {
    if Quarantines(x, activeEpochs) then x.(status := LegacyUnverified, decision := Some(LegacyDecision)) else x
  }

  // ---- the same on one record and on all records --------------------------------------------------

  /** One of the three bulk transitions, with its arguments. */
  datatype Sweep =
    | MarkRewrite(repoKey: Id, commits: set<Id>, at: Time)
    | ExpireRewrite(before: Time, now: Time)
    | QuarantineLegacy(activeEpochs: Option<set<Id>>)

  predicate Touches(w: Sweep, x: Allocation) {
    match w
    case MarkRewrite(repo, commits, _) => Marks(x, repo, commits)
    case ExpireRewrite(before, _) => Expires(x, before)
    case QuarantineLegacy(epochs) => Quarantines(x, epochs)
  }

  function SweepAllocation(w: Sweep, x: Allocation): Allocation {
    match w
    case MarkRewrite(repo, commits, at) => Marked(x, repo, commits, at)
    case ExpireRewrite(before, now) => ExpiredAllocation(x, before, now)
    case QuarantineLegacy(epochs) => Quarantined(x, epochs)
  }

  function SweepAllocations(w: Sweep, xs: seq<Allocation>): seq<Allocation> {
    seq(|xs|, i requires 0 <= i < |xs| => SweepAllocation(w, xs[i]))
  }

  /** Should the record as a whole fall back to the legacy status? */
  predicate TurnsLegacy(a: Attribution, swept: seq<Allocation>, activeEpochs: Option<set<Id>>) {
    && (forall x | x in swept :: !VerifiedAllocation(x))
    && (swept != [] || exists e | e in a.evidence :: EpochRetired(e.epochId, activeEpochs))
  }

  function SweepStatus(w: Sweep, a: Attribution): QueryStatus {
    var touched := exists x | x in a.allocations :: Touches(w, x);
    match w
    case MarkRewrite(_, _, _) => if touched then QueryRewritePending else a.status
    case ExpireRewrite(_, _) => if touched then QueryExpired else a.status
    case QuarantineLegacy(epochs) =>
      if TurnsLegacy(a, SweepAllocations(w, a.allocations), epochs) then QueryLegacy else a.status
  }

  function SweepRecord(w: Sweep, a: Attribution): Attribution {
    a.(allocations := SweepAllocations(w, a.allocations), status := SweepStatus(w, a))
  }

  function SweepAll(w: Sweep, s: Records): (r: Records)
    ensures |r| == |s| && forall i :: 0 <= i < |s| ==> r[i] == SweepRecord(w, s[i])
  {
    seq(|s|, i requires 0 <= i < |s| => SweepRecord(w, s[i]))
  }

  function TouchedCount(w: Sweep, xs: seq<Allocation>): nat {
    if xs == [] then 0
    else TouchedCount(w, xs[..|xs| - 1]) + if Touches(w, xs[|xs| - 1]) then 1 else 0
  }

  /** What one record adds to the returned number of changes. */
  function ChangesIn(w: Sweep, a: Attribution): nat {
    TouchedCount(w, a.allocations)
    + if w.QuarantineLegacy? && SweepStatus(w, a) != a.status then 1 else 0
  }

  function ChangesInAll(w: Sweep, s: Records): nat {
    if s == [] then 0 else ChangesInAll(w, s[..|s| - 1]) + ChangesIn(w, s[|s| - 1])
  }

  // ---- soundness of transitions ----------------------------------------------------------------------

  /** A step of one allocation that may end a live claim but never starts one. */
  ghost predicate Weakens(x: Allocation, y: Allocation) {
    && y.queryId == x.queryId
    && y.policy == x.policy
    && y.commitHash == x.commitHash
    && (LiveStatus(y) ==> LiveStatus(x))
    && y.allocatedNanoUsd == x.allocatedNanoUsd
    && (LiveClaim(y) && ProofCarried(x) ==> ProofCarried(y))
  }

  ghost predicate RecordWeakens(a: Attribution, b: Attribution) {
    && b.queryId == a.queryId
    && b.estimatedNanoUsd == a.estimatedNanoUsd
    && |b.allocations| == |a.allocations|
    && forall i :: 0 <= i < |a.allocations| ==> Weakens(a.allocations[i], b.allocations[i])
  }

  lemma WeakenedWritable(a: Attribution, b: Attribution)
    requires Writable(a) && RecordWeakens(a, b)
    ensures Writable(b)
  {
    forall x | x in b.allocations
      ensures x.queryId == b.queryId && (LiveClaim(x) ==> CostCovered(b, x) && ProofCarried(x))
    {
      var i :| 0 <= i < |b.allocations| && b.allocations[i] == x;
      assert Weakens(a.allocations[i], x) && a.allocations[i] in a.allocations;
    }
    forall i, j | 0 <= i < j < |b.allocations|
      ensures !(LiveClaim(b.allocations[i]) && LiveClaim(b.allocations[j]))
    {
      assert Weakens(a.allocations[i], b.allocations[i]) && Weakens(a.allocations[j], b.allocations[j]);
    }
  }

  ghost predicate AllWeaken(s: Records, r: Records) {
    |r| == |s| && forall i :: 0 <= i < |s| ==> RecordWeakens(s[i], r[i])
  }

  lemma WeakenedInv(s: Records, r: Records)
    requires Inv(s) && AllWeaken(s, r)
    ensures Inv(r)
    ensures NoLiveLinks(s) ==> NoLiveLinks(r)
  {
    forall a | a in r ensures Writable(a) {
      var i :| 0 <= i < |r| && r[i] == a;
      assert s[i] in s;
      WeakenedWritable(s[i], a);
    }
    if NoLiveLinks(s) { WeakenedLinkFree(s, r); }
  }

  lemma WeakenedLinkFree(s: Records, r: Records)
    requires NoLiveLinks(s) && AllWeaken(s, r)
    ensures NoLiveLinks(r)
  {
    forall a, x | a in r && x in a.allocations && LiveStatus(x) ensures x.policy == FirstClaim {
      var i :| 0 <= i < |r| && r[i] == a;
      var j :| 0 <= j < |a.allocations| && a.allocations[j] == x;
      assert RecordWeakens(s[i], r[i]) && Weakens(s[i].allocations[j], x);
      assert s[i] in s && s[i].allocations[j] in s[i].allocations;
    }
  }

  /** Marking, expiry and quarantine never trip the write guard and never create a live claim. */
  lemma SweepKeepsInv(w: Sweep, s: Records)
    requires Inv(s)
    ensures AllWeaken(s, SweepAll(w, s))
    ensures Inv(SweepAll(w, s))
    ensures NoLiveLinks(s) ==> NoLiveLinks(SweepAll(w, s))
  {
    var r := SweepAll(w, s);
    forall i | 0 <= i < |s| ensures RecordWeakens(s[i], r[i]) {
      forall j | 0 <= j < |s[i].allocations|
        ensures Weakens(s[i].allocations[j], r[i].allocations[j])
      {}
    }
    WeakenedInv(s, r);
  }

  /**
   Quarantine keeps a live claim exactly when it carries an epoch that is still active, a proof
   and a verified decision; nothing else about a kept claim changes.
   */
  lemma QuarantineKeepsExactly(a: Attribution, activeEpochs: Option<set<Id>>, i: nat)
    requires i < |a.allocations| && LiveClaim(a.allocations[i])
    ensures
      var x, y := a.allocations[i], SweepRecord(QuarantineLegacy(activeEpochs), a).allocations[i];
      && (LiveClaim(y) <==> VerifiedAllocation(x) && !EpochRetired(x.epochId, activeEpochs))
      && (LiveClaim(y) ==> y == x)
  {
  }

  /** Repeating a sweep with the same arguments changes nothing further. */
  lemma SweepIdempotent(w: Sweep, s: Records)
    ensures SweepAll(w, SweepAll(w, s)) == SweepAll(w, s)
  {
    var r := SweepAll(w, s);
    var t := SweepAll(w, r);
    forall i | 0 <= i < |s| ensures t[i] == r[i] {
      var once := r[i].allocations;
      forall j | 0 <= j < |once| ensures !Touches(w, once[j]) && SweepAllocation(w, once[j]) == once[j] {}
      assert SweepAllocations(w, once) == once;
      assert forall x :: x in once ==> !Touches(w, x);
    }
    assert t == r;
  }

  // ---- native-rejection reconciliation ------------------------------------------------------------------

  predicate SameCommit(c: Candidate, x: Allocation) {
    c.repoKey == x.repoKey && Some(c.epochId) == x.epochId && c.commitHash == x.commitHash
  }

  /** The last observed candidate of the allocation's commit, as the keyed map keeps it. */
  function CandidateOf(candidates: seq<Candidate>, x: Allocation): (r: Option<Candidate>)
    ensures r.Some? ==> r.value in candidates && SameCommit(r.value, x)
    ensures r.None? ==> forall c :: c in candidates ==> !SameCommit(c, x)
  {
    if candidates == [] then None
    else
      var n := |candidates| - 1;
      assert candidates == candidates[..n] + [candidates[n]];
      if SameCommit(candidates[n], x) then Some(candidates[n]) else CandidateOf(candidates[..n], x)
  }

  /** Evidence of the queries that justified the allocation, in its repository and epoch. */
  function SourceEvidence(evidence: seq<Evidence>, x: Allocation): seq<Evidence>
    requires x.proof.Some?
  {
    if evidence == [] then []
    else
      var rest := SourceEvidence(evidence[1..], x);
      var e := evidence[0];
      if (exists p | p in x.proof.value.matchedPairs :: p.queryId == e.queryId)
         && e.repoKey == x.repoKey && e.epochId == x.epochId
      then [e] + rest else rest
  }

  predicate RejectsPair(e: Evidence, p: MatchedPair) {
    && e.queryId == p.queryId
    && e.causalComplete
    && CausalPair(p.artifactKey, p.nodeId) in e.rejectedWrites
    && CausalPair(p.artifactKey, p.nodeId) !in e.causalWrites
  }

  predicate ExplicitlyRejected(p: MatchedPair, evidence: seq<Evidence>) {
    exists e | e in evidence :: RejectsPair(e, p)
  }

  function RejectedPairs(pairs: seq<MatchedPair>, evidence: seq<Evidence>): seq<MatchedPair> {
    if pairs == [] then []
    else
      var rest := RejectedPairs(pairs[1..], evidence);
      if ExplicitlyRejected(pairs[0], evidence) then [pairs[0]] + rest else rest
  }

  ghost predicate IsSource(e: Evidence, evidence: seq<Evidence>, x: Allocation)
    requires x.proof.Some?
  {
    && e in evidence
    && (exists p :: p in x.proof.value.matchedPairs && p.queryId == e.queryId)
    && e.repoKey == x.repoKey
    && e.epochId == x.epochId
  }

  lemma {:induction false} SourceMember(e: Evidence, evidence: seq<Evidence>, x: Allocation)
    requires x.proof.Some?
    ensures e in SourceEvidence(evidence, x) <==> IsSource(e, evidence, x)
  {
    if evidence != [] {
      SourceMember(e, evidence[1..], x);
      assert e in evidence <==> e == evidence[0] || e in evidence[1..];
    }
  }

  ghost predicate SomeRejected(pairs: seq<MatchedPair>, evidence: seq<Evidence>) {
    exists p :: p in pairs && ExplicitlyRejected(p, evidence)
  }

  ghost predicate EachRejected(pairs: seq<MatchedPair>, evidence: seq<Evidence>) {
    forall p :: p in pairs ==> ExplicitlyRejected(p, evidence)
  }

  lemma {:induction false} RejectedMeaning(pairs: seq<MatchedPair>, evidence: seq<Evidence>)
    ensures |RejectedPairs(pairs, evidence)| <= |pairs|
    ensures RejectedPairs(pairs, evidence) != [] <==> SomeRejected(pairs, evidence)
    ensures |RejectedPairs(pairs, evidence)| == |pairs| <==> EachRejected(pairs, evidence)
  {
    if pairs != [] {
      var rest := pairs[1..];
      RejectedMeaning(rest, evidence);
      assert forall p :: p in pairs <==> p == pairs[0] || p in rest;
    }
  }

  datatype Verdict = Keep | Revalidate(pairs: seq<MatchedPair>) | Revoke

  function NativeVerdict(x: Allocation, evidence: seq<Evidence>, candidates: seq<Candidate>): Verdict {
    if !LiveClaim(x) || x.proof.None? then Keep
    else
      var stored := x.proof.value.matchedPairs;
      if stored == [] || x.epochId.None? then Keep
      else
        var c := CandidateOf(candidates, x);
        if c.None? then Keep
        else
          var source := SourceEvidence(evidence, x);
          var rejected := RejectedPairs(stored, source);
          if rejected == [] then Keep
          else
            var current := MatchedPairs(source, c.value.artifactStates);
            if current != [] then Revalidate(current)
            else if |rejected| != |stored| then Keep
            else Revoke
  }

  function ApplyVerdict(x: Allocation, v: Verdict, now: Time): Allocation
    requires v.Revalidate? ==> x.proof.Some?
  {
    match v
    case Keep => x
    case Revalidate(pairs) =>
      x.(proof := Some(x.proof.value.(matchedPairs := pairs)), stateChangedAt := Some(now),
         evidenceReasons := x.evidenceReasons + {NativeRevalidated})
    case Revoke =>
      Retired(x, now).(evidenceReasons := x.evidenceReasons + {NativeRetracted})
  }

  function NativeAllocation(x: Allocation, evidence: seq<Evidence>, candidates: seq<Candidate>, now: Time): Allocation {
    ApplyVerdict(x, NativeVerdict(x, evidence, candidates), now)
  }

  function NativeAllocations(
    xs: seq<Allocation>, evidence: seq<Evidence>, candidates: seq<Candidate>, now: Time): (r: seq<Allocation>)
    ensures |r| == |xs| && forall i :: 0 <= i < |xs| ==> r[i] == NativeAllocation(xs[i], evidence, candidates, now)
  {
    seq(|xs|, i requires 0 <= i < |xs| => NativeAllocation(xs[i], evidence, candidates, now))
  }

  function Verdicts(xs: seq<Allocation>, evidence: seq<Evidence>, candidates: seq<Candidate>): (vs: seq<Verdict>)
    ensures |vs| == |xs|
  {
    if xs == [] then []
    else Verdicts(xs[..|xs| - 1], evidence, candidates) + [NativeVerdict(xs[|xs| - 1], evidence, candidates)]
  }

  lemma {:induction false} VerdictAt(xs: seq<Allocation>, evidence: seq<Evidence>, candidates: seq<Candidate>, j: nat)
    requires j < |xs|
    ensures Verdicts(xs, evidence, candidates)[j] == NativeVerdict(xs[j], evidence, candidates)
  {
    if j < |xs| - 1 { VerdictAt(xs[..|xs| - 1], evidence, candidates, j); }
  }

  /** Commits whose claim in this list is revoked. */
  function RevokedHashes(xs: seq<Allocation>, vs: seq<Verdict>): set<Id>
    requires |xs| == |vs|
  {
    set j | 0 <= j < |xs| && vs[j] == Revoke :: xs[j].commitHash
  }

  /** Commits whose claim in this list is revalidated. */
  function RenewedHashes(xs: seq<Allocation>, vs: seq<Verdict>): set<Id>
    requires |xs| == |vs|
  {
    set j | 0 <= j < |xs| && vs[j].Revalidate? :: xs[j].commitHash
  }

  lemma HashesGrow(xs: seq<Allocation>, vs: seq<Verdict>, x: Allocation, v: Verdict)
    requires |xs| == |vs|
    ensures RevokedHashes(xs + [x], vs + [v]) == RevokedHashes(xs, vs) + if v == Revoke then {x.commitHash} else {}
    ensures RenewedHashes(xs + [x], vs + [v]) == RenewedHashes(xs, vs) + if v.Revalidate? then {x.commitHash} else {}
  {
    var ys, ws := xs + [x], vs + [v];
    assert ys[|xs|] == x && ws[|xs|] == v;
    assert forall j :: 0 <= j < |xs| ==> ys[j] == xs[j] && ws[j] == vs[j];
  }

  function NativeRecord(a: Attribution, evidence: seq<Evidence>, candidates: seq<Candidate>, now: Time): Attribution {
    var b := a.(allocations := NativeAllocations(a.allocations, evidence, candidates, now));
    var vs := Verdicts(a.allocations, evidence, candidates);
    if RevokedHashes(a.allocations, vs) != {} && !HasLiveClaim(b) then b.(status := QueryRejected) else b
  }

  function NativeAll(s: Records, evidence: seq<Evidence>, candidates: seq<Candidate>, now: Time): (r: Records)
    ensures |r| == |s| && forall i :: 0 <= i < |s| ==> r[i] == NativeRecord(s[i], evidence, candidates, now)
  {
    seq(|s|, i requires 0 <= i < |s| => NativeRecord(s[i], evidence, candidates, now))
  }

  /** What one reconciliation reports: the queries and commits revoked, and those revalidated. */
  datatype NativeReport = NativeReport(
    revokedQueries: set<Id>, revokedCommits: set<Id>, revalidatedQueries: set<Id>, revalidatedCommits: set<Id>)

  const NOTHING_REPORTED := NativeReport({}, {}, {}, {})

  function Reported(r: NativeReport, q: Id, revoked: set<Id>, renewed: set<Id>): NativeReport {
    NativeReport(
      r.revokedQueries + (if revoked != {} then {q} else {}),
      r.revokedCommits + revoked,
      r.revalidatedQueries + (if renewed != {} then {q} else {}),
      r.revalidatedCommits + renewed)
  }

  function ReportOf(s: Records, evidence: seq<Evidence>, candidates: seq<Candidate>): NativeReport {
    if s == [] then NOTHING_REPORTED
    else
      var a := s[|s| - 1];
      var vs := Verdicts(a.allocations, evidence, candidates);
      Reported(ReportOf(s[..|s| - 1], evidence, candidates), a.queryId,
               RevokedHashes(a.allocations, vs), RenewedHashes(a.allocations, vs))
  }

  /** A list no verdict touches is left as it was. */
  lemma UntouchedAllocations(xs: seq<Allocation>, evidence: seq<Evidence>, candidates: seq<Candidate>, now: Time)
    requires RevokedHashes(xs, Verdicts(xs, evidence, candidates)) == {}
    requires RenewedHashes(xs, Verdicts(xs, evidence, candidates)) == {}
    ensures NativeAllocations(xs, evidence, candidates, now) == xs
  {
    var vs := Verdicts(xs, evidence, candidates);
    forall j | 0 <= j < |xs| ensures NativeAllocation(xs[j], evidence, candidates, now) == xs[j] {
      VerdictAt(xs, evidence, candidates, j);
      assert xs[j].commitHash !in RevokedHashes(xs, vs) && xs[j].commitHash !in RenewedHashes(xs, vs);
    }
  }

  lemma UntouchedRecord(a: Attribution, evidence: seq<Evidence>, candidates: seq<Candidate>, now: Time)
    requires RevokedHashes(a.allocations, Verdicts(a.allocations, evidence, candidates)) == {}
    requires RenewedHashes(a.allocations, Verdicts(a.allocations, evidence, candidates)) == {}
    ensures NativeRecord(a, evidence, candidates, now) == a
  {
    UntouchedAllocations(a.allocations, evidence, candidates, now);
  }

  lemma {:induction false} NothingReported(s: Records, evidence: seq<Evidence>, candidates: seq<Candidate>, now: Time)
    requires ReportOf(s, evidence, candidates).revokedQueries == {}
    requires ReportOf(s, evidence, candidates).revalidatedQueries == {}
    ensures NativeAll(s, evidence, candidates, now) == s
    ensures ReportOf(s, evidence, candidates) == NOTHING_REPORTED
  {
    if s != [] {
      var n := |s| - 1;
      assert s[n].queryId !in ReportOf(s, evidence, candidates).revokedQueries;
      assert s[n].queryId !in ReportOf(s, evidence, candidates).revalidatedQueries;
      NothingReported(s[..n], evidence, candidates, now);
      UntouchedRecord(s[n], evidence, candidates, now);
      UntouchedLast(s, evidence, candidates, now);
    }
  }

  lemma UntouchedLast(s: Records, evidence: seq<Evidence>, candidates: seq<Candidate>, now: Time)
    requires s != [] && NativeAll(s[..|s| - 1], evidence, candidates, now) == s[..|s| - 1]
    requires NativeRecord(s[|s| - 1], evidence, candidates, now) == s[|s| - 1]
    ensures NativeAll(s, evidence, candidates, now) == s
  {
    var n, before := |s| - 1, NativeAll(s[..|s| - 1], evidence, candidates, now);
    forall i | 0 <= i < n ensures NativeRecord(s[i], evidence, candidates, now) == s[i] {
      assert before[i] == s[..n][i];
    }
  }

  lemma {:induction false} AllKeptReports(s: Records, evidence: seq<Evidence>, candidates: seq<Candidate>)
    requires forall i, j :: 0 <= i < |s| && 0 <= j < |s[i].allocations| ==>
      NativeVerdict(s[i].allocations[j], evidence, candidates) == Keep
    ensures ReportOf(s, evidence, candidates) == NOTHING_REPORTED
  {
    if s != [] {
      var n := |s| - 1;
      forall i, j | 0 <= i < n && 0 <= j < |s[..n][i].allocations|
        ensures NativeVerdict(s[..n][i].allocations[j], evidence, candidates) == Keep
      {
        assert s[..n][i] == s[i];
      }
      AllKeptReports(s[..n], evidence, candidates);
      var xs := s[n].allocations;
      forall j | 0 <= j < |xs| ensures Verdicts(xs, evidence, candidates)[j] == Keep {
        VerdictAt(xs, evidence, candidates, j);
      }
    }
  }

  lemma NativeKeepsInv(s: Records, evidence: seq<Evidence>, candidates: seq<Candidate>, now: Time)
    requires Inv(s)
    ensures AllWeaken(s, NativeAll(s, evidence, candidates, now))
    ensures Inv(NativeAll(s, evidence, candidates, now))
    ensures NoLiveLinks(s) ==> NoLiveLinks(NativeAll(s, evidence, candidates, now))
  {
    var r := NativeAll(s, evidence, candidates, now);
    forall i | 0 <= i < |s| ensures RecordWeakens(s[i], r[i]) {
      forall j | 0 <= j < |s[i].allocations|
        ensures Weakens(s[i].allocations[j], r[i].allocations[j])
      {
        assert r[i].allocations[j] == NativeAllocation(s[i].allocations[j], evidence, candidates, now);
      }
    }
    WeakenedInv(s, r);
  }

  /** A stored pair that still stands: some source census of the claim carries it and matches the commit. */
  ghost predicate StillSupported(x: Allocation, evidence: seq<Evidence>, c: Candidate)
    requires x.proof.Some?
  {
    exists e, p :: e in SourceEvidence(evidence, x) && ItemSupports(e, p, c.artifactStates)
  }

  /**
   Revocation hits exactly the live, proven claims of an observed commit whose every stored pair
   is explicitly rejected and that no current source pair still supports.
   */
  lemma RevokesExactly(x: Allocation, evidence: seq<Evidence>, candidates: seq<Candidate>)
    ensures NativeVerdict(x, evidence, candidates) == Revoke <==>
      && LiveClaim(x) && x.proof.Some? && x.epochId.Some? && x.proof.value.matchedPairs != []
      && (exists c :: c in candidates && SameCommit(c, x))
      && EachRejected(x.proof.value.matchedPairs, SourceEvidence(evidence, x))
      && !StillSupported(x, evidence, CandidateOf(candidates, x).value)
  {
    if x.proof.Some? && CandidateOf(candidates, x).Some? {
      SupportMeansPairs(x, evidence, CandidateOf(candidates, x).value);
      RejectedMeaning(x.proof.value.matchedPairs, SourceEvidence(evidence, x));
      if EachRejected(x.proof.value.matchedPairs, SourceEvidence(evidence, x)) && x.proof.value.matchedPairs != [] {
        assert x.proof.value.matchedPairs[0] in x.proof.value.matchedPairs;
      }
    }
  }

  lemma SupportMeansPairs(x: Allocation, evidence: seq<Evidence>, c: Candidate)
    requires x.proof.Some?
    ensures StillSupported(x, evidence, c) <==> MatchedPairs(SourceEvidence(evidence, x), c.artifactStates) != []
  {
    var source := SourceEvidence(evidence, x);
    var pairs := MatchedPairs(source, c.artifactStates);
    if pairs != [] { MatchedPairsMeaning(source, c.artifactStates, pairs[0]); }
    if e, p :| e in source && ItemSupports(e, p, c.artifactStates) {
      MatchedPairsMeaning(source, c.artifactStates, p);
    }
  }

  // ---- idempotence -----------------------------------------------------------------------------------------

  /** At most one evidence record per query, repository and epoch. */
  ghost predicate KeyedEvidence(evidence: seq<Evidence>) {
    forall e, f :: e in evidence && f in evidence ==>
      (e.queryId == f.queryId && e.repoKey == f.repoKey && e.epochId == f.epochId ==> e == f)
  }

  /** Two source records disagree about one pair: one still supports it, another rejects it. */
  ghost predicate Contested(x: Allocation, evidence: seq<Evidence>, c: Candidate)
    requires x.proof.Some?
  {
    exists e, f, p :: e in SourceEvidence(evidence, x) && f in SourceEvidence(evidence, x)
      && ItemSupports(e, p, c.artifactStates) && RejectsPair(f, p)
  }

  function WithPairs(x: Allocation, pairs: seq<MatchedPair>, now: Time): Allocation
    requires x.proof.Some?
  {
    ApplyVerdict(x, Revalidate(pairs), now)
  }

  /** A record that supports a revalidated pair, or rejects it, is a source before and after. */
  lemma SourceBothWays(x: Allocation, evidence: seq<Evidence>, c: Candidate, now: Time, p: MatchedPair, f: Evidence)
    requires x.proof.Some?
    requires p in MatchedPairs(SourceEvidence(evidence, x), c.artifactStates)
    requires f.queryId == p.queryId
    ensures
      var y := WithPairs(x, MatchedPairs(SourceEvidence(evidence, x), c.artifactStates), now);
      f in SourceEvidence(evidence, x) <==> f in SourceEvidence(evidence, y)
  {
    var source := SourceEvidence(evidence, x);
    var y := WithPairs(x, MatchedPairs(source, c.artifactStates), now);
    SourceMember(f, evidence, x);
    SourceMember(f, evidence, y);
    MatchedPairsMeaning(source, c.artifactStates, p);
    var e :| e in source && ItemSupports(e, p, c.artifactStates);
    SourceMember(e, evidence, x);
    if f in evidence && f.repoKey == x.repoKey && f.epochId == x.epochId {
      assert p in y.proof.value.matchedPairs;
      var q :| q in x.proof.value.matchedPairs && q.queryId == e.queryId;
      assert q.queryId == f.queryId;
    }
  }

  /** Revalidated pairs are rejected again exactly when the source records contest one of them. */
  lemma RejectedAgainIff(x: Allocation, evidence: seq<Evidence>, c: Candidate, now: Time)
    requires x.proof.Some?
    ensures
      var pairs := MatchedPairs(SourceEvidence(evidence, x), c.artifactStates);
      SomeRejected(pairs, SourceEvidence(evidence, WithPairs(x, pairs, now))) <==> Contested(x, evidence, c)
  {
    var source := SourceEvidence(evidence, x);
    var pairs := MatchedPairs(source, c.artifactStates);
    var again := SourceEvidence(evidence, WithPairs(x, pairs, now));
    if SomeRejected(pairs, again) {
      var p :| p in pairs && ExplicitlyRejected(p, again);
      MatchedPairsMeaning(source, c.artifactStates, p);
      var e :| e in source && ItemSupports(e, p, c.artifactStates);
      var f :| f in again && RejectsPair(f, p);
      SourceBothWays(x, evidence, c, now, p, f);
    }
    if Contested(x, evidence, c) {
      var e, f, p :| e in source && f in source && ItemSupports(e, p, c.artifactStates) && RejectsPair(f, p);
      MatchedPairsMeaning(source, c.artifactStates, p);
      SourceBothWays(x, evidence, c, now, p, f);
      assert ExplicitlyRejected(p, again);
    }
  }

  /** Revalidated pairs are still supported when they are looked at again. */
  lemma SupportedAgain(x: Allocation, evidence: seq<Evidence>, c: Candidate, now: Time)
    requires x.proof.Some?
    requires MatchedPairs(SourceEvidence(evidence, x), c.artifactStates) != []
    ensures
      var pairs := MatchedPairs(SourceEvidence(evidence, x), c.artifactStates);
      MatchedPairs(SourceEvidence(evidence, WithPairs(x, pairs, now)), c.artifactStates) != []
  {
    var source := SourceEvidence(evidence, x);
    var pairs := MatchedPairs(source, c.artifactStates);
    var again := SourceEvidence(evidence, WithPairs(x, pairs, now));
    var p := pairs[0];
    MatchedPairsMeaning(source, c.artifactStates, p);
    var e :| e in source && ItemSupports(e, p, c.artifactStates);
    SourceBothWays(x, evidence, c, now, p, e);
    MatchedPairsMeaning(again, c.artifactStates, p);
  }

  /** The verdict on a live claim depends only on what its source records say of its pairs. */
  lemma VerdictByRejection(x: Allocation, evidence: seq<Evidence>, candidates: seq<Candidate>)
    requires LiveClaim(x) && x.proof.Some? && x.epochId.Some? && CandidateOf(candidates, x).Some?
    ensures
      var source := SourceEvidence(evidence, x);
      var current := MatchedPairs(source, CandidateOf(candidates, x).value.artifactStates);
      && (!SomeRejected(x.proof.value.matchedPairs, source) ==> NativeVerdict(x, evidence, candidates) == Keep)
      && (SomeRejected(x.proof.value.matchedPairs, source) && current != [] ==>
            NativeVerdict(x, evidence, candidates) == Revalidate(current))
      && (current != [] ==> NativeVerdict(x, evidence, candidates) != Revoke)
  {
    RejectedMeaning(x.proof.value.matchedPairs, SourceEvidence(evidence, x));
  }

  /**
   A second look at an allocation finds nothing to do, except in one case: the first look
   revalidated a claim whose source records contest a pair. Then every look revalidates it again.
   */
  lemma SettledIff(x: Allocation, evidence: seq<Evidence>, candidates: seq<Candidate>, now: Time)
    ensures var v := NativeVerdict(x, evidence, candidates);
      var second := NativeVerdict(ApplyVerdict(x, v, now), evidence, candidates);
      if v.Revalidate? && Contested(x, evidence, CandidateOf(candidates, x).value)
      then second.Revalidate?
      else second == Keep
  {
    var v := NativeVerdict(x, evidence, candidates);
    if v.Revalidate? {
      SettledWhenRevalidated(x, evidence, candidates, now);
    }
  }

  lemma SettledWhenRevalidated(x: Allocation, evidence: seq<Evidence>, candidates: seq<Candidate>, now: Time)
    requires NativeVerdict(x, evidence, candidates).Revalidate?
    ensures var y := WithPairs(x, NativeVerdict(x, evidence, candidates).pairs, now);
      if Contested(x, evidence, CandidateOf(candidates, x).value)
      then NativeVerdict(y, evidence, candidates).Revalidate?
      else NativeVerdict(y, evidence, candidates) == Keep
  {
    var pairs := NativeVerdict(x, evidence, candidates).pairs;
    var c := CandidateOf(candidates, x).value;
    assert pairs == MatchedPairs(SourceEvidence(evidence, x), c.artifactStates);
    var y := WithPairs(x, pairs, now);
    SameCandidate(candidates, x, y);
    RejectedAgainIff(x, evidence, c, now);
    SupportedAgain(x, evidence, c, now);
    VerdictByRejection(y, evidence, candidates);
  }

  lemma KeptAgain(x: Allocation, evidence: seq<Evidence>, candidates: seq<Candidate>, now: Time)
    requires KeyedEvidence(evidence)
    ensures NativeVerdict(NativeAllocation(x, evidence, candidates, now), evidence, candidates) == Keep
  {
    SettledIff(x, evidence, candidates, now);
    if NativeVerdict(x, evidence, candidates).Revalidate? {
      Uncontested(x, evidence, CandidateOf(candidates, x).value);
    }
  }

  lemma Uncontested(x: Allocation, evidence: seq<Evidence>, c: Candidate)
    requires x.proof.Some? && KeyedEvidence(evidence)
    ensures !Contested(x, evidence, c)
  {
    forall e, f, p | e in SourceEvidence(evidence, x) && f in SourceEvidence(evidence, x)
        && ItemSupports(e, p, c.artifactStates)
      ensures !RejectsPair(f, p)
    {
      SourceMember(e, evidence, x);
      SourceMember(f, evidence, x);
    }
  }

  lemma SameCandidate(candidates: seq<Candidate>, x: Allocation, y: Allocation)
    requires x.repoKey == y.repoKey && x.epochId == y.epochId && x.commitHash == y.commitHash
    ensures CandidateOf(candidates, x) == CandidateOf(candidates, y)
  {
  }

  /** With one record per query, repository and epoch, a second reconciliation changes nothing. */
  lemma NativeIdempotent(s: Records, evidence: seq<Evidence>, candidates: seq<Candidate>, now: Time, later: Time)
    requires KeyedEvidence(evidence)
    ensures var r := NativeAll(s, evidence, candidates, now);
      && NativeAll(r, evidence, candidates, later) == r
      && ReportOf(r, evidence, candidates) == NOTHING_REPORTED
  {
    var r := NativeAll(s, evidence, candidates, now);
    forall i, j | 0 <= i < |r| && 0 <= j < |r[i].allocations|
      ensures NativeVerdict(r[i].allocations[j], evidence, candidates) == Keep
    {
      KeptAgain(s[i].allocations[j], evidence, candidates, now);
    }
    AllKeptReports(r, evidence, candidates);
    NothingReported(r, evidence, candidates, later);
  }

  const EXAMPLE_STATE := ArtifactState(7, None, Some(9), Some(9), None, Modified)
  const EXAMPLE_COMMIT := Candidate(0, 5, 4, 6, None, 0, 1, [EXAMPLE_STATE], Reportable, {})
  const SUPPORTING := Evidence(1, 4, Some(5), None, true, None, None, [CausalPair(7, 3)], [], true, [EXAMPLE_STATE])
  const REJECTING := SUPPORTING.(causalWrites := [], rejectedWrites := [CausalPair(7, 3)])
  const EXAMPLE_CLAIM :=
    Allocation(None, Some(5), 6, 4, None, 1, None, FirstClaim, Some(Reportable),
               Some(Proof(ExactContentState, [1], [], 1, [MatchedPair(1, 7, 3)], {})), {}, Active, None, None, None, 0)

  /** Without that, one supporting and one rejecting record keep a claim being revalidated for ever. */
  lemma ContestedNeverSettles(now: Time)
    ensures
      var evidence := [SUPPORTING, REJECTING];
      && NativeVerdict(EXAMPLE_CLAIM, evidence, [EXAMPLE_COMMIT]).Revalidate?
      && NativeVerdict(NativeAllocation(EXAMPLE_CLAIM, evidence, [EXAMPLE_COMMIT], now), evidence, [EXAMPLE_COMMIT]).Revalidate?
  {
    var evidence := [SUPPORTING, REJECTING];
    var x, c, p := EXAMPLE_CLAIM, EXAMPLE_COMMIT, MatchedPair(1, 7, 3);
    var source := SourceEvidence(evidence, x);
    assert evidence[0] in evidence && evidence[1] in evidence;
    assert p in x.proof.value.matchedPairs;
    SourceMember(SUPPORTING, evidence, x);
    SourceMember(REJECTING, evidence, x);
    assert StatesMatch(EXAMPLE_STATE, EXAMPLE_STATE);
    assert EXAMPLE_STATE in c.artifactStates && EXAMPLE_STATE in SUPPORTING.artifactStates;
    assert MatchesSome(EXAMPLE_STATE, c.artifactStates);
    assert ItemSupports(SUPPORTING, p, c.artifactStates) && RejectsPair(REJECTING, p);
    assert CandidateOf([c], x) == Some(c);
    MatchedPairsMeaning(source, c.artifactStates, p);
    assert ExplicitlyRejected(p, source) && SomeRejected(x.proof.value.matchedPairs, source);
    VerdictByRejection(x, evidence, [c]);
    SettledIff(x, evidence, [c], now);
  }

  // ---- claims the policy has just made ---------------------------------------------------------------------

  /**
   A claim the policy has just justified is never revoked by the evidence that justified it, as long as
   the commit is known by one content; and with one record per query, repository and epoch it is not
   even touched.
   */
  lemma FreshClaimStands(
    a: Attribution, c: Candidate, ep: Episode, lineage: set<Id>, active: set<Id>, held: set<Id>,
    evidence: seq<Evidence>, candidates: seq<Candidate>, now: Time)
    requires EvaluateCommitAttribution(c, ep, lineage, active, held).decision == Reportable
    requires forall e :: e in ep.evidence ==> e in evidence
    ensures
      var proof := EvaluateCommitAttribution(c, ep, lineage, active, held).proof.value;
      var x := AllocationFromClaim(ClaimInput(c, ep, proof), a, now);
      && (OneContent(c, candidates) ==> NativeVerdict(x, evidence, candidates) != Revoke)
      && (KeyedEvidence(evidence) ==> NativeVerdict(x, evidence, candidates) == Keep)
  {
    var proof := EvaluateCommitAttribution(c, ep, lineage, active, held).proof.value;
    var x := AllocationFromClaim(ClaimInput(c, ep, proof), a, now);
    if CandidateOf(candidates, x).Some? {
      forall p | p in x.proof.value.matchedPairs ensures Backed(p, SourceEvidence(evidence, x), c) {
        var e := ClaimedPairSource(c, ep, lineage, active, held, p);
        assert IsSource(e, evidence, x);
        SourceMember(e, evidence, x);
      }
      if OneContent(c, candidates) { BackedNotRevoked(x, evidence, candidates); }
      if KeyedEvidence(evidence) {
        BackedNotRejected(x, evidence, c);
        VerdictByRejection(x, evidence, candidates);
      }
    }
  }

  /** All observations of the commit show the same content. */
  ghost predicate OneContent(c: Candidate, candidates: seq<Candidate>) {
    forall k :: k in candidates && k.repoKey == c.repoKey && k.epochId == c.epochId && k.commitHash == c.commitHash
      ==> k.artifactStates == c.artifactStates
  }

  /** Some source record still supports the pair on the commit. */
  ghost predicate Backed(p: MatchedPair, source: seq<Evidence>, c: Candidate) {
    exists e :: e in source && ItemSupports(e, p, c.artifactStates)
  }

  lemma BackedNotRevoked(x: Allocation, evidence: seq<Evidence>, candidates: seq<Candidate>)
    requires LiveClaim(x) && x.epochId.Some? && x.proof.Some? && CandidateOf(candidates, x).Some?
    requires forall p :: p in x.proof.value.matchedPairs ==>
      Backed(p, SourceEvidence(evidence, x), CandidateOf(candidates, x).value)
    ensures NativeVerdict(x, evidence, candidates) != Revoke
  {
    var pairs, source := x.proof.value.matchedPairs, SourceEvidence(evidence, x);
    var c := CandidateOf(candidates, x).value;
    if pairs == [] {
      assert !SomeRejected(pairs, source);
    } else {
      assert Backed(pairs[0], source, c);
      MatchedPairsMeaning(source, c.artifactStates, pairs[0]);
    }
    VerdictByRejection(x, evidence, candidates);
  }

  lemma BackedNotRejected(x: Allocation, evidence: seq<Evidence>, c: Candidate)
    requires x.proof.Some? && KeyedEvidence(evidence)
    requires forall p :: p in x.proof.value.matchedPairs ==> Backed(p, SourceEvidence(evidence, x), c)
    ensures !SomeRejected(x.proof.value.matchedPairs, SourceEvidence(evidence, x))
  {
    var source := SourceEvidence(evidence, x);
    Uncontested(x, evidence, c);
    forall p | p in x.proof.value.matchedPairs ensures !ExplicitlyRejected(p, source) {
      assert Backed(p, source, c);
    }
  }

  lemma ClaimedPairSource(
    c: Candidate, ep: Episode, lineage: set<Id>, active: set<Id>, held: set<Id>, p: MatchedPair) returns (e: Evidence)
    requires EvaluateCommitAttribution(c, ep, lineage, active, held).decision == Reportable
    requires p in EvaluateCommitAttribution(c, ep, lineage, active, held).proof.value.matchedPairs
    ensures e in ep.evidence && e.repoKey == c.repoKey && e.epochId == Some(c.epochId)
    ensures ItemSupports(e, p, c.artifactStates)
  {
    var proof := EvaluateCommitAttribution(c, ep, lineage, active, held).proof.value;
    var proofEvidence := EvidenceOfQueries(CurrentEvidence(c, ep), proof.anchorQueryIds);
    MatchedPairsMeaning(proofEvidence, c.artifactStates, p);
    e :| e in proofEvidence && ItemSupports(e, p, c.artifactStates);
  }
}
