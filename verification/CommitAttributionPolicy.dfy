/**
 When may a commit be charged with a query?  (src/attribution/commitAttributionPolicy.ts)
 */
module CommitAttributionPolicy {
  import opened Prelude
  import opened Types

  const CLAIM_WINDOW_MS: int := 4 * 60 * 60 * 1000

  predicate StatesMatch(observed: ArtifactState, committed: ArtifactState) {
    var sameArtifact :=
      || observed.artifactKey == committed.artifactKey
      || Some(observed.artifactKey) == committed.previousArtifactKey
      || observed.previousArtifactKey == Some(committed.artifactKey);
    sameArtifact
    && (if observed.changeKind == Deleted && committed.changeKind == Deleted then true
        else
          && committed.stateKey.Some?
          && (committed.stateKey == observed.worktreeStateKey || committed.stateKey == observed.indexStateKey))
  }

  predicate MatchesSome(observed: ArtifactState, committed: seq<ArtifactState>) {
    exists c | c in committed :: StatesMatch(observed, c)
  }

  /** A complete causal census is an authority boundary: only its artifacts may match. */
  function AttributableStates(e: Evidence): seq<ArtifactState> {
    if !e.causalComplete then e.artifactStates else CausalStates(e.artifactStates, e.causalWrites)
  }

  function CausalStates(states: seq<ArtifactState>, writes: seq<CausalPair>): (r: seq<ArtifactState>)
    ensures forall o :: o in r <==> o in states && exists p :: p in writes && p.artifactKey == o.artifactKey
  {
    if states == [] then []
    else
      var rest := CausalStates(states[1..], writes);
      if exists p | p in writes :: p.artifactKey == states[0].artifactKey then [states[0]] + rest else rest
  }

  predicate HasContentContinuity(e: Evidence, committed: seq<ArtifactState>) {
    exists o | o in AttributableStates(e) :: MatchesSome(o, committed)
  }

  // ---- causal pairs ---------------------------------------------------------------------

  predicate ArtifactMatched(e: Evidence, artifactKey: Id, committed: seq<ArtifactState>) {
    exists o | o in e.artifactStates :: o.artifactKey == artifactKey && MatchesSome(o, committed)
  }

  function PairsOf(e: Evidence, writes: seq<CausalPair>, committed: seq<ArtifactState>): (r: seq<MatchedPair>)
    ensures forall p :: p in r <==>
      && p.queryId == e.queryId
      && CausalPair(p.artifactKey, p.nodeId) in writes
      && ArtifactMatched(e, p.artifactKey, committed)
  {
    if writes == [] then []
    else
      var rest := PairsOf(e, writes[1..], committed);
      if ArtifactMatched(e, writes[0].artifactKey, committed)
      then [MatchedPair(e.queryId, writes[0].artifactKey, writes[0].nodeId)] + rest
      else rest
  }

  function AllPairs(evidence: seq<Evidence>, committed: seq<ArtifactState>): seq<MatchedPair> {
    if evidence == [] then []
    else
      (if evidence[0].causalComplete then PairsOf(evidence[0], evidence[0].causalWrites, committed) else [])
      + AllPairs(evidence[1..], committed)
  }

  /** The causal pairs of complete censuses whose own artifact state matched the commit. */
  function MatchedPairs(evidence: seq<Evidence>, committed: seq<ArtifactState>): seq<MatchedPair> {
    Unique(AllPairs(evidence, committed))
  }

  ghost predicate ItemSupports(e: Evidence, p: MatchedPair, committed: seq<ArtifactState>) {
    && e.causalComplete
    && e.queryId == p.queryId
    && CausalPair(p.artifactKey, p.nodeId) in e.causalWrites
    && ArtifactMatched(e, p.artifactKey, committed)
  }

  lemma {:induction false} MatchedPairsMeaning(evidence: seq<Evidence>, committed: seq<ArtifactState>, p: MatchedPair)
    ensures p in MatchedPairs(evidence, committed) <==> exists e :: e in evidence && ItemSupports(e, p, committed)
  {
    AllPairsMeaning(evidence, committed, p);
  }

  lemma {:induction false} AllPairsMeaning(evidence: seq<Evidence>, committed: seq<ArtifactState>, p: MatchedPair)
    ensures p in AllPairs(evidence, committed) <==> exists e :: e in evidence && ItemSupports(e, p, committed)
  {
    if evidence != [] {
      var first, rest := evidence[0], evidence[1..];
      AllPairsMeaning(rest, committed, p);
      assert evidence == [first] + rest;
      if first.causalComplete {
        assert p in PairsOf(first, first.causalWrites, committed) <==> ItemSupports(first, p, committed);
      }
      if e :| e in evidence && ItemSupports(e, p, committed) {
        assert e == first || e in rest;
      }
    }
  }

  ghost predicate Supported(evidence: seq<Evidence>, p: MatchedPair, committed: seq<ArtifactState>) {
    exists e :: e in evidence && ItemSupports(e, p, committed)
  }

  lemma SupportedNext(evidence: seq<Evidence>, e: Evidence, p: MatchedPair, committed: seq<ArtifactState>)
    ensures Supported(evidence + [e], p, committed) <==> Supported(evidence, p, committed) || ItemSupports(e, p, committed)
  {
    var all := evidence + [e];
    assert e in all;
    if Supported(evidence, p, committed) {
      var f :| f in evidence && ItemSupports(f, p, committed);
      assert f in all;
    }
  }

  /** `matchedCausalWriteArtifactsForCommit`: a map keyed by the pair keeps each pair once. */
  method MatchedCausalWriteArtifacts(evidence: seq<Evidence>, committed: seq<ArtifactState>) returns (r: seq<MatchedPair>)
    ensures NoDup(r)
    ensures forall p :: p in r <==> p in MatchedPairs(evidence, committed)
  {
    r := [];
    for i := 0 to |evidence|
      invariant NoDup(r)
      invariant forall p :: p in r <==> Supported(evidence[..i], p, committed)
    {
      assert evidence[..i + 1] == evidence[..i] + [evidence[i]];
      forall p ensures Supported(evidence[..i + 1], p, committed) <==>
                       Supported(evidence[..i], p, committed) || ItemSupports(evidence[i], p, committed)
      {
        SupportedNext(evidence[..i], evidence[i], p, committed);
      }
      if evidence[i].causalComplete {
        r := AddPairs(r, evidence[i], committed);
      }
    }
    assert evidence[..|evidence|] == evidence;
    forall p ensures p in r <==> p in MatchedPairs(evidence, committed) { MatchedPairsMeaning(evidence, committed, p); }
  }

  method AddPairs(before: seq<MatchedPair>, item: Evidence, committed: seq<ArtifactState>) returns (r: seq<MatchedPair>)
    requires NoDup(before) && item.causalComplete
    ensures NoDup(r)
    ensures forall p :: p in r <==> p in before || ItemSupports(item, p, committed)
  {
    r := before;
    var writes := item.causalWrites;
    for j := 0 to |writes|
      invariant NoDup(r)
      invariant forall p :: p in r <==> p in before || p in PairsOf(item, writes[..j], committed)
    {
      assert writes[..j + 1] == writes[..j] + [writes[j]];
      var pair := MatchedPair(item.queryId, writes[j].artifactKey, writes[j].nodeId);
      if ArtifactMatched(item, writes[j].artifactKey, committed) && pair !in r {
        r := r + [pair];
      }
    }
    assert writes[..|writes|] == writes;
  }

  // ---- the decision ----------------------------------------------------------------------

  datatype Evaluation = Evaluation(
    decision: Decision,
    queryIds: seq<Id>,
    proof: Option<Proof>,
    reasonCodes: set<Reason>)

  function HardFailure(c: Candidate, ep: Episode): Option<Reason> {
    if c.decision == LegacyDecision then Some(LegacyCandidate)
    else if c.observedAt < ep.startedAt then Some(CandidateBeforeEpisode)
    else if c.observedAt - ep.lastAgentActivityAt > CLAIM_WINDOW_MS then Some(ClaimWindowExpired)
    else None
  }

  predicate AfterBaseline(e: Evidence, c: Candidate) {
    e.baselineSequence.None? || c.observedSequence > e.baselineSequence.value
  }

  function RepositoryEvidence(evidence: seq<Evidence>, repoKey: Id): (r: seq<Evidence>)
    ensures forall e :: e in r <==> e in evidence && e.repoKey == repoKey
  {
    if evidence == [] then []
    else
      var rest := RepositoryEvidence(evidence[1..], repoKey);
      if evidence[0].repoKey == repoKey then [evidence[0]] + rest else rest
  }

  function EpochEvidence(evidence: seq<Evidence>, epochId: Id): (r: seq<Evidence>)
    ensures forall e :: e in r <==> e in evidence && e.epochId == Some(epochId)
  {
    if evidence == [] then []
    else
      var rest := EpochEvidence(evidence[1..], epochId);
      if evidence[0].epochId == Some(epochId) then [evidence[0]] + rest else rest
  }

  predicate IsContentEvidence(e: Evidence, c: Candidate) {
    e.baselineTrusted && AfterBaseline(e, c) && HasContentContinuity(e, c.artifactStates)
  }

  function ContentEvidence(evidence: seq<Evidence>, c: Candidate): (r: seq<Evidence>)
    ensures forall e :: e in r <==> e in evidence && IsContentEvidence(e, c)
  {
    if evidence == [] then []
    else
      var rest := ContentEvidence(evidence[1..], c);
      if IsContentEvidence(evidence[0], c) then [evidence[0]] + rest else rest
  }

  function QueriesAmong(evidence: seq<Evidence>, allowed: set<Id>): (r: seq<Id>)
    ensures forall q :: q in r <==> q in allowed && exists e :: e in evidence && e.queryId == q
  {
    if evidence == [] then []
    else
      var rest := QueriesAmong(evidence[1..], allowed);
      if evidence[0].queryId in allowed then [evidence[0].queryId] + rest else rest
  }

  function EvidenceOfQueries(evidence: seq<Evidence>, ids: seq<Id>): (r: seq<Evidence>)
    ensures forall e :: e in r <==> e in evidence && e.queryId in ids
  {
    if evidence == [] then []
    else
      var rest := EvidenceOfQueries(evidence[1..], ids);
      if evidence[0].queryId in ids then [evidence[0]] + rest else rest
  }

  function RepoKeys(evidence: seq<Evidence>): (r: seq<Id>)
    ensures forall k :: k in r <==> exists e :: e in evidence && e.repoKey == k
  {
    if evidence == [] then [] else [evidence[0].repoKey] + RepoKeys(evidence[1..])
  }

  function Outside(ids: seq<Id>, excluded: set<Id>): (r: seq<Id>)
    ensures forall q :: q in r <==> q in ids && q !in excluded
  {
    if ids == [] then []
    else
      var rest := Outside(ids[1..], excluded);
      if ids[0] in excluded then rest else [ids[0]] + rest
  }

  function Among(ids: seq<Id>, allowed: set<Id>): (r: seq<Id>)
    ensures forall q :: q in r <==> q in ids && q in allowed
  {
    if ids == [] then []
    else
      var rest := Among(ids[1..], allowed);
      if ids[0] in allowed then [ids[0]] + rest else rest
  }

  function CurrentEvidence(c: Candidate, ep: Episode): seq<Evidence> {
    EpochEvidence(RepositoryEvidence(ep.evidence, c.repoKey), c.epochId)
  }

  function ProvenAnchors(c: Candidate, ep: Episode, lineage: set<Id>): seq<Id> {
    Unique(QueriesAmong(ContentEvidence(CurrentEvidence(c, ep), c), lineage))
  }

  /** Evidence that keeps an episode member from inheriting the claim. */
  predicate BlocksInheritance(e: Evidence, q: Id, c: Candidate, lineage: set<Id>) {
    && e.queryId == q
    && (|| e.repoKey != c.repoKey
        || e.epochId != Some(c.epochId)
        || !AfterBaseline(e, c)
        || q !in lineage)
  }

  function Unopposed(ids: seq<Id>, c: Candidate, ep: Episode, lineage: set<Id>): (r: seq<Id>)
    ensures forall q :: q in r <==> q in ids && !exists e :: e in ep.evidence && BlocksInheritance(e, q, c, lineage)
  {
    if ids == [] then []
    else
      var rest := Unopposed(ids[1..], c, ep, lineage);
      if exists e | e in ep.evidence :: BlocksInheritance(e, ids[0], c, lineage) then rest else [ids[0]] + rest
  }

  function Inherited(c: Candidate, ep: Episode, lineage: set<Id>, active: set<Id>, anchors: seq<Id>): seq<Id> {
    if |Unique(RepoKeys(ep.evidence))| != 1 then []
    else Unopposed(Outside(Outside(ep.queryIds, set q | q in anchors), active), c, ep, lineage)
  }

  function ProofKindFor(evidence: seq<Evidence>, committed: seq<ArtifactState>): ProofKind {
    if exists e | e in evidence ::
         exists o | o in AttributableStates(e) ::
           o.changeKind == Deleted
           && exists k | k in committed :: k.changeKind == Deleted && o.artifactKey == k.artifactKey
    then ObservedDeletion
    else ExactContentState
  }

  function MatchedArtifacts(evidence: seq<Evidence>, committed: seq<ArtifactState>): set<Id> {
    set e, o | e in evidence && o in AttributableStates(e) && MatchesSome(o, committed) :: o.artifactKey
  }

  function MatchedKeys(states: seq<ArtifactState>, committed: seq<ArtifactState>): set<Id> {
    set o | o in states && MatchesSome(o, committed) :: o.artifactKey
  }

  lemma MatchedArtifactsGrow(evidence: seq<Evidence>, e: Evidence, committed: seq<ArtifactState>)
    ensures MatchedArtifacts(evidence + [e], committed)
         == MatchedArtifacts(evidence, committed) + MatchedKeys(AttributableStates(e), committed)
  {
    var all := evidence + [e];
    assert e in all && forall f :: f in evidence ==> f in all;
  }

  /** `matchedArtifactCount`. */
  method MatchedArtifactCount(evidence: seq<Evidence>, committed: seq<ArtifactState>) returns (n: nat)
    ensures n == |MatchedArtifacts(evidence, committed)|
  {
    var matches: set<Id> := {};
    for i := 0 to |evidence|
      invariant matches == MatchedArtifacts(evidence[..i], committed)
    {
      assert evidence[..i + 1] == evidence[..i] + [evidence[i]];
      MatchedArtifactsGrow(evidence[..i], evidence[i], committed);
      matches := AddMatches(matches, AttributableStates(evidence[i]), committed);
    }
    assert evidence[..|evidence|] == evidence;
    n := |matches|;
  }

  method AddMatches(before: set<Id>, states: seq<ArtifactState>, committed: seq<ArtifactState>) returns (matches: set<Id>)
    ensures matches == before + MatchedKeys(states, committed)
  {
    matches := before;
    for j := 0 to |states|
      invariant matches == before + MatchedKeys(states[..j], committed)
    {
      assert states[..j + 1] == states[..j] + [states[j]];
      if MatchesSome(states[j], committed) {
        matches := matches + {states[j].artifactKey};
      }
    }
    assert states[..|states|] == states;
  }

  function PendingReason(c: Candidate, ep: Episode, lineage: set<Id>): Reason {
    var current := CurrentEvidence(c, ep);
    if ProvenAnchors(c, ep, lineage) != [] then AlreadyClaimedByOtherCommit
    else if current != [] && forall e | e in current :: !AfterBaseline(e, c) then CandidateBeforeEvidenceWindow
    else if ContentEvidence(current, c) != [] then LineageNotVerified
    else if RepositoryEvidence(ep.evidence, c.repoKey) != [] then NoStateContinuity
    else NoRepositoryEvidence
  }

  /** Proven anchors no other commit has claimed. */
  function FreeAnchors(c: Candidate, ep: Episode, lineage: set<Id>, active: set<Id>): seq<Id> {
    Outside(ProvenAnchors(c, ep, lineage), active)
  }

  /** Proven anchors this very commit already holds. */
  function RetainedAnchors(c: Candidate, ep: Episode, lineage: set<Id>, candidateAnchors: set<Id>): seq<Id> {
    Among(ProvenAnchors(c, ep, lineage), candidateAnchors)
  }

  function ProofFor(c: Candidate, ep: Episode, proofAnchors: seq<Id>, inherited: seq<Id>): Proof {
    var proofEvidence := EvidenceOfQueries(CurrentEvidence(c, ep), proofAnchors);
    Proof(
      ProofKindFor(proofEvidence, c.artifactStates),
      proofAnchors,
      inherited,
      |MatchedArtifacts(proofEvidence, c.artifactStates)|,
      MatchedPairs(proofEvidence, c.artifactStates),
      {ActiveEpoch, LineageVerified, ContentStateContinuity}
      + if inherited != [] then {UnambiguousInheritance} else {})
  }

  function EvaluateCommitAttribution(
    c: Candidate, ep: Episode, lineage: set<Id>, active: set<Id>, candidateAnchors: set<Id>): Evaluation
  {
    var current := CurrentEvidence(c, ep);
    if RepositoryEvidence(ep.evidence, c.repoKey) != [] && current == [] then
      Evaluation(Rejected, [], None, {EpochMismatch})
    else if HardFailure(c, ep).Some? then
      Evaluation(Rejected, [], None, {HardFailure(c, ep).value})
    else
      var anchors := FreeAnchors(c, ep, lineage, active);
      var retained := RetainedAnchors(c, ep, lineage, candidateAnchors);
      if anchors == [] && retained == [] then
        Evaluation(PendingEvidence, [], None, {PendingReason(c, ep, lineage)})
      else
        var inherited := Inherited(c, ep, lineage, active, anchors);
        Evaluation(
          Reportable,
          Unique(anchors + inherited),
          Some(ProofFor(c, ep, Unique(anchors + retained), inherited)),
          {VerifiedContentContinuity})
  }

  // ---- what a reportable decision means --------------------------------------------------

  /** Evidence strong enough to anchor a claim of its query on the commit. */
  ghost predicate Anchors(e: Evidence, c: Candidate, lineage: set<Id>) {
    && e.baselineTrusted
    && e.repoKey == c.repoKey
    && e.epochId == Some(c.epochId)
    && e.queryId in lineage
    && AfterBaseline(e, c)
    && HasContentContinuity(e, c.artifactStates)
  }

  ghost predicate HasAnchor(q: Id, c: Candidate, ep: Episode, lineage: set<Id>) {
    exists e :: e in ep.evidence && e.queryId == q && Anchors(e, c, lineage)
  }

  /** An episode member with nothing that speaks against it, in a single-repository episode. */
  ghost predicate MayInherit(q: Id, c: Candidate, ep: Episode, lineage: set<Id>) {
    && q in ep.queryIds
    && (forall e :: e in ep.evidence ==> e.repoKey == c.repoKey)
    && (forall e :: e in ep.evidence && e.queryId == q ==>
          e.epochId == Some(c.epochId) && AfterBaseline(e, c) && q in lineage)
  }

  lemma ProvenAnchorsMeaning(c: Candidate, ep: Episode, lineage: set<Id>, q: Id)
    ensures q in ProvenAnchors(c, ep, lineage) <==> HasAnchor(q, c, ep, lineage)
  {
    var content := ContentEvidence(CurrentEvidence(c, ep), c);
    forall e ensures e in content && e.queryId in lineage <==> e in ep.evidence && Anchors(e, c, lineage) {}
  }

  lemma SingleRepository(ep: Episode, e: Evidence, f: Evidence)
    requires |Unique(RepoKeys(ep.evidence))| == 1
    requires e in ep.evidence && f in ep.evidence
    ensures e.repoKey == f.repoKey
  {
    var repos := Unique(RepoKeys(ep.evidence));
    assert e.repoKey in repos && f.repoKey in repos;
  }

  lemma FreeAnchorsMeaning(c: Candidate, ep: Episode, lineage: set<Id>, active: set<Id>, q: Id)
    ensures q in FreeAnchors(c, ep, lineage, active) <==> HasAnchor(q, c, ep, lineage) && q !in active
  {
    ProvenAnchorsMeaning(c, ep, lineage, q);
  }

  lemma RetainedAnchorsMeaning(c: Candidate, ep: Episode, lineage: set<Id>, held: set<Id>, q: Id)
    ensures q in RetainedAnchors(c, ep, lineage, held) <==> HasAnchor(q, c, ep, lineage) && q in held
  {
    ProvenAnchorsMeaning(c, ep, lineage, q);
  }

  lemma InheritedMeaning(c: Candidate, ep: Episode, lineage: set<Id>, active: set<Id>, anchors: seq<Id>, q: Id)
    requires exists a :: HasAnchor(a, c, ep, lineage)
    requires q in Inherited(c, ep, lineage, active, anchors)
    ensures q !in active && MayInherit(q, c, ep, lineage)
  {
    var a :| HasAnchor(a, c, ep, lineage);
    var anchor :| anchor in ep.evidence && anchor.queryId == a && Anchors(anchor, c, lineage);
    forall e | e in ep.evidence
      ensures e.repoKey == c.repoKey
      ensures e.queryId == q ==> e.epochId == Some(c.epochId) && AfterBaseline(e, c) && q in lineage
    {
      SingleRepository(ep, e, anchor);
      assert !BlocksInheritance(e, q, c, lineage);
    }
  }

  /**
   A commit is reportable exactly when it is not ruled out and some query is anchored on it
   that is free, or already anchors this very commit.
   */
  lemma ReportableIff(c: Candidate, ep: Episode, lineage: set<Id>, active: set<Id>, held: set<Id>)
    ensures EvaluateCommitAttribution(c, ep, lineage, active, held).decision == Reportable <==>
            && HardFailure(c, ep).None?
            && exists q :: HasAnchor(q, c, ep, lineage) && (q !in active || q in held)
  {
    var anchors, retained := FreeAnchors(c, ep, lineage, active), RetainedAnchors(c, ep, lineage, held);
    if q :| HasAnchor(q, c, ep, lineage) && (q !in active || q in held) {
      SomeAnchorListed(c, ep, lineage, active, held, q);
    } else {
      if anchors != [] { FreeAnchorsMeaning(c, ep, lineage, active, anchors[0]); }
      if retained != [] { RetainedAnchorsMeaning(c, ep, lineage, held, retained[0]); }
    }
  }

  lemma SomeAnchorListed(c: Candidate, ep: Episode, lineage: set<Id>, active: set<Id>, held: set<Id>, q: Id)
    requires HasAnchor(q, c, ep, lineage) && (q !in active || q in held)
    ensures CurrentEvidence(c, ep) != []
    ensures FreeAnchors(c, ep, lineage, active) != [] || RetainedAnchors(c, ep, lineage, held) != []
  {
    FreeAnchorsMeaning(c, ep, lineage, active, q);
    RetainedAnchorsMeaning(c, ep, lineage, held, q);
    var e :| e in ep.evidence && e.queryId == q && Anchors(e, c, lineage);
    assert e in CurrentEvidence(c, ep);
  }

  lemma AnchorSets(c: Candidate, ep: Episode, lineage: set<Id>, active: set<Id>, held: set<Id>)
    ensures forall q :: q in FreeAnchors(c, ep, lineage, active) <==> HasAnchor(q, c, ep, lineage) && q !in active
    ensures forall q :: q in RetainedAnchors(c, ep, lineage, held) <==> HasAnchor(q, c, ep, lineage) && q in held
  {
    forall q
      ensures q in FreeAnchors(c, ep, lineage, active) <==> HasAnchor(q, c, ep, lineage) && q !in active
      ensures q in RetainedAnchors(c, ep, lineage, held) <==> HasAnchor(q, c, ep, lineage) && q in held
    {
      FreeAnchorsMeaning(c, ep, lineage, active, q);
      RetainedAnchorsMeaning(c, ep, lineage, held, q);
    }
  }

  /**
   Every query named by a reportable decision is free, every proof anchor is backed by trusted
   evidence of the same epoch, every other named query is an unopposed episode member, and no
   free anchored query is left out.
   */
  lemma ReportableIsJustified(c: Candidate, ep: Episode, lineage: set<Id>, active: set<Id>, held: set<Id>)
    requires EvaluateCommitAttribution(c, ep, lineage, active, held).decision == Reportable
    ensures
      var r := EvaluateCommitAttribution(c, ep, lineage, active, held);
      && r.proof.Some?
      && NoDup(r.queryIds)
      && r.proof.value.anchorQueryIds != []
      && (forall q :: q in r.proof.value.anchorQueryIds ==> HasAnchor(q, c, ep, lineage))
      && (forall q :: q in r.queryIds ==>
            && q !in active
            && (HasAnchor(q, c, ep, lineage) || MayInherit(q, c, ep, lineage)))
      && (forall q :: HasAnchor(q, c, ep, lineage) && q !in active ==> q in r.queryIds)
  {
    var anchors, retained := FreeAnchors(c, ep, lineage, active), RetainedAnchors(c, ep, lineage, held);
    var inherited := Inherited(c, ep, lineage, active, anchors);
    var proofAnchors := Unique(anchors + retained);
    AnchorSets(c, ep, lineage, active, held);
    var a := if anchors != [] then anchors[0] else retained[0];
    assert a in anchors + retained;
    assert a in proofAnchors && HasAnchor(a, c, ep, lineage);
    forall q | q in inherited ensures q !in active && MayInherit(q, c, ep, lineage) {
      InheritedMeaning(c, ep, lineage, active, anchors, q);
    }
  }
}
