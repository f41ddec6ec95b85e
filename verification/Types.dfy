/** The records that attribution reads and writes (src/types.ts). */
module Types {
  import opened Prelude

  datatype ChangeKind = Added | Modified | Deleted | Renamed | Binary

  datatype ArtifactState = ArtifactState(
    artifactKey: Id,
    previousArtifactKey: Option<Id>,
    stateKey: Option<Id>,
    worktreeStateKey: Option<Id>,
    indexStateKey: Option<Id>,
    changeKind: ChangeKind)

  datatype CausalPair = CausalPair(artifactKey: Id, nodeId: Id)

  datatype MatchedPair = MatchedPair(queryId: Id, artifactKey: Id, nodeId: Id)

  /** Work evidence of one query in one repository; absent lists are empty lists. */
  datatype Evidence = Evidence(
    queryId: Id,
    repoKey: Id,
    epochId: Option<Id>,
    expiresAt: Option<Time>,
    baselineTrusted: bool,
    headCommitAtStart: Option<Id>,
    baselineSequence: Option<int>,
    causalWrites: seq<CausalPair>,
    rejectedWrites: seq<CausalPair>,
    causalComplete: bool,
    artifactStates: seq<ArtifactState>)

  datatype Decision =
    | Reportable
    | PendingEvidence
    | Rejected
    | Expired
    | RewritePendingDecision
    | SupersededDecision
    | LegacyDecision

  datatype Reason =
    | EpochMismatch
    | LegacyCandidate
    | CandidateBeforeEpisode
    | ClaimWindowExpired
    | AlreadyClaimedByOtherCommit
    | CandidateBeforeEvidenceWindow
    | LineageNotVerified
    | NoStateContinuity
    | NoRepositoryEvidence
    | VerifiedContentContinuity
    | ActiveEpoch
    | LineageVerified
    | ContentStateContinuity
    | UnambiguousInheritance
    | NativeRevalidated
    | NativeRetracted
    | ObservationReason(code: Id)

  datatype Candidate = Candidate(
    candidateId: Id,
    epochId: Id,
    repoKey: Id,
    commitHash: Id,
    refKey: Option<Id>,
    observedAt: Time,
    observedSequence: int,
    artifactStates: seq<ArtifactState>,
    decision: Decision,
    reasonCodes: set<Reason>)

  datatype EpisodeStatus = Open | Claimed | Stale | ManualReview | EpisodeExpired

  datatype Episode = Episode(
    episodeId: Id,
    repoKeys: seq<Id>,
    queryIds: seq<Id>,
    startedAt: Time,
    lastQueryActivityAt: Option<Time>,
    lastAgentActivityAt: Time,
    status: EpisodeStatus,
    evidence: seq<Evidence>,
    claimedAt: Option<Time>)

  datatype ProofKind = ExactContentState | ObservedDeletion | EpisodeInheritance

  datatype Proof = Proof(
    kind: ProofKind,
    anchorQueryIds: seq<Id>,
    inheritedQueryIds: seq<Id>,
    matchedArtifactCount: nat,
    matchedPairs: seq<MatchedPair>,
    reasonCodes: set<Reason>)

  datatype AllocationPolicy = FirstClaim | UnallocatedLink

  datatype AllocationStatus = Active | RewritePending | Superseded | LegacyUnverified

  datatype Allocation = Allocation(
    episodeId: Option<Id>,
    epochId: Option<Id>,
    commitHash: Id,
    repoKey: Id,
    refKey: Option<Id>,
    queryId: Id,
    allocatedNanoUsd: Option<int>,
    policy: AllocationPolicy,
    decision: Option<Decision>,
    proof: Option<Proof>,
    evidenceReasons: set<Reason>,
    status: AllocationStatus,
    verifiedAt: Option<Time>,
    stateChangedAt: Option<Time>,
    rewritePendingAt: Option<Time>,
    createdAt: Time)

  datatype QueryStatus =
    | Unattributed
    | PendingCommit
    | QueryPendingEvidence
    | Attributed
    | SplitLinked
    | QueryManualReview
    | QueryRejected
    | QueryExpired
    | QueryRewritePending
    | QueryLegacy

  datatype Attribution = Attribution(
    queryId: Id,
    provider: Option<Id>,
    estimatedNanoUsd: Option<int>,
    status: QueryStatus,
    evidence: seq<Evidence>,
    allocations: seq<Allocation>)
}
