/**
 Claims that wait for a rewritten commit, in a pass (src/attribution/gitAttribution.ts).  Unlike an
 active claim a waiting one may move to any other commit, observed earlier or later; but a pass that
 only knows the commit it waits on leaves it waiting.
 */
module RewriteClaims {
  import opened Prelude
  import opened Types
  import opened CommitAttributionPolicy
  import opened CommitAttributionLedger
  import opened LedgerTransitions
  import opened ReconcilePass
  import opened ReconcileProgress

  /** The commit may take the query through this episode. */
  ghost predicate MayName(i: PassInput, c: Candidate, ep: Episode, q: Id) {
    && c in i.candidates && Considered(c, i.activeEpochs)
    && ep in i.episodes && Relevant(c, ep)
    && (HasAnchor(q, c, ep, Lineage(c, ep, i.isAncestor)) || MayInherit(q, c, ep, Lineage(c, ep, i.isAncestor)))
  }

  /** The commit is anchored on the query through this episode. */
  ghost predicate Anchored(i: PassInput, c: Candidate, ep: Episode, q: Id) {
    MayName(i, c, ep, q) && HasAnchor(q, c, ep, Lineage(c, ep, i.isAncestor))
  }

  /** A query that waited is charged after the pass exactly when the pass moved it. */
  lemma WaitingChargedIffMoved(start: Records, i: PassInput, q: Id, k: Id)
    requires Inv(start) && NoLiveLinks(start) && WaitsOn(start, q, k)
    ensures var p := PassOn(start, i);
      && PassOk(start, p, i.now)
      && (Charged(p.records, q) <==> FindMove(p.moves, q) < |p.moves|)
      && (!Charged(p.records, q) ==> Get(p.records, q) == Get(start, q))
  {
    PassSafety(start, i.candidates, i.episodes, i.activeEpochs, i.isAncestor, i.now);
    var p := PassOn(start, i);
    if FindMove(p.moves, q) < |p.moves| {
      ChargedByMove(start, p, q, i.now);
    } else if Charged(p.records, q) {
      var a := Get(start, q);
      var x :| x in a.allocations && x.policy == FirstClaim && x.status == Active;
      var y :| IsLiveClaimOf(a, y) && y.status == RewritePending;
      LiveClaimUnique(a, x, y);
    }
  }

  /** A waiting claim is only taken by a commit other than the one it waits on. */
  lemma WaitingMove(start: Records, i: PassInput, q: Id, k: Id) returns (m: ClaimMove)
    requires Inv(start) && NoLiveLinks(start) && WaitsOn(start, q, k) && Charged(PassOn(start, i).records, q)
    ensures m in PassOn(start, i).moves && m.queryId == q && m.from == Some(k)
    ensures m.input.candidate.commitHash != k && MayName(i, m.input.candidate, m.input.episode, q)
  {
    WaitingChargedIffMoved(start, i, q, k);
    var p := PassOn(start, i);
    m := p.moves[FindMove(p.moves, q)];
    PassSafety(start, i.candidates, i.episodes, i.activeEpochs, i.isAncestor, i.now);
    LoopSources(start, i);
    assert OpenAtStart(start, m) && Justified(start, m, i.isAncestor) && Sourced(m, i);
    var x :| IsLiveClaimOf(Get(start, q), x) && x.status == RewritePending && x.commitHash == k;
    var y :| IsLiveClaimOf(Get(start, q), y) && Some(y.commitHash) == m.from;
    LiveClaimUnique(Get(start, q), x, y);
  }

  /** A claim waits on as long as the pass knows no commit but its own that may take it. */
  lemma OwnCommitKeepsWaiting(start: Records, i: PassInput, q: Id, k: Id)
    requires Inv(start) && NoLiveLinks(start) && WaitsOn(start, q, k)
    requires forall c, ep :: MayName(i, c, ep, q) ==> c.commitHash == k
    ensures !Charged(PassOn(start, i).records, q)
    ensures Get(PassOn(start, i).records, q) == Get(start, q)
  {
    WaitingChargedIffMoved(start, i, q, k);
    if Charged(PassOn(start, i).records, q) { var m := WaitingMove(start, i, q, k); }
  }

  /**
   A waiting query that no episode lets inherit is charged after the pass exactly when the pass
   considered another commit anchored on it.
   */
  lemma WaitingChargedIff(start: Records, i: PassInput, q: Id, k: Id)
    requires Inv(start) && NoLiveLinks(start) && WaitsOn(start, q, k)
    requires forall c, ep :: MayName(i, c, ep, q) ==> Anchored(i, c, ep, q)
    ensures Charged(PassOn(start, i).records, q) <==> exists c, ep :: Anchored(i, c, ep, q) && c.commitHash != k
  {
    if c, ep :| Anchored(i, c, ep, q) && c.commitHash != k {
      WaitingIsTaken(start, i, c, ep, q, k);
    } else {
      OwnCommitKeepsWaiting(start, i, q, k);
    }
  }

  /** Whenever it was observed, another commit anchored on a waiting query has it taken from where it waits. */
  lemma WaitingIsTaken(start: Records, i: PassInput, c: Candidate, ep: Episode, q: Id, k: Id)
    requires Inv(start) && NoLiveLinks(start) && WaitsOn(start, q, k)
    requires Anchored(i, c, ep, q) && c.commitHash != k
    ensures Charged(PassOn(start, i).records, q)
  {
    PassCompleteness(start, i.candidates, i.episodes, i.activeEpochs, i.isAncestor, i.now, c, ep, q);
    if WaitsOn(start, q, c.commitHash) { WaitsOnOne(start, q, k, c.commitHash); }
  }

  lemma WaitsOnOne(s: Records, q: Id, k: Id, l: Id)
    requires Inv(s) && WaitsOn(s, q, k) && WaitsOn(s, q, l)
    ensures k == l
  {
    var x :| IsLiveClaimOf(Get(s, q), x) && x.status == RewritePending && x.commitHash == k;
    var y :| IsLiveClaimOf(Get(s, q), y) && y.status == RewritePending && y.commitHash == l;
    LiveClaimUnique(Get(s, q), x, y);
  }

  // ---- two passes over one ledger ---------------------------------------------------------------------------

  /** A claim of query 1 on commit 6, observed at 10, that waits for a rewrite. */
  const WAITING := EXAMPLE_CLAIM.(status := RewritePending, decision := Some(RewritePendingDecision), createdAt := 10)
  const WAITING_LEDGER: Records := [EmptyAttribution(1).(allocations := [WAITING])]
  const WORK := Episode(2, [4], [1], 0, None, 0, Open, [SUPPORTING.(baselineSequence := Some(0))], None)

  /** A commit with the content the query wrote. */
  function CommitSeen(commit: Id, at: Time): Candidate {
    EXAMPLE_COMMIT.(commitHash := commit, observedAt := at, decision := PendingEvidence)
  }

  function OneCommit(commit: Id, at: Time, isAncestor: Ancestry, now: Time): PassInput {
    PassInput([CommitSeen(commit, at)], [WORK], {5}, isAncestor, now)
  }

  lemma WaitingLedgerOk()
    ensures Inv(WAITING_LEDGER) && NoLiveLinks(WAITING_LEDGER) && WaitsOn(WAITING_LEDGER, 1, 6)
  {
    var a := EmptyAttribution(1).(allocations := [WAITING]);
    assert WAITING_LEDGER[0] == a && a in WAITING_LEDGER && WAITING in a.allocations;
    GetOfMember(WAITING_LEDGER, a);
  }

  lemma ExampleAnchored(commit: Id, at: Time, isAncestor: Ancestry, now: Time)
    requires 0 <= at <= CLAIM_WINDOW_MS
    ensures Anchored(OneCommit(commit, at, isAncestor, now), CommitSeen(commit, at), WORK, 1)
  {
    var e, c := WORK.evidence[0], CommitSeen(commit, at);
    assert e in WORK.evidence && LineageOf(e, c, isAncestor);
    assert 1 in Lineage(c, WORK, isAncestor);
    assert StatesMatch(EXAMPLE_STATE, EXAMPLE_STATE) && EXAMPLE_STATE in c.artifactStates;
    assert CausalPair(7, 3) in e.causalWrites && EXAMPLE_STATE in e.artifactStates;
    assert EXAMPLE_STATE in AttributableStates(e) && MatchesSome(EXAMPLE_STATE, c.artifactStates);
    assert Anchors(e, c, Lineage(c, WORK, isAncestor));
  }

  /** Commit 8, observed at 5, takes the claim that dates from 10: a move to an earlier observation. */
  lemma WaitingMovesEarlier(isAncestor: Ancestry, now: Time)
    ensures var p := PassOn(WAITING_LEDGER, OneCommit(8, 5, isAncestor, now));
      exists m :: m in p.moves && m.queryId == 1 && m.from == Some(6) && m.input.candidate.observedAt == 5
                  && !Above(WAITING_LEDGER, 1, 5)
  {
    var i := OneCommit(8, 5, isAncestor, now);
    WaitingLedgerOk();
    ExampleAnchored(8, 5, isAncestor, now);
    WaitingIsTaken(WAITING_LEDGER, i, CommitSeen(8, 5), WORK, 1, 6);
    var m := WaitingMove(WAITING_LEDGER, i, 1, 6);
    assert IsLiveClaimOf(Get(WAITING_LEDGER, 1), WAITING);
  }

  /** Commit 6 itself, seen again, is anchored on the query too, and yet leaves it waiting and uncharged. */
  lemma OwnCommitExample(at: Time, isAncestor: Ancestry, now: Time)
    requires 0 <= at <= CLAIM_WINDOW_MS
    ensures var i := OneCommit(6, at, isAncestor, now);
      && Anchored(i, CommitSeen(6, at), WORK, 1)
      && !Charged(PassOn(WAITING_LEDGER, i).records, 1)
  {
    var i := OneCommit(6, at, isAncestor, now);
    WaitingLedgerOk();
    ExampleAnchored(6, at, isAncestor, now);
    OwnCommitKeepsWaiting(WAITING_LEDGER, i, 1, 6);
  }
}
