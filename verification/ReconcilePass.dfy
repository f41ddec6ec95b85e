/**
 One reconciliation pass over the observed commits (src/attribution/gitAttribution.ts): what the
 candidate loop does to the ledger while it keeps reading attributions it listed only once.
 */
module ReconcilePass {
  import opened Prelude
  import opened Types
  import opened Grouping
  import opened CommitAttributionPolicy
  import opened CommitAttributionLedger

  const CANDIDATE_TTL_MS: int := 24 * 60 * 60 * 1000

  /** Git's answer to "is the first commit an ancestor of the second in this repository?". */
  type Ancestry = (Id, Id, Id) -> bool

  // ---- what the pass reads ------------------------------------------------------------------------

  predicate LineageOf(e: Evidence, c: Candidate, isAncestor: Ancestry) {
    if e.headCommitAtStart.None?
    then e.baselineSequence.Some? && c.observedSequence > e.baselineSequence.value
    else isAncestor(c.repoKey, e.headCommitAtStart.value, c.commitHash)
  }

  function Lineage(c: Candidate, ep: Episode, isAncestor: Ancestry): set<Id> {
    set e | e in ep.evidence && e.repoKey == c.repoKey && e.epochId == Some(c.epochId) && LineageOf(e, c, isAncestor)
      :: e.queryId
  }

  /** Commits with the queries to be taken from them. */
  type ClaimGroups = seq<Group<Id, Id>>

  function GroupIds(gs: ClaimGroups): set<Id> {
    set g, q | g in gs && q in g.items :: q
  }

  predicate Supersedable(x: Allocation, c: Candidate, ep: Episode) {
    && x.status == Active
    && x.decision == Some(Reportable)
    && x.episodeId == Some(ep.episodeId)
    && x.repoKey == c.repoKey
    && x.epochId == Some(c.epochId)
    && x.commitHash != c.commitHash
    && x.createdAt < c.observedAt
  }

  function FindSupersedable(xs: seq<Allocation>, c: Candidate, ep: Episode): (i: nat)
    ensures i <= |xs| && (i < |xs| ==> Supersedable(xs[i], c, ep))
    ensures forall j :: 0 <= j < i ==> !Supersedable(xs[j], c, ep)
  {
    if xs == [] then 0 else if Supersedable(xs[0], c, ep) then 0 else 1 + FindSupersedable(xs[1..], c, ep)
  }

  /** Claims an earlier commit of the same episode holds, by commit. */
  function SupersessionGroups(snapshot: Records, c: Candidate, ep: Episode): ClaimGroups {
    if snapshot == [] then []
    else
      var gs, a := SupersessionGroups(snapshot[..|snapshot| - 1], c, ep), snapshot[|snapshot| - 1];
      var i := FindSupersedable(a.allocations, c, ep);
      if a.queryId in ep.queryIds && i < |a.allocations| then AddTo(gs, a.allocations[i].commitHash, a.queryId) else gs
  }

  function FindPending(xs: seq<Allocation>): (i: nat)
    ensures i <= |xs| && (i < |xs| ==> xs[i].status == RewritePending)
    ensures forall j :: 0 <= j < i ==> xs[j].status != RewritePending
  {
    if xs == [] then 0 else if xs[0].status == RewritePending then 0 else 1 + FindPending(xs[1..])
  }

  /** Claims of the wanted queries that wait for a rewritten commit, by that commit. */
  function RewriteGroups(snapshot: Records, wanted: seq<Id>, commit: Id): ClaimGroups {
    if snapshot == [] then []
    else
      var gs, a := RewriteGroups(snapshot[..|snapshot| - 1], wanted, commit), snapshot[|snapshot| - 1];
      var i := FindPending(a.allocations);
      if a.queryId in wanted && i < |a.allocations| && a.allocations[i].commitHash != commit
      then AddTo(gs, a.allocations[i].commitHash, a.queryId) else gs
  }

  function FilterGroups(gs: ClaimGroups, wanted: seq<Id>): ClaimGroups {
    if gs == [] then []
    else
      var n := |gs| - 1;
      var ids := Among(gs[n].items, set q | q in wanted);
      FilterGroups(gs[..n], wanted) + if ids != [] then [Group(gs[n].key, ids)] else []
  }

  predicate HoldsCandidate(a: Attribution, c: Candidate, ep: Episode) {
    exists x | x in a.allocations ::
      x.status == Active && x.decision == Some(Reportable) && x.commitHash == c.commitHash
      && x.episodeId == Some(ep.episodeId)
  }

  function CandidateAnchors(snapshot: Records, c: Candidate, ep: Episode): set<Id> {
    set a | a in snapshot && HoldsCandidate(a, c, ep) :: a.queryId
  }

  predicate HasActiveClaim(a: Attribution) {
    exists x | x in a.allocations :: x.policy == FirstClaim && x.status == Active
  }

  /** Queries whose first claim is active; a rewrite-pending claim does not count here. */
  function ActiveQueries(snapshot: Records): set<Id> {
    set a | a in snapshot && HasActiveClaim(a) :: a.queryId
  }

  predicate ActivitySinceClaim(ep: Episode) {
    ep.claimedAt.None?
    || (if ep.lastQueryActivityAt.Some? then ep.lastQueryActivityAt.value else ep.lastAgentActivityAt) > ep.claimedAt.value
  }

  predicate Relevant(c: Candidate, ep: Episode) {
    && c.observedAt >= ep.startedAt
    && c.observedAt - ep.lastAgentActivityAt <= CLAIM_WINDOW_MS
    && c.repoKey in ep.repoKeys
  }

  predicate Considered(c: Candidate, activeEpochs: set<Id>) {
    c.epochId in activeEpochs
    && (c.decision == PendingEvidence || c.decision == RewritePendingDecision || c.decision == Reportable)
  }

  // ---- what the pass does ---------------------------------------------------------------------------

  /** One claim that changed hands, with the evidence it was justified by. */
  datatype ClaimMove = ClaimMove(queryId: Id, from: Origin, input: ClaimInput)

  function MovesOf(ids: seq<Id>, from: Origin, input: ClaimInput): seq<ClaimMove> {
    seq(|ids|, i requires 0 <= i < |ids| => ClaimMove(ids[i], from, input))
  }

  datatype PassState = PassState(records: Records, moves: seq<ClaimMove>, failed: bool)

  /** One ledger call of the pass; a throwing call ends the pass. */
  function Apply(p: PassState, input: ClaimInput, from: Origin, ids: seq<Id>, now: Time): PassState {
    if p.failed then p
    else
      var m := MoveAll(p.records, input, from, ids, now);
      if m.failed then p.(failed := true)
      else PassState(m.records, p.moves + MovesOf(m.claimed, from, input), false)
  }

  function ApplyGroups(p: PassState, input: ClaimInput, gs: ClaimGroups, now: Time): PassState {
    if gs == [] then p
    else
      var n := |gs| - 1;
      Apply(ApplyGroups(p, input, gs[..n], now), input, Some(gs[n].key), gs[n].items, now)
  }

  function EvaluationOf(
    moved: set<Id>, snapshot: Records, c: Candidate, ep: Episode, isAncestor: Ancestry): Evaluation
  {
    EvaluateCommitAttribution(
      c, ep, Lineage(c, ep, isAncestor),
      (ActiveQueries(snapshot) + moved) - GroupIds(SupersessionGroups(snapshot, c, ep)),
      CandidateAnchors(snapshot, c, ep))
  }

  function MovedIds(moves: seq<ClaimMove>): set<Id> {
    set m | m in moves :: m.queryId
  }

  /** Claims and transfers for one commit and one episode whose evaluation is reportable. */
  function Charge(p: PassState, snapshot: Records, c: Candidate, ep: Episode, r: Evaluation, now: Time): PassState
    requires r.proof.Some?
  {
    var input := ClaimInput(c, ep, r.proof.value);
    var rewrites := RewriteGroups(snapshot, r.queryIds, c.commitHash);
    var earlier := FilterGroups(SupersessionGroups(snapshot, c, ep), r.queryIds);
    var regular := Outside(r.queryIds, GroupIds(rewrites) + GroupIds(earlier));
    var p1 := Apply(p, input, None, regular, now);
    var p2 := ApplyGroups(p1, input, rewrites, now);
    if p1.moves != p.moves || ActivitySinceClaim(ep) then ApplyGroups(p2, input, earlier, now) else p2
  }

  function EpisodeStep(p: PassState, snapshot: Records, c: Candidate, ep: Episode, isAncestor: Ancestry, now: Time): PassState {
    if p.failed || !Relevant(c, ep) then p
    else
      var r := EvaluationOf(MovedIds(p.moves), snapshot, c, ep, isAncestor);
      if r.decision != Reportable || r.proof.None? || r.queryIds == [] then p
      else Charge(p, snapshot, c, ep, r, now)
  }

  function EpisodesStep(
    p: PassState, snapshot: Records, c: Candidate, episodes: seq<Episode>, isAncestor: Ancestry, now: Time): PassState
  {
    if episodes == [] then p
    else
      var n := |episodes| - 1;
      EpisodeStep(EpisodesStep(p, snapshot, c, episodes[..n], isAncestor, now), snapshot, c, episodes[n], isAncestor, now)
  }

  function CandidateStep(
    p: PassState, snapshot: Records, c: Candidate, episodes: seq<Episode>, activeEpochs: set<Id>, isAncestor: Ancestry, now: Time)
    : PassState
  {
    if Considered(c, activeEpochs) then EpisodesStep(p, snapshot, c, episodes, isAncestor, now) else p
  }

  /** The whole candidate loop, from the records the pass listed at its start. */
  function CandidateLoop(
    snapshot: Records, candidates: seq<Candidate>, episodes: seq<Episode>, activeEpochs: set<Id>, isAncestor: Ancestry, now: Time)
    : PassState
  {
    if candidates == [] then PassState(snapshot, [], false)
    else
      var n := |candidates| - 1;
      CandidateStep(CandidateLoop(snapshot, candidates[..n], episodes, activeEpochs, isAncestor, now),
                    snapshot, candidates[n], episodes, activeEpochs, isAncestor, now)
  }

  /** The decision a considered candidate is left with. */
  function DecisionAfter(c: Candidate, reported: bool, now: Time): Decision {
    if reported || c.decision == Reportable then Reportable
    else if now - c.observedAt > CANDIDATE_TTL_MS then Expired
    else PendingEvidence
  }

  // ---- each query moves at most once, from where it was at the start ------------------------------------

  function FindMove(moves: seq<ClaimMove>, q: Id): (i: nat)
    ensures i <= |moves| && (i < |moves| ==> moves[i].queryId == q)
    ensures forall j :: 0 <= j < i ==> moves[j].queryId != q
  {
    if moves == [] then 0 else if moves[0].queryId == q then 0 else 1 + FindMove(moves[1..], q)
  }

  ghost predicate DistinctQueries(moves: seq<ClaimMove>) {
    forall i, j :: 0 <= i < j < |moves| ==> moves[i].queryId != moves[j].queryId
  }

  /** The move was open to its query in the ledger the pass started from. */
  ghost predicate OpenAtStart(start: Records, m: ClaimMove) {
    Movable(Get(start, m.queryId), m.from) && m.from != Some(m.input.candidate.commitHash)
  }

  /** Moved queries have made exactly their one move, all others are as they were at the start. */
  ghost predicate EffectOf(start: Records, p: PassState, now: Time) {
    && (forall m :: m in p.moves ==> OpenAtStart(start, m))
    && (forall q ::
          var i := FindMove(p.moves, q);
          && (i < |p.moves| ==> Movable(Get(start, q), p.moves[i].from))
          && Get(p.records, q) ==
               if i < |p.moves| then Moved(Get(start, q), p.moves[i].input, p.moves[i].from, now) else Get(start, q))
  }

  ghost predicate PassOk(start: Records, p: PassState, now: Time) {
    && !p.failed && Inv(p.records) && NoLiveLinks(p.records)
    && DistinctQueries(p.moves)
    && EffectOf(start, p, now)
  }

  lemma FindMoveAppended(moves: seq<ClaimMove>, ids: seq<Id>, from: Origin, input: ClaimInput, q: Id)
    ensures
      var all := moves + MovesOf(ids, from, input);
      var i := FindMove(moves, q);
      if i < |moves| then FindMove(all, q) == i
      else if q in ids then |moves| <= FindMove(all, q) < |all| && all[FindMove(all, q)] == ClaimMove(q, from, input)
      else FindMove(all, q) == |all|
  {
    var all := moves + MovesOf(ids, from, input);
    var i, k := FindMove(moves, q), FindMove(all, q);
    if i < |moves| {
      assert all[i] == moves[i];
    } else if q in ids {
      var j :| 0 <= j < |ids| && ids[j] == q;
      assert all[|moves| + j].queryId == q;
    } else {
      forall j | 0 <= j < |all| ensures all[j].queryId != q {
        if j >= |moves| { assert all[j].queryId == ids[j - |moves|] && ids[j - |moves|] in ids; }
      }
    }
  }

  /** A query already moved in this pass is not open to the origins the stale snapshot suggests. */
  lemma NotMovedTwice(start: Records, p: PassState, from: Origin, q: Id, now: Time)
    requires Inv(start) && NoLiveLinks(start) && PassOk(start, p, now)
    requires FindMove(p.moves, q) < |p.moves|
    requires from.Some? ==> Movable(Get(start, q), from)
    ensures !Movable(Get(p.records, q), from)
  {
    var m := p.moves[FindMove(p.moves, q)];
    assert m in p.moves && OpenAtStart(start, m);
    var a := Get(start, q);
    LinkFree(start, a, m.from);
    if from.None? {
      var b := Moved(a, m.input, m.from, now);
      var x := b.allocations[|b.allocations| - 1];
      assert x in b.allocations && LiveClaim(x);
    } else {
      SameOrigin(a, m.from, from);
      MovedOnce(a, m.input, m.from, now);
    }
  }

  /** A record with one live claim has one origin at most. */
  lemma SameOrigin(a: Attribution, f: Origin, g: Origin)
    requires Writable(a) && Movable(a, f) && Movable(a, g) && g.Some?
    requires forall x :: x in a.allocations && LiveStatus(x) ==> x.policy == FirstClaim
    ensures f == g
  {
    var i := FindLiveOn(a.allocations, g.value);
    var x := a.allocations[i];
    assert x in a.allocations && LiveClaim(x);
    if f.Some? {
      var j := FindLiveOn(a.allocations, f.value);
      var y := a.allocations[j];
      assert y in a.allocations && LiveClaim(y);
      LiveClaimUnique(a, x, y);
    }
  }

  lemma ApplyOk(start: Records, p: PassState, input: ClaimInput, from: Origin, ids: seq<Id>, now: Time)
    requires Inv(start) && NoLiveLinks(start) && PassOk(start, p, now)
    requires from != Some(input.candidate.commitHash)
    requires from.Some? ==> forall q :: q in ids ==> Movable(Get(start, q), from)
    ensures var r := Apply(p, input, from, ids, now);
      && PassOk(start, r, now)
      && p.moves <= r.moves
      && (forall m :: m in r.moves[|p.moves|..] ==> m.queryId in ids && m.from == from && m.input == input)
      && (forall q :: q in ids && from.None? ==> HasLiveClaim(Get(r.records, q)))
  {
    MoveAllResult(p.records, input, from, ids, now);
    var m := MoveAll(p.records, input, from, ids, now);
    forall q | q in m.claimed ensures FindMove(p.moves, q) == |p.moves| {
      if FindMove(p.moves, q) < |p.moves| { NotMovedTwice(start, p, from, q, now); }
    }
    ApplyDistinct(p.moves, m.claimed, from, input);
    ApplyEffect(start, p, input, from, ids, now);
    ApplyCharges(p, input, from, ids, now);
  }

  lemma ApplyDistinct(moves: seq<ClaimMove>, ids: seq<Id>, from: Origin, input: ClaimInput)
    requires DistinctQueries(moves) && NoDup(ids)
    requires forall q :: q in ids ==> FindMove(moves, q) == |moves|
    ensures DistinctQueries(moves + MovesOf(ids, from, input))
  {
    var all := moves + MovesOf(ids, from, input);
    forall i, j | 0 <= i < j < |all| ensures all[i].queryId != all[j].queryId {
      if i < |moves| <= j {
        assert ids[j - |moves|] in ids;
      }
    }
  }

  lemma ApplyCharges(p: PassState, input: ClaimInput, from: Origin, ids: seq<Id>, now: Time)
    requires !p.failed && Inv(p.records) && NoLiveLinks(p.records)
    requires from != Some(input.candidate.commitHash)
    ensures var r := Apply(p, input, from, ids, now);
      forall q :: q in ids && from.None? ==> HasLiveClaim(Get(r.records, q))
  {
    MoveAllResult(p.records, input, from, ids, now);
    var m := MoveAll(p.records, input, from, ids, now);
    forall q | q in ids && from.None? ensures HasLiveClaim(Get(m.records, q)) {
      if q in m.claimed {
        var b := Moved(Get(p.records, q), input, from, now);
        assert b.allocations[|b.allocations| - 1] in b.allocations;
      }
    }
  }

  lemma ApplyEffect(start: Records, p: PassState, input: ClaimInput, from: Origin, ids: seq<Id>, now: Time)
    requires Inv(start) && NoLiveLinks(start) && PassOk(start, p, now)
    requires from != Some(input.candidate.commitHash)
    requires forall q :: q in MoveAll(p.records, input, from, ids, now).claimed ==> FindMove(p.moves, q) == |p.moves|
    ensures EffectOf(start, Apply(p, input, from, ids, now), now)
  {
    MoveAllResult(p.records, input, from, ids, now);
    var m := MoveAll(p.records, input, from, ids, now);
    var r := Apply(p, input, from, ids, now);
    forall q
      ensures
        var i := FindMove(r.moves, q);
        && (i < |r.moves| ==> Movable(Get(start, q), r.moves[i].from))
        && Get(r.records, q) ==
             if i < |r.moves| then Moved(Get(start, q), r.moves[i].input, r.moves[i].from, now) else Get(start, q)
    {
      FindMoveAppended(p.moves, m.claimed, from, input, q);
      assert FindMove(p.moves, q) < |p.moves| ==> q !in m.claimed;
    }
    forall x | x in r.moves ensures OpenAtStart(start, x) {
      if x !in p.moves { assert x.queryId in m.claimed; }
    }
  }

  // ---- what the groups contain ----------------------------------------------------------------------------

  ghost predicate Entry(gs: ClaimGroups, commit: Id, q: Id) {
    exists i :: 0 <= i < |gs| && gs[i].key == commit && q in gs[i].items
  }

  lemma EntryAdded(gs: ClaimGroups, k: Id, x: Id, commit: Id, q: Id)
    ensures Entry(AddTo(gs, k, x), commit, q) <==> Entry(gs, commit, q) || (commit == k && q == x)
  {
    var hs := AddTo(gs, k, x);
    var j := IndexOfKey(gs, k);
    assert x in hs[j].items;
    if Entry(gs, commit, q) {
      var i :| 0 <= i < |gs| && gs[i].key == commit && q in gs[i].items;
      assert hs[i].key == commit && q in hs[i].items;
    }
  }

  /** A record of the snapshot the earlier commits of the episode may lose. */
  ghost predicate Supersedes(a: Attribution, c: Candidate, ep: Episode, commit: Id, q: Id) {
    && a.queryId == q && q in ep.queryIds
    && FindSupersedable(a.allocations, c, ep) < |a.allocations|
    && a.allocations[FindSupersedable(a.allocations, c, ep)].commitHash == commit
  }

  lemma {:induction false} SupersessionEntries(snapshot: Records, c: Candidate, ep: Episode, commit: Id, q: Id)
    ensures Entry(SupersessionGroups(snapshot, c, ep), commit, q) <==>
            exists a :: a in snapshot && Supersedes(a, c, ep, commit, q)
  {
    if snapshot != [] {
      var n := |snapshot| - 1;
      var a := snapshot[n];
      assert snapshot == snapshot[..n] + [a];
      SupersessionEntries(snapshot[..n], c, ep, commit, q);
      assert (exists b :: b in snapshot && Supersedes(b, c, ep, commit, q)) <==>
             Supersedes(a, c, ep, commit, q) || (exists b :: b in snapshot[..n] && Supersedes(b, c, ep, commit, q));
      var i := FindSupersedable(a.allocations, c, ep);
      if a.queryId in ep.queryIds && i < |a.allocations| {
        EntryAdded(SupersessionGroups(snapshot[..n], c, ep), a.allocations[i].commitHash, a.queryId, commit, q);
      }
    }
  }

  ghost predicate AwaitsRewrite(a: Attribution, wanted: seq<Id>, replacement: Id, commit: Id, q: Id) {
    && a.queryId == q && q in wanted
    && FindPending(a.allocations) < |a.allocations|
    && a.allocations[FindPending(a.allocations)].commitHash == commit
    && commit != replacement
  }

  lemma {:induction false} RewriteEntries(snapshot: Records, wanted: seq<Id>, replacement: Id, commit: Id, q: Id)
    ensures Entry(RewriteGroups(snapshot, wanted, replacement), commit, q) <==>
            exists a :: a in snapshot && AwaitsRewrite(a, wanted, replacement, commit, q)
  {
    if snapshot != [] {
      var n := |snapshot| - 1;
      var a := snapshot[n];
      assert snapshot == snapshot[..n] + [a];
      RewriteEntries(snapshot[..n], wanted, replacement, commit, q);
      assert (exists b :: b in snapshot && AwaitsRewrite(b, wanted, replacement, commit, q)) <==>
             AwaitsRewrite(a, wanted, replacement, commit, q)
             || (exists b :: b in snapshot[..n] && AwaitsRewrite(b, wanted, replacement, commit, q));
      var i := FindPending(a.allocations);
      if a.queryId in wanted && i < |a.allocations| && a.allocations[i].commitHash != replacement {
        EntryAdded(RewriteGroups(snapshot[..n], wanted, replacement), a.allocations[i].commitHash, a.queryId, commit, q);
      }
    }
  }

  lemma {:induction false} FilteredEntries(gs: ClaimGroups, wanted: seq<Id>, commit: Id, q: Id)
    ensures Entry(FilterGroups(gs, wanted), commit, q) <==> Entry(gs, commit, q) && q in wanted
  {
    if gs != [] {
      var n := |gs| - 1;
      FilteredEntries(gs[..n], wanted, commit, q);
      var ids := Among(gs[n].items, set k | k in wanted);
      var rest := FilterGroups(gs[..n], wanted);
      var all := FilterGroups(gs, wanted);
      assert Entry(gs, commit, q) <==> Entry(gs[..n], commit, q) || (gs[n].key == commit && q in gs[n].items) by {
        if i :| 0 <= i < |gs| && gs[i].key == commit && q in gs[i].items { if i < n { assert gs[..n][i] == gs[i]; } }
        if i :| 0 <= i < n && gs[..n][i].key == commit && q in gs[..n][i].items { assert gs[i] == gs[..n][i]; }
      }
      assert Entry(all, commit, q) <==> Entry(rest, commit, q) || (gs[n].key == commit && q in ids) by {
        if i :| 0 <= i < |all| && all[i].key == commit && q in all[i].items { if i < |rest| { assert rest[i] == all[i]; } }
        if i :| 0 <= i < |rest| && rest[i].key == commit && q in rest[i].items { assert all[i] == rest[i]; }
        if gs[n].key == commit && q in ids { assert all[|rest|] == Group(commit, ids); }
      }
    }
  }

  lemma EntryId(gs: ClaimGroups, commit: Id, q: Id)
    ensures Entry(gs, commit, q) ==> q in GroupIds(gs)
    ensures q in GroupIds(gs) ==> exists k :: Entry(gs, k, q)
  {
    if q in GroupIds(gs) {
      var g :| g in gs && q in g.items;
      var i :| 0 <= i < |gs| && gs[i] == g;
      assert Entry(gs, g.key, q);
    }
  }

  // ---- justification ------------------------------------------------------------------------------------------

  /** The claim the move takes away was live on that commit at the start, and may be taken by this one. */
  ghost predicate TakenLegally(start: Records, m: ClaimMove)
    requires m.from.Some?
  {
    exists x :: IsLiveClaimOf(Get(start, m.queryId), x) && x.commitHash == m.from.value
      && (x.status == RewritePending || Supersedable(x, m.input.candidate, m.input.episode))
  }

  /** Every reason a claim may change hands in a pass. */
  ghost predicate Justified(start: Records, m: ClaimMove, isAncestor: Ancestry) {
    var c, ep := m.input.candidate, m.input.episode;
    var lineage := Lineage(c, ep, isAncestor);
    && Relevant(c, ep)
    && m.input.proof.anchorQueryIds != []
    && (forall k :: k in m.input.proof.anchorQueryIds ==> HasAnchor(k, c, ep, lineage))
    && (HasAnchor(m.queryId, c, ep, lineage) || MayInherit(m.queryId, c, ep, lineage))
    && (m.from.Some? ==> TakenLegally(start, m))
  }

  ghost predicate AllJustified(start: Records, moves: seq<ClaimMove>, isAncestor: Ancestry) {
    forall m :: m in moves ==> Justified(start, m, isAncestor)
  }

  /** Each entry names a claim that is live on that commit at the start, and not on the new commit. */
  ghost predicate EntriesOpen(start: Records, gs: ClaimGroups, c: Candidate, ep: Episode) {
    forall k, q :: Entry(gs, k, q) ==>
      && k != c.commitHash
      && Movable(Get(start, q), Some(k))
      && (exists x :: IsLiveClaimOf(Get(start, q), x) && x.commitHash == k
            && (x.status == RewritePending || Supersedable(x, c, ep)))
  }

  lemma OpenByClaim(start: Records, q: Id, x: Allocation)
    requires NoLiveLinks(start) && x in Get(start, q).allocations && LiveStatus(x)
    ensures IsLiveClaimOf(Get(start, q), x) && Movable(Get(start, q), Some(x.commitHash))
  {
    var a := Get(start, q);
    var i :| 0 <= i < |a.allocations| && a.allocations[i] == x;
  }

  lemma SupersessionOpen(start: Records, c: Candidate, ep: Episode)
    requires Inv(start) && NoLiveLinks(start)
    ensures EntriesOpen(start, SupersessionGroups(start, c, ep), c, ep)
  {
    forall k, q | Entry(SupersessionGroups(start, c, ep), k, q)
      ensures k != c.commitHash && Movable(Get(start, q), Some(k))
      ensures exists x :: IsLiveClaimOf(Get(start, q), x) && x.commitHash == k
                && (x.status == RewritePending || Supersedable(x, c, ep))
    {
      SupersessionEntries(start, c, ep, k, q);
      var a :| a in start && Supersedes(a, c, ep, k, q);
      GetOfMember(start, a);
      OpenByClaim(start, q, a.allocations[FindSupersedable(a.allocations, c, ep)]);
    }
  }

  lemma RewritesOpen(start: Records, wanted: seq<Id>, c: Candidate, ep: Episode)
    requires Inv(start) && NoLiveLinks(start)
    ensures EntriesOpen(start, RewriteGroups(start, wanted, c.commitHash), c, ep)
  {
    forall k, q | Entry(RewriteGroups(start, wanted, c.commitHash), k, q)
      ensures k != c.commitHash && Movable(Get(start, q), Some(k))
      ensures exists x :: IsLiveClaimOf(Get(start, q), x) && x.commitHash == k
                && (x.status == RewritePending || Supersedable(x, c, ep))
    {
      RewriteEntries(start, wanted, c.commitHash, k, q);
      var a :| a in start && AwaitsRewrite(a, wanted, c.commitHash, k, q);
      GetOfMember(start, a);
      OpenByClaim(start, q, a.allocations[FindPending(a.allocations)]);
    }
  }

  lemma FilteredOpen(start: Records, gs: ClaimGroups, wanted: seq<Id>, c: Candidate, ep: Episode)
    requires EntriesOpen(start, gs, c, ep)
    ensures EntriesOpen(start, FilterGroups(gs, wanted), c, ep)
  {
    forall k, q ensures Entry(FilterGroups(gs, wanted), k, q) ==> Entry(gs, k, q) {
      FilteredEntries(gs, wanted, k, q);
    }
  }

  /** What a step adds: only moves of this commit and episode, of wanted queries, each justified. */
  ghost predicate Adds(start: Records, p: PassState, r: PassState, input: ClaimInput, wanted: seq<Id>) {
    && p.moves <= r.moves
    && forall m :: m in r.moves[|p.moves|..] ==>
         && m.input == input
         && m.queryId in wanted
         && (m.from.Some? ==> TakenLegally(start, m))
  }

  lemma AddsTrans(start: Records, p: PassState, q: PassState, r: PassState, input: ClaimInput, wanted: seq<Id>)
    requires Adds(start, p, q, input, wanted) && Adds(start, q, r, input, wanted)
    ensures Adds(start, p, r, input, wanted)
  {
    forall m | m in r.moves[|p.moves|..]
      ensures m.input == input && m.queryId in wanted && (m.from.Some? ==> TakenLegally(start, m))
    {
      var i :| |p.moves| <= i < |r.moves| && r.moves[i] == m;
      if i < |q.moves| { assert q.moves[i] == m && m in q.moves[|p.moves|..]; }
      else { assert m in r.moves[|q.moves|..]; }
    }
  }

  lemma PrefixEntries(gs: ClaimGroups, n: nat)
    requires n <= |gs|
    ensures forall k, q :: Entry(gs[..n], k, q) ==> Entry(gs, k, q)
  {
    forall k, q | Entry(gs[..n], k, q) ensures Entry(gs, k, q) {
      var i :| 0 <= i < n && gs[..n][i].key == k && q in gs[..n][i].items;
      assert gs[i] == gs[..n][i];
    }
  }

  /** The queries of a group are open to its transfer at the start. */
  lemma GroupOpen(start: Records, gs: ClaimGroups, c: Candidate, ep: Episode, i: nat)
    requires EntriesOpen(start, gs, c, ep) && i < |gs| && gs[i].items != []
    ensures gs[i].key != c.commitHash && forall q :: q in gs[i].items ==> Movable(Get(start, q), Some(gs[i].key))
  {
    assert Entry(gs, gs[i].key, gs[i].items[0]);
    forall q | q in gs[i].items ensures Movable(Get(start, q), Some(gs[i].key)) { assert Entry(gs, gs[i].key, q); }
  }

  lemma {:induction false} ApplyGroupsOk(
    start: Records, p: PassState, input: ClaimInput, gs: ClaimGroups, wanted: seq<Id>, now: Time)
    requires Inv(start) && NoLiveLinks(start) && PassOk(start, p, now)
    requires EntriesOpen(start, gs, input.candidate, input.episode)
    requires forall k, q :: Entry(gs, k, q) ==> q in wanted
    ensures PassOk(start, ApplyGroups(p, input, gs, now), now)
    ensures Adds(start, p, ApplyGroups(p, input, gs, now), input, wanted)
  {
    if gs != [] {
      var n := |gs| - 1;
      PrefixEntries(gs, n);
      ApplyGroupsOk(start, p, input, gs[..n], wanted, now);
      var mid := ApplyGroups(p, input, gs[..n], now);
      forall q | q in gs[n].items ensures Entry(gs, gs[n].key, q) {}
      if gs[n].items == [] {
        assert Apply(mid, input, Some(gs[n].key), [], now) == mid;
      } else {
        GroupOpen(start, gs, input.candidate, input.episode, n);
        ApplyOk(start, mid, input, Some(gs[n].key), gs[n].items, now);
        AddsTrans(start, p, mid, ApplyGroups(p, input, gs, now), input, wanted);
      }
    }
  }

  // ---- one episode, one commit, the whole loop ---------------------------------------------------------------

  lemma AddsOfApply(start: Records, p: PassState, input: ClaimInput, ids: seq<Id>, wanted: seq<Id>, now: Time)
    requires Inv(start) && NoLiveLinks(start) && PassOk(start, p, now)
    requires forall q :: q in ids ==> q in wanted
    ensures PassOk(start, Apply(p, input, None, ids, now), now)
    ensures Adds(start, p, Apply(p, input, None, ids, now), input, wanted)
  {
    ApplyOk(start, p, input, None, ids, now);
  }

  lemma ChargeOk(start: Records, p: PassState, c: Candidate, ep: Episode, r: Evaluation, now: Time)
    requires Inv(start) && NoLiveLinks(start) && PassOk(start, p, now) && r.proof.Some?
    ensures PassOk(start, Charge(p, start, c, ep, r, now), now)
    ensures Adds(start, p, Charge(p, start, c, ep, r, now), ClaimInput(c, ep, r.proof.value), r.queryIds)
  {
    var input, wanted := ClaimInput(c, ep, r.proof.value), r.queryIds;
    var groups := SupersessionGroups(start, c, ep);
    var rewrites := RewriteGroups(start, wanted, c.commitHash);
    var earlier := FilterGroups(groups, wanted);
    var regular := Outside(wanted, GroupIds(rewrites) + GroupIds(earlier));
    SupersessionOpen(start, c, ep);
    RewritesOpen(start, wanted, c, ep);
    FilteredOpen(start, groups, wanted, c, ep);
    forall k, q ensures Entry(rewrites, k, q) ==> q in wanted { RewriteEntries(start, wanted, c.commitHash, k, q); }
    forall k, q ensures Entry(earlier, k, q) ==> q in wanted { FilteredEntries(groups, wanted, k, q); }
    var p1 := Apply(p, input, None, regular, now);
    AddsOfApply(start, p, input, regular, wanted, now);
    var p2 := ApplyGroups(p1, input, rewrites, now);
    ApplyGroupsOk(start, p1, input, rewrites, wanted, now);
    AddsTrans(start, p, p1, p2, input, wanted);
    ApplyGroupsOk(start, p2, input, earlier, wanted, now);
    AddsTrans(start, p, p2, ApplyGroups(p2, input, earlier, now), input, wanted);
  }

  lemma AddedJustified(start: Records, p: PassState, q: PassState, isAncestor: Ancestry, c: Candidate, ep: Episode, r: Evaluation)
    requires AllJustified(start, p.moves, isAncestor) && Relevant(c, ep)
    requires r == EvaluationOf(MovedIds(p.moves), start, c, ep, isAncestor)
    requires r.decision == Reportable && r.proof.Some?
    requires Adds(start, p, q, ClaimInput(c, ep, r.proof.value), r.queryIds)
    ensures AllJustified(start, q.moves, isAncestor)
  {
    ReportableIsJustified(
      c, ep, Lineage(c, ep, isAncestor),
      (ActiveQueries(start) + MovedIds(p.moves)) - GroupIds(SupersessionGroups(start, c, ep)),
      CandidateAnchors(start, c, ep));
    forall m | m in q.moves ensures Justified(start, m, isAncestor) {
      var i :| 0 <= i < |q.moves| && q.moves[i] == m;
      if i < |p.moves| { assert p.moves[i] == m; } else { assert m in q.moves[|p.moves|..]; }
    }
  }

  /** What holds of the pass after every step. */
  ghost predicate PassInv(start: Records, p: PassState, isAncestor: Ancestry, now: Time) {
    PassOk(start, p, now) && AllJustified(start, p.moves, isAncestor)
  }

  lemma EpisodeStepOk(start: Records, p: PassState, c: Candidate, ep: Episode, isAncestor: Ancestry, now: Time)
    requires Inv(start) && NoLiveLinks(start) && PassInv(start, p, isAncestor, now)
    ensures var r := EpisodeStep(p, start, c, ep, isAncestor, now);
      PassInv(start, r, isAncestor, now) && p.moves <= r.moves
  {
    var r := EvaluationOf(MovedIds(p.moves), start, c, ep, isAncestor);
    if Relevant(c, ep) && r.decision == Reportable && r.proof.Some? && r.queryIds != [] {
      ChargeOk(start, p, c, ep, r, now);
      AddedJustified(start, p, Charge(p, start, c, ep, r, now), isAncestor, c, ep, r);
    }
  }

  lemma {:induction false} EpisodesStepOk(
    start: Records, p: PassState, c: Candidate, episodes: seq<Episode>, isAncestor: Ancestry, now: Time)
    requires Inv(start) && NoLiveLinks(start) && PassInv(start, p, isAncestor, now)
    ensures var r := EpisodesStep(p, start, c, episodes, isAncestor, now);
      PassInv(start, r, isAncestor, now) && p.moves <= r.moves
  {
    if episodes != [] {
      var n := |episodes| - 1;
      EpisodesStepOk(start, p, c, episodes[..n], isAncestor, now);
      EpisodeStepOk(start, EpisodesStep(p, start, c, episodes[..n], isAncestor, now), c, episodes[n], isAncestor, now);
    }
  }

  /**
   Safety of one whole pass.  The pass never trips the write guard; although it works from a
   snapshot that goes stale, every query changes hands at most once, starting from where it was
   when the pass began; no query ends on two commits; and every change of hands rests on a proven
   anchor of the same episode and, if it takes a claim away, on one that was open to being taken.
   */
  lemma {:induction false} PassSafety(
    start: Records, candidates: seq<Candidate>, episodes: seq<Episode>, activeEpochs: set<Id>, isAncestor: Ancestry, now: Time)
    requires Inv(start) && NoLiveLinks(start)
    ensures PassInv(start, CandidateLoop(start, candidates, episodes, activeEpochs, isAncestor, now), isAncestor, now)
  {
    if candidates != [] {
      var n := |candidates| - 1;
      PassSafety(start, candidates[..n], episodes, activeEpochs, isAncestor, now);
      EpisodesStepOk(start, CandidateLoop(start, candidates[..n], episodes, activeEpochs, isAncestor, now),
                     candidates[n], episodes, isAncestor, now);
    }
  }

  // ---- completeness: no anchored query is left uncharged ----------------------------------------------------

  /** Some commit is charged with the query. */
  ghost predicate Charged(s: Records, q: Id) {
    HasActiveClaim(Get(s, q))
  }

  /** The query's claim waits for a rewrite of this commit, and charges nothing meanwhile. */
  ghost predicate WaitsOn(s: Records, q: Id, commit: Id) {
    exists x :: IsLiveClaimOf(Get(s, q), x) && x.status == RewritePending && x.commitHash == commit
  }

  lemma MovedIsCharged(a: Attribution, input: ClaimInput, from: Origin, now: Time)
    requires Movable(a, from)
    ensures HasActiveClaim(Moved(a, input, from, now))
  {
    var b := Moved(a, input, from, now);
    assert b.allocations[|b.allocations| - 1] in b.allocations;
  }

  lemma ChargedByMove(start: Records, p: PassState, q: Id, now: Time)
    requires PassOk(start, p, now) && FindMove(p.moves, q) < |p.moves|
    ensures Charged(p.records, q)
  {
    var m := p.moves[FindMove(p.moves, q)];
    MovedIsCharged(Get(start, q), m.input, m.from, now);
  }

  lemma ChargedStays(start: Records, p: PassState, r: PassState, q: Id, now: Time)
    requires PassOk(start, p, now) && PassOk(start, r, now) && p.moves <= r.moves && Charged(p.records, q)
    ensures Charged(r.records, q)
  {
    assert forall j :: 0 <= j < |p.moves| ==> r.moves[j] == p.moves[j];
    if FindMove(r.moves, q) < |r.moves| { ChargedByMove(start, r, q, now); }
  }

  lemma ChargedFromStart(start: Records, p: PassState, q: Id, now: Time)
    requires PassOk(start, p, now) && Charged(start, q)
    ensures Charged(p.records, q)
  {
    if FindMove(p.moves, q) < |p.moves| { ChargedByMove(start, p, q, now); }
  }

  /** What keeps a query from being free in an evaluation means that it is charged already. */
  lemma BusyIsCharged(start: Records, p: PassState, q: Id, now: Time)
    requires Inv(start) && PassOk(start, p, now) && q in ActiveQueries(start) + MovedIds(p.moves)
    ensures Charged(p.records, q)
  {
    if FindMove(p.moves, q) < |p.moves| {
      ChargedByMove(start, p, q, now);
    } else {
      var a :| a in start && a.queryId == q && HasActiveClaim(a);
      GetOfMember(start, a);
    }
  }

  /** A query with a live claim is charged, unless the claim waited when the pass began. */
  lemma LiveIsCharged(start: Records, p: PassState, q: Id, now: Time)
    requires NoLiveLinks(start) && PassOk(start, p, now) && HasLiveClaim(Get(p.records, q))
    ensures Charged(p.records, q) || exists k :: WaitsOn(start, q, k)
  {
    if FindMove(p.moves, q) < |p.moves| {
      ChargedByMove(start, p, q, now);
    } else {
      var x :| x in Get(start, q).allocations && LiveClaim(x);
      if x.status == RewritePending { assert WaitsOn(start, q, x.commitHash); }
    }
  }

  /** A waiting claim of a wanted query is up for transfer, unless it waits on the very commit. */
  lemma WaitingIsGrouped(start: Records, wanted: seq<Id>, commit: Id, k: Id, q: Id)
    requires Inv(start) && NoLiveLinks(start) && WaitsOn(start, q, k) && q in wanted && k != commit
    ensures q in GroupIds(RewriteGroups(start, wanted, commit))
  {
    var a := Get(start, q);
    var x :| IsLiveClaimOf(a, x) && x.status == RewritePending && x.commitHash == k;
    var i := FindPending(a.allocations);
    var j :| 0 <= j < |a.allocations| && a.allocations[j] == x;
    LiveClaimUnique(a, x, a.allocations[i]);
    assert a in start && AwaitsRewrite(a, wanted, commit, k, q);
    RewriteEntries(start, wanted, commit, k, q);
    EntryId(RewriteGroups(start, wanted, commit), k, q);
  }

  /** A transfer leaves each of its queries charged, whether it moves them or they moved before. */
  lemma TransferCharges(start: Records, p: PassState, input: ClaimInput, k: Id, ids: seq<Id>, now: Time, q: Id)
    requires Inv(start) && NoLiveLinks(start) && PassOk(start, p, now)
    requires k != input.candidate.commitHash && forall i :: i in ids ==> Movable(Get(start, i), Some(k))
    requires q in ids
    ensures Charged(Apply(p, input, Some(k), ids, now).records, q)
  {
    var r := Apply(p, input, Some(k), ids, now);
    ApplyOk(start, p, input, Some(k), ids, now);
    MoveAllResult(p.records, input, Some(k), ids, now);
    if q in MoveAll(p.records, input, Some(k), ids, now).claimed {
      MovedIsCharged(Get(p.records, q), input, Some(k), now);
    } else {
      ChargedByMove(start, p, q, now);
      ChargedStays(start, p, r, q, now);
    }
  }

  lemma EntryBeforeLast(gs: ClaimGroups, k: Id, q: Id)
    requires gs != [] && Entry(gs, k, q) && q !in gs[|gs| - 1].items
    ensures Entry(gs[..|gs| - 1], k, q)
  {
    var i :| 0 <= i < |gs| && gs[i].key == k && q in gs[i].items;
    assert i < |gs| - 1 && gs[..|gs| - 1][i] == gs[i];
  }

  lemma {:induction false} GroupsCharge(
    start: Records, p: PassState, input: ClaimInput, gs: ClaimGroups, wanted: seq<Id>, now: Time, k: Id, q: Id)
    requires Inv(start) && NoLiveLinks(start) && PassOk(start, p, now)
    requires EntriesOpen(start, gs, input.candidate, input.episode)
    requires forall k, q :: Entry(gs, k, q) ==> q in wanted
    requires Entry(gs, k, q)
    ensures Charged(ApplyGroups(p, input, gs, now).records, q)
  {
    var n := |gs| - 1;
    var mid := ApplyGroups(p, input, gs[..n], now);
    PrefixEntries(gs, n);
    ApplyGroupsOk(start, p, input, gs[..n], wanted, now);
    if q in gs[n].items {
      GroupOpen(start, gs, input.candidate, input.episode, n);
      TransferCharges(start, mid, input, gs[n].key, gs[n].items, now, q);
    } else {
      EntryBeforeLast(gs, k, q);
      GroupsCharge(start, p, input, gs[..n], wanted, now, k, q);
      ApplyGroupsOk(start, p, input, gs, wanted, now);
      GroupsExtendOne(p, input, gs, now);
      ChargedStays(start, mid, ApplyGroups(p, input, gs, now), q, now);
    }
  }

  lemma GroupsExtendOne(p: PassState, input: ClaimInput, gs: ClaimGroups, now: Time)
    requires gs != []
    ensures ApplyGroups(p, input, gs[..|gs| - 1], now).moves <= ApplyGroups(p, input, gs, now).moves
  {
  }

  lemma EpisodeStepCharges(start: Records, p: PassState, c: Candidate, ep: Episode, isAncestor: Ancestry, now: Time, q: Id)
    requires Inv(start) && NoLiveLinks(start) && PassInv(start, p, isAncestor, now)
    requires Relevant(c, ep) && HardFailure(c, ep).None? && HasAnchor(q, c, ep, Lineage(c, ep, isAncestor))
    ensures Charged(EpisodeStep(p, start, c, ep, isAncestor, now).records, q) || WaitsOn(start, q, c.commitHash)
  {
    var lineage := Lineage(c, ep, isAncestor);
    var busy := (ActiveQueries(start) + MovedIds(p.moves)) - GroupIds(SupersessionGroups(start, c, ep));
    var r := EvaluationOf(MovedIds(p.moves), start, c, ep, isAncestor);
    var after := EpisodeStep(p, start, c, ep, isAncestor, now);
    EpisodeStepOk(start, p, c, ep, isAncestor, now);
    if q in busy {
      BusyIsCharged(start, p, q, now);
      ChargedStays(start, p, after, q, now);
    } else {
      ReportableIff(c, ep, lineage, busy, CandidateAnchors(start, c, ep));
      ReportableIsJustified(c, ep, lineage, busy, CandidateAnchors(start, c, ep));
      ChargeCharges(start, p, c, ep, r, now, q);
    }
  }

  lemma ChargeCharges(start: Records, p: PassState, c: Candidate, ep: Episode, r: Evaluation, now: Time, q: Id)
    requires Inv(start) && NoLiveLinks(start) && PassOk(start, p, now) && r.proof.Some? && q in r.queryIds
    ensures Charged(Charge(p, start, c, ep, r, now).records, q) || WaitsOn(start, q, c.commitHash)
  {
    var wanted := r.queryIds;
    var rewrites := RewriteGroups(start, wanted, c.commitHash);
    var earlier := FilterGroups(SupersessionGroups(start, c, ep), wanted);
    if q in GroupIds(rewrites) {
      RewriteCharges(start, p, c, ep, r, now, q);
    } else if q in GroupIds(earlier) {
      SupersededIsCharged(start, c, ep, wanted, q);
      ChargeOk(start, p, c, ep, r, now);
      ChargedFromStart(start, Charge(p, start, c, ep, r, now), q, now);
    } else {
      RegularCharges(start, p, c, ep, r, now, q);
    }
  }

  /** The plain claim charges what is neither up for transfer nor waiting on the commit itself. */
  lemma RegularCharges(start: Records, p: PassState, c: Candidate, ep: Episode, r: Evaluation, now: Time, q: Id)
    requires Inv(start) && NoLiveLinks(start) && PassOk(start, p, now) && r.proof.Some? && q in r.queryIds
    requires q !in GroupIds(RewriteGroups(start, r.queryIds, c.commitHash))
    requires q !in GroupIds(FilterGroups(SupersessionGroups(start, c, ep), r.queryIds))
    ensures Charged(Charge(p, start, c, ep, r, now).records, q) || WaitsOn(start, q, c.commitHash)
  {
    var input, wanted := ClaimInput(c, ep, r.proof.value), r.queryIds;
    var regular := Outside(wanted, GroupIds(RewriteGroups(start, wanted, c.commitHash))
                                   + GroupIds(FilterGroups(SupersessionGroups(start, c, ep), wanted)));
    var p1 := Apply(p, input, None, regular, now);
    AddsOfApply(start, p, input, regular, wanted, now);
    ApplyCharges(p, input, None, regular, now);
    LiveIsCharged(start, p1, q, now);
    if Charged(p1.records, q) {
      ChargeOk(start, p, c, ep, r, now);
      ChargeExtendsClaims(start, p, c, ep, r, now);
      ChargedStays(start, p1, Charge(p, start, c, ep, r, now), q, now);
    } else {
      var k :| WaitsOn(start, q, k);
      if k != c.commitHash { WaitingIsGrouped(start, wanted, c.commitHash, k, q); }
    }
  }

  /** The transfers of waiting claims charge them. */
  lemma RewriteCharges(start: Records, p: PassState, c: Candidate, ep: Episode, r: Evaluation, now: Time, q: Id)
    requires Inv(start) && NoLiveLinks(start) && PassOk(start, p, now) && r.proof.Some?
    requires q in GroupIds(RewriteGroups(start, r.queryIds, c.commitHash))
    ensures Charged(Charge(p, start, c, ep, r, now).records, q)
  {
    var input, wanted := ClaimInput(c, ep, r.proof.value), r.queryIds;
    var rewrites := RewriteGroups(start, wanted, c.commitHash);
    var earlier := FilterGroups(SupersessionGroups(start, c, ep), wanted);
    var regular := Outside(wanted, GroupIds(rewrites) + GroupIds(earlier));
    var p1 := Apply(p, input, None, regular, now);
    var p2 := ApplyGroups(p1, input, rewrites, now);
    AddsOfApply(start, p, input, regular, wanted, now);
    RewritesOpen(start, wanted, c, ep);
    forall k, i ensures Entry(rewrites, k, i) ==> i in wanted { RewriteEntries(start, wanted, c.commitHash, k, i); }
    EntryId(rewrites, 0, q);
    var k :| Entry(rewrites, k, q);
    GroupsCharge(start, p1, input, rewrites, wanted, now, k, q);
    ApplyGroupsOk(start, p1, input, rewrites, wanted, now);
    ChargeOk(start, p, c, ep, r, now);
    GroupsExtend(p2, input, earlier, now);
    ChargedStays(start, p2, Charge(p, start, c, ep, r, now), q, now);
  }

  /** A claim open to supersession is active. */
  lemma SupersededIsCharged(start: Records, c: Candidate, ep: Episode, wanted: seq<Id>, q: Id)
    requires Inv(start) && NoLiveLinks(start) && q in GroupIds(FilterGroups(SupersessionGroups(start, c, ep), wanted))
    ensures Charged(start, q)
  {
    var groups := SupersessionGroups(start, c, ep);
    EntryId(FilterGroups(groups, wanted), 0, q);
    var k :| Entry(FilterGroups(groups, wanted), k, q);
    FilteredEntries(groups, wanted, k, q);
    SupersessionEntries(start, c, ep, k, q);
    var a :| a in start && Supersedes(a, c, ep, k, q);
    GetOfMember(start, a);
    assert a.allocations[FindSupersedable(a.allocations, c, ep)] in a.allocations;
  }

  lemma ChargeExtendsClaims(start: Records, p: PassState, c: Candidate, ep: Episode, r: Evaluation, now: Time)
    requires Inv(start) && NoLiveLinks(start) && PassOk(start, p, now) && r.proof.Some?
    ensures
      var input := ClaimInput(c, ep, r.proof.value);
      var rewrites := RewriteGroups(start, r.queryIds, c.commitHash);
      var earlier := FilterGroups(SupersessionGroups(start, c, ep), r.queryIds);
      var regular := Outside(r.queryIds, GroupIds(rewrites) + GroupIds(earlier));
      Apply(p, input, None, regular, now).moves <= Charge(p, start, c, ep, r, now).moves
  {
    var input, wanted := ClaimInput(c, ep, r.proof.value), r.queryIds;
    var rewrites := RewriteGroups(start, wanted, c.commitHash);
    var earlier := FilterGroups(SupersessionGroups(start, c, ep), wanted);
    var p1 := Apply(p, input, None, Outside(wanted, GroupIds(rewrites) + GroupIds(earlier)), now);
    GroupsExtend(p1, input, rewrites, now);
    GroupsExtend(ApplyGroups(p1, input, rewrites, now), input, earlier, now);
  }

  lemma {:induction false} GroupsExtend(p: PassState, input: ClaimInput, gs: ClaimGroups, now: Time)
    ensures p.moves <= ApplyGroups(p, input, gs, now).moves
  {
    if gs != [] { GroupsExtend(p, input, gs[..|gs| - 1], now); }
  }

  lemma {:induction false} EpisodesStepCharges(
    start: Records, p: PassState, c: Candidate, episodes: seq<Episode>, isAncestor: Ancestry, now: Time, ep: Episode, q: Id)
    requires Inv(start) && NoLiveLinks(start) && PassInv(start, p, isAncestor, now)
    requires ep in episodes && Relevant(c, ep) && HardFailure(c, ep).None? && HasAnchor(q, c, ep, Lineage(c, ep, isAncestor))
    ensures Charged(EpisodesStep(p, start, c, episodes, isAncestor, now).records, q) || WaitsOn(start, q, c.commitHash)
  {
    var n := |episodes| - 1;
    assert episodes == episodes[..n] + [episodes[n]];
    var mid := EpisodesStep(p, start, c, episodes[..n], isAncestor, now);
    EpisodesStepOk(start, p, c, episodes[..n], isAncestor, now);
    if ep == episodes[n] {
      EpisodeStepCharges(start, mid, c, ep, isAncestor, now, q);
    } else {
      EpisodesStepCharges(start, p, c, episodes[..n], isAncestor, now, ep, q);
      EpisodeStepOk(start, mid, c, episodes[n], isAncestor, now);
      if Charged(mid.records, q) {
        ChargedStays(start, mid, EpisodeStep(mid, start, c, episodes[n], isAncestor, now), q, now);
      }
    }
  }

  /**
   Completeness of one whole pass: after it, every query that a considered commit is anchored on,
   through any relevant episode, is charged to some commit, unless its claim was waiting for a rewrite
   of this very commit.
   */
  lemma {:induction false} PassCompleteness(
    start: Records, candidates: seq<Candidate>, episodes: seq<Episode>, activeEpochs: set<Id>, isAncestor: Ancestry, now: Time,
    c: Candidate, ep: Episode, q: Id)
    requires Inv(start) && NoLiveLinks(start)
    requires c in candidates && Considered(c, activeEpochs)
    requires ep in episodes && Relevant(c, ep) && HasAnchor(q, c, ep, Lineage(c, ep, isAncestor))
    ensures Charged(CandidateLoop(start, candidates, episodes, activeEpochs, isAncestor, now).records, q)
         || WaitsOn(start, q, c.commitHash)
  {
    var n := |candidates| - 1;
    assert candidates == candidates[..n] + [candidates[n]];
    var mid := CandidateLoop(start, candidates[..n], episodes, activeEpochs, isAncestor, now);
    PassSafety(start, candidates[..n], episodes, activeEpochs, isAncestor, now);
    if c == candidates[n] {
      EpisodesStepCharges(start, mid, c, episodes, isAncestor, now, ep, q);
    } else {
      PassCompleteness(start, candidates[..n], episodes, activeEpochs, isAncestor, now, c, ep, q);
      EpisodesStepOk(start, mid, candidates[n], episodes, isAncestor, now);
      if Charged(mid.records, q) {
        ChargedStays(start, mid, CandidateLoop(start, candidates, episodes, activeEpochs, isAncestor, now), q, now);
      }
    }
  }
}
