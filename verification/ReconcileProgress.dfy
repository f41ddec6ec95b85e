/**
 Repeated reconciliation settles (src/attribution/gitAttribution.ts): an active claim only ever moves
 to a commit observed strictly later, and a claim that waits for a rewrite may move anywhere but waits
 no more after that; so claims and transfers run out.
 */
module ReconcileProgress {
  import opened Prelude
  import opened Types
  import opened CommitAttributionPolicy
  import opened CommitAttributionLedger
  import opened ReconcilePass

  /** The query's claim waits for a rewritten commit. */
  ghost predicate Waits(s: Records, q: Id) {
    exists x :: IsLiveClaimOf(Get(s, q), x) && x.status == RewritePending
  }

  /** The query is charged to nothing, or only to something observed before this time. */
  ghost predicate Above(s: Records, q: Id, t: Time) {
    forall x :: IsLiveClaimOf(Get(s, q), x) ==> x.createdAt < t
  }

  /** The query could still move to something observed at this time; a waiting claim could to anything. */
  ghost predicate OpenTo(s: Records, q: Id, t: Time) {
    Waits(s, q) || Above(s, q, t)
  }

  /** The moves still possible: pairs of a query and a time it is open to. */
  ghost function Remaining(s: Records, ids: set<Id>, times: set<Time>): set<(Id, Time)> {
    set q, t | q in ids && t in times && OpenTo(s, q, t) :: (q, t)
  }

  ghost function Used(moves: seq<ClaimMove>): set<(Id, Time)> {
    set m | m in moves :: (m.queryId, m.input.candidate.observedAt)
  }

  lemma {:induction false} UsedCount(moves: seq<ClaimMove>)
    requires DistinctQueries(moves)
    ensures |Used(moves)| == |moves|
  {
    if moves != [] {
      var n := |moves| - 1;
      var m := moves[n];
      assert moves == moves[..n] + [m];
      UsedCount(moves[..n]);
      var last := (m.queryId, m.input.candidate.observedAt);
      assert Used(moves) == Used(moves[..n]) + {last};
      forall k | k in moves[..n] ensures k.queryId != m.queryId {
        var i :| 0 <= i < n && moves[i] == k;
        assert moves[i].queryId != moves[n].queryId;
      }
    }
  }

  /** Where a moved query ends up: its one live claim dates from the observed commit. */
  lemma MovedLive(a: Attribution, input: ClaimInput, from: Origin, now: Time, y: Allocation)
    requires Writable(a) && Movable(a, from)
    requires forall x :: x in a.allocations && LiveStatus(x) ==> x.policy == FirstClaim
    requires IsLiveClaimOf(Moved(a, input, from, now), y)
    ensures y.createdAt == input.candidate.observedAt && y.commitHash == input.candidate.commitHash && y.status == Active
  {
    var b := Moved(a, input, from, now);
    var n := |a.allocations|;
    assert !TakesALink(a, from);
    MoveWritableIff(a, input, from, now);
    assert IsLiveClaimOf(b, b.allocations[n]);
    LiveClaimUnique(b, y, b.allocations[n]);
  }

  /** The query's claim waits, and dates from this time or later. */
  ghost predicate WaitsSince(s: Records, q: Id, t: Time) {
    exists x :: IsLiveClaimOf(Get(s, q), x) && x.status == RewritePending && t <= x.createdAt
  }

  /**
   A move goes to a commit observed strictly later than any claim the query had, unless the claim it
   takes waits for a rewrite and dates from no earlier.
   */
  lemma MoveGoesLaterIff(start: Records, p: PassState, isAncestor: Ancestry, now: Time, m: ClaimMove)
    requires Inv(start) && NoLiveLinks(start) && PassInv(start, p, isAncestor, now) && m in p.moves
    ensures Above(start, m.queryId, m.input.candidate.observedAt)
       <==> !WaitsSince(start, m.queryId, m.input.candidate.observedAt)
  {
    assert OpenAtStart(start, m) && Justified(start, m, isAncestor);
    if m.from.Some? { TakenLaterIff(start, m); }
  }

  lemma TakenLaterIff(start: Records, m: ClaimMove)
    requires Inv(start) && m.from.Some? && TakenLegally(start, m)
    ensures Above(start, m.queryId, m.input.candidate.observedAt)
       <==> !WaitsSince(start, m.queryId, m.input.candidate.observedAt)
  {
    var a := Get(start, m.queryId);
    var x :| IsLiveClaimOf(a, x) && (x.status == RewritePending || Supersedable(x, m.input.candidate, m.input.episode));
    forall y | IsLiveClaimOf(a, y) ensures y == x { LiveClaimUnique(a, x, y); }
  }

  /** Every move of the pass uses up a pair that was still possible before and is not after. */
  lemma MoveUsesUp(start: Records, p: PassState, isAncestor: Ancestry, now: Time, m: ClaimMove)
    requires Inv(start) && NoLiveLinks(start) && PassInv(start, p, isAncestor, now) && m in p.moves
    ensures OpenTo(start, m.queryId, m.input.candidate.observedAt)
    ensures !OpenTo(p.records, m.queryId, m.input.candidate.observedAt)
  {
    MoveGoesLaterIff(start, p, isAncestor, now, m);
    var j :| 0 <= j < |p.moves| && p.moves[j] == m;
    assert FindMove(p.moves, m.queryId) == j;
    MovedOpenTo(start, p, now, m, m.input.candidate.observedAt);
  }

  /** A moved query waits no more and is open to later times only. */
  lemma MovedOpenTo(start: Records, p: PassState, now: Time, m: ClaimMove, t: Time)
    requires Inv(start) && NoLiveLinks(start) && PassOk(start, p, now)
    requires FindMove(p.moves, m.queryId) < |p.moves| && p.moves[FindMove(p.moves, m.queryId)] == m
    ensures OpenTo(p.records, m.queryId, t) <==> m.input.candidate.observedAt < t
  {
    var a := Get(start, m.queryId);
    LinkFree(start, a, m.from);
    var b := Moved(a, m.input, m.from, now);
    assert Get(p.records, m.queryId) == b;
    assert IsLiveClaimOf(b, b.allocations[|a.allocations|]);
    forall y | IsLiveClaimOf(b, y) ensures y.createdAt == m.input.candidate.observedAt && y.status == Active {
      MovedLive(a, m.input, m.from, now, y);
    }
  }

  /** A pair possible after the pass was possible before it. */
  lemma StillPossible(start: Records, p: PassState, isAncestor: Ancestry, now: Time, q: Id, t: Time)
    requires Inv(start) && NoLiveLinks(start) && PassInv(start, p, isAncestor, now) && OpenTo(p.records, q, t)
    ensures OpenTo(start, q, t)
  {
    var i := FindMove(p.moves, q);
    if i < |p.moves| {
      assert p.moves[i] in p.moves;
      MoveUsesUp(start, p, isAncestor, now, p.moves[i]);
      MovedOpenTo(start, p, now, p.moves[i], t);
    }
  }

  /** The pass only touches queries and times it was given. */
  ghost predicate DrawnFrom(p: PassState, ids: set<Id>, times: set<Time>) {
    forall m :: m in p.moves ==> m.queryId in ids && m.input.candidate.observedAt in times
  }

  /** The number of moves still possible falls by at least one for every claim or transfer made. */
  lemma PassSpends(start: Records, p: PassState, isAncestor: Ancestry, now: Time, ids: set<Id>, times: set<Time>)
    requires Inv(start) && NoLiveLinks(start) && PassInv(start, p, isAncestor, now) && DrawnFrom(p, ids, times)
    ensures |Remaining(p.records, ids, times)| + |p.moves| <= |Remaining(start, ids, times)|
  {
    var before, after, used := Remaining(start, ids, times), Remaining(p.records, ids, times), Used(p.moves);
    UsedCount(p.moves);
    forall u | u in used ensures u in before && u !in after {
      UsedPair(start, p, isAncestor, now, ids, times, u);
    }
    forall u | u in after ensures u in before {
      InRemaining(p.records, ids, times, u);
      StillPossible(start, p, isAncestor, now, u.0, u.1);
      InRemaining(start, ids, times, u);
    }
    DisjointSizes(after, used, before);
  }

  lemma InRemaining(s: Records, ids: set<Id>, times: set<Time>, u: (Id, Time))
    ensures u in Remaining(s, ids, times) <==> u.0 in ids && u.1 in times && OpenTo(s, u.0, u.1)
  {
    assert u == (u.0, u.1);
  }

  lemma UsedPair(
    start: Records, p: PassState, isAncestor: Ancestry, now: Time, ids: set<Id>, times: set<Time>, u: (Id, Time))
    requires Inv(start) && NoLiveLinks(start) && PassInv(start, p, isAncestor, now) && DrawnFrom(p, ids, times)
    requires u in Used(p.moves)
    ensures u in Remaining(start, ids, times) && u !in Remaining(p.records, ids, times)
  {
    var m :| m in p.moves && u == (m.queryId, m.input.candidate.observedAt);
    MoveUsesUp(start, p, isAncestor, now, m);
    InRemaining(start, ids, times, u);
    InRemaining(p.records, ids, times, u);
  }

  lemma DisjointSizes<T>(a: set<T>, b: set<T>, whole: set<T>)
    requires forall x :: x in a ==> x in whole
    requires forall x :: x in b ==> x in whole && x !in a
    ensures |a| + |b| <= |whole|
  {
    assert a !! b;
    assert |a + b| == |a| + |b|;
    SubsetSize(a + b, whole);
  }

  /**
   `q` came after `p`: it moved at least as much, and if nothing more, it left the ledger as it was;
   records it stored anew are of queries that moved.
   */
  ghost predicate IdleOrMoved(p: PassState, q: PassState) {
    && p.moves <= q.moves
    && (q.moves == p.moves ==> q.records == p.records)
    && forall a :: a in q.records ==> a in p.records || a.queryId in MovedIds(q.moves)
  }

  lemma IdleTransitive(p: PassState, q: PassState, r: PassState)
    requires IdleOrMoved(p, q) && IdleOrMoved(q, r)
    ensures IdleOrMoved(p, r)
  {
    assert forall m :: m in q.moves ==> m in r.moves;
  }

  lemma ApplyIdle(p: PassState, input: ClaimInput, from: Origin, ids: seq<Id>, now: Time)
    ensures IdleOrMoved(p, Apply(p, input, from, ids, now))
  {
    var m := MoveAll(p.records, input, from, ids, now);
    if !p.failed && !m.failed {
      if m.claimed == [] { NoClaimNoChange(p.records, input, from, ids, now); }
      ClaimedAreStored(p.records, input, from, ids, now);
      var r := Apply(p, input, from, ids, now);
      forall q | q in m.claimed ensures q in MovedIds(r.moves) {
        var k :| 0 <= k < |m.claimed| && m.claimed[k] == q;
        assert r.moves[|p.moves| + k].queryId == q;
      }
    }
  }

  lemma {:induction false} ClaimedAreStored(s: Records, input: ClaimInput, from: Origin, ids: seq<Id>, now: Time)
    ensures forall a :: a in MoveAll(s, input, from, ids, now).records ==>
      a in s || a.queryId in MoveAll(s, input, from, ids, now).claimed
  {
    if ids != [] { ClaimedAreStored(s, input, from, ids[..|ids| - 1], now); }
  }

  lemma {:induction false} NoClaimNoChange(s: Records, input: ClaimInput, from: Origin, ids: seq<Id>, now: Time)
    requires MoveAll(s, input, from, ids, now).claimed == []
    ensures MoveAll(s, input, from, ids, now).records == s
  {
    if ids != [] {
      var n := |ids| - 1;
      var m := MoveAll(s, input, from, ids[..n], now);
      assert m.claimed <= MoveAll(s, input, from, ids, now).claimed;
      NoClaimNoChange(s, input, from, ids[..n], now);
    }
  }

  lemma {:induction false} GroupsIdle(p: PassState, input: ClaimInput, gs: ClaimGroups, now: Time)
    ensures IdleOrMoved(p, ApplyGroups(p, input, gs, now))
  {
    if gs != [] {
      var n := |gs| - 1;
      var before := ApplyGroups(p, input, gs[..n], now);
      GroupsIdle(p, input, gs[..n], now);
      ApplyIdle(before, input, Some(gs[n].key), gs[n].items, now);
      IdleTransitive(p, before, ApplyGroups(p, input, gs, now));
    }
  }

  lemma EpisodeIdle(p: PassState, snapshot: Records, c: Candidate, ep: Episode, isAncestor: Ancestry, now: Time)
    ensures IdleOrMoved(p, EpisodeStep(p, snapshot, c, ep, isAncestor, now))
  {
    var r := EvaluationOf(MovedIds(p.moves), snapshot, c, ep, isAncestor);
    if r.proof.Some? {
      var input := ClaimInput(c, ep, r.proof.value);
      var rewrites := RewriteGroups(snapshot, r.queryIds, c.commitHash);
      var earlier := FilterGroups(SupersessionGroups(snapshot, c, ep), r.queryIds);
      StagesIdle(p, input, Outside(r.queryIds, GroupIds(rewrites) + GroupIds(earlier)), rewrites, earlier, now);
    }
  }

  /** The claim and both kinds of transfer, one after another. */
  lemma StagesIdle(p: PassState, input: ClaimInput, regular: seq<Id>, rewrites: ClaimGroups, earlier: ClaimGroups, now: Time)
    ensures var p2 := ApplyGroups(Apply(p, input, None, regular, now), input, rewrites, now);
      IdleOrMoved(p, p2) && IdleOrMoved(p, ApplyGroups(p2, input, earlier, now))
  {
    var p1 := Apply(p, input, None, regular, now);
    var p2 := ApplyGroups(p1, input, rewrites, now);
    ApplyIdle(p, input, None, regular, now);
    GroupsIdle(p1, input, rewrites, now);
    IdleTransitive(p, p1, p2);
    GroupsIdle(p2, input, earlier, now);
    IdleTransitive(p, p2, ApplyGroups(p2, input, earlier, now));
  }

  lemma {:induction false} EpisodesIdle(
    p: PassState, snapshot: Records, c: Candidate, episodes: seq<Episode>, isAncestor: Ancestry, now: Time)
    ensures IdleOrMoved(p, EpisodesStep(p, snapshot, c, episodes, isAncestor, now))
  {
    if episodes != [] {
      var n := |episodes| - 1;
      var before := EpisodesStep(p, snapshot, c, episodes[..n], isAncestor, now);
      EpisodesIdle(p, snapshot, c, episodes[..n], isAncestor, now);
      EpisodeIdle(before, snapshot, c, episodes[n], isAncestor, now);
      IdleTransitive(p, before, EpisodesStep(p, snapshot, c, episodes, isAncestor, now));
    }
  }

  /** A pass that moves nothing leaves the ledger exactly as it was. */
  lemma {:induction false} LoopIdle(
    start: Records, candidates: seq<Candidate>, episodes: seq<Episode>, activeEpochs: set<Id>, isAncestor: Ancestry, now: Time)
    ensures IdleOrMoved(PassState(start, [], false), CandidateLoop(start, candidates, episodes, activeEpochs, isAncestor, now))
  {
    if candidates != [] {
      var n := |candidates| - 1;
      var mid := CandidateLoop(start, candidates[..n], episodes, activeEpochs, isAncestor, now);
      LoopIdle(start, candidates[..n], episodes, activeEpochs, isAncestor, now);
      EpisodesIdle(mid, start, candidates[n], episodes, isAncestor, now);
      IdleTransitive(PassState(start, [], false), mid,
                     CandidateLoop(start, candidates, episodes, activeEpochs, isAncestor, now));
    }
  }

  // ---- many passes ---------------------------------------------------------------------------------------------

  /** Everything a pass reads besides the ledger; each pass may see different evidence. */
  datatype PassInput = PassInput(
    candidates: seq<Candidate>, episodes: seq<Episode>, activeEpochs: set<Id>, isAncestor: Ancestry, now: Time)

  ghost function PassOn(s: Records, i: PassInput): PassState {
    CandidateLoop(s, i.candidates, i.episodes, i.activeEpochs, i.isAncestor, i.now)
  }

  /** All observed commits and episode members come from one fixed, finite world. */
  ghost predicate Bounded(i: PassInput, ids: set<Id>, times: set<Time>) {
    && (forall c :: c in i.candidates ==> c.observedAt in times)
    && (forall ep, q :: ep in i.episodes && q in ep.queryIds ==> q in ids)
    && (forall ep, e :: ep in i.episodes && e in ep.evidence ==> e.queryId in ids)
  }

  ghost function After(s: Records, passes: seq<PassInput>): Records {
    if passes == [] then s else PassOn(After(s, passes[..|passes| - 1]), passes[|passes| - 1]).records
  }

  /** Claims and transfers made by all passes together. */
  ghost function TotalMoves(s: Records, passes: seq<PassInput>): nat {
    if passes == [] then 0
    else
      var n := |passes| - 1;
      TotalMoves(s, passes[..n]) + |PassOn(After(s, passes[..n]), passes[n]).moves|
  }

  /** The policy found the commit reportable for the episode, with this proof. */
  ghost predicate Justifies(input: ClaimInput, lineage: set<Id>, active: set<Id>, held: set<Id>) {
    var r := EvaluateCommitAttribution(input.candidate, input.episode, lineage, active, held);
    r.decision == Reportable && r.proof == Some(input.proof)
  }

  ghost predicate FromPolicy(input: ClaimInput) {
    exists lineage, active, held :: Justifies(input, lineage, active, held)
  }

  /** The move is for a commit the pass considered and an episode it knew, on a proof of the policy. */
  ghost predicate Sourced(m: ClaimMove, i: PassInput) {
    && m.input.candidate in i.candidates && Considered(m.input.candidate, i.activeEpochs)
    && m.input.episode in i.episodes
    && FromPolicy(m.input)
  }

  lemma JustifiedDrawn(start: Records, p: PassState, i: PassInput, ids: set<Id>, times: set<Time>)
    requires PassInv(start, p, i.isAncestor, i.now) && Bounded(i, ids, times)
    requires forall m :: m in p.moves ==> Sourced(m, i)
    ensures DrawnFrom(p, ids, times)
  {
    forall m | m in p.moves ensures m.queryId in ids {
      assert Justified(start, m, i.isAncestor);
    }
  }

  lemma EpisodeSources(p: PassState, snapshot: Records, c: Candidate, ep: Episode, isAncestor: Ancestry, now: Time)
    ensures forall m :: m in EpisodeStep(p, snapshot, c, ep, isAncestor, now).moves ==>
      m in p.moves || (m.input.candidate == c && m.input.episode == ep && FromPolicy(m.input))
  {
    var r := EvaluationOf(MovedIds(p.moves), snapshot, c, ep, isAncestor);
    if r.decision == Reportable && r.proof.Some? {
      ChargeSources(p, snapshot, c, ep, r, now);
      assert Justifies(ClaimInput(c, ep, r.proof.value), Lineage(c, ep, isAncestor),
                       (ActiveQueries(snapshot) + MovedIds(p.moves)) - GroupIds(SupersessionGroups(snapshot, c, ep)),
                       CandidateAnchors(snapshot, c, ep));
    }
  }

  lemma ChargeSources(p: PassState, snapshot: Records, c: Candidate, ep: Episode, r: Evaluation, now: Time)
    requires r.proof.Some?
    ensures forall m :: m in Charge(p, snapshot, c, ep, r, now).moves ==>
      m in p.moves || m.input == ClaimInput(c, ep, r.proof.value)
  {
    var input := ClaimInput(c, ep, r.proof.value);
    var rewrites := RewriteGroups(snapshot, r.queryIds, c.commitHash);
    var earlier := FilterGroups(SupersessionGroups(snapshot, c, ep), r.queryIds);
    var p1 := Apply(p, input, None, Outside(r.queryIds, GroupIds(rewrites) + GroupIds(earlier)), now);
    GroupSources(p1, input, rewrites, now);
    GroupSources(ApplyGroups(p1, input, rewrites, now), input, earlier, now);
  }

  lemma {:induction false} GroupSources(p: PassState, input: ClaimInput, gs: ClaimGroups, now: Time)
    ensures forall m :: m in ApplyGroups(p, input, gs, now).moves ==> m in p.moves || m.input == input
  {
    if gs != [] { GroupSources(p, input, gs[..|gs| - 1], now); }
  }

  lemma {:induction false} EpisodesSources(
    p: PassState, snapshot: Records, c: Candidate, episodes: seq<Episode>, isAncestor: Ancestry, now: Time)
    ensures forall m :: m in EpisodesStep(p, snapshot, c, episodes, isAncestor, now).moves ==>
      m in p.moves || (m.input.candidate == c && m.input.episode in episodes && FromPolicy(m.input))
  {
    if episodes != [] {
      var n := |episodes| - 1;
      assert episodes == episodes[..n] + [episodes[n]];
      EpisodesSources(p, snapshot, c, episodes[..n], isAncestor, now);
      EpisodeSources(EpisodesStep(p, snapshot, c, episodes[..n], isAncestor, now), snapshot, c, episodes[n], isAncestor, now);
    }
  }

  /** Where every move of a pass comes from. */
  lemma {:induction false} LoopSources(start: Records, i: PassInput)
    ensures forall m :: m in PassOn(start, i).moves ==> Sourced(m, i)
    decreases |i.candidates|
  {
    if i.candidates != [] {
      var n := |i.candidates| - 1;
      var before := i.(candidates := i.candidates[..n]);
      assert i.candidates == i.candidates[..n] + [i.candidates[n]];
      LoopSources(start, before);
      EpisodesSources(PassOn(start, before), start, i.candidates[n], i.episodes, i.isAncestor, i.now);
    }
  }

  lemma PassKeepsOk(s: Records, i: PassInput)
    requires Inv(s) && NoLiveLinks(s)
    ensures PassInv(s, PassOn(s, i), i.isAncestor, i.now)
    ensures Inv(PassOn(s, i).records) && NoLiveLinks(PassOn(s, i).records)
  {
    PassSafety(s, i.candidates, i.episodes, i.activeEpochs, i.isAncestor, i.now);
  }

  /**
   Over any number of passes, with whatever evidence each of them sees, claims and transfers
   together never exceed the pairs of a query and a time it was open to at the start.
   */
  lemma {:induction false} MovesRunOut(s: Records, passes: seq<PassInput>, ids: set<Id>, times: set<Time>)
    requires Inv(s) && NoLiveLinks(s) && forall i :: i in passes ==> Bounded(i, ids, times)
    ensures Inv(After(s, passes)) && NoLiveLinks(After(s, passes))
    ensures |Remaining(After(s, passes), ids, times)| + TotalMoves(s, passes) <= |Remaining(s, ids, times)|
  {
    if passes != [] {
      var n := |passes| - 1;
      var i := passes[n];
      assert passes == passes[..n] + [i];
      MovesRunOut(s, passes[..n], ids, times);
      var mid := After(s, passes[..n]);
      PassKeepsOk(mid, i);
      LoopSources(mid, i);
      JustifiedDrawn(mid, PassOn(mid, i), i, ids, times);
      PassSpends(mid, PassOn(mid, i), i.isAncestor, i.now, ids, times);
    }
  }

  /** How many of the passes change the ledger. */
  ghost function ChangingPasses(s: Records, passes: seq<PassInput>): nat {
    if passes == [] then 0
    else
      var init := passes[..|passes| - 1];
      ChangingPasses(s, init) + if After(s, passes) != After(s, init) then 1 else 0
  }

  lemma {:induction false} ChangingPassesMove(s: Records, passes: seq<PassInput>)
    ensures ChangingPasses(s, passes) <= TotalMoves(s, passes)
  {
    if passes != [] {
      var i := passes[|passes| - 1];
      ChangingPassesMove(s, passes[..|passes| - 1]);
      LoopIdle(After(s, passes[..|passes| - 1]), i.candidates, i.episodes, i.activeEpochs, i.isAncestor, i.now);
    }
  }

  /**
   Over any number of passes, each with evidence, commits and time of its own, all but boundedly many
   leave the ledger exactly as it was: no more change it than there were moves possible at the start.
   */
  lemma FewPassesChange(s: Records, passes: seq<PassInput>, ids: set<Id>, times: set<Time>)
    requires Inv(s) && NoLiveLinks(s) && forall i :: i in passes ==> Bounded(i, ids, times)
    ensures ChangingPasses(s, passes) <= |Remaining(s, ids, times)|
  {
    ChangingPassesMove(s, passes);
    MovesRunOut(s, passes, ids, times);
  }

  function Repeat(i: PassInput, k: nat): (r: seq<PassInput>)
    ensures |r| == k && forall j :: j in r ==> j == i
  {
    if k == 0 then [] else Repeat(i, k - 1) + [i]
  }

  ghost function AfterRepeats(s: Records, i: PassInput, k: nat): Records {
    After(s, Repeat(i, k))
  }

  ghost function MovesOfRepeats(s: Records, i: PassInput, k: nat): nat {
    TotalMoves(s, Repeat(i, k))
  }

  lemma AfterOneMore(s: Records, i: PassInput, k: nat)
    ensures AfterRepeats(s, i, k + 1) == PassOn(AfterRepeats(s, i, k), i).records
    ensures MovesOfRepeats(s, i, k + 1) == MovesOfRepeats(s, i, k) + |PassOn(AfterRepeats(s, i, k), i).moves|
  {
    var passes := Repeat(i, k + 1);
    assert passes[..k] == Repeat(i, k) && passes[k] == i;
  }

  /** From the k-th pass on the ledger no longer changes. */
  ghost predicate SettledFrom(s: Records, i: PassInput, k: nat) {
    forall m: nat :: k <= m ==> AfterRepeats(s, i, m) == AfterRepeats(s, i, k)
  }

  /**
   Repeating the same pass reaches a fixed point of the ledger within as many passes as there were
   moves possible at the start, and every later pass leaves the ledger unchanged.
   */
  lemma ReachesFixedPoint(s: Records, i: PassInput, ids: set<Id>, times: set<Time>)
    requires Inv(s) && NoLiveLinks(s) && Bounded(i, ids, times)
    ensures exists k :: 0 <= k <= |Remaining(s, ids, times)| && SettledFrom(s, i, k)
  {
    var bound := |Remaining(s, ids, times)|;
    if k :| 0 <= k <= bound && !StillMoves(s, i, k) {
      IdleFixes(s, i, k);
      forall m: nat | k <= m ensures AfterRepeats(s, i, m) == AfterRepeats(s, i, k) { StaysFixed(s, i, k, m); }
      assert SettledFrom(s, i, k);
    } else {
      EachPassMoves(s, i, bound + 1);
      MovesRunOut(s, Repeat(i, bound + 1), ids, times);
    }
  }

  /** The pass after k passes still moves something. */
  ghost predicate StillMoves(s: Records, i: PassInput, k: nat) {
    PassOn(AfterRepeats(s, i, k), i).moves != []
  }

  /** The pass leaves this ledger as it is. */
  ghost predicate FixedBy(r: Records, i: PassInput) {
    PassOn(r, i).records == r
  }

  lemma IdleFixes(s: Records, i: PassInput, k: nat)
    requires !StillMoves(s, i, k)
    ensures FixedBy(AfterRepeats(s, i, k), i)
  {
    LoopIdle(AfterRepeats(s, i, k), i.candidates, i.episodes, i.activeEpochs, i.isAncestor, i.now);
  }

  lemma {:induction false} StaysFixed(s: Records, i: PassInput, k: nat, m: nat)
    requires k <= m && FixedBy(AfterRepeats(s, i, k), i)
    ensures AfterRepeats(s, i, m) == AfterRepeats(s, i, k)
  {
    if k < m {
      StaysFixed(s, i, k, m - 1);
      FixedNext(s, i, m - 1, AfterRepeats(s, i, k));
    }
  }

  lemma FixedNext(s: Records, i: PassInput, k: nat, rest: Records)
    requires AfterRepeats(s, i, k) == rest && FixedBy(rest, i)
    ensures AfterRepeats(s, i, k + 1) == rest
  {
    AfterOneMore(s, i, k);
  }

  lemma {:induction false} EachPassMoves(s: Records, i: PassInput, n: nat)
    requires forall k :: 0 <= k < n ==> StillMoves(s, i, k)
    ensures MovesOfRepeats(s, i, n) >= n
  {
    if n > 0 {
      EachPassMoves(s, i, n - 1);
      assert StillMoves(s, i, n - 1);
      AfterOneMore(s, i, n - 1);
    }
  }
}
