/**
 The durable ledger of which commit pays for which query
 (src/storage/commitAttributionLedger.ts): what each operation does to the stored records.
 */
module CommitAttributionLedger {
  import opened Prelude
  import opened Types

  type Records = seq<Attribution>

  // ---- allocations and the write guard ------------------------------------------------------

  predicate LiveStatus(x: Allocation) {
    x.status == Active || x.status == RewritePending
  }

  /** A first claim that currently charges its commit. */
  predicate LiveClaim(x: Allocation) {
    x.policy == FirstClaim && LiveStatus(x)
  }

  predicate HasLiveClaim(a: Attribution) {
    exists x | x in a.allocations :: LiveClaim(x)
  }

  predicate AtMostOneLive(allocations: seq<Allocation>) {
    forall i, j | 0 <= i < j < |allocations| :: !(LiveClaim(allocations[i]) && LiveClaim(allocations[j]))
  }

  predicate CostCovered(a: Attribution, x: Allocation) {
    x.allocatedNanoUsd.Some? ==>
      a.estimatedNanoUsd.Some? && x.allocatedNanoUsd.value <= a.estimatedNanoUsd.value
  }

  predicate ProofCarried(x: Allocation) {
    x.decision == Some(Reportable) ==> x.epochId.Some? && x.proof.Some?
  }

  /** `assertAttributionInvariants`: what every write demands of a record. */
  predicate Writable(a: Attribution) {
    && AtMostOneLive(a.allocations)
    && (forall x | x in a.allocations :: x.queryId == a.queryId)
    && (forall x | x in a.allocations :: LiveClaim(x) ==> CostCovered(a, x) && ProofCarried(x))
  }

  predicate AllWritable(s: Records) {
    forall a | a in s :: Writable(a)
  }

  ghost predicate UniqueIds(s: Records) {
    forall i, j :: 0 <= i < j < |s| ==> s[i].queryId != s[j].queryId
  }

  /** What every stored ledger satisfies. */
  ghost predicate Inv(s: Records) {
    UniqueIds(s) && AllWritable(s)
  }

  /** No link of the unused kind is live; the program itself never creates one. */
  ghost predicate NoLiveLinks(s: Records) {
    forall a, x :: a in s && x in a.allocations && LiveStatus(x) ==> x.policy == FirstClaim
  }

  // ---- looking up and replacing records -------------------------------------------------------

  function Find(s: Records, q: Id): (i: nat)
    ensures i <= |s|
    ensures i < |s| ==> s[i].queryId == q
    ensures forall j :: 0 <= j < i ==> s[j].queryId != q
  {
    if s == [] then 0 else if s[0].queryId == q then 0 else 1 + Find(s[1..], q)
  }

  function EmptyAttribution(q: Id): Attribution {
    Attribution(q, None, None, Unattributed, [], [])
  }

  /** The stored record of a query, or the empty one. */
  function Get(s: Records, q: Id): (a: Attribution)
    ensures a.queryId == q
    ensures a in s || a == EmptyAttribution(q)
  {
    var i := Find(s, q);
    if i < |s| then s[i] else EmptyAttribution(q)
  }

  function Put(s: Records, a: Attribution): (r: Records)
    ensures a in r
    ensures forall b :: b in r ==> b == a || b in s
  {
    var i := Find(s, a.queryId);
    if i < |s| then (var r := s[i := a]; assert r[i] == a; r) else s + [a]
  }

  lemma GetOfMember(s: Records, a: Attribution)
    requires UniqueIds(s) && a in s
    ensures Get(s, a.queryId) == a
  {
    var i :| 0 <= i < |s| && s[i] == a;
  }

  lemma PutGet(s: Records, a: Attribution, q: Id)
    requires UniqueIds(s)
    ensures UniqueIds(Put(s, a))
    ensures Get(Put(s, a), q) == if q == a.queryId then a else Get(s, q)
  {
    var r := Put(s, a);
    var i := Find(s, a.queryId);
    assert UniqueIds(r);
    var k := Find(r, q);
    if q == a.queryId {
      GetOfMember(r, a);
    } else {
      var j := Find(s, q);
      if j < |s| { assert r[j] == s[j]; GetOfMember(r, s[j]); }
    }
  }

  // ---- claiming and transferring ----------------------------------------------------------------

  datatype ClaimInput = ClaimInput(candidate: Candidate, episode: Episode, proof: Proof)

  function EvidenceOf(evidence: seq<Evidence>, q: Id): (r: seq<Evidence>)
    ensures forall e :: e in r <==> e in evidence && e.queryId == q
  {
    if evidence == [] then []
    else
      var rest := EvidenceOf(evidence[1..], q);
      if evidence[0].queryId == q then [evidence[0]] + rest else rest
  }

  function EvidenceIndex(evidence: seq<Evidence>, e: Evidence): (i: nat)
    ensures i <= |evidence|
  {
    if evidence == [] then 0
    else if evidence[0].queryId == e.queryId && evidence[0].repoKey == e.repoKey then 0
    else 1 + EvidenceIndex(evidence[1..], e)
  }

  /** Later evidence replaces earlier evidence of the same query and repository. */
  function MergeEvidence(existing: seq<Evidence>, next: seq<Evidence>): seq<Evidence>
    decreases |next|
  {
    if next == [] then existing
    else
      var i := EvidenceIndex(existing, next[0]);
      MergeEvidence(if i < |existing| then existing[i := next[0]] else existing + [next[0]], next[1..])
  }

  function PairsOfQuery(pairs: seq<MatchedPair>, q: Id): (r: seq<MatchedPair>)
    ensures forall p :: p in r <==> p in pairs && p.queryId == q
  {
    if pairs == [] then []
    else
      var rest := PairsOfQuery(pairs[1..], q);
      if pairs[0].queryId == q then [pairs[0]] + rest else rest
  }

  /** A direct claim keeps its own pairs; an inherited one keeps its anchors' pairs. */
  function ProofForQuery(p: Proof, q: Id): Proof {
    if q in p.inheritedQueryIds
    then p.(kind := EpisodeInheritance, inheritedQueryIds := [q], matchedPairs := Unique(p.matchedPairs))
    else p.(inheritedQueryIds := [], matchedPairs := Unique(PairsOfQuery(p.matchedPairs, q)))
  }

  function AllocationFromClaim(input: ClaimInput, a: Attribution, now: Time): Allocation {
    Allocation(
      Some(input.episode.episodeId), Some(input.candidate.epochId), input.candidate.commitHash,
      input.candidate.repoKey, input.candidate.refKey, a.queryId, a.estimatedNanoUsd, FirstClaim,
      Some(Reportable), Some(ProofForQuery(input.proof, a.queryId)),
      input.proof.reasonCodes + input.candidate.reasonCodes, Active,
      Some(now), Some(now), None, input.candidate.observedAt)
  }

  function Retired(x: Allocation, now: Time): Allocation {
    x.(status := Superseded, decision := Some(SupersededDecision), rewritePendingAt := None, stateChangedAt := Some(now))
  }

  function FindLiveOn(allocations: seq<Allocation>, commit: Id): (i: nat)
    ensures i <= |allocations|
    ensures i < |allocations| ==> allocations[i].commitHash == commit && LiveStatus(allocations[i])
    ensures forall j :: 0 <= j < i ==> !(allocations[j].commitHash == commit && LiveStatus(allocations[j]))
  {
    if allocations == [] then 0
    else if allocations[0].commitHash == commit && LiveStatus(allocations[0]) then 0
    else 1 + FindLiveOn(allocations[1..], commit)
  }

  /** Where a claim comes from: a free query, or the commit it is taken from. */
  type Origin = Option<Id>

  /** Is the query open to a claim with this origin? */
  predicate Movable(a: Attribution, from: Origin) {
    if from.None? then !HasLiveClaim(a)
    else FindLiveOn(a.allocations, from.value) < |a.allocations|
  }

  function AllocationsAfterMove(a: Attribution, input: ClaimInput, from: Origin, now: Time): seq<Allocation>
    requires Movable(a, from)
  {
    var kept :=
      if from.None? then a.allocations
      else
        var i := FindLiveOn(a.allocations, from.value);
        a.allocations[i := Retired(a.allocations[i], now)];
    kept + [AllocationFromClaim(input, a, now)]
  }

  function Moved(a: Attribution, input: ClaimInput, from: Origin, now: Time): Attribution
    requires Movable(a, from)
  {
    a.(evidence := MergeEvidence(a.evidence, EvidenceOf(input.episode.evidence, a.queryId)),
       allocations := AllocationsAfterMove(a, input, from, now),
       status := Attributed)
  }

  /** The running result of a claim or a transfer; once it fails, nothing is stored. */
  datatype MoveState = MoveState(records: Records, claimed: seq<Id>, skipped: seq<Id>, failed: bool)

  function MoveOne(m: MoveState, input: ClaimInput, from: Origin, q: Id, now: Time): MoveState {
    var a := Get(m.records, q);
    if m.failed then m
    else if !Movable(a, from) then m.(skipped := m.skipped + [q])
    else
      var next := Moved(a, input, from, now);
      if !Writable(next) then m.(failed := true)
      else m.(records := Put(m.records, next), claimed := m.claimed + [q])
  }

  function MoveAll(s: Records, input: ClaimInput, from: Origin, ids: seq<Id>, now: Time): MoveState {
    if ids == [] then MoveState(s, [], [], false)
    else MoveOne(MoveAll(s, input, from, ids[..|ids| - 1], now), input, from, ids[|ids| - 1], now)
  }

  // ---- what a move does to one record -----------------------------------------------------------

  ghost predicate LiveOn(a: Attribution, commit: Id) {
    exists x :: x in a.allocations && LiveClaim(x) && x.commitHash == commit
  }

  /** The one live claim of a record, if any. */
  ghost predicate IsLiveClaimOf(a: Attribution, x: Allocation) {
    x in a.allocations && LiveClaim(x)
  }

  lemma LiveClaimUnique(a: Attribution, x: Allocation, y: Allocation)
    requires AtMostOneLive(a.allocations) && IsLiveClaimOf(a, x) && IsLiveClaimOf(a, y)
    ensures x == y
  {
    var i :| 0 <= i < |a.allocations| && a.allocations[i] == x;
    var j :| 0 <= j < |a.allocations| && a.allocations[j] == y;
  }

  /** Would taking the claim from this commit leave another live claim standing? */
  ghost predicate TakesALink(a: Attribution, from: Origin)
    requires Movable(a, from)
  {
    && from.Some?
    && a.allocations[FindLiveOn(a.allocations, from.value)].policy == UnallocatedLink
    && HasLiveClaim(a)
  }

  /**
   The write guard accepts a claim or transfer unless the transfer would retire a live link
   while a first claim stays live beside it: that is the only way it can fire.
   */
  lemma MoveWritableIff(a: Attribution, input: ClaimInput, from: Origin, now: Time)
    requires Writable(a) && Movable(a, from)
    ensures Writable(Moved(a, input, from, now)) <==> !TakesALink(a, from)
  {
    var next, n := Moved(a, input, from, now), |a.allocations|;
    assert |next.allocations| == n + 1 && LiveClaim(next.allocations[n]);
    if from.None? {
      assert forall j :: 0 <= j < n ==> next.allocations[j] == a.allocations[j] && a.allocations[j] in a.allocations;
    } else if TakesALink(a, from) {
      LinkTakenTwoLive(a, input, from, now);
    } else {
      ClaimTakenOneLive(a, input, from, now);
    }
  }

  lemma LinkTakenTwoLive(a: Attribution, input: ClaimInput, from: Origin, now: Time)
    requires Movable(a, from) && TakesALink(a, from)
    ensures !AtMostOneLive(Moved(a, input, from, now).allocations)
  {
    var next, n := Moved(a, input, from, now), |a.allocations|;
    var x :| x in a.allocations && LiveClaim(x);
    var k :| 0 <= k < n && a.allocations[k] == x;
    assert LiveClaim(next.allocations[k]) && LiveClaim(next.allocations[n]);
  }

  lemma ClaimTakenOneLive(a: Attribution, input: ClaimInput, from: Origin, now: Time)
    requires Writable(a) && Movable(a, from) && from.Some? && !TakesALink(a, from)
    ensures Writable(Moved(a, input, from, now))
  {
    var next, n, i := Moved(a, input, from, now), |a.allocations|, FindLiveOn(a.allocations, from.value);
    forall j | 0 <= j < n ensures !LiveClaim(next.allocations[j]) && next.allocations[j].queryId == a.queryId {
      assert a.allocations[j] in a.allocations;
      if j != i && LiveClaim(a.allocations[i]) { LiveClaimAlone(a, i, j); }
    }
  }

  lemma LiveClaimAlone(a: Attribution, i: nat, j: nat)
    requires AtMostOneLive(a.allocations)
    requires i < |a.allocations| && j < |a.allocations| && i != j && LiveClaim(a.allocations[i])
    ensures !LiveClaim(a.allocations[j])
  {
    var lo, hi := if i < j then i else j, if i < j then j else i;
    assert !(LiveClaim(a.allocations[lo]) && LiveClaim(a.allocations[hi]));
  }

  // ---- whole claims and transfers ---------------------------------------------------------------

  lemma MoveOneResult(m: MoveState, input: ClaimInput, from: Origin, q: Id, now: Time)
    requires !m.failed && Inv(m.records) && NoLiveLinks(m.records)
    ensures
      var r := MoveOne(m, input, from, q, now);
      && !r.failed && Inv(r.records) && NoLiveLinks(r.records)
      && (forall k :: Get(r.records, k) ==
            if k == q && Movable(Get(m.records, q), from) then Moved(Get(m.records, q), input, from, now)
            else Get(m.records, k))
  {
    var a := Get(m.records, q);
    if Movable(a, from) {
      MoveWritableIff(a, input, from, now);
      var next := Moved(a, input, from, now);
      var r := Put(m.records, next);
      PutGet(m.records, next, q);
      forall b, x | b in r && x in b.allocations && LiveStatus(x) ensures x.policy == FirstClaim {
        if b == next && x !in a.allocations {}
      }
      forall k ensures Get(r, k) == if k == q then next else Get(m.records, k) { PutGet(m.records, next, k); }
    }
  }

  /** After a move the query is no longer open to a second move with the same origin. */
  lemma MovedOnce(a: Attribution, input: ClaimInput, from: Origin, now: Time)
    requires Writable(a) && Movable(a, from) && !TakesALink(a, from)
    requires forall x :: x in a.allocations && LiveStatus(x) ==> x.policy == FirstClaim
    requires from != Some(input.candidate.commitHash)
    ensures !Movable(Moved(a, input, from, now), from)
  {
    var next := Moved(a, input, from, now);
    var n := |a.allocations|;
    if from.None? {
      assert next.allocations[n] in next.allocations && LiveClaim(next.allocations[n]);
    } else {
      var i := FindLiveOn(a.allocations, from.value);
      forall j | 0 <= j < n && j != i ensures !LiveStatus(next.allocations[j]) {
        assert next.allocations[j] == a.allocations[j] && a.allocations[j] in a.allocations;
        LiveClaimAlone(a, i, j);
      }
    }
  }

  /** The records after the claimed ids, and only they, have moved. */
  ghost predicate ExactlyMoved(s: Records, r: Records, claimed: seq<Id>, input: ClaimInput, from: Origin, now: Time) {
    forall q :: (q in claimed ==> Movable(Get(s, q), from))
             && Get(r, q) == if q in claimed then Moved(Get(s, q), input, from, now) else Get(s, q)
  }

  ghost predicate Sound(m: MoveState) {
    !m.failed && Inv(m.records) && NoLiveLinks(m.records)
  }

  lemma MoveOneExact(s: Records, m: MoveState, input: ClaimInput, from: Origin, q: Id, now: Time)
    requires Inv(s) && NoLiveLinks(s) && Sound(m)
    requires from != Some(input.candidate.commitHash)
    requires ExactlyMoved(s, m.records, m.claimed, input, from, now)
    ensures
      var r := MoveOne(m, input, from, q, now);
      && Sound(r)
      && ExactlyMoved(s, r.records, r.claimed, input, from, now)
      && (if q !in m.claimed && Movable(Get(s, q), from)
          then r.claimed == m.claimed + [q] && r.skipped == m.skipped
          else r.claimed == m.claimed && r.skipped == m.skipped + [q])
  {
    MoveOneResult(m, input, from, q, now);
    var a := Get(s, q);
    if q in m.claimed {
      LinkFree(s, a, from);
      MovedOnce(a, input, from, now);
    }
  }

  lemma LinkFree(s: Records, a: Attribution, from: Origin)
    requires Inv(s) && NoLiveLinks(s) && a == Get(s, a.queryId)
    ensures Writable(a)
    ensures forall x :: x in a.allocations && LiveStatus(x) ==> x.policy == FirstClaim
    ensures Movable(a, from) ==> !TakesALink(a, from)
  {
  }

  /** Every input id is reported, as claimed or as skipped; claimed are the ids open at the start, each once. */
  ghost predicate Accounted(s: Records, m: MoveState, from: Origin, ids: seq<Id>) {
    && multiset(m.claimed) + multiset(m.skipped) == multiset(ids)
    && NoDup(m.claimed)
    && (forall q :: q in m.claimed <==> q in ids && Movable(Get(s, q), from))
  }

  lemma AccountedOne(s: Records, m: MoveState, r: MoveState, from: Origin, ids: seq<Id>, q: Id)
    requires Accounted(s, m, from, ids)
    requires
      if q !in m.claimed && Movable(Get(s, q), from)
      then r.claimed == m.claimed + [q] && r.skipped == m.skipped
      else r.claimed == m.claimed && r.skipped == m.skipped + [q]
    ensures Accounted(s, r, from, ids + [q])
  {
    forall k ensures k in r.claimed <==> k in ids + [q] && Movable(Get(s, k), from) {}
  }

  /**
   A claim or transfer over any list of ids never trips the write guard, keeps every stored
   record sound, touches exactly the ids that were open to it, each once, and reports every
   input id as either claimed or skipped.
   */
  lemma {:induction false} MoveAllResult(s: Records, input: ClaimInput, from: Origin, ids: seq<Id>, now: Time)
    requires Inv(s) && NoLiveLinks(s)
    requires from != Some(input.candidate.commitHash)
    ensures
      var r := MoveAll(s, input, from, ids, now);
      && Sound(r)
      && ExactlyMoved(s, r.records, r.claimed, input, from, now)
      && Accounted(s, r, from, ids)
  {
    if ids != [] {
      var n := |ids| - 1;
      assert ids == ids[..n] + [ids[n]];
      MoveAllResult(s, input, from, ids[..n], now);
      var m := MoveAll(s, input, from, ids[..n], now);
      MoveOneExact(s, m, input, from, ids[n], now);
      AccountedOne(s, m, MoveAll(s, input, from, ids, now), from, ids[..n], ids[n]);
    }
  }

  // ---- when a move fails, whatever ids it lists ---------------------------------------------------

  predicate LiveLinkOn(x: Allocation, commit: Id) {
    LiveStatus(x) && x.policy == UnallocatedLink && x.commitHash == commit
  }

  ghost predicate HasLiveLinkOn(a: Attribution, commit: Id) {
    exists x :: x in a.allocations && LiveLinkOn(x, commit)
  }

  /** After a first move a live link on the same commit is still there to be taken. */
  ghost predicate LeavesALink(a: Attribution, from: Origin)
    requires Movable(a, from)
  {
    && from.Some?
    && exists j :: 0 <= j < |a.allocations| && j != FindLiveOn(a.allocations, from.value)
                   && LiveLinkOn(a.allocations[j], from.value)
  }

  /** The record of a query that has moved: its last allocation is its one live claim. */
  ghost predicate Shifted(was: Attribution, a: Attribution, from: Origin)
    requires Movable(was, from)
  {
    && Writable(a) && a.allocations != [] && LiveClaim(a.allocations[|a.allocations| - 1])
    && (from.Some? ==> (HasLiveLinkOn(a, from.value) <==> LeavesALink(was, from)))
  }

  lemma LinksAfterMove(a: Attribution, input: ClaimInput, from: Origin, now: Time)
    requires Movable(a, from) && from.Some?
    ensures HasLiveLinkOn(Moved(a, input, from, now), from.value) <==> LeavesALink(a, from)
  {
    var b, n, i := Moved(a, input, from, now), |a.allocations|, FindLiveOn(a.allocations, from.value);
    if LeavesALink(a, from) {
      var j :| 0 <= j < n && j != i && LiveLinkOn(a.allocations[j], from.value);
      assert b.allocations[j] == a.allocations[j] && b.allocations[j] in b.allocations;
    }
    if HasLiveLinkOn(b, from.value) {
      var x :| x in b.allocations && LiveLinkOn(x, from.value);
      var j :| 0 <= j <= n && b.allocations[j] == x;
      assert j != i && j != n && a.allocations[j] == x;
    }
  }

  lemma FirstMoveShifts(a: Attribution, input: ClaimInput, from: Origin, now: Time)
    requires Writable(a) && Movable(a, from) && !TakesALink(a, from)
    ensures Shifted(a, Moved(a, input, from, now), from)
  {
    MoveWritableIff(a, input, from, now);
    if from.Some? { LinksAfterMove(a, input, from, now); }
  }

  /** A moved query can fail to move again only by the link left behind, and then it does. */
  lemma ShiftedFails(was: Attribution, a: Attribution, from: Origin)
    requires Movable(was, from) && Shifted(was, a, from)
    ensures Movable(a, from) && TakesALink(a, from) <==> LeavesALink(was, from)
  {
    var last := a.allocations[|a.allocations| - 1];
    assert last in a.allocations;
    if LeavesALink(was, from) {
      var x :| x in a.allocations && LiveLinkOn(x, from.value);
      var j :| 0 <= j < |a.allocations| && a.allocations[j] == x;
      var i := FindLiveOn(a.allocations, from.value);
      assert i <= j < |a.allocations| - 1;
      LiveClaimAlone(a, |a.allocations| - 1, i);
    } else if from.Some? && Movable(a, from) {
      var x := a.allocations[FindLiveOn(a.allocations, from.value)];
      assert x in a.allocations && !LiveLinkOn(x, from.value);
    }
  }

  /**
   The store sorts a record's allocations.  In whatever order they come back after a first move to another
   commit, a second move fails exactly when the first left a link behind.
   */
  lemma OrderDoesNotMatter(a: Attribution, b: Attribution, input: ClaimInput, from: Origin, now: Time)
    requires Writable(a) && Movable(a, from) && !TakesALink(a, from)
    requires from.Some? && from != Some(input.candidate.commitHash)
    requires multiset(b.allocations) == multiset(Moved(a, input, from, now).allocations)
    ensures Movable(b, from) && TakesALink(b, from) <==> LeavesALink(a, from)
    ensures Movable(b, from) <==> LeavesALink(a, from)
  {
    var next, n := Moved(a, input, from, now), |a.allocations|;
    SameMembers(b.allocations, next.allocations);
    assert next.allocations[n] in b.allocations;
    LinksAfterMove(a, input, from, now);
    forall x | x in b.allocations && x.commitHash == from.value && LiveStatus(x) ensures LiveLinkOn(x, from.value) {
      OnlyLinksLeft(a, input, from, now, x);
    }
    if LeavesALink(a, from) {
      var x :| x in next.allocations && LiveLinkOn(x, from.value);
      var j :| 0 <= j < |b.allocations| && b.allocations[j] == x;
    }
    if Movable(b, from) { assert b.allocations[FindLiveOn(b.allocations, from.value)] in b.allocations; }
  }

  lemma SameMembers<T>(s: seq<T>, t: seq<T>)
    requires multiset(s) == multiset(t)
    ensures forall x :: x in s <==> x in t
  {
    forall x ensures x in s <==> x in t {
      assert x in s <==> x in multiset(s);
      assert x in t <==> x in multiset(t);
    }
  }

  /** What is still live on the commit a claim was taken from is a link. */
  lemma OnlyLinksLeft(a: Attribution, input: ClaimInput, from: Origin, now: Time, x: Allocation)
    requires Writable(a) && Movable(a, from) && !TakesALink(a, from)
    requires from.Some? && from != Some(input.candidate.commitHash)
    requires x in Moved(a, input, from, now).allocations && x.commitHash == from.value && LiveStatus(x)
    ensures LiveLinkOn(x, from.value)
  {
    var i := FindLiveOn(a.allocations, from.value);
    var j :| 0 <= j <= |a.allocations| && Moved(a, input, from, now).allocations[j] == x;
    assert j != i && j < |a.allocations| && a.allocations[j] == x && x in a.allocations;
    if LiveClaim(a.allocations[i]) { LiveClaimAlone(a, i, j); }
  }

  lemma ShiftsAgain(was: Attribution, a: Attribution, input: ClaimInput, from: Origin, now: Time)
    requires Movable(was, from) && Shifted(was, a, from) && Movable(a, from) && !TakesALink(a, from)
    ensures Shifted(was, Moved(a, input, from, now), from)
  {
    ShiftedFails(was, a, from);
    MoveWritableIff(a, input, from, now);
    assert a.allocations[|a.allocations| - 1] in a.allocations;
    if from.Some? {
      LinksAfterMove(a, input, from, now);
      forall j | 0 <= j < |a.allocations| ensures !LiveLinkOn(a.allocations[j], from.value) {
        assert a.allocations[j] in a.allocations;
      }
    }
  }

  /** What a query's record has become once some ids were processed without failing. */
  ghost predicate Reached(was: Attribution, a: Attribution, from: Origin, listed: bool) {
    if listed && Movable(was, from) then Shifted(was, a, from) else a == was
  }

  ghost predicate AllReached(s: Records, m: MoveState, from: Origin, ids: seq<Id>) {
    && !m.failed && Inv(m.records)
    && forall q :: Reached(Get(s, q), Get(m.records, q), from, q in ids)
  }

  /** Moving the query once more would fail. */
  ghost predicate FailsNext(was: Attribution, from: Origin, listed: bool) {
    Movable(was, from) && if listed then LeavesALink(was, from) else TakesALink(was, from)
  }

  lemma OneMoreReached(s: Records, m: MoveState, input: ClaimInput, from: Origin, ids: seq<Id>, q: Id, now: Time)
    requires Inv(s) && AllReached(s, m, from, ids)
    ensures MoveOne(m, input, from, q, now).failed <==> FailsNext(Get(s, q), from, q in ids)
    ensures !MoveOne(m, input, from, q, now).failed ==> AllReached(s, MoveOne(m, input, from, q, now), from, ids + [q])
  {
    var a := Get(m.records, q);
    TurnOf(Get(s, q), a, input, from, q in ids, now);
    if Movable(a, from) && !TakesALink(a, from) {
      var next := Moved(a, input, from, now);
      forall k ensures UniqueIds(Put(m.records, next)) && Reached(Get(s, k), Get(Put(m.records, next), k), from, k in ids + [q]) {
        PutGet(m.records, next, k);
        assert Reached(Get(s, k), Get(m.records, k), from, k in ids);
      }
    } else if !Movable(a, from) {
      forall k ensures Reached(Get(s, k), Get(m.records, k), from, k in ids + [q]) {
        assert Reached(Get(s, k), Get(m.records, k), from, k in ids);
      }
    }
  }

  /** One turn of one query. */
  lemma TurnOf(was: Attribution, a: Attribution, input: ClaimInput, from: Origin, listed: bool, now: Time)
    requires Writable(a) && Reached(was, a, from, listed)
    ensures Movable(a, from) ==> (Writable(Moved(a, input, from, now)) <==> !TakesALink(a, from))
    ensures Movable(a, from) && TakesALink(a, from) <==> FailsNext(was, from, listed)
    ensures Movable(a, from) && !TakesALink(a, from) ==> Reached(was, Moved(a, input, from, now), from, true)
  {
    if listed && Movable(was, from) { ShiftedFails(was, a, from); }
    if Movable(a, from) {
      MoveWritableIff(a, input, from, now);
      if !TakesALink(a, from) {
        if listed && Movable(was, from) {
          ShiftsAgain(was, a, input, from, now);
        } else {
          FirstMoveShifts(a, input, from, now);
        }
      }
    }
  }

  /** The query's first turn would take a live link, or a later turn the one left behind at the first. */
  ghost predicate SomeTurnFails(s: Records, from: Origin, ids: seq<Id>, q: Id) {
    && q in ids && Movable(Get(s, q), from)
    && (TakesALink(Get(s, q), from) || (multiset(ids)[q] >= 2 && LeavesALink(Get(s, q), from)))
  }

  lemma OneMoreTurn(s: Records, from: Origin, ids: seq<Id>, q: Id, k: Id)
    ensures SomeTurnFails(s, from, ids + [q], k) <==>
            SomeTurnFails(s, from, ids, k) || (k == q && FailsNext(Get(s, q), from, q in ids))
  {
    assert multiset(ids + [q])[k] == multiset(ids)[k] + if k == q then 1 else 0;
    assert k in ids <==> multiset(ids)[k] >= 1;
  }

  /**
   For any list of ids, with repetitions, a move fails exactly when a query's first turn would take a
   live link from beside its live claim, or a repeated query left a live link behind at its first.
   Otherwise it ends sound, and touches only listed queries that were open to it.
   */
  lemma {:induction false} MoveFailsIff(s: Records, input: ClaimInput, from: Origin, ids: seq<Id>, now: Time)
    requires Inv(s)
    ensures MoveAll(s, input, from, ids, now).failed <==> exists q :: SomeTurnFails(s, from, ids, q)
    ensures !MoveAll(s, input, from, ids, now).failed ==> AllReached(s, MoveAll(s, input, from, ids, now), from, ids)
  {
    if ids != [] {
      var n := |ids| - 1;
      assert ids == ids[..n] + [ids[n]];
      MoveFailsIff(s, input, from, ids[..n], now);
      forall q ensures SomeTurnFails(s, from, ids, q) <==>
        SomeTurnFails(s, from, ids[..n], q) || (q == ids[n] && FailsNext(Get(s, q), from, q in ids[..n]))
      {
        OneMoreTurn(s, from, ids[..n], ids[n], q);
      }
      var m := MoveAll(s, input, from, ids[..n], now);
      if !m.failed { OneMoreReached(s, m, input, from, ids[..n], ids[n], now); }
    }
  }
}
