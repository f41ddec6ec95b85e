/**
 What commits are charged: cost synchronisation (src/attribution/gitAttribution.ts) and the
 per-commit summaries (src/storage/commitAttributionLedger.ts).
 */
module CommitCosts {
  import opened Prelude
  import opened Types
  import opened Grouping
  import opened CommitAttributionLedger
  import opened LedgerTransitions

  // ---- cost synchronisation -------------------------------------------------------------------

  predicate FollowsQueryCost(x: Allocation) {
    LiveClaim(x) && x.decision == Some(Reportable)
  }

  function Recosted(x: Allocation, cost: Option<int>): Allocation {
    if FollowsQueryCost(x) then x.(allocatedNanoUsd := cost) else x
  }

  function MergeCost(a: Attribution, provider: Option<Id>, cost: Option<int>): Attribution {
    a.(provider := provider,
       estimatedNanoUsd := cost,
       allocations := seq(|a.allocations|, i requires 0 <= i < |a.allocations| => Recosted(a.allocations[i], cost)))
  }

  /** `mergePersistedQueryCost`: rewrites the record's cost and that of its reportable claims in place. */
  method MergePersistedQueryCost(a: Attribution, provider: Option<Id>, cost: Option<int>) returns (b: Attribution)
    ensures b == MergeCost(a, provider, cost)
  {
    var xs := a.allocations;
    for i := 0 to |xs|
      invariant |xs| == |a.allocations|
      invariant forall j :: 0 <= j < i ==> xs[j] == Recosted(a.allocations[j], cost)
      invariant forall j :: i <= j < |xs| ==> xs[j] == a.allocations[j]
    {
      if FollowsQueryCost(xs[i]) {
        xs := xs[i := xs[i].(allocatedNanoUsd := cost)];
      }
    }
    b := a.(provider := provider, estimatedNanoUsd := cost, allocations := xs);
    assert xs == MergeCost(a, provider, cost).allocations;
  }

  /** A live claim that keeps its own amount stays within the new cost. */
  predicate StaysCovered(x: Allocation, cost: Option<int>) {
    LiveClaim(x) && x.decision != Some(Reportable) && x.allocatedNanoUsd.Some? ==>
      cost.Some? && x.allocatedNanoUsd.value <= cost.value
  }

  /**
   After a cost change the record can be stored exactly when every live claim that does not
   follow the query cost (a rewrite-pending one) is still covered by the new cost.
   */
  lemma CostSyncWritableIff(a: Attribution, provider: Option<Id>, cost: Option<int>)
    requires Writable(a)
    ensures Writable(MergeCost(a, provider, cost)) <==> forall x :: x in a.allocations ==> StaysCovered(x, cost)
  {
    var b := MergeCost(a, provider, cost);
    if Writable(b) {
      forall x | x in a.allocations ensures StaysCovered(x, cost) {
        var i :| 0 <= i < |a.allocations| && a.allocations[i] == x;
        assert b.allocations[i] in b.allocations;
      }
    }
    if forall x :: x in a.allocations ==> StaysCovered(x, cost) {
      CostSyncStorable(a, provider, cost);
    }
  }

  lemma CostSyncStorable(a: Attribution, provider: Option<Id>, cost: Option<int>)
    requires Writable(a) && forall x :: x in a.allocations ==> StaysCovered(x, cost)
    ensures Writable(MergeCost(a, provider, cost))
  {
    var b := MergeCost(a, provider, cost);
    forall y | y in b.allocations
      ensures y.queryId == b.queryId && (LiveClaim(y) ==> CostCovered(b, y) && ProofCarried(y))
    {
      var i :| 0 <= i < |b.allocations| && b.allocations[i] == y;
      assert a.allocations[i] in a.allocations && y == Recosted(a.allocations[i], cost);
      assert StaysCovered(a.allocations[i], cost);
    }
    forall i, j | 0 <= i < j < |b.allocations|
      ensures !(LiveClaim(b.allocations[i]) && LiveClaim(b.allocations[j]))
    {
      assert !(LiveClaim(a.allocations[i]) && LiveClaim(a.allocations[j]));
    }
  }

  /** The one live claim a claim or transfer leaves charges the query's whole cost to the observed commit. */
  lemma MoveChargesQueryCost(a: Attribution, input: ClaimInput, from: Origin, now: Time, y: Allocation)
    requires Movable(a, from) && Writable(Moved(a, input, from, now)) && IsLiveClaimOf(Moved(a, input, from, now), y)
    ensures y.allocatedNanoUsd == a.estimatedNanoUsd && FollowsQueryCost(y)
    ensures y.commitHash == input.candidate.commitHash && y.epochId == Some(input.candidate.epochId)
    ensures y.proof.Some? && forall p :: p in y.proof.value.matchedPairs ==> p in input.proof.matchedPairs
  {
    var b := Moved(a, input, from, now);
    var claim := b.allocations[|a.allocations|];
    assert IsLiveClaimOf(b, claim);
    LiveClaimUnique(b, y, claim);
  }

  /** Cost synchronisation leaves every reportable live claim charging exactly the query's cost. */
  lemma CostSyncEqualises(a: Attribution, provider: Option<Id>, cost: Option<int>, y: Allocation)
    requires y in MergeCost(a, provider, cost).allocations && FollowsQueryCost(y)
    ensures y.allocatedNanoUsd == cost == MergeCost(a, provider, cost).estimatedNanoUsd
  {
    var i :| 0 <= i < |a.allocations| && y == Recosted(a.allocations[i], cost);
  }

  /**
   Once a charged claim waits for a rewrite, a falling or vanishing query cost cannot be stored:
   marking takes the claim out of cost synchronisation while the guard still compares it.
   */
  lemma RewriteMarkBlocksCostFall(a: Attribution, x: Allocation, repo: Id, commits: set<Id>, at: Time, provider: Option<Id>, cost: Option<int>)
    requires Writable(a) && x in a.allocations && LiveClaim(x) && Marks(x, repo, commits)
    requires x.allocatedNanoUsd.Some?
    ensures
      var marked := SweepRecord(MarkRewrite(repo, commits, at), a);
      Writable(MergeCost(marked, provider, cost)) <==> cost.Some? && x.allocatedNanoUsd.value <= cost.value
  {
    var w := MarkRewrite(repo, commits, at);
    var marked := SweepRecord(w, a);
    forall j | 0 <= j < |a.allocations| ensures Weakens(a.allocations[j], marked.allocations[j]) {}
    WeakenedWritable(a, marked);
    CostSyncWritableIff(marked, provider, cost);
    var i :| 0 <= i < |a.allocations| && a.allocations[i] == x;
    var y := marked.allocations[i];
    assert y in marked.allocations && LiveClaim(y) && y.decision == Some(RewritePendingDecision);
    forall z | z in marked.allocations ensures LiveClaim(z) ==> z == y {
      if LiveClaim(z) { LiveClaimUnique(marked, y, z); }
    }
  }

  // ---- commit summaries -------------------------------------------------------------------------

  datatype Item = Item(a: Attribution, x: Allocation)

  predicate Surfaced(x: Allocation) {
    && x.policy == FirstClaim
    && (x.decision == Some(Reportable) || x.decision == Some(SupersededDecision))
    && x.epochId.Some? && x.proof.Some?
    && (x.status == Active || x.status == Superseded)
  }

  function ItemsOf(a: Attribution, xs: seq<Allocation>): seq<Item> {
    if xs == [] then []
    else ItemsOf(a, xs[..|xs| - 1]) + if Surfaced(xs[|xs| - 1]) then [Item(a, xs[|xs| - 1])] else []
  }

  function SurfacedItems(s: Records): seq<Item> {
    if s == [] then [] else SurfacedItems(s[..|s| - 1]) + ItemsOf(s[|s| - 1], s[|s| - 1].allocations)
  }

  function CommitKey(i: Item): (Id, Id) {
    (i.x.repoKey, i.x.commitHash)
  }

  function ProviderKey(i: Item): Option<Id> {
    i.a.provider
  }

  /** Only an active claim charges its commit. */
  function Charged(i: Item): Option<int> {
    if i.x.status == Active then i.x.allocatedNanoUsd else None
  }

  datatype ProviderCost = ProviderCost(provider: Option<Id>, allocatedNanoUsd: Option<int>)

  datatype CommitSummary = CommitSummary(
    repoKey: Id, commitHash: Id, allocatedNanoUsd: Option<int>, providerCosts: seq<ProviderCost>)

  function ActiveItems(items: seq<Item>): seq<Item> {
    if items == [] then []
    else ActiveItems(items[..|items| - 1])
         + if items[|items| - 1].x.status == Active then [items[|items| - 1]] else []
  }

  function ProviderRows(gs: seq<Group<Option<Id>, Item>>): seq<ProviderCost> {
    seq(|gs|, i requires 0 <= i < |gs| => ProviderCost(gs[i].key, Total(Charged, gs[i].items)))
  }

  function SummaryOf(g: Group<(Id, Id), Item>): CommitSummary {
    CommitSummary(g.key.0, g.key.1, Total(Charged, g.items), ProviderRows(GroupBy(ProviderKey, ActiveItems(g.items))))
  }

  function SummarizeCommits(s: Records): seq<CommitSummary> {
    var gs := GroupBy(CommitKey, SurfacedItems(s));
    seq(|gs|, i requires 0 <= i < |gs| => SummaryOf(gs[i]))
  }

  // ---- conservation --------------------------------------------------------------------------------

  function SummaryTotal(rows: seq<CommitSummary>): Option<int> {
    if rows == [] then None else AddOptional(SummaryTotal(rows[..|rows| - 1]), rows[|rows| - 1].allocatedNanoUsd)
  }

  function ProviderTotal(rows: seq<ProviderCost>): Option<int> {
    if rows == [] then None else AddOptional(ProviderTotal(rows[..|rows| - 1]), rows[|rows| - 1].allocatedNanoUsd)
  }

  /** What the active, surfaced claims of one record charge. */
  function ClaimCost(xs: seq<Allocation>): Option<int> {
    if xs == [] then None
    else AddOptional(ClaimCost(xs[..|xs| - 1]),
                     if Surfaced(xs[|xs| - 1]) && xs[|xs| - 1].status == Active then xs[|xs| - 1].allocatedNanoUsd else None)
  }

  function ClaimedTotal(s: Records): Option<int> {
    if s == [] then None else AddOptional(ClaimedTotal(s[..|s| - 1]), ClaimCost(s[|s| - 1].allocations))
  }

  function QueryTotal(s: Records): int {
    if s == [] then 0 else QueryTotal(s[..|s| - 1]) + OrZero(s[|s| - 1].estimatedNanoUsd)
  }

  lemma {:induction false} TotalConcat<T>(f: T -> Option<int>, s: seq<T>, t: seq<T>)
    ensures Total(f, s + t) == AddOptional(Total(f, s), Total(f, t))
  {
    if t == [] {
      assert s + t == s;
    } else {
      var n := |t| - 1;
      TotalConcat(f, s, t[..n]);
      assert (s + t)[..|s| + n] == s + t[..n];
    }
  }

  lemma {:induction false} ItemsCost(a: Attribution, xs: seq<Allocation>)
    ensures Total(Charged, ItemsOf(a, xs)) == ClaimCost(xs)
  {
    if xs != [] {
      var n := |xs| - 1;
      ItemsCost(a, xs[..n]);
      var last := Item(a, xs[n]);
      if Surfaced(xs[n]) {
        TotalConcat(Charged, ItemsOf(a, xs[..n]), [last]);
        assert Total(Charged, [last]) == Charged(last) by { assert [last][..0] == []; }
      } else {
        assert ItemsOf(a, xs) == ItemsOf(a, xs[..n]);
      }
    }
  }

  lemma {:induction false} SurfacedCost(s: Records)
    ensures Total(Charged, SurfacedItems(s)) == ClaimedTotal(s)
  {
    if s != [] {
      var n := |s| - 1;
      SurfacedCost(s[..n]);
      ItemsCost(s[n], s[n].allocations);
      TotalConcat(Charged, SurfacedItems(s[..n]), ItemsOf(s[n], s[n].allocations));
    }
  }

  lemma {:induction false} ActiveCost(items: seq<Item>)
    ensures Total(Charged, ActiveItems(items)) == Total(Charged, items)
  {
    if items != [] {
      var n := |items| - 1;
      ActiveCost(items[..n]);
      if items[n].x.status == Active {
        TotalConcat(Charged, ActiveItems(items[..n]), [items[n]]);
        assert Total(Charged, [items[n]]) == Charged(items[n]) by { assert [items[n]][..0] == []; }
      } else {
        assert ActiveItems(items) == ActiveItems(items[..n]);
      }
    }
  }

  lemma {:induction false} RowsTotal(gs: seq<Group<Option<Id>, Item>>)
    ensures ProviderTotal(ProviderRows(gs)) == GrandTotal(Charged, gs)
  {
    if gs != [] {
      RowsTotal(gs[..|gs| - 1]);
      assert ProviderRows(gs)[..|gs| - 1] == ProviderRows(gs[..|gs| - 1]);
    }
  }

  /** The provider rows of a commit add up to exactly what the commit is charged. */
  lemma ProviderRowsConserve(g: Group<(Id, Id), Item>)
    ensures ProviderTotal(SummaryOf(g).providerCosts) == SummaryOf(g).allocatedNanoUsd
  {
    RowsTotal(GroupBy(ProviderKey, ActiveItems(g.items)));
    GroupingConserves(Charged, ProviderKey, ActiveItems(g.items));
    ActiveCost(g.items);
  }

  lemma {:induction false} SummariesTotal(gs: seq<Group<(Id, Id), Item>>)
    ensures SummaryTotal(seq(|gs|, i requires 0 <= i < |gs| => SummaryOf(gs[i]))) == GrandTotal(Charged, gs)
  {
    var rows := seq(|gs|, i requires 0 <= i < |gs| => SummaryOf(gs[i]));
    if gs != [] {
      var n := |gs| - 1;
      SummariesTotal(gs[..n]);
      assert rows[..n] == seq(|gs[..n]|, i requires 0 <= i < |gs[..n]| => SummaryOf(gs[..n][i]));
    }
  }

  /** Commit summaries add up to exactly the cost of the active claims: nothing lost, nothing counted twice. */
  lemma SummariesConserve(s: Records)
    ensures SummaryTotal(SummarizeCommits(s)) == ClaimedTotal(s)
  {
    SummariesTotal(GroupBy(CommitKey, SurfacedItems(s)));
    GroupingConserves(Charged, CommitKey, SurfacedItems(s));
    SurfacedCost(s);
  }

  lemma {:induction false} ClaimCostBounded(a: Attribution, xs: seq<Allocation>)
    requires xs <= a.allocations && Writable(a) && OrZero(a.estimatedNanoUsd) >= 0
    ensures OrZero(ClaimCost(xs)) <= OrZero(a.estimatedNanoUsd)
  {
    if xs != [] {
      var n := |xs| - 1;
      ClaimCostBounded(a, xs[..n]);
      if Surfaced(xs[n]) && xs[n].status == Active {
        assert xs[n] == a.allocations[n] && a.allocations[n] in a.allocations;
        forall j | 0 <= j < n ensures !LiveClaim(xs[j]) {
          assert xs[j] == a.allocations[j];
          LiveClaimAlone(a, n, j);
        }
        NoLiveNoCost(xs[..n]);
      }
    }
  }

  lemma {:induction false} NoLiveNoCost(xs: seq<Allocation>)
    requires forall j :: 0 <= j < |xs| ==> !LiveClaim(xs[j])
    ensures OrZero(ClaimCost(xs)) == 0
  {
    if xs != [] { NoLiveNoCost(xs[..|xs| - 1]); }
  }

  /** The charged total never exceeds the total cost of the queries. */
  lemma {:induction false} ChargedWithinQueryCost(s: Records)
    requires AllWritable(s) && forall a :: a in s ==> OrZero(a.estimatedNanoUsd) >= 0
    ensures OrZero(SummaryTotal(SummarizeCommits(s))) <= QueryTotal(s)
  {
    SummariesConserve(s);
    ClaimedWithinQueryCost(s);
  }

  lemma {:induction false} ClaimedWithinQueryCost(s: Records)
    requires AllWritable(s) && forall a :: a in s ==> OrZero(a.estimatedNanoUsd) >= 0
    ensures OrZero(ClaimedTotal(s)) <= QueryTotal(s)
  {
    if s != [] {
      var n := |s| - 1;
      assert s == s[..n] + [s[n]];
      ClaimedWithinQueryCost(s[..n]);
      ClaimCostBounded(s[n], s[n].allocations);
    }
  }
}
