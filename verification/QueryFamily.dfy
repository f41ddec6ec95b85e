/**
 Which queries belong to one billed run (packages/agent/src/productionUsageService.ts): the walk up to
 the root, and the two fixed-point loops that grow a family from it.
 */
module QueryFamily {
  import opened Prelude

  datatype Occurrence = Occurrence(
    queryId: Id,
    provider: Id,
    sessionId: Id,
    parentSessionId: Option<Id>,
    startedAt: Time,
    completedAt: Option<Time>,
    internal: bool)

  datatype Activity = Activity(activityId: Id, queryId: Id, childSessionId: Option<Id>)

  /** Occurrences are stored under their query id, so a listing holds each id once. */
  ghost predicate Keyed(all: seq<Occurrence>) {
    forall o, p :: o in all && p in all && o.queryId == p.queryId ==> o == p
  }

  predicate HasQuery(members: set<Occurrence>, q: Id) {
    exists m | m in members :: m.queryId == q
  }

  function MemberIds(members: set<Occurrence>): set<Id> {
    set m | m in members :: m.queryId
  }

  // ---- the closure a family must be ---------------------------------------------------------------

  /** Visible occurrences of the root's provider within its time window. */
  predicate InWindow(o: Occurrence, root: Occurrence, bound: Option<Time>) {
    && !o.internal
    && o.provider == root.provider
    && o.startedAt >= root.startedAt
    && (bound.Some? ==> o.startedAt <= bound.value)
  }

  /** The occurrence was spawned by a session of the family. */
  ghost predicate SpawnedBy(o: Occurrence, members: set<Occurrence>) {
    o.parentSessionId.Some? && exists m :: m in members && m.sessionId == o.parentSessionId.value
  }

  /** An activity of a family member opened the occurrence's session. */
  ghost predicate OpenedBy(o: Occurrence, members: set<Occurrence>, store: seq<Activity>) {
    exists a, m :: a in store && m in members && a.queryId == m.queryId && a.childSessionId == Some(o.sessionId)
  }

  ghost predicate Closed(
    members: set<Occurrence>, all: seq<Occurrence>, root: Occurrence, bound: Option<Time>, store: seq<Activity>)
  {
    forall o :: o in all && InWindow(o, root, bound) && (SpawnedBy(o, members) || OpenedBy(o, members, store))
      ==> o in members
  }

  /** The least closed set over the start: closed itself, and inside every closed set over the start. */
  ghost predicate LeastClosed(
    members: set<Occurrence>, start: set<Occurrence>, all: seq<Occurrence>, root: Occurrence, bound: Option<Time>,
    store: seq<Activity>)
  {
    && start <= members
    && Closed(members, all, root, bound, store)
    && Minimal(members, start, all, root, bound, store)
  }

  ghost predicate Minimal(
    members: set<Occurrence>, start: set<Occurrence>, all: seq<Occurrence>, root: Occurrence, bound: Option<Time>,
    store: seq<Activity>)
  {
    forall closed: set<Occurrence> :: start <= closed && Closed(closed, all, root, bound, store) ==> members <= closed
  }

  /** The result does not depend on the order in which occurrences or activities are listed. */
  lemma OrderIrrelevant(
    m1: set<Occurrence>, m2: set<Occurrence>, start: set<Occurrence>, all1: seq<Occurrence>, all2: seq<Occurrence>,
    root: Occurrence, bound: Option<Time>, store1: seq<Activity>, store2: seq<Activity>)
    requires multiset(all1) == multiset(all2) && multiset(store1) == multiset(store2)
    requires LeastClosed(m1, start, all1, root, bound, store1) && LeastClosed(m2, start, all2, root, bound, store2)
    ensures m1 == m2
  {
    forall o ensures o in all1 <==> o in all2 { assert o in multiset(all1) <==> o in multiset(all2); }
    forall a ensures a in store1 <==> a in store2 { assert a in multiset(store1) <==> a in multiset(store2); }
    SameClosure(m2, all2, all1, root, bound, store2, store1);
    SameClosure(m1, all1, all2, root, bound, store1, store2);
  }

  lemma SameClosure(
    m: set<Occurrence>, all1: seq<Occurrence>, all2: seq<Occurrence>, root: Occurrence, bound: Option<Time>,
    store1: seq<Activity>, store2: seq<Activity>)
    requires forall o :: o in all1 <==> o in all2
    requires forall a :: a in store1 <==> a in store2
    requires Closed(m, all1, root, bound, store1)
    ensures Closed(m, all2, root, bound, store2)
  {
    forall o | o in all2 && InWindow(o, root, bound) && (SpawnedBy(o, m) || OpenedBy(o, m, store2)) ensures o in m {
      if OpenedBy(o, m, store2) {
        var a, k :| a in store2 && k in m && a.queryId == k.queryId && a.childSessionId == Some(o.sessionId);
        assert a in store1;
      }
    }
  }

  /** Everything beyond the start is visible, of the same provider and inside the window. */
  lemma LeastStaysInWindow(
    members: set<Occurrence>, start: set<Occurrence>, all: seq<Occurrence>, root: Occurrence, bound: Option<Time>,
    store: seq<Activity>, o: Occurrence)
    requires LeastClosed(members, start, all, root, bound, store) && o in members
    ensures o in start || (o in all && InWindow(o, root, bound))
  {
    var closed := start + set p | p in all && InWindow(p, root, bound);
    assert Closed(closed, all, root, bound, store);
  }

  // ---- one sweep of each rule ---------------------------------------------------------------------------

  ghost function AllOf(all: seq<Occurrence>): set<Occurrence> {
    set o | o in all
  }

  ghost function SessionsOf(members: set<Occurrence>): set<Id> {
    set m | m in members :: m.sessionId
  }

  /** Grown by one justified occurrence, a set inside every closed set stays inside every closed set. */
  lemma GrowMinimal(
    members: set<Occurrence>, o: Occurrence, start: set<Occurrence>, all: seq<Occurrence>, root: Occurrence,
    bound: Option<Time>, store: seq<Activity>)
    requires Minimal(members, start, all, root, bound, store)
    requires o in all && InWindow(o, root, bound) && (SpawnedBy(o, members) || OpenedBy(o, members, store))
    ensures Minimal(members + {o}, start, all, root, bound, store)
  {
    forall closed: set<Occurrence> | start <= closed && Closed(closed, all, root, bound, store)
      ensures members + {o} <= closed
    {
      assert members <= closed;
      if SpawnedBy(o, members) { assert SpawnedBy(o, closed); }
      if OpenedBy(o, members, store) { assert OpenedBy(o, closed, store); }
    }
  }

  /** The parent-session rule, once over the listing. */
  method SpawnSweep(
    members: set<Occurrence>, sessions: set<Id>, all: seq<Occurrence>, root: Occurrence, bound: Option<Time>,
    ghost start: set<Occurrence>, ghost store: seq<Activity>)
    returns (grown: set<Occurrence>, sessionsOut: set<Id>, changed: bool)
    requires Keyed(all) && members <= AllOf(all) && sessions == SessionsOf(members)
    requires Minimal(members, start, all, root, bound, store)
    ensures members <= grown <= AllOf(all) && sessionsOut == SessionsOf(grown)
    ensures Minimal(grown, start, all, root, bound, store)
    ensures changed <==> grown != members
    ensures !changed ==> forall o :: o in all && InWindow(o, root, bound) && SpawnedBy(o, members) ==> o in members
  {
    grown, sessionsOut, changed := members, sessions, false;
    for i := 0 to |all|
      invariant members <= grown <= AllOf(all) && sessionsOut == SessionsOf(grown)
      invariant Minimal(grown, start, all, root, bound, store)
      invariant changed <==> grown != members
      invariant !changed ==>
        forall j :: 0 <= j < i && InWindow(all[j], root, bound) && SpawnedBy(all[j], members) ==> all[j] in members
    {
      var o := all[i];
      if !HasQuery(grown, o.queryId) && InWindow(o, root, bound)
         && o.parentSessionId.Some? && o.parentSessionId.value in sessionsOut
      {
        assert SpawnedBy(o, grown);
        GrowMinimal(grown, o, start, all, root, bound, store);
        grown := grown + {o};
        sessionsOut := sessionsOut + {o.sessionId};
        changed := true;
      }
    }
  }

  /** The activity rule for one opened session, once over the listing. */
  method OpenSweep(
    members: set<Occurrence>, sessions: set<Id>, a: Activity, all: seq<Occurrence>, root: Occurrence, bound: Option<Time>,
    ghost start: set<Occurrence>, ghost store: seq<Activity>)
    returns (grown: set<Occurrence>, sessionsOut: set<Id>, changed: bool)
    requires Keyed(all) && members <= AllOf(all) && sessions == SessionsOf(members)
    requires a in store && a.queryId in MemberIds(members)
    requires Minimal(members, start, all, root, bound, store)
    ensures members <= grown <= AllOf(all) && sessionsOut == SessionsOf(grown)
    ensures Minimal(grown, start, all, root, bound, store)
    ensures changed <==> grown != members
    ensures forall o :: o in all && InWindow(o, root, bound) && a.childSessionId == Some(o.sessionId) ==> o in grown
  {
    grown, sessionsOut, changed := members, sessions, false;
    for i := 0 to |all|
      invariant members <= grown <= AllOf(all) && sessionsOut == SessionsOf(grown)
      invariant Minimal(grown, start, all, root, bound, store)
      invariant changed <==> grown != members
      invariant forall j :: 0 <= j < i ==>
        (InWindow(all[j], root, bound) && a.childSessionId == Some(all[j].sessionId) ==> all[j] in grown)
    {
      var o := all[i];
      if !HasQuery(grown, o.queryId) && InWindow(o, root, bound) && a.childSessionId == Some(o.sessionId) {
        ghost var m :| m in members && m.queryId == a.queryId;
        assert OpenedBy(o, grown, store);
        GrowMinimal(grown, o, start, all, root, bound, store);
        grown := grown + {o};
        sessionsOut := sessionsOut + {o.sessionId};
        changed := true;
      }
    }
  }

  // ---- expandQueryFamily ------------------------------------------------------------------------------------

  /** All sessions opened by activities of the queries asked about so far are in. */
  ghost predicate Answered(
    members: set<Occurrence>, queried: set<Id>, all: seq<Occurrence>, root: Occurrence, bound: Option<Time>, store: seq<Activity>)
  {
    forall a, o :: a in store && a.queryId in queried && o in all ==>
      (InWindow(o, root, bound) && a.childSessionId == Some(o.sessionId) ==> o in members)
  }

  ghost function ActivitiesOf(store: seq<Activity>, ids: set<Id>): set<Activity> {
    set a | a in store && a.queryId in ids
  }

  /** Follow the activities of the newly asked queries. */
  method FollowActivities(
    members: set<Occurrence>, sessions: set<Id>, pending: set<Id>, all: seq<Occurrence>, root: Occurrence, bound: Option<Time>,
    ghost start: set<Occurrence>, store: seq<Activity>)
    returns (grown: set<Occurrence>, sessionsOut: set<Id>, seen: set<Activity>, changed: bool)
    requires Keyed(all) && members <= AllOf(all) && sessions == SessionsOf(members)
    requires pending <= MemberIds(members)
    requires Minimal(members, start, all, root, bound, store)
    ensures members <= grown <= AllOf(all) && sessionsOut == SessionsOf(grown)
    ensures Minimal(grown, start, all, root, bound, store)
    ensures changed <==> grown != members
    ensures Answered(grown, pending, all, root, bound, store)
    ensures seen == ActivitiesOf(store, pending)
  {
    grown, sessionsOut, seen, changed := members, sessions, {}, false;
    for i := 0 to |store|
      invariant members <= grown <= AllOf(all) && sessionsOut == SessionsOf(grown)
      invariant Minimal(grown, start, all, root, bound, store)
      invariant changed <==> grown != members
      invariant Answered(grown, pending, all, root, bound, store[..i])
      invariant seen == ActivitiesOf(store[..i], pending)
    {
      var a := store[i];
      assert store[..i + 1] == store[..i] + [a];
      if a.queryId in pending {
        seen := seen + {a};
        if a.childSessionId.Some? {
          ghost var m :| m in members && m.queryId == a.queryId;
          assert m in grown;
          var more;
          grown, sessionsOut, more := OpenSweep(grown, sessionsOut, a, all, root, bound, start, store);
          changed := changed || more;
        }
      }
    }
    assert store[..|store|] == store;
  }

  lemma AnsweredBoth(
    before: set<Occurrence>, after: set<Occurrence>, queried: set<Id>, pending: set<Id>, all: seq<Occurrence>,
    root: Occurrence, bound: Option<Time>, store: seq<Activity>)
    requires before <= after
    requires Answered(before, queried, all, root, bound, store) && Answered(after, pending, all, root, bound, store)
    ensures Answered(after, queried + pending, all, root, bound, store)
    ensures ActivitiesOf(store, queried + pending) == ActivitiesOf(store, queried) + ActivitiesOf(store, pending)
  {
  }

  /** Nothing is left to spawn in the listing. */
  ghost predicate SpawnClosed(members: set<Occurrence>, all: seq<Occurrence>, root: Occurrence, bound: Option<Time>) {
    forall o :: o in all && InWindow(o, root, bound) && SpawnedBy(o, members) ==> o in members
  }

  lemma ClosedAtEnd(
    members: set<Occurrence>, queried: set<Id>, all: seq<Occurrence>, root: Occurrence, bound: Option<Time>, store: seq<Activity>)
    requires SpawnClosed(members, all, root, bound)
    requires MemberIds(members) <= queried
    requires Answered(members, queried, all, root, bound, store)
    ensures Closed(members, all, root, bound, store)
  {
  }

  /**
   Grows a family until neither rule adds anything: the result is the least closed set over the
   start family, with exactly the activities of its queries, whatever the listing order.
   */
  method ExpandQueryFamily(root: Occurrence, start: set<Occurrence>, all: seq<Occurrence>, store: seq<Activity>)
    returns (members: set<Occurrence>, activities: set<Activity>)
    requires Keyed(all) && start <= AllOf(all)
    ensures LeastClosed(members, start, all, root, root.completedAt, store)
    ensures activities == ActivitiesOf(store, MemberIds(members))
  {
    var bound := root.completedAt;
    members, activities := start, {};
    var sessions := set m | m in start :: m.sessionId;
    var queried: set<Id> := {};
    var changed := true;
    while changed
      invariant start <= members <= AllOf(all) && sessions == SessionsOf(members)
      invariant Minimal(members, start, all, root, bound, store)
      invariant queried <= MemberIds(members)
      invariant Answered(members, queried, all, root, bound, store)
      invariant activities == ActivitiesOf(store, queried)
      invariant !changed ==> SpawnClosed(members, all, root, bound)
      invariant !changed ==> MemberIds(members) <= queried
      decreases |AllOf(all) - members|, changed
    {
      ghost var before := members;
      members, sessions, changed := SpawnSweep(members, sessions, all, root, bound, start, store);
      ghost var swept := members;
      var pending := MemberIds(members) - queried;
      assert MemberIds(before) <= MemberIds(members);
      if pending != {} {
        var seen, more;
        members, sessions, seen, more := FollowActivities(members, sessions, pending, all, root, bound, start, store);
        assert MemberIds(swept) <= MemberIds(members);
        AnsweredBoth(swept, members, queried, pending, all, root, bound, store);
        queried := queried + pending;
        activities := activities + seen;
        changed := changed || more;
      }
      Shrinks(AllOf(all), before, members);
    }
    ClosedAtEnd(members, queried, all, root, bound, store);
  }

  lemma Shrinks<T>(whole: set<T>, before: set<T>, after: set<T>)
    requires before <= after <= whole
    ensures |whole - after| <= |whole - before|
    ensures before != after ==> |whole - after| < |whole - before|
  {
    var extra := after - before;
    assert whole - before == (whole - after) + extra;
    assert |whole - before| == |whole - after| + |extra|;
    if before != after {
      var x :| x in extra;
    }
  }

  // ---- queryOccurrenceFamily ----------------------------------------------------------------------------------

  predicate IsParent(p: Occurrence, child: Occurrence) {
    && p.provider == child.provider
    && Some(p.sessionId) == child.parentSessionId
    && p.startedAt <= child.startedAt
  }

  /** The latest-started parent; of several equally late ones, the first listed. */
  function LatestParent(all: seq<Occurrence>, child: Occurrence): (r: Option<Occurrence>)
    ensures r.Some? ==> r.value in all && IsParent(r.value, child)
    ensures r.Some? ==> forall p :: p in all && IsParent(p, child) ==> p.startedAt <= r.value.startedAt
    ensures r.None? ==> forall p :: p in all ==> !IsParent(p, child)
  {
    if all == [] then None
    else
      var rest := LatestParent(all[1..], child);
      if IsParent(all[0], child) && (rest.None? || all[0].startedAt >= rest.value.startedAt) then Some(all[0]) else rest
  }

  /** The walk ended at this root, or met an internal occurrence. */
  datatype Walk = Root(root: Occurrence) | MetInternal

  ghost function IdsOf(all: seq<Occurrence>): set<Id> {
    set o | o in all :: o.queryId
  }

  /** The walk to the root: it stops at a missing parent and at one it has already visited. */
  ghost function WalkUp(all: seq<Occurrence>, o: Occurrence, visited: set<Id>): Walk
    decreases |IdsOf(all) - visited|
  {
    if o.parentSessionId.None? then Root(o)
    else
      var p := LatestParent(all, o);
      if p.None? then Root(o)
      else if p.value.internal then MetInternal
      else if p.value.queryId in visited then Root(o)
      else
        VisitShrinks(all, visited, p.value.queryId);
        WalkUp(all, p.value, visited + {p.value.queryId})
  }

  lemma VisitShrinks(all: seq<Occurrence>, visited: set<Id>, q: Id)
    requires q in IdsOf(all) && q !in visited
    ensures |IdsOf(all) - (visited + {q})| < |IdsOf(all) - visited|
  {
    assert IdsOf(all) - (visited + {q}) == (IdsOf(all) - visited) - {q};
  }

  function FindOccurrence(all: seq<Occurrence>, q: Id): (r: Option<Occurrence>)
    ensures r.Some? ==> r.value in all && r.value.queryId == q
    ensures r.None? ==> forall o :: o in all ==> o.queryId != q
  {
    if all == [] then None else if all[0].queryId == q then Some(all[0]) else FindOccurrence(all[1..], q)
  }

  datatype Family = Family(root: Occurrence, members: set<Occurrence>)

  function CompletionBound(root: Occurrence, target: Occurrence): Option<Time> {
    if root.completedAt.Some? then root.completedAt else target.completedAt
  }

  /** Parent sessions may form cycles: the walk and the growth still end. */
  method QueryOccurrenceFamily(all: seq<Occurrence>, q: Id) returns (r: Option<Family>)
    requires Keyed(all)
    ensures var target := FindOccurrence(all, q);
      if target.None? || target.value.internal || WalkUp(all, target.value, {q}).MetInternal? then r.None?
      else
        && r.Some?
        && WalkUp(all, target.value, {q}) == Root(r.value.root)
        && LeastClosed(r.value.members, {r.value.root}, all, r.value.root, CompletionBound(r.value.root, target.value), [])
  {
    var found := FindOccurrence(all, q);
    if found.None? || found.value.internal {
      return None;
    }
    var target := found.value;
    var root := target;
    var visited := {q};
    while root.parentSessionId.Some?
      invariant root in all && root.queryId in visited
      invariant WalkUp(all, target, {q}) == WalkUp(all, root, visited)
      decreases |IdsOf(all) - visited|
    {
      var parent := LatestParent(all, root);
      if parent.None? || parent.value.queryId in visited || parent.value.internal {
        if parent.Some? && parent.value.internal {
          return None;
        }
        break;
      }
      VisitShrinks(all, visited, parent.value.queryId);
      root := parent.value;
      visited := visited + {root.queryId};
    }
    var bound := CompletionBound(root, target);
    var members, sessions := {root}, {root.sessionId};
    var changed := true;
    while changed
      invariant {root} <= members <= AllOf(all) && sessions == SessionsOf(members)
      invariant Minimal(members, {root}, all, root, bound, [])
      invariant !changed ==> forall o :: o in all && InWindow(o, root, bound) && SpawnedBy(o, members) ==> o in members
      decreases |AllOf(all) - members|, changed
    {
      ghost var before := members;
      members, sessions, changed := SpawnSweep(members, sessions, all, root, bound, {root}, []);
      Shrinks(AllOf(all), before, members);
    }
    r := Some(Family(root, members));
  }

  /** Every step of the walk keeps the provider, goes back in time and stays visible. */
  lemma {:induction false} WalkGoesBack(all: seq<Occurrence>, o: Occurrence, visited: set<Id>)
    requires o in all && !o.internal && WalkUp(all, o, visited).Root?
    ensures var root := WalkUp(all, o, visited).root;
      root in all && !root.internal && root.provider == o.provider && root.startedAt <= o.startedAt
    decreases |IdsOf(all) - visited|
  {
    var p := LatestParent(all, o);
    if o.parentSessionId.Some? && p.Some? && !p.value.internal && p.value.queryId !in visited {
      VisitShrinks(all, visited, p.value.queryId);
      WalkGoesBack(all, p.value, visited + {p.value.queryId});
    }
  }

  /** Any closed set over the root reaches back down to where the walk began, within the bound. */
  lemma {:induction false} ClosedReachesDown(
    all: seq<Occurrence>, o: Occurrence, visited: set<Id>, members: set<Occurrence>, bound: Option<Time>)
    requires o in all && !o.internal && WalkUp(all, o, visited).Root?
    requires WalkUp(all, o, visited).root in members
    requires Closed(members, all, WalkUp(all, o, visited).root, bound, [])
    requires bound.Some? ==> o.startedAt <= bound.value
    ensures o in members
    decreases |IdsOf(all) - visited|
  {
    var p := LatestParent(all, o);
    if o.parentSessionId.Some? && p.Some? && !p.value.internal && p.value.queryId !in visited {
      VisitShrinks(all, visited, p.value.queryId);
      ClosedReachesDown(all, p.value, visited + {p.value.queryId}, members, bound);
      WalkGoesBack(all, o, visited);
      assert SpawnedBy(o, members);
    }
  }

  /**
   A family never contains an internal occurrence, and it contains the query it was asked for
   exactly when that query is the root or started no later than the completion bound.
   */
  lemma FamilyOfTarget(all: seq<Occurrence>, target: Occurrence, members: set<Occurrence>)
    requires target in all && !target.internal && WalkUp(all, target, {target.queryId}).Root?
    requires var root := WalkUp(all, target, {target.queryId}).root;
      LeastClosed(members, {root}, all, root, CompletionBound(root, target), [])
    ensures forall m :: m in members ==> !m.internal
    ensures var root := WalkUp(all, target, {target.queryId}).root;
      var bound := CompletionBound(root, target);
      target in members <==> target == root || bound.None? || target.startedAt <= bound.value
  {
    var root := WalkUp(all, target, {target.queryId}).root;
    var bound := CompletionBound(root, target);
    WalkGoesBack(all, target, {target.queryId});
    forall m | m in members ensures m == root || InWindow(m, root, bound) {
      LeastStaysInWindow(members, {root}, all, root, bound, [], m);
    }
    if bound.None? || target.startedAt <= bound.value {
      ClosedReachesDown(all, target, {target.queryId}, members, bound);
    }
  }
}
