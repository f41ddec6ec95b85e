/**
 Appending safe observations (packages/agent-storage/src/worker.ts): each observation is taken in once,
 in one transaction, and its records are merged into the stored ones by key.
 */
module SafeObservationStore {
  import opened Prelude
  import opened OccurrenceMerge

  /** A row of one of the three merged tables. */
  datatype Record =
    | OfUsage(usage: UsageAtom)
    | OfActivity(activity: ActivityAtom)
    | OfQuery(occurrence: Occurrence)

  datatype Key = UsageKey(id: Id) | ActivityKey(id: Id) | QueryKey(id: Id)

  function KeyOf(r: Record): Key {
    match r
    case OfUsage(u) => UsageKey(u.atomId)
    case OfActivity(a) => ActivityKey(a.activityId)
    case OfQuery(o) => QueryKey(o.queryId)
  }

  function MergeRecord(existing: Record, incoming: Record): (r: Record)
    requires KeyOf(existing) == KeyOf(incoming)
    ensures KeyOf(r) == KeyOf(incoming)
  {
    match (existing, incoming)
    case (OfUsage(a), OfUsage(b)) => OfUsage(MergeUsage(a, b))
    case (OfActivity(a), OfActivity(b)) => OfActivity(MergeActivity(a, b))
    case (OfQuery(a), OfQuery(b)) => OfQuery(Merge(a, b))
  }

  datatype Observation = Observation(
    observationId: Id, usageAtoms: seq<UsageAtom>, activityAtoms: seq<ActivityAtom>, queryOccurrences: seq<Occurrence>)

  type Rows = map<Key, Record>

  function Upsert(rows: Rows, r: Record): Rows {
    var k := KeyOf(r);
    rows[k := if k in rows && KeyOf(rows[k]) == k then MergeRecord(rows[k], r) else r]
  }

  function UpsertAll(rows: Rows, records: seq<Record>): Rows {
    if records == [] then rows else Upsert(UpsertAll(rows, records[..|records| - 1]), records[|records| - 1])
  }

  function RecordsOf(o: Observation): seq<Record> {
    seq(|o.usageAtoms|, i requires 0 <= i < |o.usageAtoms| => OfUsage(o.usageAtoms[i]))
    + seq(|o.activityAtoms|, i requires 0 <= i < |o.activityAtoms| => OfActivity(o.activityAtoms[i]))
    + seq(|o.queryOccurrences|, i requires 0 <= i < |o.queryOccurrences| => OfQuery(o.queryOccurrences[i]))
  }

  datatype Store = Store(journal: set<Id>, rows: Rows)

  /** One transaction: an observation already in the journal changes nothing. */
  function Append(st: Store, o: Observation): Store {
    if o.observationId in st.journal then st
    else Store(st.journal + {o.observationId}, UpsertAll(st.rows, RecordsOf(o)))
  }

  function Deliver(ds: seq<Observation>): Store {
    if ds == [] then Store({}, map[]) else Append(Deliver(ds[..|ds| - 1]), ds[|ds| - 1])
  }

  // ---- what the store holds ------------------------------------------------------------------------------

  ghost predicate SeenBefore(ds: seq<Observation>, id: Id) {
    exists d :: d in ds && d.observationId == id
  }

  /** The records of all first deliveries, in order. */
  ghost function History(ds: seq<Observation>): seq<Record> {
    if ds == [] then []
    else
      var n := |ds| - 1;
      History(ds[..n]) + if SeenBefore(ds[..n], ds[n].observationId) then [] else RecordsOf(ds[n])
  }

  function Of(records: seq<Record>, k: Key): (r: seq<Record>)
    ensures forall x :: x in r <==> x in records && KeyOf(x) == k
  {
    if records == [] then []
    else
      var last := records[|records| - 1];
      assert records == records[..|records| - 1] + [last];
      Of(records[..|records| - 1], k) + if KeyOf(last) == k then [last] else []
  }

  ghost predicate SameKeys(records: seq<Record>, k: Key) {
    forall r :: r in records ==> KeyOf(r) == k
  }

  function FoldedRecords(records: seq<Record>, k: Key): (r: Record)
    requires records != [] && SameKeys(records, k)
    ensures KeyOf(r) == k
  {
    var n := |records| - 1;
    assert records[n] in records;
    if n == 0 then records[0]
    else
      assert forall r :: r in records[..n] ==> r in records;
      MergeRecord(FoldedRecords(records[..n], k), records[n])
  }

  /** The row under a key, if any, is the merge of the records in this order. */
  ghost predicate Holds(rows: Rows, k: Key, records: seq<Record>) {
    && SameKeys(records, k)
    && (k in rows <==> records != [])
    && (k in rows ==> rows[k] == FoldedRecords(records, k))
  }

  lemma UpsertHolds(rows: Rows, k: Key, records: seq<Record>, r: Record)
    requires Holds(rows, k, records)
    ensures Holds(Upsert(rows, r), k, if KeyOf(r) == k then records + [r] else records)
  {
    if KeyOf(r) == k {
      assert (records + [r])[..|records|] == records;
    }
  }

  lemma OfNext(records: seq<Record>, r: Record, k: Key)
    ensures Of(records + [r], k) == if KeyOf(r) == k then Of(records, k) + [r] else Of(records, k)
  {
    assert (records + [r])[..|records|] == records;
    assert Of(records, k) + [] == Of(records, k);
  }

  lemma {:induction false} UpsertAllHolds(rows: Rows, k: Key, before: seq<Record>, more: seq<Record>)
    requires Holds(rows, k, Of(before, k))
    ensures Holds(UpsertAll(rows, more), k, Of(before + more, k))
  {
    if more == [] {
      assert before + more == before;
    } else {
      var n := |more| - 1;
      UpsertAllHolds(rows, k, before, more[..n]);
      HoldsAfterOne(rows, k, before + more[..n], more);
      LastApart(before, more);
    }
  }

  lemma LastApart<T>(before: seq<T>, more: seq<T>)
    requires more != []
    ensures before + more == (before + more[..|more| - 1]) + [more[|more| - 1]]
  {
  }

  lemma HoldsAfterOne(rows: Rows, k: Key, seen: seq<Record>, more: seq<Record>)
    requires more != [] && Holds(UpsertAll(rows, more[..|more| - 1]), k, Of(seen, k))
    ensures Holds(UpsertAll(rows, more), k, Of(seen + [more[|more| - 1]], k))
  {
    NextHolds(UpsertAll(rows, more[..|more| - 1]), k, seen, more[|more| - 1]);
  }

  lemma NextHolds(rows: Rows, k: Key, before: seq<Record>, r: Record)
    requires Holds(rows, k, Of(before, k))
    ensures Holds(Upsert(rows, r), k, Of(before + [r], k))
  {
    OfNext(before, r, k);
    UpsertHolds(rows, k, Of(before, k), r);
  }

  lemma {:induction false} JournalKnows(ds: seq<Observation>, id: Id)
    ensures id in Deliver(ds).journal <==> SeenBefore(ds, id)
  {
    if ds != [] {
      var n := |ds| - 1;
      assert ds == ds[..n] + [ds[n]];
      JournalKnows(ds[..n], id);
      assert ds[n] in ds;
    }
  }

  /**
   Whatever is delivered and however often it is replayed, the row stored under a key is the merge of
   exactly the records of that key in the first delivery of each observation, in order.
   */
  lemma {:induction false} StoreHoldsFirstDeliveries(ds: seq<Observation>, k: Key)
    ensures Holds(Deliver(ds).rows, k, Of(History(ds), k))
  {
    if ds != [] {
      var n := |ds| - 1;
      StoreHoldsFirstDeliveries(ds[..n], k);
      JournalKnows(ds[..n], ds[n].observationId);
      if SeenBefore(ds[..n], ds[n].observationId) {
        assert History(ds) == History(ds[..n]);
      } else {
        UpsertAllHolds(Deliver(ds[..n]).rows, k, History(ds[..n]), RecordsOf(ds[n]));
      }
    }
  }

  /** A replayed observation changes nothing. */
  lemma ReplayChangesNothing(ds: seq<Observation>, o: Observation)
    requires SeenBefore(ds, o.observationId)
    ensures Append(Deliver(ds), o) == Deliver(ds)
  {
    JournalKnows(ds, o.observationId);
  }

  // ---- stored queries ------------------------------------------------------------------------------------

  ghost predicate AllQueries(records: seq<Record>) {
    forall i :: 0 <= i < |records| ==> records[i].OfQuery?
  }

  ghost function OccurrencesIn(records: seq<Record>): (r: seq<Occurrence>)
    requires AllQueries(records)
    ensures |r| == |records| && forall i :: 0 <= i < |r| ==> r[i] == records[i].occurrence
  {
    if records == [] then [] else OccurrencesIn(records[..|records| - 1]) + [records[|records| - 1].occurrence]
  }

  lemma KeyedQueries(records: seq<Record>, q: Id)
    requires SameKeys(records, QueryKey(q))
    ensures AllQueries(records)
  {
    forall i | 0 <= i < |records| ensures records[i].OfQuery? { assert records[i] in records; }
  }

  lemma {:induction false} QueryFold(records: seq<Record>, q: Id)
    requires records != [] && SameKeys(records, QueryKey(q)) && AllQueries(records)
    ensures FoldedRecords(records, QueryKey(q)) == OfQuery(Folded(OccurrencesIn(records)))
  {
    var n := |records| - 1;
    if n > 0 {
      assert SameKeys(records[..n], QueryKey(q)) by { assert forall r :: r in records[..n] ==> r in records; }
      QueryFold(records[..n], q);
      assert OccurrencesIn(records)[..n] == OccurrencesIn(records[..n]);
    }
  }

  /** The stored query is the best of everything delivered about it, in any order and with any replays. */
  lemma StoredQueryIsBest(ds: seq<Observation>, q: Id)
    requires Of(History(ds), QueryKey(q)) != []
    requires forall r :: r in History(ds) && r.OfQuery? ==> Timed(r.occurrence)
    ensures
      var rows, told := Deliver(ds).rows, Of(History(ds), QueryKey(q));
      && QueryKey(q) in rows && rows[QueryKey(q)].OfQuery? && AllQueries(told)
      && AllCovered(OccurrencesIn(told), SummaryOf(rows[QueryKey(q)].occurrence))
      && Attained(OccurrencesIn(told), SummaryOf(rows[QueryKey(q)].occurrence))
  {
    StoreHoldsFirstDeliveries(ds, QueryKey(q));
    var told := Of(History(ds), QueryKey(q));
    KeyedQueries(told, q);
    QueryFold(told, q);
    var occurrences := OccurrencesIn(told);
    forall r | r in occurrences ensures Timed(r) {
      var i :| 0 <= i < |occurrences| && occurrences[i] == r;
      assert told[i] in told;
    }
    FoldKeepsBest(occurrences);
  }

  class AgentStorage {
    var journal: set<Id>
    var rows: Rows

    function Now(): Store
      reads this
    {
      Store(journal, rows)
    }

    constructor ()
      ensures Now() == Deliver([])
    {
      journal, rows := {}, map[];
    }

    method UpsertRow(r: Record)
      modifies this`rows
      ensures rows == Upsert(old(rows), r)
    {
      var k := KeyOf(r);
      var retained := r;
      if k in rows && KeyOf(rows[k]) == k {
        retained := MergeRecord(rows[k], r);
      }
      rows := rows[k := retained];
    }

    /** Returns whether the observation was new. */
    method AppendSafeObservation(o: Observation) returns (appended: bool)
      modifies this
      ensures Now() == Append(old(Now()), o)
      ensures appended <==> o.observationId !in old(journal)
    {
      if o.observationId in journal {
        return false;
      }
      journal := journal + {o.observationId};
      ghost var start := rows;
      var records := RecordsOf(o);
      for i := 0 to |records|
        invariant rows == UpsertAll(start, records[..i])
        invariant journal == old(journal) + {o.observationId}
      {
        assert records[..i + 1][..i] == records[..i];
        UpsertRow(records[i]);
      }
      assert records[..|records|] == records;
      return true;
    }
  }
}
