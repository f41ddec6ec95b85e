/**
 Evidence of what each query changed in each repository (src/attribution/workspaceChangeTracker.ts):
 active, settling and completed windows, written through to a durable ledger.
 */
module WorkspaceChangeTracker {
  import opened Prelude

  const EVIDENCE_TTL_MS := 24 * 60 * 60 * 1_000

  datatype FileState = FileState(
    artifactKey: Id, worktreeStateKey: Option<Id>, indexStateKey: Option<Id>, changeKind: Id, observedSequence: nat)

  datatype Status = Active | Settling | Completed

  /** The public record; the list of observed states is sorted by its distinct artifact keys, so it is a map here. */
  datatype Record = Record(
    queryId: Id,
    repoKey: Id,
    epochId: Id,
    runIds: set<Id>,
    startedAt: Time,
    completedAt: Option<Time>,
    settlingUntil: Option<Time>,
    expiresAt: Option<Time>,
    baselineTrusted: bool,
    headCommitAtStart: Option<Id>,
    baselineSequence: nat,
    baselineStates: seq<FileState>,
    artifactStates: map<Id, FileState>,
    observedChangeCount: nat,
    firstObservedAt: Option<Time>,
    lastObservedAt: Option<Time>,
    status: Status)

  /** What memory keeps: the record, and its baseline and observed states by artifact. */
  datatype Evidence = Evidence(record: Record, baseline: map<Id, FileState>, observed: map<Id, FileState>)

  datatype EvidenceKey = EvidenceKey(queryId: Id, repoKey: Id)

  function KeyOf(r: Record): EvidenceKey {
    EvidenceKey(r.queryId, r.repoKey)
  }

  datatype Snapshot = Snapshot(
    repoKey: Id, epochId: Id, headCommit: Option<Id>, observedAt: Time, observedSequence: nat,
    dirtyKnown: bool, coverageComplete: bool, artifactStates: seq<FileState>)

  datatype Run = Run(queryId: Id, runId: Id, startedAt: Option<Time>, repoKey: Option<Id>)

  datatype Config = Config(settlingMs: nat, activeMs: nat)

  // ---- one evidence entry ------------------------------------------------------------------------------

  /** Later states of an artifact replace earlier ones. */
  function ByArtifact(states: seq<FileState>): (r: map<Id, FileState>)
    ensures forall a :: a in r ==> r[a] in states && r[a].artifactKey == a
  {
    if states == [] then map[]
    else
      var n := |states| - 1;
      assert states == states[..n] + [states[n]];
      ByArtifact(states[..n])[states[n].artifactKey := states[n]]
  }

  /** `activeEvidence`: memory's form of a stored record. */
  function Hydrated(r: Record): Evidence {
    Evidence(r, ByArtifact(r.baselineStates), r.artifactStates)
  }

  predicate SameContent(a: FileState, b: FileState) {
    a.worktreeStateKey == b.worktreeStateKey && a.indexStateKey == b.indexStateKey && a.changeKind == b.changeKind
  }

  predicate AtBaseline(e: Evidence, s: FileState) {
    s.artifactKey in e.baseline && SameContent(e.baseline[s.artifactKey], s)
  }

  predicate Accepts(r: Record, observedAt: Time) {
    r.status == Active || (r.status == Settling && r.settlingUntil.Some? && observedAt <= r.settlingUntil.value)
  }

  /** Notes every state that differs from the baseline. */
  function Noted(e: Evidence, states: seq<FileState>): (r: map<Id, FileState>)
    ensures forall a :: a in e.observed ==> a in r
    ensures forall a :: a in r ==> (a in e.observed && r[a] == e.observed[a]) || (r[a].artifactKey == a && !AtBaseline(e, r[a]))
  {
    if states == [] then e.observed
    else
      var s := states[|states| - 1];
      var before := Noted(e, states[..|states| - 1]);
      if AtBaseline(e, s) then before else before[s.artifactKey := s]
  }

  /** `hydrateEvidence`: the record follows the observed states. */
  function WithObserved(e: Evidence, observed: map<Id, FileState>, now: Time): Evidence {
    Evidence(
      e.record.(
        artifactStates := observed,
        observedChangeCount := |observed|,
        firstObservedAt :=
          if |observed| == 0 then None else if e.record.firstObservedAt.Some? then e.record.firstObservedAt else Some(now),
        lastObservedAt := if |observed| == 0 then None else Some(now)),
      e.baseline, observed)
  }

  function FromBaseline(run: Run, s: Snapshot, now: Time): Evidence {
    Hydrated(Record(
      run.queryId, s.repoKey, s.epochId, {run.runId}, if run.startedAt.Some? then run.startedAt.value else now,
      None, None, None, s.dirtyKnown && s.coverageComplete, s.headCommit, s.observedSequence,
      s.artifactStates, map[], 0, None, None, Active))
  }

  /** What a sweep over all evidence does to one entry. */
  datatype Mutation =
    | RunCompleted(queryId: Id, runId: Id, endedAt: Time, now: Time)
    | SnapshotSeen(snapshot: Snapshot, now: Time)
    | Finalize(at: Time)
    | RunStart(queryId: Id, startedAt: Time, repoKeys: set<Id>)
    | Resolve(queryIds: set<Id>)

  /** Changed in memory, changed and written through, or removed from both. */
  datatype Outcome = Kept(entry: Evidence) | Written(entry: Evidence) | Removed

  function OnCompleted(e: Evidence, m: Mutation, cfg: Config): Outcome
    requires m.RunCompleted?
  {
    if e.record.queryId != m.queryId then Kept(e)
    else
      var until := m.endedAt + cfg.settlingMs;
      var r := e.record.(
        runIds := e.record.runIds + {m.runId}, completedAt := Some(m.endedAt),
        expiresAt := Some(m.endedAt + EVIDENCE_TTL_MS), settlingUntil := Some(until),
        status := if until > m.now then Settling else Completed);
      if r.observedChangeCount == 0 && r.status == Completed then Removed else Written(e.(record := r))
  }

  function OnSnapshot(e: Evidence, s: Snapshot, now: Time): Outcome {
    if e.record.repoKey != s.repoKey then Kept(e)
    else if e.record.epochId != s.epochId then Removed
    else if !Accepts(e.record, s.observedAt) then Kept(e)
    else
      var next := WithObserved(e, Noted(e, s.artifactStates), now);
      if next.record.observedChangeCount > 0 then Written(next) else Kept(next)
  }

  function OnFinalize(e: Evidence, at: Time, cfg: Config): Outcome {
    if e.record.status == Active && e.record.startedAt + cfg.activeMs <= at then Removed
    else if e.record.status != Settling || e.record.settlingUntil.None? || e.record.settlingUntil.value > at then Kept(e)
    else if e.record.observedChangeCount == 0 then Removed
    else Written(e.(record := e.record.(status := Completed)))
  }

  /** Settling evidence of another query that was complete before this run began, in one of its repositories. */
  predicate ClosedBy(r: Record, m: Mutation)
    requires m.RunStart?
  {
    && r.queryId != m.queryId && r.status == Settling && r.repoKey in m.repoKeys && r.settlingUntil.Some?
    && r.completedAt.Some?
    && r.startedAt <= m.startedAt && r.completedAt.value <= m.startedAt && m.startedAt < r.settlingUntil.value
  }

  function OnRunStart(e: Evidence, m: Mutation): Outcome
    requires m.RunStart?
  {
    if !ClosedBy(e.record, m) then Kept(e)
    else if e.record.observedChangeCount == 0 then Removed
    else Written(e.(record := e.record.(settlingUntil := Some(m.startedAt), status := Completed)))
  }

  function OnEntry(m: Mutation, e: Evidence, cfg: Config): Outcome {
    match m
    case RunCompleted(_, _, _, _) => OnCompleted(e, m, cfg)
    case SnapshotSeen(s, now) => OnSnapshot(e, s, now)
    case Finalize(at) => OnFinalize(e, at, cfg)
    case RunStart(_, _, _) => OnRunStart(e, m)
    case Resolve(ids) => if e.record.queryId in ids then Removed else Kept(e)
  }

  // ---- memory and ledger ---------------------------------------------------------------------------------

  datatype World = World(memory: map<EvidenceKey, Evidence>, ledger: map<EvidenceKey, Record>)

  const EMPTY := World(map[], map[])

  /** The write-through of one entry. */
  function Visited(w: World, k: EvidenceKey, m: Mutation, cfg: Config): World
    requires k in w.memory
  {
    match OnEntry(m, w.memory[k], cfg)
    case Kept(e) => w.(memory := w.memory[k := e])
    case Written(e) => World(w.memory[k := e], w.ledger[k := e.record])
    case Removed => World(w.memory - {k}, w.ledger - {k})
  }

  /** A sweep visits every entry once; entries do not affect each other. */
  function Swept(w: World, m: Mutation, cfg: Config): World {
    World(
      map k | k in w.memory && !OnEntry(m, w.memory[k], cfg).Removed? :: OnEntry(m, w.memory[k], cfg).entry,
      map k | k in w.memory.Keys + w.ledger.Keys
              && if k in w.memory then !OnEntry(m, w.memory[k], cfg).Removed?
                   && (OnEntry(m, w.memory[k], cfg).Written? || k in w.ledger)
                 else true
        :: if k in w.memory && OnEntry(m, w.memory[k], cfg).Written? then OnEntry(m, w.memory[k], cfg).entry.record
           else w.ledger[k])
  }

  /** The baseline of a run in one repository: reused within an epoch, otherwise taken anew. */
  function Bound(w: World, run: Run, s: Snapshot, now: Time): World {
    var k := EvidenceKey(run.queryId, s.repoKey);
    var e :=
      if k in w.memory && w.memory[k].record.epochId == s.epochId
      then w.memory[k].(record := w.memory[k].record.(runIds := w.memory[k].record.runIds + {run.runId}))
      else FromBaseline(run, s, now);
    World(w.memory[k := e], w.ledger[k := e.record])
  }

  function BoundAll(w: World, run: Run, snapshots: seq<Snapshot>, now: Time): World {
    if snapshots == [] then w
    else Bound(BoundAll(w, run, snapshots[..|snapshots| - 1], now), run, snapshots[|snapshots| - 1], now)
  }

  function OfRepo(snapshots: seq<Snapshot>, repo: Option<Id>): (r: seq<Snapshot>)
    ensures forall s :: s in r <==> s in snapshots && (repo.Some? ==> s.repoKey == repo.value)
  {
    if snapshots == [] then []
    else
      var n := |snapshots| - 1;
      assert snapshots == snapshots[..n] + [snapshots[n]];
      OfRepo(snapshots[..n], repo) + if repo.Some? && snapshots[n].repoKey != repo.value then [] else [snapshots[n]]
  }

  function ReposOf(snapshots: seq<Snapshot>): set<Id> {
    set s | s in snapshots :: s.repoKey
  }

  /** `recordRunBaselines`. */
  function Baselines(w: World, run: Run, snapshots: seq<Snapshot>, now: Time, cfg: Config): World {
    var own := OfRepo(snapshots, run.repoKey);
    if own == [] then w
    else
      var closed :=
        if run.startedAt.None? then w else Swept(w, RunStart(run.queryId, run.startedAt.value, ReposOf(own)), cfg);
      BoundAll(closed, run, own, now)
  }

  datatype Op =
    | ObserveRun(run: Run, snapshots: seq<Snapshot>, now: Time)
    | CompleteRun(queryId: Id, runId: Id, endedAt: Time, now: Time)
    | RecordSnapshot(snapshot: Snapshot, now: Time)
    | Tick(at: Time)
    | ResolveQueries(queryIds: set<Id>)
    | ResetAll
    | Restart(now: Time)

  /** Memory rebuilt from the ledger. */
  function Reloaded(ledger: map<EvidenceKey, Record>): map<EvidenceKey, Evidence> {
    map k | k in ledger :: Hydrated(ledger[k])
  }

  function Step(w: World, op: Op, cfg: Config): World {
    match op
    case ObserveRun(run, snapshots, now) => Baselines(w, run, snapshots, now, cfg)
    case CompleteRun(q, run, endedAt, now) => Swept(w, RunCompleted(q, run, endedAt, now), cfg)
    case RecordSnapshot(s, now) => Swept(Swept(w, Finalize(s.observedAt), cfg), SnapshotSeen(s, now), cfg)
    case Tick(at) => Swept(w, Finalize(at), cfg)
    case ResolveQueries(ids) => Swept(w, Resolve(ids), cfg)
    case ResetAll => EMPTY
    case Restart(now) => Swept(World(Reloaded(w.ledger), w.ledger), Finalize(now), cfg)
  }

  function StepsFrom(w: World, ops: seq<Op>, cfg: Config): World {
    if ops == [] then w else Step(StepsFrom(w, ops[..|ops| - 1], cfg), ops[|ops| - 1], cfg)
  }

  function Steps(ops: seq<Op>, cfg: Config): World {
    StepsFrom(EMPTY, ops, cfg)
  }

  // ---- what every mutation keeps ---------------------------------------------------------------------------

  /** The record is the public view of the maps, and nothing observed is at its baseline. */
  ghost predicate EntryOk(k: EvidenceKey, e: Evidence) {
    && KeyOf(e.record) == k
    && e.baseline == ByArtifact(e.record.baselineStates)
    && e.record.artifactStates == e.observed
    && e.record.observedChangeCount == |e.observed|
    && (|e.observed| == 0 ==> e.record.firstObservedAt.None? && e.record.lastObservedAt.None?)
    && (forall a :: a in e.observed ==> e.observed[a].artifactKey == a && !AtBaseline(e, e.observed[a]))
  }

  ghost predicate SyncedAt(w: World, k: EvidenceKey) {
    && (k in w.memory <==> k in w.ledger)
    && (k in w.memory ==> EntryOk(k, w.memory[k]) && w.ledger[k] == w.memory[k].record)
  }

  ghost predicate Synced(w: World) {
    forall k :: SyncedAt(w, k)
  }

  /** What a sweep leaves under one key. */
  lemma SweptAt(w: World, m: Mutation, cfg: Config, k: EvidenceKey)
    ensures var v := Swept(w, m, cfg);
      if k !in w.memory then k !in v.memory && SameAt(v.ledger, w.ledger, k)
      else
        match OnEntry(m, w.memory[k], cfg)
        case Kept(e) => k in v.memory && v.memory[k] == e && SameAt(v.ledger, w.ledger, k)
        case Written(e) => k in v.memory && v.memory[k] == e && k in v.ledger && v.ledger[k] == e.record
        case Removed => k !in v.memory && k !in v.ledger
  {
  }

  lemma EntryKept(k: EvidenceKey, e: Evidence, m: Mutation, cfg: Config)
    requires EntryOk(k, e)
    ensures var o := OnEntry(m, e, cfg);
      && (!o.Removed? ==> EntryOk(k, o.entry))
      && (o.Kept? ==> o.entry == e)
  {
    if m.SnapshotSeen? {
      var noted := Noted(e, m.snapshot.artifactStates);
      assert e.observed.Keys <= noted.Keys;
    }
  }

  lemma SweepKeepsSynced(w: World, m: Mutation, cfg: Config)
    requires Synced(w)
    ensures Synced(Swept(w, m, cfg))
  {
    forall k ensures SyncedAt(Swept(w, m, cfg), k) {
      assert SyncedAt(w, k);
      SweptAt(w, m, cfg, k);
      if k in w.memory { EntryKept(k, w.memory[k], m, cfg); }
    }
  }

  lemma BindKeepsSynced(w: World, run: Run, s: Snapshot, now: Time)
    requires Synced(w)
    ensures Synced(Bound(w, run, s, now))
  {
    forall k ensures SyncedAt(Bound(w, run, s, now), k) { assert SyncedAt(w, k); }
  }

  lemma {:induction false} BindsKeepSynced(w: World, run: Run, snapshots: seq<Snapshot>, now: Time)
    requires Synced(w)
    ensures Synced(BoundAll(w, run, snapshots, now))
  {
    if snapshots != [] {
      var n := |snapshots| - 1;
      BindsKeepSynced(w, run, snapshots[..n], now);
      BindKeepsSynced(BoundAll(w, run, snapshots[..n], now), run, snapshots[n], now);
    }
  }

  /** Under the invariant a restart rebuilds exactly the memory that was lost. */
  lemma RestartRestoresMemory(w: World)
    requires Synced(w)
    ensures Reloaded(w.ledger) == w.memory
  {
    forall k ensures SameAt(Reloaded(w.ledger), w.memory, k) { assert SyncedAt(w, k); }
    SameEverywhere(Reloaded(w.ledger), w.memory);
  }

  lemma StepKeepsSynced(w: World, op: Op, cfg: Config)
    requires Synced(w)
    ensures Synced(Step(w, op, cfg))
  {
    match op
    case ObserveRun(run, snapshots, now) =>
      var own := OfRepo(snapshots, run.repoKey);
      if own != [] {
        if run.startedAt.Some? {
          SweepKeepsSynced(w, RunStart(run.queryId, run.startedAt.value, ReposOf(own)), cfg);
          BindsKeepSynced(Swept(w, RunStart(run.queryId, run.startedAt.value, ReposOf(own)), cfg), run, own, now);
        } else {
          BindsKeepSynced(w, run, own, now);
        }
      }
    case CompleteRun(q, run, endedAt, now) => SweepKeepsSynced(w, RunCompleted(q, run, endedAt, now), cfg);
    case RecordSnapshot(s, now) =>
      SweepKeepsSynced(w, Finalize(s.observedAt), cfg);
      SweepKeepsSynced(Swept(w, Finalize(s.observedAt), cfg), SnapshotSeen(s, now), cfg);
    case Tick(at) => SweepKeepsSynced(w, Finalize(at), cfg);
    case ResolveQueries(ids) => SweepKeepsSynced(w, Resolve(ids), cfg);
    case ResetAll =>
    case Restart(now) =>
      RestartRestoresMemory(w);
      SweepKeepsSynced(w, Finalize(now), cfg);
  }

  /**
   After every mutation of every history the ledger equals the public view of memory, no observed
   state is at its baseline, and the change count is the number of distinct artifacts.
   */
  lemma {:induction false} LedgerFollowsMemory(ops: seq<Op>, cfg: Config)
    ensures Synced(Steps(ops, cfg))
  {
    if ops != [] {
      LedgerFollowsMemory(ops[..|ops| - 1], cfg);
      StepKeepsSynced(Steps(ops[..|ops| - 1], cfg), ops[|ops| - 1], cfg);
    }
  }

  // ---- a new run closes earlier windows ----------------------------------------------------------------------

  predicate ShutAfter(r: Record, t: Time) {
    r.status == Completed || (r.status == Settling && (r.settlingUntil.None? || r.settlingUntil.value <= t))
  }

  /** Shut evidence is evidence that accepts no snapshot observed after the given time. */
  lemma ShutMeans(r: Record, t: Time)
    ensures ShutAfter(r, t) <==> forall observedAt: Time :: t < observedAt ==> !Accepts(r, observedAt)
  {
    if !ShutAfter(r, t) {
      assert Accepts(r, t + 1);
    }
  }

  predicate CompleteBefore(r: Record, t: Time) {
    r.status != Active && r.startedAt <= t && r.completedAt.Some? && r.completedAt.value <= t
  }

  /** Another query's evidence in these repositories was shut, or had not been completed by then. */
  ghost predicate OthersShut(w: World, q: Id, repos: set<Id>, t: Time) {
    forall k :: k in w.memory && k.queryId != q && k.repoKey in repos && CompleteBefore(w.memory[k].record, t) ==>
      ShutAfter(w.memory[k].record, t)
  }

  lemma RunStartShuts(w: World, q: Id, t: Time, repos: set<Id>, cfg: Config)
    requires Synced(w)
    ensures OthersShut(Swept(w, RunStart(q, t, repos), cfg), q, repos, t)
  {
    var m, r := RunStart(q, t, repos), Swept(w, RunStart(q, t, repos), cfg);
    forall k | k in r.memory && k.queryId != q && k.repoKey in repos && CompleteBefore(r.memory[k].record, t)
      ensures ShutAfter(r.memory[k].record, t)
    {
      assert SyncedAt(w, k);
      SweptAt(w, m, cfg, k);
    }
  }

  /**
   Without that condition on the start: evidence of another query that was complete by then is shut
   after the run start exactly when it had also started by then, or was shut already.
   */
  lemma RunStartShutsIff(w: World, q: Id, t: Time, repos: set<Id>, cfg: Config, k: EvidenceKey)
    requires Synced(w) && k in w.memory && k.queryId != q && k.repoKey in repos
    requires w.memory[k].record.status != Active
    requires w.memory[k].record.completedAt.Some? && w.memory[k].record.completedAt.value <= t
    ensures GoneOrShut(Swept(w, RunStart(q, t, repos), cfg), k, t) <==>
            w.memory[k].record.startedAt <= t || ShutAfter(w.memory[k].record, t)
  {
    assert SyncedAt(w, k);
    SweptAt(w, RunStart(q, t, repos), cfg, k);
  }

  lemma {:induction false} BindsKeepShut(w: World, run: Run, snapshots: seq<Snapshot>, now: Time, repos: set<Id>, t: Time)
    requires OthersShut(w, run.queryId, repos, t)
    ensures OthersShut(BoundAll(w, run, snapshots, now), run.queryId, repos, t)
  {
    if snapshots != [] { BindsKeepShut(w, run, snapshots[..|snapshots| - 1], now, repos, t); }
  }

  /**
   When a run starts, no other query's evidence in its repositories that was complete by then
   accepts a snapshot observed after the start.
   */
  lemma NewRunShutsEarlierEvidence(w: World, run: Run, snapshots: seq<Snapshot>, now: Time, cfg: Config)
    requires Synced(w) && run.startedAt.Some?
    ensures OthersShut(Baselines(w, run, snapshots, now, cfg), run.queryId,
                       ReposOf(OfRepo(snapshots, run.repoKey)), run.startedAt.value)
  {
    var own := OfRepo(snapshots, run.repoKey);
    if own != [] {
      var repos := ReposOf(own);
      RunStartShuts(w, run.queryId, run.startedAt.value, repos, cfg);
      BindsKeepShut(Swept(w, RunStart(run.queryId, run.startedAt.value, repos), cfg), run, own, now, repos, run.startedAt.value);
    }
  }

  /** Operations that give the query a new window. */
  predicate Reopens(op: Op, q: Id) {
    match op
    case ObserveRun(run, _, _) => run.queryId == q
    case CompleteRun(id, _, _, _) => id == q
    case _ => false
  }

  ghost predicate GoneOrShut(w: World, k: EvidenceKey, t: Time) {
    k in w.memory ==> ShutAfter(w.memory[k].record, t)
  }

  lemma SweepKeepsShut(w: World, m: Mutation, cfg: Config, k: EvidenceKey, t: Time)
    requires Synced(w) && GoneOrShut(w, k, t)
    requires m.RunCompleted? ==> m.queryId != k.queryId
    ensures GoneOrShut(Swept(w, m, cfg), k, t)
  {
    assert SyncedAt(w, k);
    SweptAt(w, m, cfg, k);
    if k in w.memory { EntryStaysShut(w.memory[k], m, cfg, t); }
  }

  lemma EntryStaysShut(e: Evidence, m: Mutation, cfg: Config, t: Time)
    requires ShutAfter(e.record, t) && (m.RunCompleted? ==> m.queryId != e.record.queryId)
    ensures var o := OnEntry(m, e, cfg); !o.Removed? ==> ShutAfter(o.entry.record, t)
  {
  }

  lemma {:induction false} BindsKeepGone(w: World, run: Run, snapshots: seq<Snapshot>, now: Time, k: EvidenceKey, t: Time)
    requires GoneOrShut(w, k, t) && run.queryId != k.queryId
    ensures GoneOrShut(BoundAll(w, run, snapshots, now), k, t)
  {
    if snapshots != [] { BindsKeepGone(w, run, snapshots[..|snapshots| - 1], now, k, t); }
  }

  /** Shut evidence stays shut through everything but a new observation or completion of its own query. */
  lemma ShutStaysShut(w: World, op: Op, cfg: Config, k: EvidenceKey, t: Time)
    requires Synced(w) && GoneOrShut(w, k, t) && !Reopens(op, k.queryId)
    ensures GoneOrShut(Step(w, op, cfg), k, t)
  {
    match op
    case ObserveRun(run, snapshots, now) =>
      var own := OfRepo(snapshots, run.repoKey);
      if own != [] {
        if run.startedAt.Some? {
          var m := RunStart(run.queryId, run.startedAt.value, ReposOf(own));
          SweepKeepsShut(w, m, cfg, k, t);
          BindsKeepGone(Swept(w, m, cfg), run, own, now, k, t);
        } else {
          BindsKeepGone(w, run, own, now, k, t);
        }
      }
    case CompleteRun(q, run, endedAt, now) => SweepKeepsShut(w, RunCompleted(q, run, endedAt, now), cfg, k, t);
    case RecordSnapshot(s, now) =>
      SweepKeepsShut(w, Finalize(s.observedAt), cfg, k, t);
      SweepKeepsSynced(w, Finalize(s.observedAt), cfg);
      SweepKeepsShut(Swept(w, Finalize(s.observedAt), cfg), SnapshotSeen(s, now), cfg, k, t);
    case Tick(at) => SweepKeepsShut(w, Finalize(at), cfg, k, t);
    case ResolveQueries(ids) => SweepKeepsShut(w, Resolve(ids), cfg, k, t);
    case ResetAll =>
    case Restart(now) =>
      RestartRestoresMemory(w);
      SweepKeepsShut(w, Finalize(now), cfg, k, t);
  }

  // ---- the life of one window ------------------------------------------------------------------------------

  /** After completion the query's evidence accepts exactly the snapshots of its settling window. */
  lemma CompletionWindow(w: World, q: Id, runId: Id, endedAt: Time, now: Time, cfg: Config, k: EvidenceKey, t: Time)
    requires Synced(w) && k.queryId == q
    ensures var r := Step(w, CompleteRun(q, runId, endedAt, now), cfg); var until := endedAt + cfg.settlingMs;
      k in r.memory ==>
        && k in w.memory && r.memory[k].observed == w.memory[k].observed
        && r.memory[k].record.completedAt == Some(endedAt)
        && (Accepts(r.memory[k].record, t) <==> now < until && t <= until)
  {
    assert SyncedAt(w, k);
    SweptAt(w, RunCompleted(q, runId, endedAt, now), cfg, k);
  }

  /**
   A tick drops exactly the active evidence that is too old and the settled evidence that saw nothing;
   settled evidence that saw changes is completed, and everything else is left alone.
   */
  lemma TickFinishesExactly(w: World, at: Time, cfg: Config, k: EvidenceKey)
    requires Synced(w) && k in w.memory
    ensures
      var r, e := Step(w, Tick(at), cfg), w.memory[k].record;
      var stale := e.status == Active && e.startedAt + cfg.activeMs <= at;
      var settled := e.status == Settling && e.settlingUntil.Some? && e.settlingUntil.value <= at;
      && (k in r.memory <==> !stale && !(settled && |w.memory[k].observed| == 0))
      && (k in r.memory ==>
            r.memory[k] == if settled then w.memory[k].(record := e.(status := Completed)) else w.memory[k])
  {
    assert SyncedAt(w, k);
    SweptAt(w, Finalize(at), cfg, k);
  }

  /** A snapshot of the same epoch inside the window notes exactly the artifacts it shows off their baseline. */
  lemma SnapshotNotesExactly(e: Evidence, s: Snapshot, now: Time, a: Id)
    requires e.record.repoKey == s.repoKey && e.record.epochId == s.epochId && Accepts(e.record, s.observedAt)
    ensures var o := OnSnapshot(e, s, now);
      && !o.Removed?
      && (a in o.entry.observed <==>
            a in e.observed || exists f :: f in s.artifactStates && f.artifactKey == a && !AtBaseline(e, f))
  {
    NotedExactly(e, s.artifactStates, a);
  }

  lemma {:induction false} NotedExactly(e: Evidence, states: seq<FileState>, a: Id)
    ensures a in Noted(e, states) <==>
            a in e.observed || exists f :: f in states && f.artifactKey == a && !AtBaseline(e, f)
  {
    if states != [] {
      var n := |states| - 1;
      assert states == states[..n] + [states[n]];
      NotedExactly(e, states[..n], a);
      if f :| f in states && f.artifactKey == a && !AtBaseline(e, f) {
        assert f in states[..n] || f == states[n];
      }
      assert states[n] in states;
    }
  }

  class DefaultWorkspaceChangeTracker {
    const cfg: Config
    var evidenceByQueryRepo: map<EvidenceKey, Evidence>
    var ledger: map<EvidenceKey, Record>

    function Now(): World
      reads this
    {
      World(evidenceByQueryRepo, ledger)
    }

    constructor (cfg: Config)
      ensures Now() == EMPTY && this.cfg == cfg
    {
      this.cfg := cfg;
      evidenceByQueryRepo, ledger := map[], map[];
    }

    /** One entry: change it in place, and write it through or remove it. */
    method Visit(k: EvidenceKey, m: Mutation)
      requires k in evidenceByQueryRepo
      modifies this
      ensures Now() == Visited(old(Now()), k, m, cfg)
    {
      match OnEntry(m, evidenceByQueryRepo[k], cfg)
      case Kept(e) =>
        evidenceByQueryRepo := evidenceByQueryRepo[k := e];
      case Written(e) =>
        evidenceByQueryRepo := evidenceByQueryRepo[k := e];
        ledger := ledger[k := e.record];
      case Removed =>
        evidenceByQueryRepo := evidenceByQueryRepo - {k};
        ledger := ledger - {k};
    }

    /** The loop over all entries, in whatever order. */
    method Sweep(m: Mutation)
      modifies this
      ensures Now() == Swept(old(Now()), m, cfg)
    {
      ghost var start := Now();
      var todo := evidenceByQueryRepo.Keys;
      NothingVisited(start, m, cfg);
      while todo != {}
        invariant Between(start, Now(), todo, m, cfg)
        decreases |todo|
      {
        var k :| k in todo;
        NextVisit(start, Now(), todo, k, m, cfg);
        Visit(k, m);
        todo := todo - {k};
      }
      AllVisited(start, Now(), m, cfg);
    }

    method BindBaseline(run: Run, s: Snapshot, now: Time)
      modifies this
      ensures Now() == Bound(old(Now()), run, s, now)
    {
      var key := EvidenceKey(run.queryId, s.repoKey);
      var evidence := FromBaseline(run, s, now);
      if key in evidenceByQueryRepo && evidenceByQueryRepo[key].record.epochId == s.epochId {
        evidence := evidenceByQueryRepo[key];
        evidence := evidence.(record := evidence.record.(runIds := evidence.record.runIds + {run.runId}));
      } else if key in evidenceByQueryRepo {
        evidenceByQueryRepo := evidenceByQueryRepo - {key};
        ledger := ledger - {key};
      }
      evidenceByQueryRepo := evidenceByQueryRepo[key := evidence];
      ledger := ledger[key := evidence.record];
    }

    method BindBaselines(run: Run, snapshots: seq<Snapshot>, now: Time)
      modifies this
      ensures Now() == BoundAll(old(Now()), run, snapshots, now)
    {
      ghost var start := Now();
      for i := 0 to |snapshots|
        invariant Now() == BoundAll(start, run, snapshots[..i], now)
      {
        assert snapshots[..i + 1][..i] == snapshots[..i];
        BindBaseline(run, snapshots[i], now);
      }
      assert snapshots[..|snapshots|] == snapshots;
    }

    method RecordRunBaselines(run: Run, snapshots: seq<Snapshot>, now: Time)
      modifies this
      ensures Now() == Step(old(Now()), ObserveRun(run, snapshots, now), cfg)
    {
      var own := OfRepo(snapshots, run.repoKey);
      if own == [] {
        return;
      }
      if run.startedAt.Some? {
        Sweep(RunStart(run.queryId, run.startedAt.value, ReposOf(own)));
      }
      BindBaselines(run, own, now);
    }

    method RecordSnapshotEvidence(s: Snapshot, now: Time)
      modifies this
      ensures Now() == Step(old(Now()), RecordSnapshot(s, now), cfg)
    {
      Sweep(Finalize(s.observedAt));
      Sweep(SnapshotSeen(s, now));
    }

    /** Observes the run, then completes it: two mutations, between which others may come. */
    method ObserveRunCompleted(run: Run, snapshots: seq<Snapshot>, observedAt: Time, endedAt: Time, between: seq<Op>, now: Time)
      modifies this
      ensures Now() == Step(StepsFrom(Step(old(Now()), ObserveRun(run, snapshots, observedAt), cfg), between, cfg),
                            CompleteRun(run.queryId, run.runId, endedAt, now), cfg)
    {
      RecordRunBaselines(run, snapshots, observedAt);
      Meanwhile(between);
      Sweep(RunCompleted(run.queryId, run.runId, endedAt, now));
    }

    /** Mutations queued by others. */
    method Meanwhile(ops: seq<Op>)
      modifies this
      ensures Now() == StepsFrom(old(Now()), ops, cfg)
    {
      ghost var start := Now();
      for i := 0 to |ops|
        invariant Now() == StepsFrom(start, ops[..i], cfg)
      {
        assert ops[..i + 1][..i] == ops[..i];
        Perform(ops[i]);
      }
      assert ops[..|ops|] == ops;
    }

    method Perform(op: Op)
      modifies this
      ensures Now() == Step(old(Now()), op, cfg)
    {
      match op
      case ObserveRun(run, snapshots, now) => RecordRunBaselines(run, snapshots, now);
      case CompleteRun(queryId, runId, endedAt, now) => Sweep(RunCompleted(queryId, runId, endedAt, now));
      case RecordSnapshot(s, now) => RecordSnapshotEvidence(s, now);
      case Tick(at) => Sweep(Finalize(at));
      case ResolveQueries(ids) => ResolveAll(ids);
      case ResetAll => evidenceByQueryRepo, ledger := map[], map[];
      case Restart(now) => Start(now);
    }

    method ResolveAll(queryIds: set<Id>)
      modifies this
      ensures Now() == Step(old(Now()), ResolveQueries(queryIds), cfg)
    {
      Sweep(Resolve(queryIds));
    }

    /** Loads what the ledger holds, then lets windows run out. */
    method Start(now: Time)
      modifies this
      ensures Now() == Step(old(Now()), Restart(now), cfg)
    {
      evidenceByQueryRepo := Reloaded(ledger);
      Sweep(Finalize(now));
    }
  }

  ghost predicate SameAt<K, V>(a: map<K, V>, b: map<K, V>, k: K) {
    (k in a <==> k in b) && (k in a ==> a[k] == b[k])
  }

  lemma SameEverywhere<K(!new), V>(a: map<K, V>, b: map<K, V>)
    requires forall k :: SameAt(a, b, k)
    ensures a == b
  {
    forall k ensures k in a <==> k in b { assert SameAt(a, b, k); }
    forall k | k in a ensures a[k] == b[k] { assert SameAt(a, b, k); }
  }

  /** During a sweep: visited entries are as after it, the others as before it. */
  ghost predicate BetweenAt(start: World, w: World, todo: set<EvidenceKey>, m: Mutation, cfg: Config, k: EvidenceKey) {
    var v := if k in todo then start else Swept(start, m, cfg);
    SameAt(w.memory, v.memory, k) && SameAt(w.ledger, v.ledger, k) && (k in todo ==> k in start.memory)
  }

  ghost predicate Between(start: World, w: World, todo: set<EvidenceKey>, m: Mutation, cfg: Config) {
    forall k :: BetweenAt(start, w, todo, m, cfg, k)
  }

  lemma NothingVisited(start: World, m: Mutation, cfg: Config)
    ensures Between(start, start, start.memory.Keys, m, cfg)
  {
    forall k ensures BetweenAt(start, start, start.memory.Keys, m, cfg, k) { SweptAt(start, m, cfg, k); }
  }

  lemma NextVisit(start: World, w: World, todo: set<EvidenceKey>, k: EvidenceKey, m: Mutation, cfg: Config)
    requires Between(start, w, todo, m, cfg) && k in todo
    ensures k in w.memory && Between(start, Visited(w, k, m, cfg), todo - {k}, m, cfg)
  {
    assert BetweenAt(start, w, todo, m, cfg, k);
    SweptAt(start, m, cfg, k);
    forall l ensures BetweenAt(start, Visited(w, k, m, cfg), todo - {k}, m, cfg, l) {
      assert BetweenAt(start, w, todo, m, cfg, l);
    }
  }

  lemma AllVisited(start: World, w: World, m: Mutation, cfg: Config)
    requires Between(start, w, {}, m, cfg)
    ensures w == Swept(start, m, cfg)
  {
    var v := Swept(start, m, cfg);
    forall k ensures SameAt(w.memory, v.memory, k) && SameAt(w.ledger, v.ledger, k) {
      assert BetweenAt(start, w, {}, m, cfg, k);
    }
    SameEverywhere(w.memory, v.memory);
    SameEverywhere(w.ledger, v.ledger);
  }
}
