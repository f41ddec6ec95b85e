/**
 Observing commits and worktree snapshots of a repository (src/attribution/repositoryObservation.ts):
 what memory and the durable store hold when the process may stop between any two store writes.
 */
module RepositoryObservation {
  import opened Prelude

  /** An observation period of one repository; `refHeads` are the last seen heads of its refs. */
  datatype Epoch = Epoch(
    epochId: Id,
    initialHead: Option<Id>,
    cursorHead: Option<Id>,
    cursorRef: Option<Id>,
    refHeads: map<Id, Id>,
    nextSequence: nat)

  datatype Observed = Observed(epochId: Id, ref: Option<Id>, commit: Id, sequence: nat)

  /** A candidate's id: epoch, ref (or detached) and commit. */
  datatype Key = Key(epochId: Id, ref: Option<Id>, commit: Id)

  function KeyOf(c: Observed): Key {
    Key(c.epochId, c.ref, c.commit)
  }

  datatype Snapshot = Snapshot(epochId: Id, sequence: nat)

  /** What git answers while one scan runs. */
  datatype View = View(
    head: Option<Id>,
    refKey: Option<Id>,
    refs: map<Id, Id>,
    isAncestor: (Id, Id) -> bool,
    between: (Id, Id) -> seq<Id>,
    readable: Id -> bool)

  // ---- what a scan observes ----------------------------------------------------------------------------

  /** Candidates of the commits whose diff can be read, numbered from `next`. */
  function Candidates(epochId: Id, ref: Option<Id>, commits: seq<Id>, readable: Id -> bool, next: nat): (r: seq<Observed>)
    ensures forall i :: 0 <= i < |r| ==> r[i].epochId == epochId && r[i].ref == ref && r[i].sequence == next + i
  {
    if commits == [] then []
    else
      var n := |commits| - 1;
      var before := Candidates(epochId, ref, commits[..n], readable, next);
      if readable(commits[n]) then before + [Observed(epochId, ref, commits[n], next + |before|)] else before
  }

  /** The ids of the readable commits of a range. */
  function KeysOfRange(epochId: Id, ref: Option<Id>, commits: seq<Id>, readable: Id -> bool): set<Key> {
    set c | c in commits && readable(c) :: Key(epochId, ref, c)
  }

  function KeysOf(cs: seq<Observed>): set<Key> {
    set c | c in cs :: KeyOf(c)
  }

  lemma RangeGrows(epochId: Id, ref: Option<Id>, commits: seq<Id>, c: Id, readable: Id -> bool)
    ensures KeysOfRange(epochId, ref, commits + [c], readable)
         == KeysOfRange(epochId, ref, commits, readable) + if readable(c) then {Key(epochId, ref, c)} else {}
  {
    var small, large := KeysOfRange(epochId, ref, commits, readable), KeysOfRange(epochId, ref, commits + [c], readable);
    assert c in commits + [c];
    forall k | k in small ensures k in large {
      var d :| d in commits && readable(d) && k == Key(epochId, ref, d);
      assert d in commits + [c];
    }
  }

  lemma {:induction false} CandidatesCoverRange(epochId: Id, ref: Option<Id>, commits: seq<Id>, readable: Id -> bool, next: nat)
    ensures KeysOf(Candidates(epochId, ref, commits, readable, next)) == KeysOfRange(epochId, ref, commits, readable)
  {
    if commits != [] {
      var n := |commits| - 1;
      CandidatesCoverRange(epochId, ref, commits[..n], readable, next);
      var before := Candidates(epochId, ref, commits[..n], readable, next);
      assert commits == commits[..n] + [commits[n]];
      RangeGrows(epochId, ref, commits[..n], commits[n], readable);
      KeysGrow(before, Observed(epochId, ref, commits[n], next + |before|));
    }
  }

  lemma KeysGrow(cs: seq<Observed>, c: Observed)
    ensures KeysOf(cs + [c]) == KeysOf(cs) + {KeyOf(c)}
  {
    assert c in cs + [c];
    forall k | k in KeysOf(cs) ensures k in KeysOf(cs + [c]) {
      var d :| d in cs && KeyOf(d) == k;
      assert d in cs + [c];
    }
  }

  /** Commits between two heads when the first is an ancestor, otherwise the later head alone. */
  function Advanced(v: View, from: Id, to: Id): seq<Id> {
    if v.isAncestor(from, to) then v.between(from, to) else [to]
  }

  predicate BranchSwitch(e: Epoch, v: View) {
    e.cursorRef != v.refKey && e.cursorRef.Some? && v.refKey.Some?
  }

  function RefHead(e: Epoch, ref: Option<Id>): Option<Id> {
    if ref.Some? && ref.value in e.refHeads then Some(e.refHeads[ref.value]) else None
  }

  /** The commits of a transition before the fallback; a change to or from a detached head has none. */
  function TransitionCommits(e: Epoch, v: View, cursor: Id, head: Id): seq<Id> {
    if BranchSwitch(e, v) then
      var was := RefHead(e, v.refKey);
      if was.Some? && was.value != head then Advanced(v, was.value, head) else []
    else if e.cursorRef != v.refKey then []
    else Advanced(v, cursor, head)
  }

  /** The commits a scan observes on the checked-out ref when its head or ref changed. */
  function HeadCommits(e: Epoch, v: View, cursor: Id, head: Id): seq<Id> {
    var commits := TransitionCommits(e, v, cursor, head);
    if commits == [] && cursor != head then Advanced(v, cursor, head) else commits
  }

  /** Git's own law: a range ends in its last commit. */
  ghost predicate RangesEnd(v: View) {
    forall a, b :: v.isAncestor(a, b) && a != b ==> b in v.between(a, b)
  }

  /** However the checked-out head moved - forward, sideways, by a branch switch - the new head is observed. */
  lemma NewHeadObserved(e: Epoch, v: View, cursor: Id, head: Id)
    requires RangesEnd(v) && cursor != head
    ensures head in HeadCommits(e, v, cursor, head)
  {
  }

  function WithHead(e: Epoch, v: View): Epoch
    requires v.head.Some?
  {
    e.(cursorHead := v.head, cursorRef := v.refKey,
       refHeads := if v.refKey.Some? then e.refHeads[v.refKey.value := v.head.value] else e.refHeads)
  }

  /** What one observation adds: the ref it is filed under, its commits, and the epoch afterwards. */
  datatype Sighting = Sighting(ref: Option<Id>, commits: seq<Id>, epoch: Epoch)

  /** The checked-out ref; nothing when neither head nor ref changed. */
  function HeadSighting(e: Epoch, v: View): Option<Sighting> {
    if v.head.None? then None
    else if e.cursorHead.None? then
      if e.initialHead.None? then Some(Sighting(v.refKey, [v.head.value], WithHead(e, v))) else None
    else if e.cursorHead != v.head || e.cursorRef != v.refKey then
      Some(Sighting(v.refKey, HeadCommits(e, v, e.cursorHead.value, v.head.value), WithHead(e, v)))
    else None
  }

  /** Another ref: deleted, new, or moved. */
  function RefSighting(e: Epoch, v: View, ref: Id): Option<Sighting> {
    var was := RefHead(e, Some(ref));
    if v.refKey == Some(ref) then None
    else if ref !in v.refs then
      if was.None? then None else Some(Sighting(Some(ref), [], e.(refHeads := e.refHeads - {ref})))
    else if was == Some(v.refs[ref]) then None
    else
      var next := e.(refHeads := e.refHeads[ref := v.refs[ref]]);
      Some(Sighting(Some(ref), if was.None? then [] else Advanced(v, was.value, v.refs[ref]), next))
  }

  // ---- memory, store, and the steps between writes --------------------------------------------------------

  datatype Work =
    | Ready
    | Staged(candidates: seq<Observed>)
    | SnapshotTaken(sequence: nat)
    | SnapshotSaved(sequence: nat)

  /** `passed` are the candidate ids of every range this epoch's cursors have moved past. */
  datatype Process = Process(epoch: Epoch, work: Work, passed: set<Key>)

  datatype World = World(
    process: Option<Process>,
    epoch: Option<Epoch>,
    candidates: map<Key, Observed>,
    snapshots: seq<Snapshot>,
    passed: set<Key>,
    usedIds: set<Id>)

  const EMPTY := World(None, None, map[], [], {}, {})

  datatype Action =
    | Boot(view: View, intact: bool, freshId: Id)
    | Reset(view: View, freshId: Id)
    | ObserveHead(view: View)
    | ObserveRef(view: View, ref: Id)
    | Persist
    | PersistThrows
    | TakeSnapshot
    | SaveSnapshot
    | SaveThrows
    | PublishSnapshot
    | Crash

  function CreateEpoch(id: Id, v: View): Epoch {
    Epoch(id, v.head, v.head, v.refKey, v.refs, 1)
  }

  /** A new epoch is stored before anything is observed in it. */
  function NewEpoch(w: World, id: Id, v: View): World {
    var e := CreateEpoch(id, v);
    w.(process := Some(Process(e, Ready, w.passed)), epoch := Some(e), usedIds := w.usedIds + {id})
  }

  predicate Resumable(w: World, v: View, intact: bool) {
    intact && w.epoch.Some?
    && (w.epoch.value.cursorHead.Some? || w.epoch.value.initialHead.None? || v.head.None?)
  }

  /** Memory is advanced first: sequence numbers, cursors and ref heads. */
  function Stage(p: Process, s: Sighting, readable: Id -> bool): Process {
    var cs := Candidates(p.epoch.epochId, s.ref, s.commits, readable, p.epoch.nextSequence);
    Process(
      s.epoch.(epochId := p.epoch.epochId, nextSequence := p.epoch.nextSequence + |cs|),
      Staged(cs),
      p.passed + KeysOfRange(p.epoch.epochId, s.ref, s.commits, readable))
  }

  function PutAll(rows: map<Key, Observed>, cs: seq<Observed>): map<Key, Observed> {
    if cs == [] then rows
    else PutAll(rows, cs[..|cs| - 1])[KeyOf(cs[|cs| - 1]) := cs[|cs| - 1]]
  }

  /** A step that is not possible in the current state changes nothing. */
  function Step(w: World, a: Action): World {
    match a
    case Boot(v, intact, id) =>
      if w.process.Some? then w
      else if Resumable(w, v, intact) then w.(process := Some(Process(w.epoch.value, Ready, w.passed)))
      else if id in w.usedIds then w
      else NewEpoch(w, id, v)
    case Crash => w.(process := None)
    case _ => if w.process.None? then w else Working(w, w.process.value, a)
  }

  /** The epoch, with all its cursors, is written. */
  function EpochStored(w: World, p: Process): World {
    w.(epoch := Some(p.epoch), passed := p.passed, process := Some(p.(work := Ready)))
  }

  /** Steps of a running process. */
  function Working(w: World, p: Process, a: Action): World {
    match (a, p.work)
    case (Reset(v, id), Ready) => if id in w.usedIds then w else NewEpoch(w, id, v)
    case (ObserveHead(v), Ready) => Sighted(w, p, HeadSighting(p.epoch, v), v)
    case (ObserveRef(v, ref), Ready) => Sighted(w, p, RefSighting(p.epoch, v, ref), v)
    case (Persist, Staged(cs)) => EpochStored(w.(candidates := PutAll(w.candidates, cs)), p)
    case (PersistThrows, Staged(_)) => w.(process := Some(p.(work := Ready)))
    case (TakeSnapshot, Ready) =>
      w.(process := Some(p.(epoch := p.epoch.(nextSequence := p.epoch.nextSequence + 1),
                            work := SnapshotTaken(p.epoch.nextSequence))))
    case (SaveSnapshot, SnapshotTaken(n)) =>
      w.(epoch := Some(p.epoch), passed := p.passed, process := Some(p.(work := SnapshotSaved(n))))
    case (SaveThrows, SnapshotTaken(_)) => w.(process := Some(p.(work := Ready)))
    case (PublishSnapshot, SnapshotSaved(n)) =>
      w.(snapshots := w.snapshots + [Snapshot(p.epoch.epochId, n)], process := Some(p.(work := Ready)))
    case _ => w
  }

  function Sighted(w: World, p: Process, s: Option<Sighting>, v: View): World {
    if s.None? then w else w.(process := Some(Stage(p, s.value, v.readable)))
  }

  function Onward(w: World, actions: seq<Action>): World {
    if actions == [] then w else Step(Onward(w, actions[..|actions| - 1]), actions[|actions| - 1])
  }

  function Run(actions: seq<Action>): World {
    Onward(EMPTY, actions)
  }

  // ---- sequence numbers --------------------------------------------------------------------------------------

  /** No two durable records of an epoch share an observed sequence. */
  ghost predicate Distinct(w: World) {
    && (forall k, l :: k in w.candidates && l in w.candidates && k != l && k.epochId == l.epochId ==>
          w.candidates[k].sequence != w.candidates[l].sequence)
    && (forall i, j :: 0 <= i < j < |w.snapshots| && w.snapshots[i].epochId == w.snapshots[j].epochId ==>
          w.snapshots[i].sequence != w.snapshots[j].sequence)
    && (forall k, s :: k in w.candidates && s in w.snapshots && k.epochId == s.epochId ==>
          w.candidates[k].sequence != s.sequence)
  }

  /** Every durable record of the epoch has a sequence below `n`. */
  ghost predicate Below(w: World, id: Id, n: nat) {
    && (forall k :: k in w.candidates && k.epochId == id ==> w.candidates[k].sequence < n)
    && (forall s :: s in w.snapshots && s.epochId == id ==> s.sequence < n)
  }

  ghost predicate Free(w: World, id: Id, n: nat) {
    && (forall k :: k in w.candidates && k.epochId == id ==> w.candidates[k].sequence != n)
    && (forall s :: s in w.snapshots && s.epochId == id ==> s.sequence != n)
  }

  ghost predicate IdsUsed(w: World) {
    && (forall k :: k in w.candidates ==> k.epochId in w.usedIds)
    && (forall s :: s in w.snapshots ==> s.epochId in w.usedIds)
    && (w.epoch.Some? ==> w.epoch.value.epochId in w.usedIds)
  }

  ghost predicate WorkFits(w: World, p: Process, durable: nat) {
    match p.work
    case Ready => true
    case Staged(cs) =>
      forall i :: 0 <= i < |cs| ==>
        cs[i].epochId == p.epoch.epochId && cs[i].sequence == p.epoch.nextSequence - |cs| + i && durable <= cs[i].sequence
    case SnapshotTaken(n) => durable <= n < p.epoch.nextSequence
    case SnapshotSaved(n) => n < durable && Free(w, p.epoch.epochId, n)
  }

  ghost predicate ProcessFits(w: World, p: Process) {
    && w.epoch.Some? && w.epoch.value.epochId == p.epoch.epochId
    && w.epoch.value.nextSequence <= p.epoch.nextSequence
    && WorkFits(w, p, w.epoch.value.nextSequence)
  }

  ghost predicate Sequenced(w: World) {
    && Distinct(w) && IdsUsed(w)
    && (w.epoch.Some? ==> Below(w, w.epoch.value.epochId, w.epoch.value.nextSequence))
    && (w.process.Some? ==> ProcessFits(w, w.process.value))
  }

  lemma {:induction false} PutAllKeeps(w: World, cs: seq<Observed>, id: Id, base: nat)
    requires Distinct(w) && IdsUsed(w) && Below(w, id, base) && id in w.usedIds
    requires forall i :: 0 <= i < |cs| ==> cs[i].epochId == id && cs[i].sequence == base + i
    ensures var r := w.(candidates := PutAll(w.candidates, cs));
      Distinct(r) && IdsUsed(r) && Below(r, id, base + |cs|)
  {
    if cs != [] {
      var n := |cs| - 1;
      PutAllKeeps(w, cs[..n], id, base);
      PutOneKeeps(w.(candidates := PutAll(w.candidates, cs[..n])), cs[n]);
    }
  }

  lemma PutOneKeeps(w: World, c: Observed)
    requires Distinct(w) && IdsUsed(w) && Below(w, c.epochId, c.sequence) && c.epochId in w.usedIds
    ensures var r := w.(candidates := w.candidates[KeyOf(c) := c]);
      Distinct(r) && IdsUsed(r) && Below(r, c.epochId, c.sequence + 1)
  {
  }

  lemma NewEpochSequenced(w: World, id: Id, v: View)
    requires Sequenced(w) && id !in w.usedIds
    ensures Sequenced(NewEpoch(w, id, v))
  {
  }

  lemma PersistSequenced(w: World, p: Process)
    requires Sequenced(w) && w.process == Some(p) && p.work.Staged?
    ensures Sequenced(EpochStored(w.(candidates := PutAll(w.candidates, p.work.candidates)), p))
  {
    StagedStored(w, p);
    EpochWritten(w.(candidates := PutAll(w.candidates, p.work.candidates)), p);
  }

  lemma StagedStored(w: World, p: Process)
    requires Sequenced(w) && w.process == Some(p) && p.work.Staged?
    ensures var r := w.(candidates := PutAll(w.candidates, p.work.candidates));
      Distinct(r) && IdsUsed(r) && Below(r, p.epoch.epochId, p.epoch.nextSequence) && p.epoch.epochId in w.usedIds
  {
    var cs := p.work.candidates;
    assert WorkFits(w, p, w.epoch.value.nextSequence);
    var base := if cs == [] then p.epoch.nextSequence else cs[0].sequence;
    PutAllKeeps(w, cs, p.epoch.epochId, base);
  }

  lemma EpochWritten(w: World, p: Process)
    requires Distinct(w) && IdsUsed(w) && Below(w, p.epoch.epochId, p.epoch.nextSequence) && p.epoch.epochId in w.usedIds
    ensures Sequenced(EpochStored(w, p))
  {
  }

  lemma StepSequenced(w: World, a: Action)
    requires Sequenced(w)
    ensures Sequenced(Step(w, a))
  {
    if a.Boot? {
      if w.process.None? && !Resumable(w, a.view, a.intact) && a.freshId !in w.usedIds {
        NewEpochSequenced(w, a.freshId, a.view);
      }
    } else if w.process.Some? && !a.Crash? {
      WorkingSequenced(w, w.process.value, a);
    }
  }

  lemma WorkingSequenced(w: World, p: Process, a: Action)
    requires Sequenced(w) && w.process == Some(p)
    ensures Sequenced(Working(w, p, a))
  {
    match (a, p.work)
    case (Reset(v, id), Ready) => if id !in w.usedIds { NewEpochSequenced(w, id, v); }
    case (Persist, Staged(_)) => PersistSequenced(w, p);
    case (PublishSnapshot, SnapshotSaved(n)) => PublishSequenced(w, p, n);
    case _ =>
  }

  lemma PublishSequenced(w: World, p: Process, n: nat)
    requires Sequenced(w) && w.process == Some(p) && p.work == SnapshotSaved(n)
    ensures Sequenced(Working(w, p, PublishSnapshot))
  {
    var r := Working(w, p, PublishSnapshot);
    forall i, j | 0 <= i < j < |r.snapshots| && r.snapshots[i].epochId == r.snapshots[j].epochId
      ensures r.snapshots[i].sequence != r.snapshots[j].sequence
    {
      assert r.snapshots[i] in w.snapshots;
    }
  }

  /**
   In every run, with crashes between any two writes and with writes that throw: the durable
   candidates and snapshots of an epoch have distinct observed sequences, and those of the current
   epoch lie below its durable next sequence.
   */
  lemma {:induction false} SequencesNeverRepeat(actions: seq<Action>)
    ensures Sequenced(Run(actions))
  {
    if actions != [] {
      SequencesNeverRepeat(actions[..|actions| - 1]);
      StepSequenced(Run(actions[..|actions| - 1]), actions[|actions| - 1]);
    }
  }

  // ---- no commit is skipped ------------------------------------------------------------------------------------

  /** Ids passed by the cursors are stored, or staged to be stored with the cursors. */
  ghost predicate Covered(w: World) {
    && (forall k :: k in w.passed ==> k in w.candidates)
    && (w.process.Some? ==> forall k :: k in w.process.value.passed ==>
          k in w.candidates || (w.process.value.work.Staged? && k in KeysOf(w.process.value.work.candidates)))
  }

  lemma {:induction false} PutAllHas(rows: map<Key, Observed>, cs: seq<Observed>, k: Key)
    ensures k in PutAll(rows, cs) <==> k in rows || k in KeysOf(cs)
  {
    if cs != [] {
      var n := |cs| - 1;
      PutAllHas(rows, cs[..n], k);
      assert cs == cs[..n] + [cs[n]];
      KeysGrow(cs[..n], cs[n]);
    }
  }

  lemma StepCovered(w: World, a: Action)
    requires Covered(w) && !a.PersistThrows?
    ensures Covered(Step(w, a))
  {
    if w.process.Some? {
      var p := w.process.value;
      match (a, p.work)
      case (ObserveHead(v), Ready) => StageCovered(w, p, HeadSighting(p.epoch, v), v);
      case (ObserveRef(v, ref), Ready) => StageCovered(w, p, RefSighting(p.epoch, v, ref), v);
      case (Persist, Staged(cs)) =>
        forall k | k in p.passed || k in w.passed ensures k in PutAll(w.candidates, cs) { PutAllHas(w.candidates, cs, k); }
      case _ =>
    }
  }

  lemma StageCovered(w: World, p: Process, s: Option<Sighting>, v: View)
    requires Covered(w) && w.process == Some(p) && p.work == Ready
    ensures Covered(Sighted(w, p, s, v))
  {
    if s.Some? {
      CandidatesCoverRange(p.epoch.epochId, s.value.ref, s.value.commits, v.readable, p.epoch.nextSequence);
    }
  }

  /**
   In every run with crashes, but without a candidate write that throws while the process lives on:
   a cursor that is durably past a range leaves every readable commit of it as a durable candidate.
   */
  lemma {:induction false} NoCommitSkipped(actions: seq<Action>)
    requires forall a :: a in actions ==> !a.PersistThrows?
    ensures Covered(Run(actions))
  {
    if actions != [] {
      var n := |actions| - 1;
      assert actions == actions[..n] + [actions[n]];
      NoCommitSkipped(actions[..n]);
      StepCovered(Run(actions[..n]), actions[n]);
    }
  }

  /** Both at once: what every undisturbed step keeps. */
  ghost predicate Sound(w: World) {
    Sequenced(w) && Covered(w)
  }

  lemma StepSound(w: World, a: Action)
    requires Sound(w) && !a.PersistThrows?
    ensures Sound(Step(w, a))
  {
    StepSequenced(w, a);
    StepCovered(w, a);
  }

  lemma SnappedSound(w: World)
    requires Sound(w)
    ensures Sound(Snapped(w))
  {
    StepSound(w, TakeSnapshot);
    StepSound(Step(w, TakeSnapshot), SaveSnapshot);
    StepSound(Step(Step(w, TakeSnapshot), SaveSnapshot), PublishSnapshot);
  }

  /** A scan that finds the checked-out head moved leaves the new head as a durable candidate. */
  lemma MovedHeadIsStored(w: World, v: View)
    requires w.process.Some? && w.process.value.work == Ready && RangesEnd(v)
    requires v.head.Some? && v.readable(v.head.value)
    requires w.process.value.epoch.cursorHead.Some? && w.process.value.epoch.cursorHead != v.head
    ensures var r := Step(Step(w, ObserveHead(v)), Persist);
      && Key(w.process.value.epoch.epochId, v.refKey, v.head.value) in r.candidates
      && r.epoch.Some? && r.epoch.value.cursorHead == v.head && r.epoch.value.cursorRef == v.refKey
  {
    var p, head := w.process.value, v.head.value;
    var commits := HeadCommits(p.epoch, v, p.epoch.cursorHead.value, head);
    NewHeadObserved(p.epoch, v, p.epoch.cursorHead.value, head);
    CandidatesCoverRange(p.epoch.epochId, v.refKey, commits, v.readable, p.epoch.nextSequence);
    var k := Key(p.epoch.epochId, v.refKey, head);
    assert k in KeysOfRange(p.epoch.epochId, v.refKey, commits, v.readable);
    PutAllHas(w.candidates, Candidates(p.epoch.epochId, v.refKey, commits, v.readable, p.epoch.nextSequence), k);
  }

  /** Likewise for a ref that moved without being checked out. */
  lemma MovedRefIsStored(w: World, v: View, ref: Id)
    requires w.process.Some? && w.process.value.work == Ready && RangesEnd(v)
    requires v.refKey != Some(ref) && ref in v.refs && v.readable(v.refs[ref])
    requires var was := RefHead(w.process.value.epoch, Some(ref)); was.Some? && was.value != v.refs[ref]
    ensures var r := Step(Step(w, ObserveRef(v, ref)), Persist);
      && Key(w.process.value.epoch.epochId, Some(ref), v.refs[ref]) in r.candidates
      && r.epoch.Some? && RefHead(r.epoch.value, Some(ref)) == Some(v.refs[ref])
  {
    var p, head := w.process.value, v.refs[ref];
    var commits := Advanced(v, RefHead(p.epoch, Some(ref)).value, head);
    CandidatesCoverRange(p.epoch.epochId, Some(ref), commits, v.readable, p.epoch.nextSequence);
    var k := Key(p.epoch.epochId, Some(ref), head);
    assert head in commits && k in KeysOfRange(p.epoch.epochId, Some(ref), commits, v.readable);
    PutAllHas(w.candidates, Candidates(p.epoch.epochId, Some(ref), commits, v.readable, p.epoch.nextSequence), k);
  }

  /** A head that moved forward on its own ref: nothing but the range from the cursor to it is observed. */
  ghost predicate FastForward(e: Epoch, v: View) {
    && e.cursorHead.Some? && v.head.Some? && e.cursorHead != v.head && e.cursorRef == v.refKey
    && v.isAncestor(e.cursorHead.value, v.head.value)
  }

  lemma FastForwardRange(e: Epoch, v: View)
    requires FastForward(e, v)
    ensures HeadSighting(e, v).Some? && HeadSighting(e, v).value.ref == v.refKey
    ensures HeadSighting(e, v).value.commits == v.between(e.cursorHead.value, v.head.value)
    ensures HeadSighting(e, v).value.epoch.cursorHead == v.head
  {
  }

  /** Every readable commit between the old cursor and the new head is a durable candidate. */
  ghost predicate RangeStored(w: World, e: Epoch, v: View)
    requires FastForward(e, v)
  {
    forall c :: c in v.between(e.cursorHead.value, v.head.value) && v.readable(c) ==>
      Key(e.epochId, v.refKey, c) in w.candidates
  }

  /** After a fast forward and its write the cursor is on the new head and the whole range is stored. */
  lemma FastForwardIsStored(w: World, v: View)
    requires w.process.Some? && w.process.value.work == Ready && FastForward(w.process.value.epoch, v)
    ensures var r := Step(Step(w, ObserveHead(v)), Persist);
      r.epoch.Some? && r.epoch.value.cursorHead == v.head && RangeStored(r, w.process.value.epoch, v)
  {
    var p := w.process.value;
    var commits := v.between(p.epoch.cursorHead.value, v.head.value);
    FastForwardRange(p.epoch, v);
    CandidatesCoverRange(p.epoch.epochId, v.refKey, commits, v.readable, p.epoch.nextSequence);
    var cs := Candidates(p.epoch.epochId, v.refKey, commits, v.readable, p.epoch.nextSequence);
    forall c | c in commits && v.readable(c) ensures Key(p.epoch.epochId, v.refKey, c) in PutAll(w.candidates, cs) {
      assert Key(p.epoch.epochId, v.refKey, c) in KeysOfRange(p.epoch.epochId, v.refKey, commits, v.readable);
      PutAllHas(w.candidates, cs, Key(p.epoch.epochId, v.refKey, c));
    }
  }

  /** The store is as it was, and stays so until the process that saw the move writes or dies. */
  ghost predicate StoreUntouched(w: World, r: World) {
    r.epoch == w.epoch && r.candidates == w.candidates && r.snapshots == w.snapshots
  }

  /** The process died before it wrote anything. */
  ghost predicate DiedFirst(w: World, more: seq<Action>, from: World) {
    exists n :: 0 <= n < |more| && more[n].Crash? && StoreUntouched(w, Onward(from, more[..n]))
  }

  /**
   Through any continuation with crashes but without a throwing candidate write, a fast forward that
   was seen is all or nothing: its whole range is durable for good, or the store does not yet know of
   it, or the process died while the store did not.
   */
  lemma {:induction false} FastForwardAllOrNothing(w: World, v: View, more: seq<Action>)
    requires w.process.Some? && w.process.value.work == Ready && FastForward(w.process.value.epoch, v)
    requires forall a :: a in more ==> !a.PersistThrows?
    ensures var seen := Step(w, ObserveHead(v)); var r := Onward(seen, more);
      || RangeStored(r, w.process.value.epoch, v)
      || (r == seen && StoreUntouched(w, r))
      || DiedFirst(w, more, seen)
  {
    var seen := Step(w, ObserveHead(v));
    FastForwardRange(w.process.value.epoch, v);
    if more != [] {
      var n := |more| - 1;
      assert more == more[..n] + [more[n]];
      FastForwardAllOrNothing(w, v, more[..n]);
      var before := Onward(seen, more[..n]);
      CandidatesStay(before, more[n]);
      if DiedFirst(w, more[..n], seen) {
        DiedEarlier(w, more, seen, n);
      } else if before == seen {
        if more[n].Persist? {
          FastForwardIsStored(w, v);
        } else if more[n].Crash? {
          assert StoreUntouched(w, Onward(seen, more[..n]));
        }
      }
    }
  }

  lemma DiedEarlier(w: World, more: seq<Action>, from: World, n: nat)
    requires n <= |more| && DiedFirst(w, more[..n], from)
    ensures DiedFirst(w, more, from)
  {
    var k :| 0 <= k < n && more[..n][k].Crash? && StoreUntouched(w, Onward(from, more[..n][..k]));
    assert more[..n][..k] == more[..k];
  }

  /** A durable candidate may be numbered anew but never disappears. */
  lemma CandidatesStay(w: World, a: Action)
    ensures forall k :: k in w.candidates ==> k in Step(w, a).candidates
  {
    if w.process.Some? && a.Persist? && w.process.value.work.Staged? {
      forall k | k in w.candidates ensures k in PutAll(w.candidates, w.process.value.work.candidates) {
        PutAllHas(w.candidates, w.process.value.work.candidates, k);
      }
    }
  }

  /** If that candidate write throws instead, the next epoch write carries the cursor past the lost commit for good. */
  lemma ThrowSkipsCommit(w: World, v: View)
    requires w.process.Some? && w.process.value.work == Ready && RangesEnd(v)
    requires v.head.Some? && v.readable(v.head.value)
    requires w.process.value.epoch.cursorHead.Some? && w.process.value.epoch.cursorHead != v.head
    requires Key(w.process.value.epoch.epochId, v.refKey, v.head.value) !in w.candidates
    ensures var r := Step(Step(Step(Step(w, ObserveHead(v)), PersistThrows), TakeSnapshot), SaveSnapshot);
      && r.candidates == w.candidates && r.epoch.Some? && r.epoch.value.cursorHead == v.head
      && !Covered(r)
  {
    var p, head := w.process.value, v.head.value;
    var commits := HeadCommits(p.epoch, v, p.epoch.cursorHead.value, head);
    NewHeadObserved(p.epoch, v, p.epoch.cursorHead.value, head);
    assert Key(p.epoch.epochId, v.refKey, head) in KeysOfRange(p.epoch.epochId, v.refKey, commits, v.readable);
    var r := Step(Step(Step(Step(w, ObserveHead(v)), PersistThrows), TakeSnapshot), SaveSnapshot);
    assert Key(p.epoch.epochId, v.refKey, head) in r.passed;
  }

  // ---- whole scans -------------------------------------------------------------------------------------------------

  function AfterRefs(w: World, v: View, refs: seq<Id>): World {
    if refs == [] then w
    else
      var n := |refs| - 1;
      Step(Step(AfterRefs(w, v, refs[..n]), ObserveRef(v, refs[n])), Persist)
  }

  predicate Idle(w: World) {
    w.process.Some? && w.process.value.work == Ready
  }

  /** The ref's last seen head is what git says now. */
  predicate Settled(w: World, v: View, ref: Id)
    requires Idle(w)
  {
    RefHead(w.process.value.epoch, Some(ref)) == if ref in v.refs then Some(v.refs[ref]) else None
  }

  lemma RefStep(w: World, v: View, ref: Id)
    requires Idle(w)
    ensures var r := Step(Step(w, ObserveRef(v, ref)), Persist);
      && Idle(r)
      && (Some(ref) != v.refKey ==> Settled(r, v, ref))
      && (forall other :: other != ref || Some(other) == v.refKey ==>
            RefHead(r.process.value.epoch, Some(other)) == RefHead(w.process.value.epoch, Some(other)))
  {
  }

  /** Once every ref but the checked-out one was visited, memory agrees with git; that one is untouched. */
  lemma {:induction false} RefsSettle(w: World, v: View, refs: seq<Id>)
    requires Idle(w)
    ensures var r := AfterRefs(w, v, refs);
      && Idle(r)
      && (forall ref :: ref in refs && Some(ref) != v.refKey ==> Settled(r, v, ref))
      && (forall ref :: ref !in refs || Some(ref) == v.refKey ==>
            RefHead(r.process.value.epoch, Some(ref)) == RefHead(w.process.value.epoch, Some(ref)))
  {
    if refs != [] {
      var n := |refs| - 1;
      assert refs == refs[..n] + [refs[n]];
      RefsSettle(w, v, refs[..n]);
      RefStep(AfterRefs(w, v, refs[..n]), v, refs[n]);
    }
  }

  function Snapped(w: World): World {
    Step(Step(Step(w, TakeSnapshot), SaveSnapshot), PublishSnapshot)
  }

  lemma SnappedIs(w: World)
    requires Idle(w)
    ensures
      var p := w.process.value;
      var e := p.epoch.(nextSequence := p.epoch.nextSequence + 1);
      Snapped(w) == w.(process := Some(p.(epoch := e)), epoch := Some(e), passed := p.passed,
                       snapshots := w.snapshots + [Snapshot(e.epochId, p.epoch.nextSequence)])
  {
  }

  predicate NeedsReset(e: Epoch, v: View) {
    v.head.Some? && e.cursorHead.None? && e.initialHead.Some?
  }

  /** The checked-out ref, then the others. */
  function Followed(w: World, v: View, refKeys: seq<Id>): World {
    AfterRefs(Step(Step(w, ObserveHead(v)), Persist), v, refKeys)
  }

  /** One undisturbed scan; `changed` says whether the snapshot differs from the last one. */
  function Scanned(w: World, v: View, refKeys: seq<Id>, freshId: Id, changed: bool): World
    requires Idle(w)
  {
    if NeedsReset(w.process.value.epoch, v) then Snapped(Step(w, Reset(v, freshId)))
    else if changed then Snapped(Followed(w, v, refKeys))
    else Followed(w, v, refKeys)
  }

  /** An undisturbed scan catches up: the cursor is on git's head, and every other ref listed agrees with git. */
  lemma ScanCatchesUp(w: World, v: View, refKeys: seq<Id>, freshId: Id, changed: bool)
    requires Idle(w) && v.head.Some? && !NeedsReset(w.process.value.epoch, v)
    ensures var r := Scanned(w, v, refKeys, freshId, changed);
      && Idle(r) && r.process.value.epoch.cursorHead == v.head && r.process.value.epoch.cursorRef == v.refKey
      && forall ref :: ref in refKeys && Some(ref) != v.refKey ==> Settled(r, v, ref)
  {
    var mid := Step(Step(w, ObserveHead(v)), Persist);
    HeadCaughtUp(w, v);
    RefsSettle(mid, v, refKeys);
    RefsKeepCursor(mid, v, refKeys);
    SnapKeepsHeads(AfterRefs(mid, v, refKeys));
  }

  lemma HeadCaughtUp(w: World, v: View)
    requires Idle(w) && v.head.Some? && !NeedsReset(w.process.value.epoch, v)
    ensures var r := Step(Step(w, ObserveHead(v)), Persist);
      Idle(r) && r.process.value.epoch.cursorHead == v.head && r.process.value.epoch.cursorRef == v.refKey
  {
  }

  lemma SnapKeepsHeads(w: World)
    requires Idle(w)
    ensures var r, e := Snapped(w), w.process.value.epoch;
      Idle(r) && r.process.value.epoch == e.(nextSequence := e.nextSequence + 1)
  {
  }

  lemma {:induction false} RefsKeepCursor(w: World, v: View, refs: seq<Id>)
    requires Idle(w)
    ensures var r := AfterRefs(w, v, refs);
      && Idle(r) && r.process.value.epoch.cursorHead == w.process.value.epoch.cursorHead
      && r.process.value.epoch.cursorRef == w.process.value.epoch.cursorRef
  {
    if refs != [] { RefsKeepCursor(w, v, refs[..|refs| - 1]); }
  }

  /** Undisturbed scans keep sequence numbers distinct and skip no commit. */
  lemma ScanSound(w: World, v: View, refKeys: seq<Id>, freshId: Id, changed: bool)
    requires Sound(w) && Idle(w)
    ensures Sound(Scanned(w, v, refKeys, freshId, changed))
  {
    if NeedsReset(w.process.value.epoch, v) {
      StepSound(w, Reset(v, freshId));
      SnappedSound(Step(w, Reset(v, freshId)));
    } else {
      StepSound(w, ObserveHead(v));
      StepSound(Step(w, ObserveHead(v)), Persist);
      var mid := Step(Step(w, ObserveHead(v)), Persist);
      RefsSound(mid, v, refKeys);
      SnappedSound(AfterRefs(mid, v, refKeys));
    }
  }

  lemma {:induction false} RefsSound(w: World, v: View, refs: seq<Id>)
    requires Sound(w)
    ensures Sound(AfterRefs(w, v, refs))
  {
    if refs != [] {
      var n := |refs| - 1;
      var before := AfterRefs(w, v, refs[..n]);
      RefsSound(w, v, refs[..n]);
      StepSound(before, ObserveRef(v, refs[n]));
      StepSound(Step(before, ObserveRef(v, refs[n])), Persist);
    }
  }

  class DefaultRepositoryObservation {
    var epoch: Option<Epoch>
    var signature: Option<Id>
    var storedEpoch: Option<Epoch>
    var storedCandidates: map<Key, Observed>
    var published: seq<Snapshot>
    ghost var work: Work
    ghost var passed: set<Key>
    ghost var storedPassed: set<Key>
    ghost var usedIds: set<Id>

    ghost function Now(): World
      reads this
    {
      World(if epoch.Some? then Some(Process(epoch.value, work, passed)) else None,
            storedEpoch, storedCandidates, published, storedPassed, usedIds)
    }

    /** No write is outstanding. */
    ghost predicate Valid()
      reads this
    {
      epoch.Some? ==> work == Ready
    }

    constructor ()
      ensures Valid() && Now() == EMPTY
    {
      epoch, signature, storedEpoch, storedCandidates, published := None, None, None, map[], [];
      work, passed, storedPassed, usedIds := Ready, {}, {}, {};
    }

    /** Resumes the stored epoch or begins a new one. */
    method Start(v: View, intact: bool, freshId: Id)
      requires Valid() && epoch.None? && freshId !in usedIds
      modifies this
      ensures Valid() && epoch.Some?
      ensures Now() == Step(old(Now()), Boot(v, intact, freshId))
    {
      signature := None;
      work := Ready;
      passed := storedPassed;
      if intact && storedEpoch.Some?
        && (storedEpoch.value.cursorHead.Some? || storedEpoch.value.initialHead.None? || v.head.None?) {
        epoch := storedEpoch;
      } else {
        epoch := Some(CreateEpoch(freshId, v));
        storedEpoch := epoch;
        usedIds := usedIds + {freshId};
      }
    }

    /** Numbers the commits whose diff can be read. */
    method CandidatesForCommits(ref: Option<Id>, commits: seq<Id>, readable: Id -> bool) returns (cs: seq<Observed>)
      requires epoch.Some?
      modifies this`epoch
      ensures cs == Candidates(old(epoch).value.epochId, ref, commits, readable, old(epoch).value.nextSequence)
      ensures epoch == Some(old(epoch).value.(nextSequence := old(epoch).value.nextSequence + |cs|))
    {
      cs := [];
      for i := 0 to |commits|
        invariant cs == Candidates(old(epoch).value.epochId, ref, commits[..i], readable, old(epoch).value.nextSequence)
        invariant epoch == Some(old(epoch).value.(nextSequence := old(epoch).value.nextSequence + |cs|))
      {
        assert commits[..i + 1][..i] == commits[..i];
        if readable(commits[i]) {
          var observedSequence := epoch.value.nextSequence;
          epoch := Some(epoch.value.(nextSequence := observedSequence + 1));
          cs := cs + [Observed(epoch.value.epochId, ref, commits[i], observedSequence)];
        }
      }
      assert commits[..|commits|] == commits;
    }

    /** `persistCandidatesAndAdvance`: one transaction for the candidates and the epoch. */
    method PersistCandidatesAndAdvance(cs: seq<Observed>)
      requires epoch.Some? && work == Staged(cs)
      modifies this`storedCandidates, this`storedEpoch, this`storedPassed, this`work
      ensures Now() == Step(old(Now()), Persist) && work == Ready
    {
      for i := 0 to |cs|
        invariant storedCandidates == PutAll(old(storedCandidates), cs[..i])
        invariant storedEpoch == old(storedEpoch) && storedPassed == old(storedPassed) && work == old(work)
      {
        assert cs[..i + 1][..i] == cs[..i];
        storedCandidates := storedCandidates[KeyOf(cs[i]) := cs[i]];
      }
      assert cs[..|cs|] == cs;
      storedEpoch := epoch;
      storedPassed := passed;
      work := Ready;
    }

    /** Memory first, then the store. */
    method StageSighting(s: Sighting, v: View) returns (cs: seq<Observed>)
      requires epoch.Some? && work == Ready
      modifies this`epoch, this`work, this`passed
      ensures epoch.Some? && work == Staged(cs)
      ensures Now() == Sighted(old(Now()), old(Now()).process.value, Some(s), v)
    {
      ghost var p := Now().process.value;
      cs := CandidatesForCommits(s.ref, s.commits, v.readable);
      passed := passed + KeysOfRange(epoch.value.epochId, s.ref, s.commits, v.readable);
      epoch := Some(s.epoch.(epochId := epoch.value.epochId, nextSequence := epoch.value.nextSequence));
      work := Staged(cs);
      assert Now().process == Some(Stage(p, s, v.readable));
    }

    method ObserveCheckedOut(v: View)
      requires Valid() && epoch.Some?
      modifies this`epoch, this`work, this`passed, this`storedCandidates, this`storedEpoch, this`storedPassed
      ensures Valid() && epoch.Some?
      ensures Now() == Step(Step(old(Now()), ObserveHead(v)), Persist)
    {
      var s := HeadSighting(epoch.value, v);
      if s.Some? {
        var cs := StageSighting(s.value, v);
        PersistCandidatesAndAdvance(cs);
      }
    }

    method ObserveOtherRef(v: View, ref: Id)
      requires Valid() && epoch.Some?
      modifies this`epoch, this`work, this`passed, this`storedCandidates, this`storedEpoch, this`storedPassed
      ensures Valid() && epoch.Some?
      ensures Now() == Step(Step(old(Now()), ObserveRef(v, ref)), Persist)
    {
      var s := RefSighting(epoch.value, v, ref);
      if s.Some? {
        var cs := StageSighting(s.value, v);
        PersistCandidatesAndAdvance(cs);
      }
    }

    /** Visits every other ref that was or is known. */
    method ScanRefTransitions(v: View, refKeys: seq<Id>)
      requires Valid() && epoch.Some?
      modifies this`epoch, this`work, this`passed, this`storedCandidates, this`storedEpoch, this`storedPassed
      ensures Valid() && epoch.Some?
      ensures Now() == AfterRefs(old(Now()), v, refKeys)
    {
      for i := 0 to |refKeys|
        invariant Valid() && epoch.Some?
        invariant Now() == AfterRefs(old(Now()), v, refKeys[..i])
      {
        assert refKeys[..i + 1][..i] == refKeys[..i];
        ObserveOtherRef(v, refKeys[i]);
      }
      assert refKeys[..|refKeys|] == refKeys;
    }

    /** Takes a sequence number, writes the epoch, then hands the snapshot on. */
    method ObserveSnapshot(current: Id, force: bool)
      requires Valid() && epoch.Some?
      modifies this
      ensures Valid() && epoch.Some?
      ensures Now() == if !force && old(signature) == Some(current) then old(Now()) else Snapped(old(Now()))
    {
      if !force && signature == Some(current) {
        return;
      }
      SnappedIs(Now());
      signature := Some(current);
      var observedSequence := epoch.value.nextSequence;
      epoch := Some(epoch.value.(nextSequence := observedSequence + 1));
      storedEpoch := epoch;
      storedPassed := passed;
      published := published + [Snapshot(epoch.value.epochId, observedSequence)];
    }

    /** One scan. */
    method ScanRepo(v: View, current: Id, refKeys: seq<Id>, freshId: Id)
      requires Valid() && epoch.Some? && freshId !in usedIds
      modifies this
      ensures Valid() && epoch.Some?
      ensures Now() == Scanned(old(Now()), v, refKeys, freshId, old(signature) != Some(current))
    {
      if v.head.Some? && epoch.value.cursorHead.None? && epoch.value.initialHead.Some? {
        ResetEpoch(v, freshId);
        ObserveSnapshot(current, true);
      } else {
        FollowRefs(v, refKeys);
        ObserveSnapshot(current, false);
      }
    }

    method FollowRefs(v: View, refKeys: seq<Id>)
      requires Valid() && epoch.Some?
      modifies this`epoch, this`work, this`passed, this`storedCandidates, this`storedEpoch, this`storedPassed
      ensures Valid() && epoch.Some?
      ensures Now() == Followed(old(Now()), v, refKeys)
    {
      ObserveCheckedOut(v);
      ScanRefTransitions(v, refKeys);
    }

    method ResetEpoch(v: View, freshId: Id)
      requires Valid() && epoch.Some? && freshId !in usedIds
      modifies this`epoch, this`storedEpoch, this`passed, this`usedIds
      ensures Valid() && epoch.Some?
      ensures Now() == Step(old(Now()), Reset(v, freshId))
    {
      epoch := Some(CreateEpoch(freshId, v));
      storedEpoch := epoch;
      passed := storedPassed;
      usedIds := usedIds + {freshId};
    }
  }
}
