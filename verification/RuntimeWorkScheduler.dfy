/**
 Coalescing single-flight lanes (packages/agent/src/runtimeWorkScheduler.ts).  Everything between two
 awaits is one atomic step; which step comes next is up to the environment.
 */
module RuntimeWorkScheduler {
  import opened Prelude

  type Key = Id
  type Work = Id
  type Waiter = Id

  datatype Lane = Lane(running: bool, requested: bool, work: Option<Work>, waiters: seq<Waiter>)

  /** What happened so far, in order. */
  datatype Event =
    | Enqueued(key: Key, work: Work)
    | Started(key: Key, work: Work)
    | Settled(key: Key)

  datatype World = World(generation: nat, lanes: map<Key, Lane>, log: seq<Event>, released: seq<Waiter>)

  /** The environment's moves: enqueue work, let the work in flight end or throw, wait for a lane. */
  datatype Action =
    | Enqueue(key: Key, work: Work)
    | Settle(key: Key, threw: bool)
    | Await(key: Key, waiter: Waiter)

  function LaneFor(w: World, key: Key): Lane {
    if key in w.lanes then w.lanes[key] else Lane(false, false, None, [])
  }

  predicate Running(w: World, key: Key) {
    key in w.lanes && w.lanes[key].running
  }

  /** The lane goes idle: its waiters are released, and a lane without work is forgotten. */
  function Rest(w: World, key: Key, lane: Lane): World {
    w.(lanes := if lane.work.None? then w.lanes - {key} else w.lanes[key := lane.(running := false, waiters := [])],
       released := w.released + lane.waiters)
  }

  /** The top of the run loop: take the latest work and start it. */
  function Begin(w: World, key: Key, lane: Lane): World {
    var l := lane.(requested := false);
    if l.work.None? then Rest(w, key, l)
    else w.(lanes := w.lanes[key := l], log := w.log + [Started(key, l.work.value)])
  }

  function Step(w: World, a: Action): World {
    match a
    case Enqueue(key, work) =>
      var lane := LaneFor(w, key).(work := Some(work));
      var next := w.(generation := w.generation + 1, log := w.log + [Enqueued(key, work)]);
      if lane.running then next.(lanes := w.lanes[key := lane.(requested := true)])
      else Begin(next, key, lane.(running := true))
    case Settle(key, _) =>
      if !Running(w, key) then w
      else
        var next := w.(log := w.log + [Settled(key)]);
        if w.lanes[key].requested then Begin(next, key, w.lanes[key]) else Rest(next, key, w.lanes[key])
    case Await(key, waiter) =>
      if !Running(w, key) then w.(released := w.released + [waiter])
      else w.(lanes := w.lanes[key := w.lanes[key].(waiters := w.lanes[key].waiters + [waiter])])
  }

  function Steps(w: World, actions: seq<Action>): World {
    if actions == [] then w else Step(Steps(w, actions[..|actions| - 1]), actions[|actions| - 1])
  }

  const FRESH := World(0, map[], [], [])

  // ---- what the log says of one lane ----------------------------------------------------------------

  /** Runs begun and not yet ended. */
  function InFlight(log: seq<Event>, key: Key): int {
    if log == [] then 0
    else
      var e := log[|log| - 1];
      InFlight(log[..|log| - 1], key)
      + if e == Settled(key) then -1 else if e.Started? && e.key == key then 1 else 0
  }

  /** The work of the latest enqueue. */
  function Latest(log: seq<Event>, key: Key): Option<Work> {
    if log == [] then None
    else
      var e := log[|log| - 1];
      if e.Enqueued? && e.key == key then Some(e.work) else Latest(log[..|log| - 1], key)
  }

  /** Is there an enqueue no run has started after? */
  predicate Unserved(log: seq<Event>, key: Key) {
    log != [] &&
    var e := log[|log| - 1];
    if e.Enqueued? && e.key == key then true
    else if e.Started? && e.key == key then false
    else Unserved(log[..|log| - 1], key)
  }

  function Enqueues(log: seq<Event>): nat {
    if log == [] then 0 else Enqueues(log[..|log| - 1]) + if log[|log| - 1].Enqueued? then 1 else 0
  }

  /** At no time are two runs of a lane in flight, and a run always takes the latest work. */
  ghost predicate SingleFlight(log: seq<Event>) {
    && (forall n, key :: 0 <= n <= |log| ==> 0 <= InFlight(log[..n], key) <= 1)
    && (forall n :: 0 <= n < |log| && log[n].Started? ==> Latest(log[..n], log[n].key) == Some(log[n].work))
  }

  lemma NextEvent(log: seq<Event>, e: Event, key: Key)
    ensures InFlight(log + [e], key) ==
      InFlight(log, key) + if e == Settled(key) then -1 else if e.Started? && e.key == key then 1 else 0
    ensures Latest(log + [e], key) == if e.Enqueued? && e.key == key then Some(e.work) else Latest(log, key)
    ensures Unserved(log + [e], key) <==>
      if e.Enqueued? && e.key == key then true else if e.Started? && e.key == key then false else Unserved(log, key)
    ensures Enqueues(log + [e]) == Enqueues(log) + if e.Enqueued? then 1 else 0
  {
    assert (log + [e])[..|log|] == log;
  }

  lemma SingleFlightNext(log: seq<Event>, e: Event)
    requires SingleFlight(log)
    requires e.Started? ==> InFlight(log, e.key) == 0 && Latest(log, e.key) == Some(e.work)
    requires e.Settled? ==> InFlight(log, e.key) == 1
    ensures SingleFlight(log + [e])
  {
    var next := log + [e];
    assert log[..|log|] == log && next[..|log|] == log && next[..|next|] == next;
    forall n, key | 0 <= n <= |next| ensures 0 <= InFlight(next[..n], key) <= 1 {
      NextEvent(log, e, key);
      if n <= |log| { assert next[..n] == log[..n]; }
    }
    forall n | 0 <= n < |next| && next[n].Started? ensures Latest(next[..n], next[n].key) == Some(next[n].work) {
      if n < |log| { assert next[..n] == log[..n]; }
    }
  }

  // ---- the invariant ----------------------------------------------------------------------------------

  /** The lane's fields say exactly what the log says. */
  ghost predicate LaneAgrees(w: World, key: Key) {
    var lane := LaneFor(w, key);
    && lane.running == (InFlight(w.log, key) == 1)
    && (!lane.running ==> InFlight(w.log, key) == 0)
    && lane.requested == Unserved(w.log, key)
    && lane.work == Latest(w.log, key)
    && (key in w.lanes ==> lane.work.Some?)
    && (!lane.running ==> !lane.requested && lane.waiters == [])
  }

  ghost predicate Good(w: World) {
    && SingleFlight(w.log)
    && w.generation == Enqueues(w.log)
    && forall key :: LaneAgrees(w, key)
  }

  lemma StepKeepsGood(w: World, a: Action)
    requires Good(w)
    ensures Good(Step(w, a))
  {
    match a
    case Enqueue(key, work) => EnqueueKeepsGood(w, key, work);
    case Settle(key, threw) => if Running(w, key) { SettleKeepsGood(w, key, threw); } else { assert LaneAgrees(w, key); }
    case Await(key, waiter) => AwaitKeepsGood(w, key, waiter);
  }

  lemma AwaitKeepsGood(w: World, key: Key, waiter: Waiter)
    requires Good(w)
    ensures Good(Step(w, Await(key, waiter)))
  {
    var next := Step(w, Await(key, waiter));
    forall k ensures LaneAgrees(next, k) { assert LaneAgrees(w, k); }
  }

  /** Events of another lane do not concern this one. */
  lemma OtherLane(w: World, e: Event, key: Key)
    requires LaneAgrees(w, key) && e.key != key
    ensures LaneAgrees(w.(log := w.log + [e]), key)
  {
    NextEvent(w.log, e, key);
  }

  /** Starting the latest work of an idle lane whose latest enqueue no run has served. */
  lemma BeginKeepsGood(w: World, key: Key, lane: Lane)
    requires SingleFlight(w.log) && w.generation == Enqueues(w.log)
    requires forall k :: k != key ==> LaneAgrees(w, k)
    requires lane.running && lane.work.Some? && lane.work == Latest(w.log, key) && InFlight(w.log, key) == 0
    ensures Good(Begin(w, key, lane))
  {
    var next := Begin(w, key, lane);
    var e := Started(key, lane.work.value);
    SingleFlightNext(w.log, e);
    forall k ensures LaneAgrees(next, k) {
      NextEvent(w.log, e, k);
      if k != key { OtherLane(w, e, k); }
    }
    NextEvent(w.log, e, key);
  }

  lemma EnqueueKeepsGood(w: World, key: Key, work: Work)
    requires Good(w)
    ensures Good(Step(w, Enqueue(key, work)))
  {
    var e := Enqueued(key, work);
    var next := w.(generation := w.generation + 1, log := w.log + [e]);
    var lane := LaneFor(w, key).(work := Some(work));
    assert LaneAgrees(w, key);
    SingleFlightNext(w.log, e);
    NextEvent(w.log, e, key);
    forall k | k != key ensures LaneAgrees(next, k) { OtherLane(w, e, k); }
    if lane.running {
      forall k | k != key ensures LaneAgrees(Step(w, Enqueue(key, work)), k) { assert LaneAgrees(next, k); }
    } else {
      BeginKeepsGood(next, key, lane.(running := true));
    }
  }

  lemma SettleKeepsGood(w: World, key: Key, threw: bool)
    requires Good(w) && Running(w, key)
    ensures Good(Step(w, Settle(key, threw)))
  {
    var e := Settled(key);
    var next := w.(log := w.log + [e]);
    assert LaneAgrees(w, key);
    SingleFlightNext(w.log, e);
    NextEvent(w.log, e, key);
    forall k | k != key ensures LaneAgrees(next, k) { OtherLane(w, e, k); }
    if w.lanes[key].requested {
      BeginKeepsGood(next, key, w.lanes[key]);
    } else {
      forall k | k != key ensures LaneAgrees(Step(w, Settle(key, threw)), k) { assert LaneAgrees(next, k); }
    }
  }

  lemma {:induction false} StepsKeepGood(w: World, actions: seq<Action>)
    requires Good(w)
    ensures Good(Steps(w, actions))
  {
    if actions != [] {
      StepsKeepGood(w, actions[..|actions| - 1]);
      StepKeepsGood(Steps(w, actions[..|actions| - 1]), actions[|actions| - 1]);
    }
  }

  /** In every interleaving: at most one run of a lane in flight, on the latest work, and waiters only on running lanes. */
  lemma EveryRunIsGood(actions: seq<Action>)
    ensures Good(Steps(FRESH, actions))
  {
    StepsKeepGood(FRESH, actions);
  }

  // ---- no enqueue is lost -------------------------------------------------------------------------------

  lemma {:induction false} ServedAfter(log: seq<Event>, key: Key, i: nat) returns (j: nat)
    requires i < |log| && log[i].Enqueued? && log[i].key == key && !Unserved(log, key)
    ensures i < j < |log| && log[j].Started? && log[j].key == key
  {
    var n := |log| - 1;
    if log[n].Started? && log[n].key == key {
      j := n;
    } else {
      j := ServedAfter(log[..n], key, i);
    }
  }

  lemma {:induction false} EndedAfter(log: seq<Event>, key: Key, j: nat) returns (k: nat)
    requires SingleFlight(log)
    requires j < |log| && log[j].Started? && log[j].key == key && InFlight(log, key) == 0
    ensures j < k < |log| && log[k] == Settled(key)
  {
    var n := |log| - 1;
    if log[n] == Settled(key) {
      k := n;
      if j == n {}
    } else {
      assert log[..|log|] == log;
      assert 0 <= InFlight(log[..n], key) <= 1;
      assert forall m :: 0 <= m <= n ==> log[..n][..m] == log[..m];
      k := EndedAfter(log[..n], key, j);
    }
  }

  /**
   No enqueue is lost: once its lane is idle, a run started after it, on the work that was the
   latest by then, and that run has ended.  While the lane runs unrequested, the run in flight
   is that run.
   */
  lemma NoEnqueueLost(actions: seq<Action>, i: nat)
    requires var w := Steps(FRESH, actions);
      i < |w.log| && w.log[i].Enqueued? && !LaneFor(w, w.log[i].key).requested
    ensures var w := Steps(FRESH, actions);
      exists j :: i < j < |w.log| && w.log[j].Started? && w.log[j].key == w.log[i].key
        && Latest(w.log[..j], w.log[i].key) == Some(w.log[j].work)
        && (!Running(w, w.log[i].key) ==> exists k :: j < k < |w.log| && w.log[k] == Settled(w.log[i].key))
  {
    var w := Steps(FRESH, actions);
    var key := w.log[i].key;
    EveryRunIsGood(actions);
    assert LaneAgrees(w, key);
    var j := ServedAfter(w.log, key, i);
    if !Running(w, key) { var k := EndedAfter(w.log, key, j); }
  }

  // ---- draining -----------------------------------------------------------------------------------------

  /** Every running lane gets a waiter; the drain is over when no lane holds one. */
  function Drain(w: World, waiter: Waiter): (r: World)
    ensures r.generation == w.generation && r.log == w.log && r.lanes.Keys == w.lanes.Keys
  {
    w.(lanes := map key | key in w.lanes ::
      if w.lanes[key].running then w.lanes[key].(waiters := w.lanes[key].waiters + [waiter]) else w.lanes[key])
  }

  predicate Drained(w: World, waiter: Waiter) {
    forall key | key in w.lanes :: waiter !in w.lanes[key].waiters
  }

  predicate AllIdle(w: World) {
    forall key | key in w.lanes :: !w.lanes[key].running
  }

  ghost predicate HoldsAll(w: World, waiter: Waiter) {
    forall key :: Running(w, key) ==> waiter in w.lanes[key].waiters
  }

  lemma DrainKeepsGood(w: World, waiter: Waiter)
    requires Good(w)
    ensures Good(Drain(w, waiter)) && HoldsAll(Drain(w, waiter), waiter)
  {
    forall key ensures LaneAgrees(Drain(w, waiter), key) { assert LaneAgrees(w, key); }
  }

  predicate NoEnqueue(actions: seq<Action>) {
    forall a | a in actions :: !a.Enqueue?
  }

  lemma {:induction false} GenerationCounts(w: World, actions: seq<Action>)
    ensures Steps(w, actions).generation >= w.generation
    ensures Steps(w, actions).generation == w.generation <==> NoEnqueue(actions)
  {
    if actions != [] {
      var n := |actions| - 1;
      GenerationCounts(w, actions[..n]);
      assert actions == actions[..n] + [actions[n]];
    }
  }

  lemma {:induction false} StillHeld(w: World, actions: seq<Action>, waiter: Waiter)
    requires HoldsAll(w, waiter) && NoEnqueue(actions)
    ensures HoldsAll(Steps(w, actions), waiter)
  {
    if actions != [] {
      var n := |actions| - 1;
      assert actions == actions[..n] + [actions[n]];
      StillHeld(w, actions[..n], waiter);
      StepHeld(Steps(w, actions[..n]), actions[n], waiter);
    }
  }

  lemma StepHeld(w: World, a: Action, waiter: Waiter)
    requires HoldsAll(w, waiter) && !a.Enqueue?
    ensures HoldsAll(Step(w, a), waiter)
  {
    forall key | Running(Step(w, a), key) ensures waiter in Step(w, a).lanes[key].waiters {
      assert Running(w, key);
    }
  }

  /**
   One round of a drain, with any steps in between: when the round's waiters are all released,
   the stable-generation check passes exactly when nothing was enqueued since the round began,
   and then every lane is idle.
   */
  lemma RoundResult(w: World, waiter: Waiter, actions: seq<Action>)
    requires Drained(Steps(Drain(w, waiter), actions), waiter)
    ensures var r := Steps(Drain(w, waiter), actions);
      (r.generation == w.generation && AllIdle(r)) <==> NoEnqueue(actions)
  {
    var d := Drain(w, waiter);
    GenerationCounts(d, actions);
    if NoEnqueue(actions) {
      StillHeld(d, actions, waiter);
      var r := Steps(d, actions);
      forall key | key in r.lanes ensures !Running(r, key) { assert waiter !in r.lanes[key].waiters; }
    }
  }

  /** The scheduler after some rounds, each with its own interleaved steps. */
  function AfterRounds(w: World, waiter: Waiter, rounds: seq<seq<Action>>): World {
    if rounds == [] then w
    else Steps(Drain(AfterRounds(w, waiter, rounds[..|rounds| - 1]), waiter), rounds[|rounds| - 1])
  }

  /** Each round lasts until its waiters are released. */
  ghost predicate RoundsDrain(w: World, waiter: Waiter, rounds: seq<seq<Action>>) {
    forall n :: 0 < n <= |rounds| ==> Drained(AfterRounds(w, waiter, rounds[..n]), waiter)
  }

  lemma NextRound(w: World, waiter: Waiter, rounds: seq<seq<Action>>, n: nat)
    requires n < |rounds| && RoundsDrain(w, waiter, rounds)
    ensures AfterRounds(w, waiter, rounds[..n + 1]) == Steps(Drain(AfterRounds(w, waiter, rounds[..n]), waiter), rounds[n])
    ensures Drained(AfterRounds(w, waiter, rounds[..n + 1]), waiter)
  {
    assert rounds[..n + 1][..n] == rounds[..n];
  }

  /** No run is in flight and no enqueue waits for one. */
  ghost predicate AllServed(log: seq<Event>) {
    forall key :: InFlight(log, key) == 0 && !Unserved(log, key)
  }

  lemma IdleIsServed(w: World)
    requires Good(w) && AllIdle(w)
    ensures AllServed(w.log)
  {
    forall key ensures InFlight(w.log, key) == 0 && !Unserved(w.log, key) { assert LaneAgrees(w, key); }
  }

  /** Something was enqueued in every round. */
  ghost predicate AllBusy(rounds: seq<seq<Action>>) {
    forall n :: 0 <= n < |rounds| ==> !NoEnqueue(rounds[n])
  }

  lemma BusyPrefix(rounds: seq<seq<Action>>, n: nat, m: nat)
    requires n < m <= |rounds| && AllBusy(rounds[..n])
    ensures NoEnqueue(rounds[n]) ==> !AllBusy(rounds[..m])
    ensures !NoEnqueue(rounds[n]) ==> AllBusy(rounds[..n + 1])
  {
    assert rounds[..m][n] == rounds[n];
    forall k | 0 <= k < n ensures rounds[..n + 1][k] == rounds[..n][k] {}
  }

  class Scheduler {
    var generation: nat
    var states: map<Key, Lane>
    ghost var log: seq<Event>
    ghost var released: seq<Waiter>

    ghost function Now(): World
      reads this
    {
      World(generation, states, log, released)
    }

    constructor ()
      ensures Now() == FRESH
    {
      generation, states, log, released := 0, map[], [], [];
    }

    method Enqueue(key: Key, work: Work)
      modifies this
      ensures Now() == Step(old(Now()), Action.Enqueue(key, work))
    {
      generation := generation + 1;
      log := log + [Enqueued(key, work)];
      var lane := StateFor(key);
      lane := lane.(work := Some(work));
      if lane.running {
        states := states[key := lane.(requested := true)];
        return;
      }
      StartRun(key, lane.(running := true));
    }

    method StateFor(key: Key) returns (lane: Lane)
      ensures lane == LaneFor(Now(), key)
    {
      lane := if key in states then states[key] else Lane(false, false, None, []);
    }

    /** Up to the first await of `run`. */
    method StartRun(key: Key, lane: Lane)
      modifies this
      ensures Now() == Begin(old(Now()), key, lane)
    {
      var state := lane.(requested := false);
      if state.work.None? {
        GoIdle(key, state);
        return;
      }
      states := states[key := state];
      log := log + [Started(key, state.work.value)];
    }

    method GoIdle(key: Key, lane: Lane)
      modifies this
      ensures Now() == Rest(old(Now()), key, lane)
    {
      states := states[key := lane.(running := false, waiters := [])];
      released := released + lane.waiters;
      if lane.work.None? {
        states := states - {key};
      }
    }

    /** The work in flight ends or throws; both ways lead on to requested work, or to rest. */
    method Settle(key: Key, threw: bool)
      requires Running(Now(), key)
      modifies this
      ensures Now() == Step(old(Now()), Action.Settle(key, threw))
    {
      log := log + [Settled(key)];
      var lane := states[key];
      if !threw && lane.requested {
        StartRun(key, lane);
        return;
      }
      if !lane.requested {
        GoIdle(key, lane);
        return;
      }
      StartRun(key, lane);
    }

    method DrainKey(key: Key, waiter: Waiter)
      modifies this
      ensures Now() == Step(old(Now()), Await(key, waiter))
    {
      if key !in states || !states[key].running {
        released := released + [waiter];
        return;
      }
      states := states[key := states[key].(waiters := states[key].waiters + [waiter])];
    }

    method IsIdle() returns (idle: bool)
      ensures idle == AllIdle(Now())
    {
      idle := forall key | key in states :: !states[key].running;
    }

    /** The steps other callers take while this one awaits. */
    method Meanwhile(actions: seq<Action>)
      modifies this
      ensures Now() == Steps(old(Now()), actions)
    {
      ghost var start := Now();
      for i := 0 to |actions|
        invariant Now() == Steps(start, actions[..i])
      {
        assert actions[..i + 1][..i] == actions[..i];
        match actions[i]
        case Enqueue(key, work) => Enqueue(key, work);
        case Settle(key, threw) => if key in states && states[key].running { Settle(key, threw); }
        case Await(key, waiter) => DrainKey(key, waiter);
      }
      assert actions[..|actions|] == actions;
    }

    /** One round, up to its stable-generation check. */
    method DrainRound(waiter: Waiter, actions: seq<Action>) returns (settled: bool)
      requires Good(Now()) && Drained(Steps(Drain(Now(), waiter), actions), waiter)
      modifies this
      ensures Now() == Steps(Drain(old(Now()), waiter), actions) && Good(Now())
      ensures settled <==> NoEnqueue(actions)
      ensures settled ==> AllIdle(Now()) && AllServed(log)
    {
      ghost var w := Now();
      var before := generation;
      states := map key | key in states ::
        if states[key].running then states[key].(waiters := states[key].waiters + [waiter]) else states[key];
      assert Now() == Drain(w, waiter);
      Meanwhile(actions);
      DrainKeepsGood(w, waiter);
      StepsKeepGood(Drain(w, waiter), actions);
      RoundResult(w, waiter, actions);
      var idle := IsIdle();
      settled := before == generation && idle;
      if settled { IdleIsServed(Now()); }
    }

    /**
     True exactly when within the round limit some round saw nothing enqueued; then that is the
     last round, every lane is idle, and no enqueue so far waits for a run.
     */
    method DrainToFixedPoint(maxRounds: int, waiter: Waiter, rounds: seq<seq<Action>>) returns (settled: bool, taken: nat)
      requires Good(Now()) && |rounds| >= maxRounds
      requires RoundsDrain(Now(), waiter, rounds)
      modifies this
      ensures taken <= |rounds| && (taken <= maxRounds || taken == 0)
      ensures Now() == AfterRounds(old(Now()), waiter, rounds[..taken]) && Good(Now())
      ensures settled ==> taken > 0 && NoEnqueue(rounds[taken - 1]) && AllIdle(Now())
      ensures settled ==> AllServed(log)
      ensures !settled <==> AllBusy(rounds[..MaxInt(0, maxRounds)])
    {
      ghost var start := Now();
      taken := 0;
      while taken < maxRounds
        invariant 0 <= taken && (taken <= maxRounds || taken == 0)
        invariant Now() == AfterRounds(start, waiter, rounds[..taken]) && Good(Now())
        invariant AllBusy(rounds[..taken])
      {
        NextRound(start, waiter, rounds, taken);
        BusyPrefix(rounds, taken, maxRounds);
        settled := DrainRound(waiter, rounds[taken]);
        taken := taken + 1;
        if settled {
          return;
        }
      }
      return false, taken;
    }
  }
}
