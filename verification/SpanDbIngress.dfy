/**
 Polling the Copilot span database (packages/agent/src/copilotSpanDbIngress.ts): an ordered poll with
 a revisit window, and the barrier that seals it.  Everything between two awaits is one atomic step.
 */
module SpanDbIngress {
  import opened Prelude

  const REVISIT_WINDOW_MS := 5 * 60 * 1_000
  const REMEMBERED := 20_000

  /** A span row together with the digest of its content, attributes and events. */
  datatype Span = Span(id: Option<Id>, start: Time, revision: Id)

  datatype Seen = Seen(id: Id, revision: Id)

  /** The poll in flight: rows still to visit, the one in durable admission, and whether it was cut short. */
  datatype Poll = Poll(todo: seq<Span>, admitting: Option<Span>, cut: bool)

  datatype Ingress = Ingress(
    lastStart: Time,
    initialized: bool,
    seen: seq<Seen>,
    sealed: bool,
    poll: Option<Poll>,
    dispatches: nat,
    accepted: seq<Span>)

  /** What a poll finds: no readable database, a table whose rows fail to load after its maximum, or its rows. */
  datatype Table = Missing | LostAfterMax(rows: seq<Span>) | Loaded(rows: seq<Span>)

  /**
   A tick finds the table in one of these ways.  `readable` bounds how many rows can be read
   before the database fails.  The row in admission is accepted or fails; meanwhile it may dispatch.
   */
  datatype Action =
    | Tick(table: Table, readable: Option<nat>)
    | Admitted(ok: bool, readable: Option<nat>)
    | PollEnd
    | DispatchBegin
    | DispatchEnd
    | Seal
    | Unseal(table: Table, readable: Option<nat>)

  // ---- one poll ---------------------------------------------------------------------------------------

  function LowerBound(lastStart: Time): Time {
    MaxInt(0, lastStart - REVISIT_WINDOW_MS)
  }

  function MaxStart(rows: seq<Span>): (t: Time)
    ensures forall s :: s in rows ==> s.start <= t
  {
    if rows == [] then 0
    else if |rows| == 1 then rows[0].start
    else MaxInt(MaxStart(rows[1..]), rows[0].start)
  }

  /** `ORDER BY start_time_ms`; ties are broken by span id, which plays no part here. */
  ghost predicate Ordered(rows: seq<Span>) {
    forall i, j :: 0 <= i < j < |rows| ==> rows[i].start <= rows[j].start
  }

  function Selected(lowerBound: Time, rows: seq<Span>): (r: seq<Span>)
    ensures forall s :: s in r <==> s in rows && lowerBound <= s.start
    ensures Ordered(rows) ==> Ordered(r)
  {
    if rows == [] then []
    else
      var r := Selected(lowerBound, rows[1..]);
      if lowerBound <= rows[0].start then [rows[0]] + r else r
  }

  function SeenIndex(seen: seq<Seen>, id: Id): (i: nat)
    ensures i <= |seen|
    ensures i < |seen| ==> seen[i].id == id
    ensures forall j :: 0 <= j < i ==> seen[j].id != id
  {
    if seen == [] then 0 else if seen[0].id == id then 0 else 1 + SeenIndex(seen[1..], id)
  }

  predicate WasSeen(seen: seq<Seen>, id: Id, revision: Id) {
    var i := SeenIndex(seen, id);
    i < |seen| && seen[i].revision == revision
  }

  /** A new revision keeps its span's place; beyond the limit the oldest span is forgotten. */
  function Remember(seen: seq<Seen>, id: Id, revision: Id): seq<Seen> {
    var i := SeenIndex(seen, id);
    var next := if i < |seen| then seen[i := Seen(id, revision)] else seen + [Seen(id, revision)];
    if |next| <= REMEMBERED then next else next[1..]
  }

  /** Visits rows up to the first that needs durable admission. */
  function Scan(st: Ingress, todo: seq<Span>, readable: Option<nat>): Ingress
    decreases |todo|
  {
    if todo == [] then st.(poll := Some(Poll([], None, false)))
    else if st.sealed then st.(poll := Some(Poll([], None, true)))
    else if todo[0].id.None? then Scan(st, todo[1..], readable)
    else if readable == Some(0) then st.(poll := Some(Poll([], None, true)))
    else if WasSeen(st.seen, todo[0].id.value, todo[0].revision) then Scan(st, todo[1..], OneRead(readable))
    else st.(poll := Some(Poll(todo[1..], Some(todo[0]), false)))
  }

  function OneRead(readable: Option<nat>): Option<nat>
    requires readable != Some(0)
  {
    if readable.Some? then Some(readable.value - 1) else None
  }

  function StartPoll(st: Ingress, table: Table, readable: Option<nat>): Ingress {
    if st.poll.Some? || st.sealed then st
    else if table.Missing? then st.(poll := Some(Poll([], None, true)))
    else
      var s := Initialized(st, table.rows);
      if table.LostAfterMax? then s.(poll := Some(Poll([], None, true)))
      else Scan(s, Selected(LowerBound(s.lastStart), table.rows), readable)
  }

  /** The first poll that reaches the table begins at its newest start. */
  function Initialized(st: Ingress, rows: seq<Span>): Ingress {
    if st.initialized then st else st.(lastStart := MaxStart(rows), initialized := true)
  }

  predicate Admitting(st: Ingress) {
    st.poll.Some? && st.poll.value.admitting.Some?
  }

  function Admit(st: Ingress, ok: bool, readable: Option<nat>): Ingress
    requires Admitting(st) && st.poll.value.admitting.value.id.Some?
  {
    var s := st.poll.value.admitting.value;
    if !ok then st.(poll := Some(Poll([], None, true)))
    else
      Scan(st.(seen := Remember(st.seen, s.id.value, s.revision),
               lastStart := MaxInt(st.lastStart, s.start),
               accepted := st.accepted + [s]),
           st.poll.value.todo, readable)
  }

  /** A step that is not possible in the current state changes nothing. */
  function Step(st: Ingress, a: Action): Ingress {
    match a
    case Tick(table, readable) => StartPoll(st, table, readable)
    case Admitted(ok, readable) =>
      if Admitting(st) && st.poll.value.admitting.value.id.Some? then Admit(st, ok, readable) else st
    case PollEnd => if st.poll.Some? && st.poll.value.admitting.None? then st.(poll := None) else st
    case DispatchBegin => if Admitting(st) then st.(dispatches := st.dispatches + 1) else st
    case DispatchEnd => if st.dispatches > 0 then st.(dispatches := st.dispatches - 1) else st
    case Seal => st.(sealed := true)
    case Unseal(table, readable) => StartPoll(st.(sealed := false), table, readable)
  }

  function Steps(st: Ingress, actions: seq<Action>): Ingress {
    if actions == [] then st else Step(Steps(st, actions[..|actions| - 1]), actions[|actions| - 1])
  }

  const FRESH := Ingress(0, false, [], false, None, 0, [])

  // ---- what every step keeps ----------------------------------------------------------------------------

  /** This revision of the span has been accepted. */
  ghost predicate Done(accepted: seq<Span>, id: Option<Id>, revision: Id) {
    exists a :: a in accepted && a.id == id && a.revision == revision
  }

  ghost predicate PollOk(p: Poll) {
    && (p.admitting.None? ==> p.todo == [])
    && (p.admitting.Some? ==> !p.cut && p.admitting.value.id.Some? && Ordered([p.admitting.value] + p.todo))
  }

  ghost predicate SeenOk(seen: seq<Seen>, accepted: seq<Span>) {
    && |seen| <= REMEMBERED
    && (forall i, j :: 0 <= i < j < |seen| ==> seen[i].id != seen[j].id)
    && (forall e :: e in seen ==> Done(accepted, Some(e.id), e.revision))
  }

  ghost predicate Valid(st: Ingress) {
    (st.poll.Some? ==> PollOk(st.poll.value)) && SeenOk(st.seen, st.accepted)
  }

  ghost predicate OrderedRows(a: Action) {
    (a.Tick? || a.Unseal?) && a.table.Loaded? ==> Ordered(a.table.rows)
  }

  /** The row put up for admission is one whose revision is not remembered, and no seal is set. */
  ghost predicate AdmitsNew(st: Ingress)
    requires Admitting(st)
  {
    var s := st.poll.value.admitting.value;
    !st.sealed && !st.poll.value.cut && s.id.Some? && !WasSeen(st.seen, s.id.value, s.revision)
  }

  /** A scan changes the poll only, and what it puts up for admission is new. */
  lemma {:induction false} ScanResult(st: Ingress, todo: seq<Span>, readable: Option<nat>)
    requires Ordered(todo)
    ensures var r := Scan(st, todo, readable);
      && r.poll.Some? && r == st.(poll := r.poll) && PollOk(r.poll.value)
      && (Admitting(r) ==> AdmitsNew(r))
    decreases |todo|
  {
    if todo != [] {
      assert [todo[0]] + todo[1..] == todo;
      ScanResult(st, todo[1..], readable);
      if readable != Some(0) { ScanResult(st, todo[1..], OneRead(readable)); }
    }
  }

  lemma RememberOk(seen: seq<Seen>, accepted: seq<Span>, s: Span)
    requires SeenOk(seen, accepted) && s.id.Some?
    ensures SeenOk(Remember(seen, s.id.value, s.revision), accepted + [s])
  {
    assert s in accepted + [s];
    var next := Remember(seen, s.id.value, s.revision);
    forall e | e in next ensures Done(accepted + [s], Some(e.id), e.revision) {
      if e in seen {
        var a :| a in accepted && a.id == Some(e.id) && a.revision == e.revision;
        assert a in accepted + [s];
      }
    }
  }

  /** Remembering one revision forgets nothing but, when the memory is full, the oldest span. */
  lemma RememberKeeps(seen: seq<Seen>, id: Id, revision: Id, e: Seen)
    requires |seen| <= REMEMBERED && forall i, j :: 0 <= i < j < |seen| ==> seen[i].id != seen[j].id
    ensures WasSeen(Remember(seen, id, revision), id, revision)
    ensures e in seen && e.id != id ==> e in Remember(seen, id, revision) || (|seen| == REMEMBERED && e == seen[0])
  {
    var i := SeenIndex(seen, id);
    var next := if i < |seen| then seen[i := Seen(id, revision)] else seen + [Seen(id, revision)];
    var kept := Remember(seen, id, revision);
    var at := if i < |seen| then i else |seen|;
    assert next[at] == Seen(id, revision);
    assert forall j :: 0 <= j < |next| && j != at ==> next[j] == seen[j] && next[j].id != id;
    if |next| <= REMEMBERED {
      assert kept == next;
    } else {
      assert kept == next[1..] && at == |seen| && kept[at - 1] == next[at];
    }
    var k := SeenIndex(kept, id);
    if e in seen && e.id != id {
      var j :| 0 <= j < |seen| && seen[j] == e;
      assert next[j] == e;
      if |next| > REMEMBERED && j > 0 { assert kept[j - 1] == e; }
    }
  }

  lemma StepKeepsValid(st: Ingress, a: Action)
    requires Valid(st) && OrderedRows(a)
    ensures Valid(Step(st, a))
  {
    match a
    case Tick(table, readable) => StartKeepsValid(st, table, readable);
    case Unseal(table, readable) => StartKeepsValid(st.(sealed := false), table, readable);
    case Admitted(ok, readable) =>
      if Admitting(st) && ok {
        var s := st.poll.value.admitting.value;
        RememberOk(st.seen, st.accepted, s);
        TodoOrdered(s, st.poll.value.todo);
        ScanResult(AfterAccept(st), st.poll.value.todo, readable);
      }
    case _ =>
  }

  lemma StartKeepsValid(st: Ingress, table: Table, readable: Option<nat>)
    requires Valid(st) && (table.Loaded? ==> Ordered(table.rows))
    ensures Valid(StartPoll(st, table, readable))
  {
    if table.Loaded? {
      var s := Initialized(st, table.rows);
      ScanResult(s, Selected(LowerBound(s.lastStart), table.rows), readable);
    }
  }

  ghost function AfterAccept(st: Ingress): Ingress
    requires Admitting(st) && st.poll.value.admitting.value.id.Some?
  {
    var s := st.poll.value.admitting.value;
    st.(seen := Remember(st.seen, s.id.value, s.revision),
        lastStart := MaxInt(st.lastStart, s.start),
        accepted := st.accepted + [s])
  }

  lemma TodoOrdered(s: Span, todo: seq<Span>)
    requires Ordered([s] + todo)
    ensures Ordered(todo) && forall t :: t in todo ==> s.start <= t.start
  {
    var all := [s] + todo;
    forall i | 0 <= i < |todo| ensures s.start <= todo[i].start { assert all[0].start <= all[i + 1].start; }
    forall i, j | 0 <= i < j < |todo| ensures todo[i].start <= todo[j].start {
      assert all[i + 1].start <= all[j + 1].start;
    }
  }

  lemma {:induction false} StepsKeepValid(st: Ingress, actions: seq<Action>)
    requires Valid(st) && forall a :: a in actions ==> OrderedRows(a)
    ensures Valid(Steps(st, actions))
  {
    if actions != [] {
      var n := |actions| - 1;
      assert actions == actions[..n] + [actions[n]];
      StepsKeepValid(st, actions[..n]);
      StepKeepsValid(Steps(st, actions[..n]), actions[n]);
    }
  }

  /** In every run at most 20 000 spans are remembered, each by a revision that was really accepted. */
  lemma RememberedWereAccepted(actions: seq<Action>)
    requires forall a :: a in actions ==> OrderedRows(a)
    ensures SeenOk(Steps(FRESH, actions).seen, Steps(FRESH, actions).accepted)
  {
    StepsKeepValid(FRESH, actions);
  }

  // ---- a selected span is not lost ----------------------------------------------------------------------

  /** Every table a poll readable still holds the span, unchanged. */
  ghost predicate StillStored(a: Action, s: Span) {
    OrderedRows(a) && ((a.Tick? || a.Unseal?) && a.table.Loaded? ==> s in a.table.rows)
  }

  /** Accepted, or within the window of the next poll and, if a poll is running, still ahead of it. */
  ghost predicate Owed(st: Ingress, s: Span) {
    Done(st.accepted, s.id, s.revision)
    || (&& st.initialized && LowerBound(st.lastStart) <= s.start
        && (st.poll.Some? && !st.poll.value.cut ==> Ahead(st.poll.value, s)))
  }

  ghost predicate Ahead(p: Poll, s: Span) {
    s in p.todo || p.admitting == Some(s)
  }

  lemma {:induction false} ScanOwes(st: Ingress, todo: seq<Span>, readable: Option<nat>, s: Span)
    requires SeenOk(st.seen, st.accepted) && s.id.Some? && s in todo
    ensures var r := Scan(st, todo, readable);
      Done(st.accepted, s.id, s.revision) || (r.poll.Some? && (r.poll.value.cut || Ahead(r.poll.value, s)))
    decreases |todo|
  {
    assert todo == [todo[0]] + todo[1..];
    if s in todo[1..] {
      ScanOwes(st, todo[1..], readable, s);
      if readable != Some(0) { ScanOwes(st, todo[1..], OneRead(readable), s); }
    } else {
      var i := SeenIndex(st.seen, s.id.value);
      if i < |st.seen| { assert st.seen[i] in st.seen; }
    }
  }

  lemma AcceptOwes(st: Ingress, readable: Option<nat>, s: Span)
    requires Valid(st) && Admitting(st) && s.id.Some? && Owed(st, s)
    ensures Owed(Admit(st, true, readable), s)
  {
    var a, todo, mid := st.poll.value.admitting.value, st.poll.value.todo, AfterAccept(st);
    TodoOrdered(a, todo);
    RememberOk(st.seen, st.accepted, a);
    ScanResult(mid, todo, readable);
    if Done(st.accepted, s.id, s.revision) {
      DoneKept(st.accepted, a, s);
    } else if a == s {
      assert a in mid.accepted;
    } else {
      ScanOwes(mid, todo, readable, s);
    }
  }

  lemma DoneKept(accepted: seq<Span>, a: Span, s: Span)
    requires Done(accepted, s.id, s.revision)
    ensures Done(accepted + [a], s.id, s.revision)
  {
    var b :| b in accepted && b.id == s.id && b.revision == s.revision;
    assert b in accepted + [a];
  }

  lemma StartOwes(st: Ingress, table: Table, readable: Option<nat>, s: Span)
    requires Valid(st) && s.id.Some? && Owed(st, s)
    requires table.Loaded? ==> Ordered(table.rows) && s in table.rows
    ensures Owed(StartPoll(st, table, readable), s)
  {
    if st.poll.None? && !st.sealed && table.Loaded? {
      var mid := Initialized(st, table.rows);
      var todo := Selected(LowerBound(mid.lastStart), table.rows);
      ScanResult(mid, todo, readable);
      if !Done(st.accepted, s.id, s.revision) { ScanOwes(mid, todo, readable, s); }
    }
  }

  lemma StepOwes(st: Ingress, a: Action, s: Span)
    requires Valid(st) && s.id.Some? && Owed(st, s) && StillStored(a, s)
    ensures Owed(Step(st, a), s)
  {
    match a
    case Tick(table, readable) => StartOwes(st, table, readable, s);
    case Unseal(table, readable) => StartOwes(st.(sealed := false), table, readable, s);
    case Admitted(ok, readable) => if Admitting(st) && ok { AcceptOwes(st, readable, s); }
    case _ =>
  }

  lemma {:induction false} StepsOwe(st: Ingress, actions: seq<Action>, s: Span)
    requires Valid(st) && s.id.Some? && Owed(st, s)
    requires forall a :: a in actions ==> StillStored(a, s)
    ensures Valid(Steps(st, actions)) && Owed(Steps(st, actions), s)
  {
    if actions != [] {
      var n := |actions| - 1;
      assert actions == actions[..n] + [actions[n]];
      StepsOwe(st, actions[..n], s);
      assert StillStored(actions[n], s);
      StepKeepsValid(Steps(st, actions[..n]), actions[n]);
      StepOwes(Steps(st, actions[..n]), actions[n], s);
    }
  }

  /** The poll a tick starts selects this span. */
  ghost predicate Selects(st: Ingress, rows: seq<Span>, s: Span) {
    st.poll.None? && !st.sealed && s in rows && LowerBound(Initialized(st, rows).lastStart) <= s.start
  }

  lemma SelectionOwes(st: Ingress, rows: seq<Span>, readable: Option<nat>, s: Span)
    requires Valid(st) && s.id.Some? && Ordered(rows) && Selects(st, rows, s)
    ensures Owed(StartPoll(st, Loaded(rows), readable), s)
  {
    var mid := Initialized(st, rows);
    var todo := Selected(LowerBound(mid.lastStart), rows);
    ScanResult(mid, todo, readable);
    if !Done(st.accepted, s.id, s.revision) { ScanOwes(mid, todo, readable, s); }
  }

  /**
   A span a poll has selected is accepted or selected again: whatever happens afterwards, errors
   and seals included, until its revision is accepted the moving window never leaves it behind.
   */
  lemma SelectedUntilAccepted(st: Ingress, rows: seq<Span>, readable: Option<nat>, actions: seq<Action>, s: Span, later: seq<Span>)
    requires Valid(st) && s.id.Some? && Ordered(rows) && Selects(st, rows, s)
    requires forall a :: a in actions ==> StillStored(a, s)
    requires s in later
    ensures var r := Steps(StartPoll(st, Loaded(rows), readable), actions);
      Done(r.accepted, s.id, s.revision) || (r.initialized && s in Selected(LowerBound(r.lastStart), later))
  {
    SelectionOwes(st, rows, readable, s);
    StartKeepsValid(st, Loaded(rows), readable);
    StepsOwe(StartPoll(st, Loaded(rows), readable), actions, s);
  }

  /** A poll that came to its end uncut has accepted every span it selected that has an id. */
  lemma CompletePollAcceptsAll(st: Ingress, rows: seq<Span>, readable: Option<nat>, actions: seq<Action>, s: Span)
    requires Valid(st) && s.id.Some? && Ordered(rows) && Selects(st, rows, s)
    requires forall a :: a in actions ==> StillStored(a, s)
    requires Steps(StartPoll(st, Loaded(rows), readable), actions).poll == Some(Poll([], None, false))
    ensures Done(Steps(StartPoll(st, Loaded(rows), readable), actions).accepted, s.id, s.revision)
  {
    SelectionOwes(st, rows, readable, s);
    StartKeepsValid(st, Loaded(rows), readable);
    StepsOwe(StartPoll(st, Loaded(rows), readable), actions, s);
  }

  // ---- the barrier ----------------------------------------------------------------------------------------

  /** No poll and no dispatch is in flight. */
  predicate Quiet(st: Ingress) {
    st.poll.None? && st.dispatches == 0
  }

  predicate NoUnseal(actions: seq<Action>) {
    forall a | a in actions :: !a.Unseal?
  }

  /** What a sealed ingress may still accept: the row already in admission, once. */
  ghost predicate AtMostAdmitted(st: Ingress, r: Ingress) {
    && r.sealed
    && (r.accepted == st.accepted
        || (Admitting(st) && r.accepted == st.accepted + [st.poll.value.admitting.value] && !Admitting(r)))
    && (Admitting(r) ==> r.poll == st.poll && r.accepted == st.accepted)
    && (st.poll.None? ==> r.poll.None?)
  }

  /** After a seal at most the one row already in durable admission is still accepted. */
  lemma {:induction false} SealAdmitsAtMostOne(st: Ingress, actions: seq<Action>)
    requires st.sealed && NoUnseal(actions)
    ensures AtMostAdmitted(st, Steps(st, actions))
  {
    if actions != [] {
      var n := |actions| - 1;
      assert actions == actions[..n] + [actions[n]];
      SealAdmitsAtMostOne(st, actions[..n]);
    }
  }

  /**
   Once a sealed ingress is quiet it stays quiet: no poll or dispatch is in flight or starts, and
   nothing more is accepted, until it is unsealed.
   */
  lemma {:induction false} SealedStaysQuiet(st: Ingress, actions: seq<Action>)
    requires st.sealed && Quiet(st) && NoUnseal(actions)
    ensures Steps(st, actions) == st
  {
    if actions != [] {
      var n := |actions| - 1;
      assert actions == actions[..n] + [actions[n]];
      SealedStaysQuiet(st, actions[..n]);
      QuietStep(st, actions[n]);
    }
  }

  lemma QuietStep(st: Ingress, a: Action)
    requires st.sealed && Quiet(st) && !a.Unseal?
    ensures Step(st, a) == st
  {
  }

  class CopilotSpanDbIngress {
    var lastStartTimeMs: Time
    var initializedFromSource: bool
    var seenSpanRevisions: seq<Seen>
    var ingressSealed: bool
    var inFlightPoll: Option<Poll>
    var inFlightDispatches: nat
    ghost var accepted: seq<Span>

    ghost function Now(): Ingress
      reads this
    {
      Ingress(lastStartTimeMs, initializedFromSource, seenSpanRevisions, ingressSealed, inFlightPoll,
              inFlightDispatches, accepted)
    }

    constructor ()
      ensures Now() == FRESH
    {
      lastStartTimeMs, initializedFromSource, seenSpanRevisions := 0, false, [];
      ingressSealed, inFlightPoll, inFlightDispatches, accepted := false, None, 0, [];
    }

    /** The loop over the selected rows, up to the next await. */
    method ScanOn(spans: seq<Span>, readable: Option<nat>)
      modifies this`inFlightPoll
      ensures Now() == Scan(old(Now()), spans, readable)
    {
      var i, left := 0, readable;
      while i < |spans|
        invariant 0 <= i <= |spans|
        invariant Scan(Now(), spans, readable) == Scan(Now(), spans[i..], left)
      {
        var span := spans[i];
        assert spans[i..][1..] == spans[i + 1..];
        if ingressSealed {
          break;
        }
        i := i + 1;
        if span.id.None? {
          continue;
        }
        if left == Some(0) {
          inFlightPoll := Some(Poll([], None, true));
          return;
        }
        if WasSeen(seenSpanRevisions, span.id.value, span.revision) {
          left := OneRead(left);
          continue;
        }
        inFlightPoll := Some(Poll(spans[i..], Some(span), false));
        return;
      }
      inFlightPoll := Some(Poll([], None, i < |spans|));
    }

    /** A timer tick. */
    method BeginPoll(table: Table, readable: Option<nat>)
      modifies this
      ensures Now() == Step(old(Now()), Tick(table, readable))
    {
      if inFlightPoll.Some? || ingressSealed {
        return;
      }
      if table.Missing? {
        inFlightPoll := Some(Poll([], None, true));
        return;
      }
      if !initializedFromSource {
        lastStartTimeMs := MaxStart(table.rows);
        initializedFromSource := true;
      }
      if table.LostAfterMax? {
        inFlightPoll := Some(Poll([], None, true));
        return;
      }
      ScanOn(Selected(LowerBound(lastStartTimeMs), table.rows), readable);
    }

    /** The durable admission of one record comes back. */
    method RecordAccepted(ok: bool, readable: Option<nat>)
      requires Admitting(Now()) && Now().poll.value.admitting.value.id.Some?
      modifies this
      ensures Now() == Step(old(Now()), Admitted(ok, readable))
    {
      var span, todo := inFlightPoll.value.admitting.value, inFlightPoll.value.todo;
      if !ok {
        inFlightPoll := Some(Poll([], None, true));
        return;
      }
      seenSpanRevisions := Remember(seenSpanRevisions, span.id.value, span.revision);
      lastStartTimeMs := MaxInt(lastStartTimeMs, span.start);
      accepted := accepted + [span];
      ScanOn(todo, readable);
    }

    /** What other callbacks do while this one awaits. */
    method Meanwhile(actions: seq<Action>)
      modifies this
      ensures Now() == Steps(old(Now()), actions)
    {
      ghost var start := Now();
      for i := 0 to |actions|
        invariant Now() == Steps(start, actions[..i])
      {
        assert actions[..i + 1][..i] == actions[..i];
        Perform(actions[i]);
      }
      assert actions[..|actions|] == actions;
    }

    method Perform(a: Action)
      modifies this
      ensures Now() == Step(old(Now()), a)
    {
      match a
      case Tick(table, readable) => BeginPoll(table, readable);
      case Admitted(ok, readable) =>
        if inFlightPoll.Some? && inFlightPoll.value.admitting.Some? && inFlightPoll.value.admitting.value.id.Some? {
          RecordAccepted(ok, readable);
        }
      case PollEnd => if inFlightPoll.Some? && inFlightPoll.value.admitting.None? { inFlightPoll := None; }
      case DispatchBegin =>
        if inFlightPoll.Some? && inFlightPoll.value.admitting.Some? { inFlightDispatches := inFlightDispatches + 1; }
      case DispatchEnd => if inFlightDispatches > 0 { inFlightDispatches := inFlightDispatches - 1; }
      case Seal => ingressSealed := true;
      case Unseal(table, readable) =>
        ingressSealed := false;
        BeginPoll(table, readable);
    }

    /**
     Waits until idle, or until the time is used up; `waits` is what happens meanwhile, one entry for
     each time the loop awaits before the deadline.
     */
    method DrainAcceptedWork(timeoutMs: int, waits: seq<seq<Action>>) returns (drained: bool, n: nat)
      modifies this
      ensures n <= |waits| && Now() == AfterWaits(old(Now()), waits[..n])
      ensures drained ==> timeoutMs > 0 && Quiet(Now())
    {
      ghost var start := Now();
      n := 0;
      if timeoutMs <= 0 {
        return false, 0;
      }
      while n < |waits|
        invariant 0 <= n <= |waits| && Now() == AfterWaits(start, waits[..n])
      {
        assert waits[..n + 1][..n] == waits[..n];
        Meanwhile(waits[n]);
        n := n + 1;
        if inFlightPoll.None? && inFlightDispatches == 0 {
          return true, n;
        }
      }
      return false, n;
    }

    /** Seals, then drains: at most the row already in admission is still accepted, and true means quiet. */
    method SealForQuiesce(timeoutMs: int, waits: seq<seq<Action>>) returns (drained: bool)
      requires forall w :: w in waits ==> NoUnseal(w)
      modifies this
      ensures ingressSealed && (drained ==> Quiet(Now()))
      ensures AtMostAdmitted(old(Now()), Now())
    {
      ingressSealed := true;
      ghost var start := Now();
      var n;
      drained, n := DrainAcceptedWork(timeoutMs, waits);
      WaitsAreSteps(start, waits[..n]);
      FlatNoUnseal(waits[..n]);
      SealAdmitsAtMostOne(start, Flat(waits[..n]));
    }
  }

  ghost function AfterWaits(st: Ingress, waits: seq<seq<Action>>): Ingress {
    if waits == [] then st else Steps(AfterWaits(st, waits[..|waits| - 1]), waits[|waits| - 1])
  }

  ghost function Flat(waits: seq<seq<Action>>): seq<Action> {
    if waits == [] then [] else Flat(waits[..|waits| - 1]) + waits[|waits| - 1]
  }

  lemma {:induction false} FlatNoUnseal(waits: seq<seq<Action>>)
    requires forall w :: w in waits ==> NoUnseal(w)
    ensures NoUnseal(Flat(waits))
  {
    if waits != [] {
      var n := |waits| - 1;
      assert waits == waits[..n] + [waits[n]];
      FlatNoUnseal(waits[..n]);
      assert NoUnseal(waits[n]);
    }
  }

  lemma {:induction false} StepsConcat(st: Ingress, a: seq<Action>, b: seq<Action>)
    ensures Steps(st, a + b) == Steps(Steps(st, a), b)
    decreases |b|
  {
    if b == [] {
      assert a + b == a;
    } else {
      var n := |b| - 1;
      assert (a + b)[..|a| + n] == a + b[..n];
      StepsConcat(st, a, b[..n]);
    }
  }

  lemma {:induction false} WaitsAreSteps(st: Ingress, waits: seq<seq<Action>>)
    ensures AfterWaits(st, waits) == Steps(st, Flat(waits))
  {
    if waits != [] {
      var n := |waits| - 1;
      WaitsAreSteps(st, waits[..n]);
      StepsConcat(st, Flat(waits[..n]), waits[n]);
    }
  }
}
