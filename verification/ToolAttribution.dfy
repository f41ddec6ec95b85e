/**
 Which tool call owns a usage unit (src/aggregation/agentRunAssembler.ts): the nearest span on the way
 to the root that a tool call claims.
 */
module ToolAttribution {
  import opened Prelude
  import opened TokenAccounting

  type SpanId = Id
  type ToolKey = Id

  /** Parent spans, and the tool call each claimed span belongs to. */
  datatype Trace = Trace(parents: map<SpanId, Option<SpanId>>, toolKeys: map<SpanId, ToolKey>)

  function ParentOf(t: Trace, span: SpanId): Option<SpanId> {
    if span in t.parents then t.parents[span] else None
  }

  // ---- the walk up the parents ------------------------------------------------------------------------------

  /** The walk is over here: above the root, or at a claimed span. */
  predicate Stops(t: Trace, span: Option<SpanId>) {
    span.None? || span.value in t.toolKeys
  }

  /** Where the walk is after so many steps. */
  function Up(t: Trace, span: Option<SpanId>, steps: nat): Option<SpanId>
    decreases steps
  {
    if steps == 0 || Stops(t, span) then span else Up(t, ParentOf(t, span.value), steps - 1)
  }

  /** The walk from here ends; otherwise the source's loop never does. */
  ghost predicate Ends(t: Trace, span: Option<SpanId>) {
    exists steps: nat :: Stops(t, Up(t, span, steps))
  }

  function KeyAt(t: Trace, span: Option<SpanId>): Option<ToolKey> {
    if span.Some? && span.value in t.toolKeys then Some(t.toolKeys[span.value]) else None
  }

  /** The tool call found where the walk ends. */
  ghost function Owner(t: Trace, span: Option<SpanId>): Option<ToolKey>
    requires Ends(t, span)
  {
    var steps: nat :| Stops(t, Up(t, span, steps));
    KeyAt(t, Up(t, span, steps))
  }

  lemma {:induction false} UpStays(t: Trace, span: Option<SpanId>, steps: nat, more: nat)
    requires Stops(t, Up(t, span, steps)) && steps <= more
    ensures Up(t, span, more) == Up(t, span, steps)
    decreases steps
  {
    if !Stops(t, span) { UpStays(t, ParentOf(t, span.value), steps - 1, more - 1); }
  }

  /** It does not matter how many steps are allowed, as long as they suffice. */
  lemma OwnerAt(t: Trace, span: Option<SpanId>, steps: nat)
    requires Stops(t, Up(t, span, steps))
    ensures Ends(t, span) && Owner(t, span) == KeyAt(t, Up(t, span, steps))
  {
    var chosen: nat :| Stops(t, Up(t, span, chosen)) && Owner(t, span) == KeyAt(t, Up(t, span, chosen));
    if steps <= chosen { UpStays(t, span, steps, chosen); } else { UpStays(t, span, chosen, steps); }
  }

  /** `owningToolKeyForUnit`: ends whenever the walk from the unit's span does. */
  method OwningToolKeyForUnit(u: Unit, t: Trace) returns (key: Option<ToolKey>)
    requires Ends(t, u.spanId)
    ensures key == Owner(t, u.spanId)
  {
    ghost var left: nat :| Stops(t, Up(t, u.spanId, left));
    OwnerAt(t, u.spanId, left);
    var current := u.spanId;
    while current.Some?
      invariant Stops(t, Up(t, current, left)) && KeyAt(t, Up(t, current, left)) == Owner(t, u.spanId)
      decreases left
    {
      if current.value in t.toolKeys {
        return Some(t.toolKeys[current.value]);
      }
      current := ParentOf(t, current.value);
      left := left - 1;
    }
    return None;
  }

  // ---- when the walk ends -----------------------------------------------------------------------------------

  /** The walk comes back to a span it has left. */
  ghost predicate ComesBack(t: Trace, span: Option<SpanId>) {
    exists i: nat, j: nat :: i < j && !Stops(t, Up(t, span, i)) && Up(t, span, j) == Up(t, span, i)
  }

  lemma {:induction false} UpPlus(t: Trace, span: Option<SpanId>, i: nat, j: nat)
    ensures Up(t, Up(t, span, i), j) == Up(t, span, i + j)
    decreases i
  {
    if i > 0 && !Stops(t, span) { UpPlus(t, ParentOf(t, span.value), i - 1, j); }
  }

  /** A walk that is not over after some steps was not over before. */
  lemma {:induction false} StillClimbing(t: Trace, span: Option<SpanId>, i: nat, j: nat)
    requires i <= j && !Stops(t, Up(t, span, j))
    ensures !Stops(t, Up(t, span, i))
  {
    if Stops(t, Up(t, span, i)) { UpStays(t, span, i, j); }
  }

  lemma {:induction false} RoundAndRound(t: Trace, span: Option<SpanId>, i: nat, j: nat, steps: nat)
    requires i < j && !Stops(t, Up(t, span, i)) && Up(t, span, j) == Up(t, span, i)
    ensures !Stops(t, Up(t, span, steps))
    decreases steps
  {
    if steps <= j {
      StillClimbing(t, span, steps, j);
    } else {
      RoundAndRound(t, span, i, j, steps - (j - i));
      UpPlus(t, span, j, steps - j);
      UpPlus(t, span, i, steps - j);
    }
  }

  /** The spans the walk leaves in its first steps. */
  ghost function Left(t: Trace, span: Option<SpanId>, steps: nat): set<SpanId>
    requires steps > 0 ==> !Stops(t, Up(t, span, steps))
  {
    if steps == 0 then {}
    else
      StillClimbing(t, span, steps - 1, steps);
      Left(t, span, steps - 1) + {Up(t, span, steps - 1).value}
  }

  lemma {:induction false} LeftMember(t: Trace, span: Option<SpanId>, steps: nat, x: SpanId)
    requires !Stops(t, Up(t, span, steps)) && x in Left(t, span, steps)
    ensures x in t.parents
    ensures exists i: nat :: i < steps && Up(t, span, i) == Some(x)
  {
    StillClimbing(t, span, steps - 1, steps);
    if x == Up(t, span, steps - 1).value {
      UpPlus(t, span, steps - 1, 1);
      assert Up(t, Up(t, span, steps - 1), 1) == ParentOf(t, x);
    } else {
      LeftMember(t, span, steps - 1, x);
    }
  }

  /** A walk that never comes back leaves as many spans as it takes steps. */
  lemma {:induction false} LeavesNewSpans(t: Trace, span: Option<SpanId>, steps: nat)
    requires !Stops(t, Up(t, span, steps)) && !ComesBack(t, span)
    ensures |Left(t, span, steps)| == steps
  {
    if steps > 0 {
      StillClimbing(t, span, steps - 1, steps);
      LeavesNewSpans(t, span, steps - 1);
      var x := Up(t, span, steps - 1).value;
      if x in Left(t, span, steps - 1) { LeftMember(t, span, steps - 1, x); }
    }
  }

  /** The walk ends exactly when it never comes back to a span; a cycle behind a claimed span does not matter. */
  lemma EndsIffNeverBack(t: Trace, span: Option<SpanId>)
    ensures Ends(t, span) <==> !ComesBack(t, span)
  {
    if ComesBack(t, span) {
      var i: nat, j: nat :| i < j && !Stops(t, Up(t, span, i)) && Up(t, span, j) == Up(t, span, i);
      forall steps: nat ensures !Stops(t, Up(t, span, steps)) { RoundAndRound(t, span, i, j, steps); }
    } else {
      var n := |t.parents| + 1;
      if !Stops(t, Up(t, span, n)) {
        LeavesNewSpans(t, span, n);
        forall x | x in Left(t, span, n) ensures x in t.parents.Keys { LeftMember(t, span, n, x); }
        SubsetSize(Left(t, span, n), t.parents.Keys);
      }
    }
  }

  /** In particular it ends from everywhere when some numbering of the spans falls on the way to the root. */
  lemma {:induction false} AcyclicEnds(t: Trace, depth: map<SpanId, nat>, span: Option<SpanId>)
    requires forall s :: s in t.parents && t.parents[s].Some? ==>
      s in depth && (t.parents[s].value in depth ==> depth[t.parents[s].value] < depth[s])
    ensures Ends(t, span)
    decreases if span.None? then 0 else if span.value in depth then 2 + depth[span.value] else 1
  {
    if Stops(t, span) {
      assert Stops(t, Up(t, span, 0));
    } else if ParentOf(t, span.value).None? {
      assert Stops(t, Up(t, span, 1));
    } else {
      AcyclicEnds(t, depth, ParentOf(t, span.value));
      var steps: nat :| Stops(t, Up(t, ParentOf(t, span.value), steps));
      assert Up(t, span, steps + 1) == Up(t, ParentOf(t, span.value), steps);
    }
  }

  // ---- the owner is the nearest tool call --------------------------------------------------------------------

  /** A way up the parents from one span to another. */
  ghost predicate Climb(t: Trace, path: seq<SpanId>) {
    path != [] && forall i :: 0 <= i < |path| - 1 ==> ParentOf(t, path[i]) == Some(path[i + 1])
  }

  /** The way ends at the first claimed span. */
  ghost predicate LeadsTo(t: Trace, path: seq<SpanId>, key: ToolKey) {
    && Climb(t, path)
    && path[|path| - 1] in t.toolKeys && t.toolKeys[path[|path| - 1]] == key
    && forall i :: 0 <= i < |path| - 1 ==> path[i] !in t.toolKeys
  }

  lemma {:induction false} OwnerHasPath(t: Trace, span: SpanId, steps: nat) returns (path: seq<SpanId>)
    requires KeyAt(t, Up(t, Some(span), steps)).Some?
    ensures path != [] && path[0] == span && LeadsTo(t, path, KeyAt(t, Up(t, Some(span), steps)).value)
    decreases steps
  {
    if span in t.toolKeys {
      path := [span];
    } else {
      var rest := OwnerHasPath(t, ParentOf(t, span).value, steps - 1);
      path := [span] + rest;
      forall i | 0 <= i < |path| - 1 ensures ParentOf(t, path[i]) == Some(path[i + 1]) && path[i] !in t.toolKeys {
        if i > 0 { assert path[i] == rest[i - 1] && path[i + 1] == rest[i]; }
      }
    }
  }

  lemma {:induction false} PathGivesOwner(t: Trace, path: seq<SpanId>, key: ToolKey)
    requires LeadsTo(t, path, key)
    ensures KeyAt(t, Up(t, Some(path[0]), |path|)) == Some(key)
  {
    if |path| > 1 {
      assert ParentOf(t, path[0]) == Some(path[1]) && path[0] !in t.toolKeys;
      var rest := path[1..];
      forall i | 0 <= i < |rest| - 1 ensures ParentOf(t, rest[i]) == Some(rest[i + 1]) && rest[i] !in t.toolKeys {
        assert rest[i] == path[i + 1] && rest[i + 1] == path[i + 2];
      }
      PathGivesOwner(t, rest, key);
    }
  }

  /** The owner is the nearest claiming tool call on the way to the root. */
  lemma OwnerIsNearest(t: Trace, span: SpanId, key: ToolKey)
    ensures Ends(t, Some(span)) && Owner(t, Some(span)) == Some(key) <==>
            exists path :: path != [] && path[0] == span && LeadsTo(t, path, key)
  {
    if Ends(t, Some(span)) && Owner(t, Some(span)) == Some(key) {
      var steps: nat :| Stops(t, Up(t, Some(span), steps));
      OwnerAt(t, Some(span), steps);
      var path := OwnerHasPath(t, span, steps);
    }
    if path :| path != [] && path[0] == span && LeadsTo(t, path, key) {
      PathGivesOwner(t, path, key);
      OwnerAt(t, Some(span), |path|);
    }
  }

  // ---- tool summaries ----------------------------------------------------------------------------------------

  /** The walk of every unit ends, so that the summaries are built at all. */
  ghost predicate AllEnd(units: seq<Unit>, t: Trace) {
    forall i :: 0 <= i < |units| ==> Ends(t, units[i].spanId)
  }

  /** What the units of these tool calls used, in order, under the tool call that owns them. */
  ghost function OwnedRows(units: seq<Unit>, t: Trace, keys: set<ToolKey>): seq<Row<ToolKey>>
    requires AllEnd(units, t)
  {
    if units == [] then []
    else
      var u := units[|units| - 1];
      var owner := Owner(t, u.spanId);
      OwnedRows(units[..|units| - 1], t, keys)
      + if owner.Some? && owner.value in keys then [Row(owner.value, u.usage)] else []
  }

  /** The summaries of all tool calls together. */
  ghost function ToolsTotal(tools: seq<ToolKey>, units: seq<Unit>, t: Trace): Amounts
    requires AllEnd(units, t)
  {
    if tools == [] then NOTHING
    else
      Plus(ToolsTotal(tools[..|tools| - 1], units, t),
           Sum(OwnedRows(units, t, {tools[|tools| - 1]})))
  }

  ghost function AllKeys(tools: seq<ToolKey>): set<ToolKey> {
    set k | k in tools
  }

  lemma {:induction false} OneMoreTool(units: seq<Unit>, t: Trace, keys: set<ToolKey>, key: ToolKey)
    requires AllEnd(units, t) && key !in keys
    ensures Plus(Sum(OwnedRows(units, t, keys)), Sum(OwnedRows(units, t, {key})))
         == Sum(OwnedRows(units, t, keys + {key}))
  {
    if units != [] {
      var n, u := |units| - 1, units[|units| - 1];
      OneMoreTool(units[..n], t, keys, key);
      var a, b, c := OwnedRows(units[..n], t, keys), OwnedRows(units[..n], t, {key}), OwnedRows(units[..n], t, keys + {key});
      var owner := Owner(t, u.spanId);
      assert a + [] == a && b + [] == b && c + [] == c;
      if owner.Some? && owner.value in keys + {key} {
        var row := Row(owner.value, u.usage);
        SumAppend(a, row);
        SumAppend(b, row);
        SumAppend(c, row);
        PlusLaws(Sum(a), Sum(b), u.usage);
        PlusLaws(Sum(a), u.usage, Sum(b));
        PlusLaws(Sum(b), u.usage, NOTHING);
      }
    }
  }

  /**
   Tool summaries split the owned units without counting any twice: with distinct tool calls their
   totals add up, field by field, to exactly the units some tool call owns.
   */
  lemma {:induction false} ToolsPartitionOwnedUnits(tools: seq<ToolKey>, units: seq<Unit>, t: Trace)
    requires AllEnd(units, t) && NoDup(tools)
    ensures ToolsTotal(tools, units, t) == Sum(OwnedRows(units, t, AllKeys(tools)))
  {
    if tools == [] {
      NoToolNoUnits(units, t);
      assert AllKeys(tools) == {};
    } else {
      var n := |tools| - 1;
      assert tools == tools[..n] + [tools[n]];
      ToolsPartitionOwnedUnits(tools[..n], units, t);
      assert AllKeys(tools) == AllKeys(tools[..n]) + {tools[n]};
      OneMoreTool(units, t, AllKeys(tools[..n]), tools[n]);
    }
  }

  lemma {:induction false} NoToolNoUnits(units: seq<Unit>, t: Trace)
    requires AllEnd(units, t)
    ensures OwnedRows(units, t, {}) == []
  {
    if units != [] { NoToolNoUnits(units[..|units| - 1], t); }
  }
}
