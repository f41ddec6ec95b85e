/**
 Merging repeated, out-of-order observations of one query, usage atom or activity
 (packages/agent-storage/src/worker.ts), and the replay guard in front of the merges.
 */
module OccurrenceMerge {
  import opened Prelude

  datatype Outcome = Success | Failure | UnknownOutcome
  datatype CompletionEvidence = StopHook | SessionHook | ClosedRootSpan | ProviderCompletedEvent | Inactivity
  datatype PromptState = Captured | Disabled | Unavailable
  datatype Visibility = Customer | Internal
  datatype FailureCategory = KnownCategory(id: Id) | UnknownCategory
  datatype EvidenceKind =
    | SubmissionHook
    | ProviderRootSpan
    | ProviderPromptId
    | ProviderUserPromptEvent
    | ProviderUserMessageEvent

  datatype Occurrence = Occurrence(
    queryId: Id,
    parentSessionId: Option<Id>,
    visibility: Option<Visibility>,
    startedAt: Time,
    completedAt: Option<Time>,
    completionEvidence: Option<CompletionEvidence>,
    outcome: Option<Outcome>,
    failureCategory: Option<FailureCategory>,
    repositoryKey: Option<Id>,
    promptState: PromptState,
    promptText: Option<Id>,
    evidence: EvidenceKind)

  // ---- the merge of two records of one query ---------------------------------------------------------

  function OutcomeAuthority(o: Option<Outcome>): nat {
    match o
    case Some(Failure) => 3
    case Some(Success) => 2
    case Some(UnknownOutcome) => 1
    case None => 0
  }

  function CompletionAuthority(e: Option<CompletionEvidence>): nat {
    match e
    case Some(StopHook) => 3
    case Some(SessionHook) => 3
    case Some(ClosedRootSpan) => 2
    case Some(ProviderCompletedEvent) => 2
    case Some(Inactivity) => 1
    case None => 0
  }

  function EvidencePriority(e: EvidenceKind): nat {
    match e
    case SubmissionHook => 5
    case ProviderRootSpan => 4
    case ProviderPromptId => 3
    case ProviderUserPromptEvent => 2
    case ProviderUserMessageEvent => 2
  }

  function PreferredOutcome(existing: Option<Outcome>, incoming: Option<Outcome>): Option<Outcome> {
    if existing == Some(Failure) || incoming == Some(Failure) then Some(Failure)
    else if existing == Some(Success) || incoming == Some(Success) then Some(Success)
    else Either(incoming, existing)
  }

  function OutcomeSource(existing: Occurrence, incoming: Occurrence): Occurrence {
    var was, now := OutcomeAuthority(existing.outcome), OutcomeAuthority(incoming.outcome);
    var wasSeen, nowSeen := CompletionAuthority(existing.completionEvidence), CompletionAuthority(incoming.completionEvidence);
    if now != was then (if now > was then incoming else existing)
    else if nowSeen != wasSeen then (if nowSeen > wasSeen then incoming else existing)
    else if TimeOf(incoming) >= TimeOf(existing) then incoming
    else existing
  }

  function TimeOf(o: Occurrence): Time {
    if o.completedAt.Some? then o.completedAt.value else o.startedAt
  }

  function LatestCompletion(a: Option<Time>, b: Option<Time>): Option<Time> {
    if a.None? then b else if b.None? then a else Some(MaxInt(a.value, b.value))
  }

  function PreferredCategory(existing: Option<FailureCategory>, incoming: Option<FailureCategory>): Option<FailureCategory> {
    if existing.None? || existing == Some(UnknownCategory) then Either(incoming, existing) else existing
  }

  /** Whose remaining fields are kept: a captured prompt wins, then a disabled one, then the existing record. */
  function Preferred(existing: Occurrence, incoming: Occurrence): Occurrence {
    if incoming.promptState == Captured then incoming
    else if existing.promptState == Captured then existing
    else if incoming.promptState == Disabled then incoming
    else existing
  }

  /** `preferredQueryOccurrence` of two records. */
  function Merge(existing: Occurrence, incoming: Occurrence): Occurrence {
    var preferred := Preferred(existing, incoming);
    var latest := LatestCompletion(existing.completedAt, incoming.completedAt);
    var outcome := PreferredOutcome(existing.outcome, incoming.outcome);
    var source := OutcomeSource(existing, incoming);
    var completedAt := if outcome.Some? then source.completedAt else latest;
    var completion := if latest == incoming.completedAt then incoming else existing;
    preferred.(
      evidence :=
        if EvidencePriority(incoming.evidence) >= EvidencePriority(existing.evidence) then incoming.evidence else existing.evidence,
      visibility :=
        if existing.visibility == Some(Internal) || incoming.visibility == Some(Internal) then Some(Internal)
        else Either(incoming.visibility, existing.visibility),
      startedAt := if existing.startedAt < incoming.startedAt then existing.startedAt else incoming.startedAt,
      parentSessionId := Either(incoming.parentSessionId, existing.parentSessionId),
      completedAt := Either(completedAt, preferred.completedAt),
      completionEvidence := if outcome.Some? then source.completionEvidence else completion.completionEvidence,
      outcome := outcome,
      failureCategory :=
        if outcome == Some(Failure) then PreferredCategory(existing.failureCategory, incoming.failureCategory) else None,
      repositoryKey := Either(incoming.repositoryKey, existing.repositoryKey))
  }

  /** What is stored after the records arrived in this order. */
  function Folded(records: seq<Occurrence>): Occurrence
    requires records != []
  {
    if |records| == 1 then records[0] else Merge(Folded(records[..|records| - 1]), records[|records| - 1])
  }

  // ---- the completion that wins ------------------------------------------------------------------------

  /** A record with an outcome also says when. */
  predicate Timed(o: Occurrence) {
    o.outcome.Some? ==> o.completedAt.Some?
  }

  /** How a completion ranks: by outcome, then by evidence for it, then by time. */
  datatype Rank = Rank(outcome: nat, evidence: nat, at: Option<Time>)

  function RankOf(o: Occurrence): Rank {
    Rank(OutcomeAuthority(o.outcome), if o.outcome.Some? then CompletionAuthority(o.completionEvidence) else 0, o.completedAt)
  }

  predicate NotLater(a: Option<Time>, b: Option<Time>) {
    a.None? || (b.Some? && a.value <= b.value)
  }

  /** Lexicographic order. */
  predicate AtMost(a: Rank, b: Rank) {
    a.outcome < b.outcome
    || (a.outcome == b.outcome
        && (a.evidence < b.evidence || (a.evidence == b.evidence && NotLater(a.at, b.at))))
  }

  ghost predicate IsGreater(m: Rank, a: Rank, b: Rank) {
    AtMost(a, m) && AtMost(b, m) && (m == a || m == b)
  }

  /** A merge of timed records keeps the greater completion. */
  lemma MergeKeepsRank(x: Occurrence, y: Occurrence)
    requires Timed(x) && Timed(y)
    ensures Timed(Merge(x, y)) && IsGreater(RankOf(Merge(x, y)), RankOf(x), RankOf(y))
  {
    var m := Merge(x, y);
    assert OutcomeAuthority(m.outcome) == MaxInt(OutcomeAuthority(x.outcome), OutcomeAuthority(y.outcome));
    if m.outcome.Some? {
      assert OutcomeSource(x, y).outcome == m.outcome;
    }
  }

  /** An untimed outcome can erase the completion time of a record merged into it. */
  lemma UntimedLosesTime(x: Occurrence) returns (y: Occurrence)
    requires !Timed(x)
    ensures Timed(y) && y.outcome == x.outcome && y.queryId == x.queryId
    ensures y.startedAt <= y.completedAt.value <= x.startedAt
    ensures !IsGreater(RankOf(Merge(x, y)), RankOf(x), RankOf(y))
  {
    y := x.(startedAt := x.startedAt - 2, completedAt := Some(x.startedAt - 1), promptState := Unavailable);
    assert OutcomeSource(x, y) == x && Preferred(x, y) == x;
    assert RankOf(Merge(x, y)).at == None;
  }

  /** Merging into a record keeps the greater completion, whatever timed record arrives, exactly when it is timed. */
  lemma SafeIffTimed(x: Occurrence)
    ensures Timed(x) <==> forall y :: Timed(y) ==> IsGreater(RankOf(Merge(x, y)), RankOf(x), RankOf(y))
  {
    if Timed(x) {
      forall y | Timed(y) ensures IsGreater(RankOf(Merge(x, y)), RankOf(x), RankOf(y)) { MergeKeepsRank(x, y); }
    } else {
      var y := UntimedLosesTime(x);
      assert Timed(y);
    }
  }

  /**
   An untimed outcome that arrives breaks the order as well: over a record that is as complete and timed it
   erases the time, unless the stored prompt is kept; then it takes the time of a record without outcome.
   */
  lemma UntimedNewcomerBreaks(y: Occurrence) returns (x: Occurrence)
    requires !Timed(y)
    ensures Timed(x) && x.queryId == y.queryId
    ensures x.completedAt.Some? && x.startedAt <= x.completedAt.value <= y.startedAt
    ensures !IsGreater(RankOf(Merge(x, y)), RankOf(x), RankOf(y))
  {
    x := y.(startedAt := y.startedAt - 2, completedAt := Some(y.startedAt - 1));
    if y.promptState == Unavailable {
      x := x.(outcome := None);
      assert OutcomeSource(x, y) == y && RankOf(Merge(x, y)).at == x.completedAt;
    } else {
      assert OutcomeSource(x, y) == y && Preferred(x, y) == y;
      assert RankOf(Merge(x, y)) == RankOf(y);
    }
  }

  /** Merging a record into whatever timed one is stored keeps the greater completion exactly when it is timed. */
  lemma NewcomerSafeIffTimed(y: Occurrence)
    ensures Timed(y) <==> forall x :: Timed(x) ==> IsGreater(RankOf(Merge(x, y)), RankOf(x), RankOf(y))
  {
    if Timed(y) {
      forall x | Timed(x) ensures IsGreater(RankOf(Merge(x, y)), RankOf(x), RankOf(y)) { MergeKeepsRank(x, y); }
    } else {
      var x := UntimedNewcomerBreaks(y);
      assert Timed(x);
    }
  }

  // ---- whole histories -----------------------------------------------------------------------------------

  function PromptRank(p: PromptState): nat {
    match p
    case Captured => 2
    case Disabled => 1
    case Unavailable => 0
  }

  /** What does not depend on the order of arrival. */
  datatype Summary = Summary(rank: Rank, startedAt: Time, internal: bool, prompt: nat, evidence: nat)

  function SummaryOf(o: Occurrence): Summary {
    Summary(RankOf(o), o.startedAt, o.visibility == Some(Internal), PromptRank(o.promptState), EvidencePriority(o.evidence))
  }

  /** Every component of `a` is covered by `b`. */
  predicate Covers(b: Summary, a: Summary) {
    && AtMost(a.rank, b.rank) && b.startedAt <= a.startedAt && (a.internal ==> b.internal)
    && a.prompt <= b.prompt && a.evidence <= b.evidence
  }

  /** Each component comes from one of the records. */
  ghost predicate Attained(records: seq<Occurrence>, s: Summary) {
    && (exists r :: r in records && RankOf(r) == s.rank)
    && (exists r :: r in records && r.startedAt == s.startedAt)
    && (s.internal ==> exists r :: r in records && r.visibility == Some(Internal))
    && (exists r :: r in records && PromptRank(r.promptState) == s.prompt)
    && (exists r :: r in records && EvidencePriority(r.evidence) == s.evidence)
  }

  ghost predicate AllCovered(records: seq<Occurrence>, s: Summary) {
    forall r :: r in records ==> Covers(s, SummaryOf(r))
  }

  lemma AtMostTransitive(a: Rank, b: Rank, c: Rank)
    requires AtMost(a, b) && AtMost(b, c)
    ensures AtMost(a, c)
  {
  }

  lemma MergeCovers(x: Occurrence, y: Occurrence)
    requires Timed(x) && Timed(y)
    ensures Covers(SummaryOf(Merge(x, y)), SummaryOf(x)) && Covers(SummaryOf(Merge(x, y)), SummaryOf(y))
  {
    MergeKeepsRank(x, y);
  }

  lemma MergeAttains(records: seq<Occurrence>, x: Occurrence, y: Occurrence)
    requires Timed(x) && Timed(y) && Attained(records, SummaryOf(x))
    ensures Attained(records + [y], SummaryOf(Merge(x, y)))
  {
    MergeKeepsRank(x, y);
    assert y in records + [y];
    assert forall r :: r in records ==> r in records + [y];
  }

  /**
   Whatever order timed records arrive in, the stored record has the lexicographically greatest
   completion, the earliest start, internal visibility as soon as one record had it, and the best
   prompt state and evidence.
   */
  lemma {:induction false} FoldKeepsBest(records: seq<Occurrence>)
    requires records != [] && forall r :: r in records ==> Timed(r)
    ensures Timed(Folded(records))
    ensures AllCovered(records, SummaryOf(Folded(records))) && Attained(records, SummaryOf(Folded(records)))
  {
    var n := |records| - 1;
    assert records == records[..n] + [records[n]];
    if n == 0 {
      assert records[0] in records;
    } else {
      FoldKeepsBest(records[..n]);
      var x, y := Folded(records[..n]), records[n];
      MergeKeepsRank(x, y);
      MergeCovers(x, y);
      MergeAttains(records[..n], x, y);
      forall r | r in records ensures Covers(SummaryOf(Folded(records)), SummaryOf(r)) {
        if r in records[..n] { AtMostTransitive(RankOf(r), RankOf(x), RankOf(Merge(x, y))); }
      }
    }
  }

  lemma BestUnique(records: seq<Occurrence>, s: Summary, t: Summary)
    requires AllCovered(records, s) && Attained(records, s) && AllCovered(records, t) && Attained(records, t)
    ensures s == t
  {
  }

  /** Two orders of arrival of the same records, repeated or not, agree on the summary. */
  lemma ArrivalOrderIrrelevant(a: seq<Occurrence>, b: seq<Occurrence>)
    requires a != [] && b != [] && (forall r :: r in a <==> r in b) && forall r :: r in a ==> Timed(r)
    ensures SummaryOf(Folded(a)) == SummaryOf(Folded(b))
  {
    FoldKeepsBest(a);
    FoldKeepsBest(b);
    assert AllCovered(a, SummaryOf(Folded(b))) && Attained(a, SummaryOf(Folded(b)));
    BestUnique(a, SummaryOf(Folded(a)), SummaryOf(Folded(b)));
  }

  /** The prompt text of the latest record that captured one. */
  function CapturedText(records: seq<Occurrence>): Option<Option<Id>> {
    if records == [] then None
    else if records[|records| - 1].promptState == Captured then Some(records[|records| - 1].promptText)
    else CapturedText(records[..|records| - 1])
  }

  /** A captured prompt is never lost again, only replaced by a later captured one. */
  lemma {:induction false} CapturedPromptStays(records: seq<Occurrence>)
    requires records != []
    ensures Folded(records).promptState == Captured <==> CapturedText(records).Some?
    ensures CapturedText(records).Some? ==> Folded(records).promptText == CapturedText(records).value
  {
    if |records| > 1 {
      CapturedPromptStays(records[..|records| - 1]);
    } else {
      assert records[..0] == [];
    }
  }

  /** The last reported value, if any. */
  function LastReported<T>(values: seq<Option<T>>): Option<T> {
    if values == [] then None
    else if values[|values| - 1].Some? then values[|values| - 1]
    else LastReported(values[..|values| - 1])
  }

  function Parents(records: seq<Occurrence>): seq<Option<Id>> {
    seq(|records|, i requires 0 <= i < |records| => records[i].parentSessionId)
  }

  function Repositories(records: seq<Occurrence>): seq<Option<Id>> {
    seq(|records|, i requires 0 <= i < |records| => records[i].repositoryKey)
  }

  /** Parent session and repository are the latest ones any record reported; silence erases neither. */
  lemma {:induction false} LinksAreLatest(records: seq<Occurrence>)
    requires records != []
    ensures Folded(records).parentSessionId == LastReported(Parents(records))
    ensures Folded(records).repositoryKey == LastReported(Repositories(records))
  {
    var n := |records| - 1;
    assert Parents(records)[..n] == Parents(records[..n]) && Repositories(records)[..n] == Repositories(records[..n]);
    if n == 0 {
      assert LastReported(Parents(records[..0])) == None && LastReported(Repositories(records[..0])) == None;
    } else {
      LinksAreLatest(records[..n]);
    }
  }

  predicate KnownFailure(o: Occurrence) {
    o.outcome == Some(Failure) && o.failureCategory.Some? && o.failureCategory.value.KnownCategory?
  }

  /** A failure whose category is known stays that failure, whatever arrives later. */
  lemma {:induction false} KnownFailureStays(records: seq<Occurrence>, m: nat)
    requires 0 < m <= |records| && KnownFailure(Folded(records[..m]))
    ensures KnownFailure(Folded(records)) && Folded(records).failureCategory == Folded(records[..m]).failureCategory
    decreases |records|
  {
    if m == |records| {
      assert records[..m] == records;
    } else {
      var n := |records| - 1;
      assert records[..n][..m] == records[..m];
      KnownFailureStays(records[..n], m);
    }
  }

  // ---- usage ownership -------------------------------------------------------------------------------------

  datatype UsageAtom = UsageAtom(atomId: Id, content: Id, owner: Option<Id>, conflict: seq<Id>)

  function OwnerList(a: UsageAtom): seq<Id> {
    if a.owner.Some? then [a.owner.value] else []
  }

  /** `monotonicSafeUsageOwnership`. */
  function MergeUsage(existing: UsageAtom, incoming: UsageAtom): UsageAtom {
    var clash := existing.owner.Some? && incoming.owner.Some? && existing.owner != incoming.owner;
    if existing.conflict != [] || incoming.conflict != [] || clash then
      var all := Unique(existing.conflict + incoming.conflict + OwnerList(existing) + OwnerList(incoming));
      incoming.(owner := None, conflict := if |all| <= 8 then all else all[..8])
    else incoming.(owner := Either(incoming.owner, existing.owner))
  }

  function FoldedUsage(records: seq<UsageAtom>): UsageAtom
    requires records != []
  {
    if |records| == 1 then records[0]
    else MergeUsage(FoldedUsage(records[..|records| - 1]), records[|records| - 1])
  }

  /** Some record lists a conflict, or two records name different owners. */
  ghost predicate Contradictory(records: seq<UsageAtom>) {
    || (exists r :: r in records && r.conflict != [])
    || (exists r, t :: r in records && t in records && r.owner.Some? && t.owner.Some? && r.owner != t.owner)
  }

  ghost predicate SoleOwner(records: seq<UsageAtom>, owner: Option<Id>) {
    && (forall r :: r in records && r.owner.Some? ==> r.owner == owner)
    && (owner.Some? ==> exists r :: r in records && r.owner == owner)
  }

  /** An id was named as an owner or in a conflict. */
  ghost predicate Named(records: seq<UsageAtom>, id: Id) {
    exists r :: r in records && (id in r.conflict || r.owner == Some(id))
  }

  lemma MergeUsageNames(x: UsageAtom, y: UsageAtom)
    ensures forall id :: id in MergeUsage(x, y).conflict || MergeUsage(x, y).owner == Some(id) ==>
      id in x.conflict || id in y.conflict || x.owner == Some(id) || y.owner == Some(id)
    ensures MergeUsage(x, y).conflict != [] <==>
      x.conflict != [] || y.conflict != [] || (x.owner.Some? && y.owner.Some? && x.owner != y.owner)
    ensures |MergeUsage(x, y).conflict| <= 8
  {
    var list := x.conflict + y.conflict + OwnerList(x) + OwnerList(y);
    var all := Unique(list);
    if x.conflict != [] || y.conflict != [] || (x.owner.Some? && y.owner.Some? && x.owner != y.owner) {
      assert list[0] in all;
      assert forall id :: id in all[..|MergeUsage(x, y).conflict|] ==> id in all;
    }
  }

  lemma {:induction false} NamesStay(records: seq<UsageAtom>, id: Id)
    requires records != []
    requires id in FoldedUsage(records).conflict || FoldedUsage(records).owner == Some(id)
    ensures Named(records, id)
  {
    var n := |records| - 1;
    if n == 0 {
      assert records[0] in records;
    } else {
      var x, y := FoldedUsage(records[..n]), records[n];
      MergeUsageNames(x, y);
      if id in x.conflict || x.owner == Some(id) {
        NamesStay(records[..n], id);
        var r :| r in records[..n] && (id in r.conflict || r.owner == Some(id));
        assert r in records;
      } else {
        assert y in records;
      }
    }
  }

  lemma ContradictionGrows(records: seq<UsageAtom>, y: UsageAtom)
    requires Contradictory(records)
    ensures Contradictory(records + [y])
  {
    var all := records + [y];
    assert forall r :: r in records ==> r in all;
  }

  lemma OwnerGrows(records: seq<UsageAtom>, owner: Option<Id>, y: UsageAtom)
    requires !Contradictory(records) && SoleOwner(records, owner)
    ensures Contradictory(records + [y]) <==> y.conflict != [] || (owner.Some? && y.owner.Some? && owner != y.owner)
    ensures !Contradictory(records + [y]) ==> SoleOwner(records + [y], Either(y.owner, owner))
  {
    var all := records + [y];
    assert y in all && forall r :: r in records ==> r in all;
    if owner.Some? && y.owner.Some? && owner != y.owner {
      var r :| r in records && r.owner == owner;
      assert r in all && y in all;
    }
  }

  /**
   Ownership ends in conflict exactly when the records contradict each other, in whatever order they
   came; otherwise the stored owner is the only one any record named.  A conflict is never undone, and
   lists only ids some record named.
   */
  lemma {:induction false} ConflictIffContradictory(records: seq<UsageAtom>)
    requires records != []
    ensures FoldedUsage(records).conflict != [] <==> Contradictory(records)
    ensures !Contradictory(records) ==> SoleOwner(records, FoldedUsage(records).owner)
    ensures forall id :: id in FoldedUsage(records).conflict ==> Named(records, id)
  {
    forall id | id in FoldedUsage(records).conflict ensures Named(records, id) { NamesStay(records, id); }
    var n := |records| - 1;
    assert records == records[..n] + [records[n]];
    if n == 0 {
      assert records[0] in records;
    } else {
      ConflictIffContradictory(records[..n]);
      var x, y := FoldedUsage(records[..n]), records[n];
      MergeUsageNames(x, y);
      if Contradictory(records[..n]) {
        ContradictionGrows(records[..n], y);
      } else {
        OwnerGrows(records[..n], x.owner, y);
      }
    }
  }

  // ---- native permission rejections ---------------------------------------------------------------------------

  datatype ActivityAtom = ActivityAtom(activityId: Id, content: Id, rejected: bool, nativeDecision: bool)

  predicate NativelyRejected(a: ActivityAtom) {
    a.rejected && a.nativeDecision
  }

  /** `retainNativePermissionRejection`. */
  function MergeActivity(existing: ActivityAtom, incoming: ActivityAtom): ActivityAtom {
    if NativelyRejected(existing) && !NativelyRejected(incoming) then existing else incoming
  }

  function FoldedActivity(records: seq<ActivityAtom>): ActivityAtom
    requires records != []
  {
    if |records| == 1 then records[0]
    else MergeActivity(FoldedActivity(records[..|records| - 1]), records[|records| - 1])
  }

  function LastRejection(records: seq<ActivityAtom>): Option<ActivityAtom> {
    if records == [] then None
    else if NativelyRejected(records[|records| - 1]) then Some(records[|records| - 1])
    else LastRejection(records[..|records| - 1])
  }

  /** The latest native rejection is kept against everything else; without one the latest record is. */
  lemma {:induction false} RejectionStays(records: seq<ActivityAtom>)
    requires records != []
    ensures FoldedActivity(records) ==
      if LastRejection(records).Some? then LastRejection(records).value else records[|records| - 1]
    ensures LastRejection(records).Some? ==> NativelyRejected(FoldedActivity(records))
    ensures (exists r :: r in records && NativelyRejected(r)) ==> LastRejection(records).Some?
  {
    var n := |records| - 1;
    assert records == records[..n] + [records[n]];
    if n == 0 {
      assert records[..0] == [];
    } else {
      RejectionStays(records[..n]);
    }
  }
}
