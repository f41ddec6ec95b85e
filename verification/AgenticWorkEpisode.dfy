/**
 How workspace evidence is bound into an episode (src/attribution/agenticWorkEpisode.ts).  Binding is
 what gives the ledger at most one evidence record per query, repository and epoch.
 */
module AgenticWorkEpisode {
  import opened Prelude
  import opened Types
  import opened CommitAttributionPolicy
  import opened LedgerTransitions

  function StateIndex(states: seq<ArtifactState>, artifactKey: Id): (i: nat)
    ensures i <= |states|
    ensures i < |states| ==> states[i].artifactKey == artifactKey
    ensures forall j :: 0 <= j < i ==> states[j].artifactKey != artifactKey
  {
    if states == [] then 0 else if states[0].artifactKey == artifactKey then 0 else 1 + StateIndex(states[1..], artifactKey)
  }

  /** Later states replace earlier states of the same artifact. */
  function MergeStates(a: seq<ArtifactState>, b: seq<ArtifactState>): seq<ArtifactState>
    decreases |b|
  {
    if b == [] then a
    else
      var i := StateIndex(a, b[0].artifactKey);
      MergeStates(if i < |a| then a[i := b[0]] else a + [b[0]], b[1..])
  }

  /** A complete census replaces the causal pairs; an incremental one adds to them. */
  function MergeEvidenceRecord(a: Evidence, b: Evidence): Evidence {
    Evidence(
      b.queryId, b.repoKey, b.epochId, Either(b.expiresAt, a.expiresAt),
      a.baselineTrusted && b.baselineTrusted,
      Either(b.headCommitAtStart, a.headCommitAtStart),
      Either(b.baselineSequence, a.baselineSequence),
      if b.causalComplete then b.causalWrites else Unique(a.causalWrites + b.causalWrites),
      if b.causalComplete then b.rejectedWrites else Unique(a.rejectedWrites + b.rejectedWrites),
      a.causalComplete || b.causalComplete,
      MergeStates(a.artifactStates, b.artifactStates))
  }

  predicate SameKey(a: Evidence, b: Evidence) {
    a.queryId == b.queryId && a.repoKey == b.repoKey && a.epochId == b.epochId
  }

  /** Evidence that may stay beside a new item: not the same query and repository in another epoch. */
  function Retained(evidence: seq<Evidence>, item: Evidence): (r: seq<Evidence>)
    ensures forall e :: e in r <==>
      e in evidence && (e.queryId != item.queryId || e.repoKey != item.repoKey || e.epochId == item.epochId)
  {
    if evidence == [] then []
    else
      var rest := Retained(evidence[1..], item);
      var e := evidence[0];
      if e.queryId != item.queryId || e.repoKey != item.repoKey || e.epochId == item.epochId then [e] + rest else rest
  }

  function KeyIndex(evidence: seq<Evidence>, item: Evidence): (i: nat)
    ensures i <= |evidence|
    ensures i < |evidence| ==> SameKey(evidence[i], item)
    ensures forall j :: 0 <= j < i ==> !SameKey(evidence[j], item)
  {
    if evidence == [] then 0 else if SameKey(evidence[0], item) then 0 else 1 + KeyIndex(evidence[1..], item)
  }

  /** `observeWorkspaceEvidence` for one item: what the episode's evidence becomes. */
  function Bind(evidence: seq<Evidence>, item: Evidence): seq<Evidence> {
    var kept := Retained(evidence, item);
    var i := KeyIndex(kept, item);
    if i < |kept| then kept[i := MergeEvidenceRecord(kept[i], item)] else kept + [item]
  }

  function BindAll(items: seq<Evidence>): seq<Evidence> {
    if items == [] then [] else Bind(BindAll(items[..|items| - 1]), items[|items| - 1])
  }

  /** Each query and repository has at most one record, in at most one epoch. */
  ghost predicate OnePerRepository(evidence: seq<Evidence>) {
    forall i, j :: 0 <= i < j < |evidence| ==>
      !(evidence[i].queryId == evidence[j].queryId && evidence[i].repoKey == evidence[j].repoKey)
  }

  lemma {:induction false} RetainedKeeps(evidence: seq<Evidence>, item: Evidence)
    requires OnePerRepository(evidence)
    ensures OnePerRepository(Retained(evidence, item))
  {
    if evidence != [] {
      TailKeeps(evidence);
      RetainedKeeps(evidence[1..], item);
      HeadKeeps(evidence[0], Retained(evidence[1..], item));
    }
  }

  lemma TailKeeps(evidence: seq<Evidence>)
    requires OnePerRepository(evidence) && evidence != []
    ensures OnePerRepository(evidence[1..])
    ensures forall e :: e in evidence[1..] ==> !(e.queryId == evidence[0].queryId && e.repoKey == evidence[0].repoKey)
  {
  }

  lemma HeadKeeps(e: Evidence, rest: seq<Evidence>)
    requires OnePerRepository(rest)
    requires forall f :: f in rest ==> !(f.queryId == e.queryId && f.repoKey == e.repoKey)
    ensures OnePerRepository([e] + rest)
  {
  }

  lemma BindKeeps(evidence: seq<Evidence>, item: Evidence)
    requires OnePerRepository(evidence)
    ensures OnePerRepository(Bind(evidence, item))
  {
    var kept := Retained(evidence, item);
    RetainedKeeps(evidence, item);
    var i := KeyIndex(kept, item);
    if i < |kept| {
      KeysKept(kept, i, MergeEvidenceRecord(kept[i], item));
    } else {
      forall e | e in kept ensures !(e.queryId == item.queryId && e.repoKey == item.repoKey) {
        var j :| 0 <= j < |kept| && kept[j] == e;
        assert !SameKey(kept[j], item);
      }
      NewKey(kept, item);
    }
  }

  lemma KeysKept(evidence: seq<Evidence>, i: nat, e: Evidence)
    requires OnePerRepository(evidence) && i < |evidence| && SameKey(evidence[i], e)
    ensures OnePerRepository(evidence[i := e])
  {
  }

  lemma NewKey(evidence: seq<Evidence>, item: Evidence)
    requires OnePerRepository(evidence)
    requires forall e :: e in evidence ==> !(e.queryId == item.queryId && e.repoKey == item.repoKey)
    ensures OnePerRepository(evidence + [item])
  {
    forall k | 0 <= k < |evidence| ensures !(evidence[k].queryId == item.queryId && evidence[k].repoKey == item.repoKey) {
      assert evidence[k] in evidence;
    }
  }

  /** However evidence is bound, an episode never holds two records of one query, repository and epoch. */
  lemma {:induction false} BindingKeysEvidence(items: seq<Evidence>)
    ensures OnePerRepository(BindAll(items))
    ensures KeyedEvidence(BindAll(items))
  {
    if items != [] {
      BindingKeysEvidence(items[..|items| - 1]);
      BindKeeps(BindAll(items[..|items| - 1]), items[|items| - 1]);
    }
    var all := BindAll(items);
    forall e, f | e in all && f in all && SameKey(e, f) ensures e == f {
      var i :| 0 <= i < |all| && all[i] == e;
      var j :| 0 <= j < |all| && all[j] == f;
    }
  }

  /**
   A complete census is final: once it is bound, the query's content in that repository can only
   match a commit through one of the census's own pairs, whatever was bound before.
   */
  lemma CensusIsAuthority(evidence: seq<Evidence>, item: Evidence, e: Evidence, committed: seq<ArtifactState>)
    requires OnePerRepository(evidence) && item.causalComplete
    requires e in Bind(evidence, item) && e.queryId == item.queryId && e.repoKey == item.repoKey
    ensures e.epochId == item.epochId && e.causalWrites == item.causalWrites && e.rejectedWrites == item.rejectedWrites
    ensures HasContentContinuity(e, committed) ==>
      exists p :: p in item.causalWrites && ArtifactMatched(e, p.artifactKey, committed)
  {
    var kept := Retained(evidence, item);
    var bound := Bind(evidence, item);
    var i := KeyIndex(kept, item);
    RetainedKeeps(evidence, item);
    BindKeeps(evidence, item);
    var k :| 0 <= k < |bound| && bound[k] == e;
    assert SameKey(bound[i], item);
    assert k == i;
    if HasContentContinuity(e, committed) {
      var o :| o in AttributableStates(e) && MatchesSome(o, committed);
    }
  }
}
