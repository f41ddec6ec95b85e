/**
 Following an append-only telemetry file (src/ingestion/jsonlTelemetryIngestion.ts): chunked reads,
 line splitting, checkpoints, and replay after a restart.
 */
module JsonlTail {
  import opened Prelude

  newtype byte = x: int | 0 <= x < 256

  type Bytes = seq<byte>

  const LF: byte := 0x0a
  const CR: byte := 0x0d
  const LETTER: byte := 0x61

  // ---- lines of a byte sequence -----------------------------------------------------------------------

  /** A carriage return just before the line feed belongs to the line ending. */
  function Strip(line: Bytes): Bytes {
    if line != [] && line[|line| - 1] == CR then line[..|line| - 1] else line
  }

  /** The bytes after the last line feed. */
  function Rest(b: Bytes): (r: Bytes)
    ensures |r| <= |b|
  {
    if b == [] || b[|b| - 1] == LF then [] else Rest(b[..|b| - 1]) + [b[|b| - 1]]
  }

  /** The complete lines, in order. */
  function Lines(b: Bytes): seq<Bytes> {
    if b == [] then []
    else
      Lines(b[..|b| - 1]) + if b[|b| - 1] == LF then [Strip(Rest(b[..|b| - 1]))] else []
  }

  /** The bytes before the first line feed. */
  function FirstRaw(b: Bytes): Bytes {
    if b == [] then [] else if Lines(b[..|b| - 1]) == [] then Rest(b[..|b| - 1]) else FirstRaw(b[..|b| - 1])
  }

  ghost predicate NoFeed(b: Bytes) {
    forall i :: 0 <= i < |b| ==> b[i] != LF
  }

  lemma {:induction false} RestIsSuffix(b: Bytes)
    ensures Rest(b) == b[|b| - |Rest(b)|..] && NoFeed(Rest(b))
    ensures Lines(b) == [] <==> |Rest(b)| == |b|
    ensures Lines(b) != [] ==> |Rest(b)| < |b| && b[|b| - |Rest(b)| - 1] == LF
  {
    if b != [] && b[|b| - 1] != LF {
      RestIsSuffix(b[..|b| - 1]);
    }
  }

  lemma {:induction false} NoLineLeft(b: Bytes)
    requires NoFeed(b)
    ensures Lines(b) == [] && Rest(b) == b
  {
    if b != [] {
      NoLineLeft(b[..|b| - 1]);
      assert b == b[..|b| - 1] + [b[|b| - 1]];
    }
  }

  /** Splitting after the fact equals splitting as the bytes arrive. */
  lemma {:induction false} SplitConcat(a: Bytes, b: Bytes)
    ensures Lines(a + b) == Lines(a) + Lines(Rest(a) + b)
    ensures Rest(a + b) == Rest(Rest(a) + b)
    decreases |b|
  {
    if b == [] {
      SplitConcatNothing(a);
    } else {
      var before, x := b[..|b| - 1], b[|b| - 1];
      assert b == before + [x];
      SplitConcat(a, before);
      SplitConcatByte(a, before, x);
    }
  }

  lemma SplitConcatNothing(a: Bytes)
    ensures Lines(a + []) == Lines(a) + Lines(Rest(a) + []) && Rest(a + []) == Rest(Rest(a) + [])
  {
    RestIsSuffix(a);
    NoLineLeft(Rest(a));
    assert a + [] == a && Rest(a) + [] == Rest(a);
  }

  lemma SplitConcatByte(a: Bytes, b: Bytes, x: byte)
    requires Lines(a + b) == Lines(a) + Lines(Rest(a) + b) && Rest(a + b) == Rest(Rest(a) + b)
    ensures Lines(a + (b + [x])) == Lines(a) + Lines(Rest(a) + (b + [x]))
    ensures Rest(a + (b + [x])) == Rest(Rest(a) + (b + [x]))
  {
    NextByteOf(a, b, x);
    NextByteOf(Rest(a), b, x);
    if x == LF {
      Reassociate(Lines(a), Lines(Rest(a) + b), [Strip(Rest(a + b))]);
    }
  }

  lemma NextByteOf(a: Bytes, b: Bytes, x: byte)
    ensures Rest(a + (b + [x])) == if x == LF then [] else Rest(a + b) + [x]
    ensures Lines(a + (b + [x])) == if x == LF then Lines(a + b) + [Strip(Rest(a + b))] else Lines(a + b)
  {
    assert a + (b + [x]) == (a + b) + [x];
    NextByte(a + b, x);
  }

  lemma Reassociate<T>(s: seq<T>, t: seq<T>, u: seq<T>)
    ensures (s + t) + u == s + (t + u)
  {
  }

  lemma Appended<T>(s: seq<T>, t: seq<T>)
    ensures (s + t)[..|s|] == s && (s + t)[|s|..] == t
  {
  }

  lemma GluedPartial(x: Bytes, w: Bytes)
    requires NoFeed(x) && Lines(w) == []
    ensures Lines(x + w) == [] && Rest(x + w) == x + w && Rest(w) == w
  {
    RestIsSuffix(w);
    NoLineLeft(w);
    NoLineLeft(x + w);
  }

  lemma {:induction false} RestGlued(x: Bytes, w: Bytes)
    requires NoFeed(x) && Lines(w) != []
    ensures Rest(x + w) == Rest(w)
  {
    var n := |w| - 1;
    if w[n] != LF {
      assert (x + w)[..|x| + n] == x + w[..n];
      RestGlued(x, w[..n]);
    }
  }

  lemma NextByte(b: Bytes, x: byte)
    ensures Rest(b + [x]) == if x == LF then [] else Rest(b) + [x]
    ensures Lines(b + [x]) == Lines(b) + if x == LF then [Strip(Rest(b))] else []
  {
    assert (b + [x])[..|b|] == b;
  }

  lemma FirstFeed(b: Bytes)
    requires Lines(b) == []
    ensures FirstRaw(b + [LF]) == b && Lines(b + [LF]) == [Strip(b)]
  {
    assert (b + [LF])[..|b|] == b;
    RestIsSuffix(b);
  }

  lemma LaterByte(b: Bytes, x: byte)
    requires Lines(b) != []
    ensures FirstRaw(b + [x]) == FirstRaw(b)
  {
    assert (b + [x])[..|b|] == b;
  }

  /** `x` glued in front of `w` changes its first complete line and nothing after it. */
  ghost predicate GluedLines(x: Bytes, w: Bytes, tail: seq<Bytes>) {
    && Lines(w) == [Strip(FirstRaw(w))] + tail
    && Lines(x + w) == [Strip(x + FirstRaw(w))] + tail
  }

  lemma GluedAtFirstFeed(x: Bytes, before: Bytes)
    requires NoFeed(x) && Lines(before) == []
    ensures GluedLines(x, before + [LF], [])
  {
    GluedPartial(x, before);
    FirstFeed(before);
    FirstFeed(x + before);
    assert x + (before + [LF]) == (x + before) + [LF];
  }

  lemma GluedLater(x: Bytes, before: Bytes, last: byte, rest: seq<Bytes>) returns (more: seq<Bytes>)
    requires NoFeed(x) && Lines(before) != [] && GluedLines(x, before, rest)
    ensures GluedLines(x, before + [last], rest + more)
  {
    more := if last == LF then [Strip(Rest(before))] else [];
    NextByte(before, last);
    NextByte(x + before, last);
    RestGlued(x, before);
    LaterByte(before, last);
    assert x + (before + [last]) == (x + before) + [last];
    Reassociate([Strip(FirstRaw(before))], rest, more);
    Reassociate([Strip(x + FirstRaw(before))], rest, more);
  }

  /** Prefixing bytes without a line feed only changes the first complete line. */
  lemma {:induction false} FirstLineGlued(x: Bytes, w: Bytes) returns (tail: seq<Bytes>)
    requires NoFeed(x) && Lines(w) != []
    ensures GluedLines(x, w, tail)
  {
    var n := |w| - 1;
    assert w == w[..n] + [w[n]];
    if Lines(w[..n]) == [] {
      GluedAtFirstFeed(x, w[..n]);
      tail := [];
    } else {
      var rest := FirstLineGlued(x, w[..n]);
      var more := GluedLater(x, w[..n], w[n], rest);
      tail := rest + more;
    }
  }

  lemma StripSlice(buffer: Bytes, lineStart: nat, index: nat)
    requires lineStart <= index <= |buffer|
    ensures var lineEnd := if index > lineStart && buffer[index - 1] == CR then index - 1 else index;
      Strip(buffer[lineStart..index]) == buffer[lineStart..lineEnd]
  {
    var line := buffer[lineStart..index];
    if index > lineStart {
      assert line[|line| - 1] == buffer[index - 1];
      assert line[..|line| - 1] == buffer[lineStart..index - 1];
    }
  }

  /** What one more byte makes of the lines and the partial line of a prefix. */
  lemma OneMoreByte(buffer: Bytes, lineStart: nat, index: nat)
    requires lineStart <= index < |buffer| && buffer[lineStart..index] == Rest(buffer[..index])
    ensures Lines(buffer[..index + 1]) ==
      Lines(buffer[..index]) + if buffer[index] == LF then [Strip(buffer[lineStart..index])] else []
    ensures Rest(buffer[..index + 1]) == if buffer[index] == LF then [] else buffer[lineStart..index + 1]
  {
    assert buffer[..index + 1] == buffer[..index] + [buffer[index]];
    assert buffer[lineStart..index + 1] == buffer[lineStart..index] + [buffer[index]];
    NextByte(buffer[..index], buffer[index]);
  }

  /** `splitCompleteLines`: one pass over the buffer. */
  method SplitCompleteLines(buffer: Bytes) returns (lines: seq<Bytes>, partial: Bytes)
    ensures lines == Lines(buffer) && partial == Rest(buffer)
  {
    lines := [];
    var lineStart := 0;
    for index := 0 to |buffer|
      invariant 0 <= lineStart <= index
      invariant lines == Lines(buffer[..index])
      invariant buffer[lineStart..index] == Rest(buffer[..index])
    {
      OneMoreByte(buffer, lineStart, index);
      if buffer[index] == LF {
        var lineEnd := if index > lineStart && buffer[index - 1] == CR then index - 1 else index;
        StripSlice(buffer, lineStart, index);
        lines := lines + [buffer[lineStart..lineEnd]];
        lineStart := index + 1;
      }
    }
    assert buffer[..|buffer|] == buffer;
    partial := buffer[lineStart..];
  }

  // ---- the reader ----------------------------------------------------------------------------------------

  datatype State = State(
    readOffset: nat,
    checkpointOffset: nat,
    checkpointFloor: nat,
    partial: Bytes,
    discardLeading: bool,
    initialized: bool)

  datatype Config = Config(tail: bool, maxReadBytes: nat, replayBytes: nat)

  /** `start`: from nothing, or from a checkpoint, a replay window earlier. */
  function Started(cfg: Config, resume: Option<int>): State {
    if resume.None? then State(0, 0, 0, [], false, !cfg.tail)
    else
      var at := MaxInt(0, resume.value);
      var from := MaxInt(0, at - cfg.replayBytes);
      State(from, at, at, [], 0 < from < at, true)
  }

  /** What one poll hands on: complete lines, and a checkpoint when it emits one. */
  datatype Polled = Polled(state: State, lines: seq<Bytes>, checkpoint: Option<nat>)

  /** A file shorter than what was read or checkpointed was replaced: begin again. */
  function Reopened(cfg: Config, st: State, size: nat): State {
    if size < st.readOffset || size < st.checkpointFloor then
      var at := if cfg.tail then size else 0;
      State(at, at, at, [], false, true)
    else st.(initialized := true)
  }

  /** Bytes the next read asks for. */
  function ReadLength(cfg: Config, st: State, size: nat): nat
    requires st.readOffset <= size
  {
    if size - st.readOffset < cfg.maxReadBytes then size - st.readOffset else cfg.maxReadBytes
  }

  /** The bytes a read of at most `got` returns. */
  function Chunk(cfg: Config, st: State, file: Bytes, got: nat): (chunk: Bytes)
    requires st.readOffset <= |file|
    ensures st.readOffset + |chunk| <= |file|
  {
    var length := ReadLength(cfg, st, |file|);
    file[st.readOffset..st.readOffset + if got < length then got else length]
  }

  /** What a chunk just read makes of the reader. */
  function Absorbed(st: State, chunk: Bytes): Polled {
    var buffer := st.partial + chunk;
    var lines, partial := Lines(buffer), Rest(buffer);
    var consumed := st.readOffset + |chunk|;
    var checkpoint := MaxInt(st.checkpointFloor, consumed - |partial|);
    Polled(
      State(consumed, checkpoint, st.checkpointFloor, partial, st.discardLeading && lines == [], true),
      if st.discardLeading && lines != [] then lines[1..] else lines,
      Some(checkpoint))
  }

  /** One poll of a file whose content is known; `got` is how much the read may return. */
  function Poll(cfg: Config, st: State, file: Bytes, got: nat): Polled {
    if !st.initialized then
      Polled(State(|file|, |file|, |file|, st.partial, st.discardLeading, true), [], Some(|file|))
    else
      var s := Reopened(cfg, st, |file|);
      if |file| == s.readOffset then Polled(s, [], None) else Absorbed(s, Chunk(cfg, s, file, got))
  }

  /** Lines that are not blank are handed to the parser. */
  function Handed(blank: Bytes -> bool, lines: seq<Bytes>): seq<Bytes> {
    if lines == [] then []
    else Handed(blank, lines[..|lines| - 1]) + if blank(lines[|lines| - 1]) then [] else [lines[|lines| - 1]]
  }

  class JsonlTelemetryIngestion {
    const cfg: Config
    const blank: Bytes -> bool
    var readOffset: nat
    var checkpointOffset: nat
    var checkpointFloor: nat
    var partial: Bytes
    var discardLeadingPartial: bool
    var initialized: bool

    function Now(): State
      reads this
    {
      State(readOffset, checkpointOffset, checkpointFloor, partial, discardLeadingPartial, initialized)
    }

    constructor (cfg: Config, blank: Bytes -> bool)
      ensures this.cfg == cfg && this.blank == blank
    {
      this.cfg := cfg;
      this.blank := blank;
      readOffset, checkpointOffset, checkpointFloor := 0, 0, 0;
      partial, discardLeadingPartial, initialized := [], false, false;
    }

    method Start(resume: Option<int>)
      modifies this
      ensures Now() == Started(cfg, resume)
    {
      var resumeOffset := if resume.Some? then MaxInt(0, resume.value) else 0;
      readOffset := if resume.None? then 0 else MaxInt(0, resumeOffset - cfg.replayBytes);
      checkpointOffset := resumeOffset;
      checkpointFloor := resumeOffset;
      partial := [];
      discardLeadingPartial := resume.Some? && readOffset > 0 && readOffset < resumeOffset;
      initialized := resume.Some? || !cfg.tail;
    }

    /** Skips blank lines. */
    method HandOn(lines: seq<Bytes>) returns (handed: seq<Bytes>)
      ensures handed == Handed(blank, lines)
    {
      handed := [];
      for i := 0 to |lines|
        invariant handed == Handed(blank, lines[..i])
      {
        assert lines[..i + 1][..i] == lines[..i];
        if !blank(lines[i]) {
          handed := handed + [lines[i]];
        }
      }
      assert lines[..|lines|] == lines;
    }

    /** Takes in a chunk that follows what was read before. */
    method Absorb(chunk: Bytes) returns (handed: seq<Bytes>, checkpoint: nat)
      requires initialized
      modifies this
      ensures var p := Absorbed(old(Now()), chunk);
        Now() == p.state && handed == Handed(blank, p.lines) && Some(checkpoint) == p.checkpoint
    {
      var lines, rest := SplitCompleteLines(partial + chunk);
      readOffset := readOffset + |chunk|;
      partial := rest;
      if discardLeadingPartial && lines != [] {
        lines := lines[1..];
        discardLeadingPartial := false;
      }
      checkpointOffset := MaxInt(checkpointFloor, readOffset - |partial|);
      handed := HandOn(lines);
      checkpoint := checkpointOffset;
    }

    method ReopenIfReplaced(size: nat)
      requires initialized
      modifies this
      ensures Now() == Reopened(cfg, old(Now()), size)
    {
      if size < readOffset || size < checkpointFloor {
        readOffset := if cfg.tail then size else 0;
        checkpointOffset, checkpointFloor := readOffset, readOffset;
        partial := [];
        discardLeadingPartial := false;
      }
    }

    /** One poll: returns the lines given to the parser and the emitted checkpoint. */
    method PollOnce(file: Bytes, got: nat) returns (handed: seq<Bytes>, checkpoint: Option<nat>)
      modifies this
      ensures var p := Poll(cfg, old(Now()), file, got);
        Now() == p.state && handed == Handed(blank, p.lines) && checkpoint == p.checkpoint
    {
      if !initialized {
        readOffset, checkpointOffset, checkpointFloor := |file|, |file|, |file|;
        initialized := true;
        return [], Some(checkpointOffset);
      }
      ReopenIfReplaced(|file|);
      if |file| == readOffset {
        return [], None;
      }
      var emitted;
      handed, emitted := Absorb(Chunk(cfg, Now(), file, got));
      checkpoint := Some(emitted);
    }
  }

  // ---- append-only files ------------------------------------------------------------------------------------

  /** One poll sees the file as it is by then and reads at most so much. */
  datatype Look = Look(file: Bytes, got: nat)

  /** The file only ever grows. */
  ghost predicate Growing(looks: seq<Look>) {
    forall i, j :: 0 <= i < j < |looks| ==> looks[i].file <= looks[j].file
  }

  /** The state and all lines delivered after a sequence of polls. */
  datatype Progress = Progress(state: State, delivered: seq<Bytes>)

  ghost function Follow(cfg: Config, st: State, looks: seq<Look>): Progress {
    if looks == [] then Progress(st, [])
    else
      var n := |looks| - 1;
      var before := Follow(cfg, st, looks[..n]);
      var p := Poll(cfg, before.state, looks[n].file, looks[n].got);
      Progress(p.state, before.delivered + p.lines)
  }

  /** The lines due from a window of the file: the first fragment may have to be dropped. */
  ghost function Due(lines: seq<Bytes>, discard: bool): seq<Bytes> {
    if discard && lines != [] then lines[1..] else lines
  }

  lemma DueGrows(lines: seq<Bytes>, more: seq<Bytes>, discard: bool)
    ensures Due(lines + more, discard) == Due(lines, discard) + Due(more, discard && lines == [])
  {
    if lines == [] { assert lines + more == more; }
  }

  /** Where a reader began, what it may not checkpoint below, and whether a first fragment is dropped. */
  datatype Outset = Outset(begin: nat, floor: nat, discard: bool)

  /** The reader as its first poll finds the file: tailing from its end, begun again, or where it was started. */
  function Opened(cfg: Config, resume: Option<int>, size: nat): State {
    var st := Started(cfg, resume);
    if st.initialized then Reopened(cfg, st, size) else State(size, size, size, [], false, true)
  }

  function OutsetOf(cfg: Config, resume: Option<int>, size: nat): Outset {
    var st := Opened(cfg, resume, size);
    Outset(st.readOffset, st.checkpointFloor, st.discardLeading)
  }

  /** The reader has taken in exactly these bytes since it began. */
  ghost predicate TookIn(st: State, window: Bytes, o: Outset, delivered: seq<Bytes>) {
    && st.initialized
    && st.readOffset == o.begin + |window|
    && st.checkpointFloor == o.floor
    && st.partial == Rest(window)
    && delivered == Due(Lines(window), o.discard)
    && st.discardLeading == (o.discard && Lines(window) == [])
    && st.checkpointOffset == MaxInt(o.floor, o.begin + |window| - |Rest(window)|)
  }

  lemma AbsorbTakesIn(st: State, window: Bytes, chunk: Bytes, o: Outset, delivered: seq<Bytes>)
    requires TookIn(st, window, o, delivered)
    ensures var p := Absorbed(st, chunk); TookIn(p.state, window + chunk, o, delivered + p.lines)
    ensures st.checkpointOffset <= Absorbed(st, chunk).state.checkpointOffset
  {
    SplitConcat(window, chunk);
    DueGrows(Lines(window), Lines(Rest(window) + chunk), o.discard);
  }

  /** The reader has taken in exactly the file from where it began to where it is. */
  ghost predicate Following(st: State, file: Bytes, o: Outset, delivered: seq<Bytes>) {
    && o.begin <= st.readOffset <= |file| && o.begin <= o.floor <= |file|
    && TookIn(st, file[o.begin..st.readOffset], o, delivered)
  }

  lemma AbsorbFollows(cfg: Config, st: State, file: Bytes, got: nat, o: Outset, delivered: seq<Bytes>)
    requires Following(st, file, o, delivered)
    ensures var p := Absorbed(st, Chunk(cfg, st, file, got));
      && Following(p.state, file, o, delivered + p.lines)
      && st.checkpointOffset <= p.state.checkpointOffset
  {
    var window, chunk := file[o.begin..st.readOffset], Chunk(cfg, st, file, got);
    AbsorbTakesIn(st, window, chunk, o, delivered);
    SliceExtends(file, o.begin, st.readOffset, st.readOffset + |chunk|);
  }

  lemma SliceExtends(file: Bytes, a: nat, b: nat, c: nat)
    requires a <= b <= c <= |file|
    ensures file[a..c] == file[a..b] + file[b..c]
  {
  }

  lemma NotReplaced(cfg: Config, st: State, size: nat)
    requires st.initialized && st.readOffset <= size && st.checkpointFloor <= size
    ensures Reopened(cfg, st, size) == st
  {
  }

  lemma StillFollowing(st: State, file: Bytes, grown: Bytes, o: Outset, delivered: seq<Bytes>)
    requires Following(st, file, o, delivered) && file <= grown
    ensures Following(st, grown, o, delivered)
  {
    assert grown[o.begin..st.readOffset] == file[o.begin..st.readOffset];
  }

  lemma PollFollows(cfg: Config, st: State, file: Bytes, got: nat, o: Outset, delivered: seq<Bytes>)
    requires Following(st, file, o, delivered)
    ensures var p := Poll(cfg, st, file, got);
      Following(p.state, file, o, delivered + p.lines)
  {
    NotReplaced(cfg, st, |file|);
    if |file| == st.readOffset {
      assert delivered + [] == delivered;
    } else {
      AbsorbFollows(cfg, st, file, got, o, delivered);
    }
  }

  lemma OpenedFollows(cfg: Config, resume: Option<int>, file: Bytes)
    ensures Following(Opened(cfg, resume, |file|), file, OutsetOf(cfg, resume, |file|), [])
  {
    var begin := OutsetOf(cfg, resume, |file|).begin;
    assert file[begin..begin] == [];
  }

  lemma FirstPollFollows(cfg: Config, resume: Option<int>, file: Bytes, got: nat)
    ensures var p := Poll(cfg, Started(cfg, resume), file, got);
      Following(p.state, file, OutsetOf(cfg, resume, |file|), p.lines)
  {
    var st := Started(cfg, resume);
    OpenedFollows(cfg, resume, file);
    if st.initialized {
      var first := Opened(cfg, resume, |file|);
      NotReplaced(cfg, first, |file|);
      assert Poll(cfg, st, file, got) == Poll(cfg, first, file, got);
      PollFollows(cfg, first, file, got, OutsetOf(cfg, resume, |file|), []);
      assert [] + Poll(cfg, first, file, got).lines == Poll(cfg, first, file, got).lines;
    }
  }

  /** Where polling this file sequence began. */
  function Begun(cfg: Config, resume: Option<int>, looks: seq<Look>): Outset
    requires looks != []
  {
    OutsetOf(cfg, resume, |looks[0].file|)
  }

  /**
   However it is started and however reads are cut, the reader follows the file: lines, retained
   partial and checkpoint.
   */
  lemma {:induction false} FollowsFile(cfg: Config, resume: Option<int>, looks: seq<Look>)
    requires looks != [] && Growing(looks)
    ensures
      var p := Follow(cfg, Started(cfg, resume), looks);
      Following(p.state, looks[|looks| - 1].file, Begun(cfg, resume, looks), p.delivered)
  {
    var n := |looks| - 1;
    var Progress(mid, lines) := Follow(cfg, Started(cfg, resume), looks[..n]);
    if n == 0 {
      FirstPollFollows(cfg, resume, looks[0].file, looks[0].got);
      var first := Poll(cfg, Started(cfg, resume), looks[0].file, looks[0].got).lines;
      assert [] + first == first;
    } else {
      GrowingPrefix(looks, n);
      FollowsFile(cfg, resume, looks[..n]);
      StillFollowing(mid, looks[n - 1].file, looks[n].file, Begun(cfg, resume, looks), lines);
      PollFollows(cfg, mid, looks[n].file, looks[n].got, Begun(cfg, resume, looks), lines);
    }
  }

  lemma GrowingPrefix(looks: seq<Look>, n: nat)
    requires 0 < n <= |looks| && Growing(looks)
    ensures Growing(looks[..n]) && looks[..n][0] == looks[0]
  {
  }

  lemma FollowingUnique(p: Progress, q: Progress, file: Bytes, o: Outset)
    requires Following(p.state, file, o, p.delivered) && Following(q.state, file, o, q.delivered)
    requires p.state.readOffset == q.state.readOffset
    ensures p == q
  {
  }

  /**
   Two ways of cutting the same file into polls and reads that began at the same place and have
   consumed the same bytes have delivered the same lines and retain the same partial line and checkpoint.
   */
  lemma CutsDoNotMatter(
    cfg1: Config, cfg2: Config, resume1: Option<int>, resume2: Option<int>, looks1: seq<Look>, looks2: seq<Look>)
    requires looks1 != [] && looks2 != [] && Growing(looks1) && Growing(looks2)
    requires looks1[|looks1| - 1].file == looks2[|looks2| - 1].file
    requires Begun(cfg1, resume1, looks1) == Begun(cfg2, resume2, looks2)
    requires Follow(cfg1, Started(cfg1, resume1), looks1).state.readOffset
          == Follow(cfg2, Started(cfg2, resume2), looks2).state.readOffset
    ensures Follow(cfg1, Started(cfg1, resume1), looks1) == Follow(cfg2, Started(cfg2, resume2), looks2)
  {
    FollowsFile(cfg1, resume1, looks1);
    FollowsFile(cfg2, resume2, looks2);
    FollowingUnique(Follow(cfg1, Started(cfg1, resume1), looks1), Follow(cfg2, Started(cfg2, resume2), looks2),
                    looks1[|looks1| - 1].file, Begun(cfg1, resume1, looks1));
  }

  /**
   Two readers of one configuration begin at the same place when the file was as long at their first
   poll; a start at the beginning, or at a checkpoint inside the file, does not depend on that length.
   */
  lemma SameOutset(cfg: Config, resume: Option<int>, size1: nat, size2: nat)
    requires size1 == size2 || (if resume.Some? then resume.value <= size1 && resume.value <= size2 else !cfg.tail)
    ensures OutsetOf(cfg, resume, size1) == OutsetOf(cfg, resume, size2)
  {
  }

  // ---- resuming from a checkpoint -----------------------------------------------------------------------------

  /** The offset is the beginning of the file or just after a line feed. */
  ghost predicate Boundary(file: Bytes, at: nat) {
    at == 0 || (at <= |file| && file[at - 1] == LF)
  }

  lemma BoundaryHasNoRest(file: Bytes, at: nat)
    requires at <= |file| && Boundary(file, at)
    ensures Rest(file[..at]) == []
  {
    var head := file[..at];
  }

  /** The lines of a file up to an offset begin with its lines up to an earlier offset. */
  lemma LinesGrow(file: Bytes, a: nat, b: nat)
    requires a <= b <= |file|
    ensures Lines(file[..b]) == Lines(file[..a]) + Lines(Rest(file[..a]) + file[a..b])
  {
    assert file[..b] == file[..a] + file[a..b];
    SplitConcat(file[..a], file[a..b]);
  }

  /** A line feed between two offsets ends at least one more line. */
  lemma FeedEndsLine(file: Bytes, a: nat, b: nat)
    requires a < b <= |file| && file[b - 1] == LF
    ensures |Lines(file[..a])| < |Lines(file[..b])|
  {
    LinesGrow(file, a, b);
    var tail := Rest(file[..a]) + file[a..b];
    assert tail[|tail| - 1] == file[a..b][b - a - 1] == LF;
    RestIsSuffix(tail);
  }

  /**
   Resuming at a checkpoint that is a line boundary delivers only whole lines of the file, in
   order, and none that ends after the checkpoint is missing: what is delivered is the file's own
   line list without its first k lines, all of which end by the checkpoint.
   */
  lemma ResumeDeliversWholeLines(cfg: Config, at: nat, looks: seq<Look>)
    requires looks != [] && Growing(looks) && at <= |looks[0].file| && Boundary(looks[0].file, at)
    ensures
      var Progress(st, delivered) := Follow(cfg, Started(cfg, Some(at)), looks);
      var file := looks[|looks| - 1].file;
      && st.readOffset <= |file|
      && exists k :: 0 <= k <= |Lines(file[..st.readOffset])| && k <= |Lines(file[..at])|
           && delivered == Lines(file[..st.readOffset])[k..]
  {
    FollowsFile(cfg, Some(at), looks);
    var Progress(st, delivered) := Follow(cfg, Started(cfg, Some(at)), looks);
    var file := looks[|looks| - 1].file;
    if |looks| > 1 { assert looks[0].file <= file; }
    var k := WholeLinesFrom(file, Begun(cfg, Some(at), looks).begin, at, st.readOffset);
    assert delivered == Lines(file[..st.readOffset])[k..];
  }

  lemma WholeLinesFrom(file: Bytes, begin: nat, at: nat, read: nat) returns (k: nat)
    requires begin <= read <= |file| && begin <= at <= |file| && Boundary(file, at)
    ensures k <= |Lines(file[..read])| && k <= |Lines(file[..at])|
    ensures Due(Lines(file[begin..read]), 0 < begin < at) == Lines(file[..read])[k..]
  {
    LinesGrow(file, begin, read);
    if begin == 0 {
      assert file[0..read] == file[..read];
      k := 0;
    } else if begin == at {
      BoundaryHasNoRest(file, at);
      assert [] + file[begin..read] == file[begin..read];
      k := |Lines(file[..begin])|;
    } else {
      FeedEndsLine(file, begin, at);
      k := FragmentDropped(file, begin, read);
    }
  }

  /** Dropping the first complete line of a window drops exactly the line cut by its beginning. */
  lemma FragmentDropped(file: Bytes, begin: nat, read: nat) returns (k: nat)
    requires begin <= read <= |file|
    ensures k <= |Lines(file[..read])| && k <= |Lines(file[..begin])| + 1
    ensures Due(Lines(file[begin..read]), true) == Lines(file[..read])[k..]
  {
    var window, head := file[begin..read], file[..begin];
    LinesGrow(file, begin, read);
    RestIsSuffix(head);
    if Lines(window) == [] {
      GluedPartial(Rest(head), window);
      k := |Lines(head)|;
    } else {
      var tail := FirstLineGlued(Rest(head), window);
      k := |Lines(head)| + 1;
      DropFirst(Lines(head), Strip(Rest(head) + FirstRaw(window)), tail);
      assert Lines(window)[1..] == tail;
    }
  }

  lemma DropFirst<T>(s: seq<T>, x: T, t: seq<T>)
    ensures (s + ([x] + t))[|s| + 1..] == t
    ensures (s + ([x] + t))[|s|..] == [x] + t
  {
  }

  // ---- checkpoints ------------------------------------------------------------------------------------------

  ghost function CheckpointAfter(cfg: Config, resume: Option<int>, looks: seq<Look>): nat {
    Follow(cfg, Started(cfg, resume), looks).state.checkpointOffset
  }

  /** From the first poll on checkpoints never go back, and each is the first one allowed or a line boundary. */
  lemma CheckpointsAdvance(cfg: Config, resume: Option<int>, looks: seq<Look>, m: nat)
    requires 0 < m <= |looks| && Growing(looks)
    ensures Begun(cfg, resume, looks).floor <= CheckpointAfter(cfg, resume, looks[..m]) <= CheckpointAfter(cfg, resume, looks)
    ensures CheckpointAfter(cfg, resume, looks) == Begun(cfg, resume, looks).floor
         || Boundary(looks[|looks| - 1].file, CheckpointAfter(cfg, resume, looks))
  {
    GrowingPrefix(looks, m);
    CheckpointIsBoundary(cfg, resume, looks[..m]);
    CheckpointIsBoundary(cfg, resume, looks);
    LaterCheckpoint(cfg, resume, looks, m);
  }

  /** Resumed at a line boundary inside the file, every checkpoint is a line boundary again, and none is earlier. */
  lemma ResumedCheckpointsAreBoundaries(cfg: Config, at: nat, looks: seq<Look>)
    requires looks != [] && Growing(looks) && at <= |looks[0].file| && Boundary(looks[0].file, at)
    ensures at <= CheckpointAfter(cfg, Some(at), looks)
    ensures Boundary(looks[|looks| - 1].file, CheckpointAfter(cfg, Some(at), looks))
  {
    assert looks[..|looks|] == looks;
    CheckpointsAdvance(cfg, Some(at), looks, |looks|);
    if |looks| > 1 { assert looks[0].file <= looks[|looks| - 1].file; }
  }

  lemma CheckpointIsBoundary(cfg: Config, resume: Option<int>, looks: seq<Look>)
    requires looks != [] && Growing(looks)
    ensures Begun(cfg, resume, looks).floor <= CheckpointAfter(cfg, resume, looks)
    ensures CheckpointAfter(cfg, resume, looks) == Begun(cfg, resume, looks).floor
         || Boundary(looks[|looks| - 1].file, CheckpointAfter(cfg, resume, looks))
  {
    FollowsFile(cfg, resume, looks);
    var p := Follow(cfg, Started(cfg, resume), looks);
    FollowingBoundary(p.state, looks[|looks| - 1].file, Begun(cfg, resume, looks), p.delivered);
  }

  lemma FollowingBoundary(st: State, file: Bytes, o: Outset, delivered: seq<Bytes>)
    requires Following(st, file, o, delivered)
    ensures o.floor <= st.checkpointOffset
    ensures st.checkpointOffset == o.floor || Boundary(file, st.checkpointOffset)
  {
    if st.checkpointOffset != o.floor { FeedBeforeRest(file, o.begin, st.readOffset); }
  }

  /** The rest of a window that ends a line begins on a line boundary of the file. */
  lemma FeedBeforeRest(file: Bytes, begin: nat, read: nat)
    requires begin <= read <= |file| && |Rest(file[begin..read])| < read - begin
    ensures Boundary(file, read - |Rest(file[begin..read])|)
  {
    var window := file[begin..read];
    RestIsSuffix(window);
    var last := |window| - |Rest(window)| - 1;
    assert window[last] == file[begin + last];
  }

  lemma {:induction false} LaterCheckpoint(cfg: Config, resume: Option<int>, looks: seq<Look>, m: nat)
    requires 0 < m <= |looks| && Growing(looks)
    ensures CheckpointAfter(cfg, resume, looks[..m]) <= CheckpointAfter(cfg, resume, looks)
    decreases |looks|
  {
    if m == |looks| {
      assert looks[..m] == looks;
    } else {
      var init := looks[..|looks| - 1];
      GrowingPrefix(looks, |looks| - 1);
      LaterCheckpoint(cfg, resume, init, m);
      assert init[..m] == looks[..m];
      OneMorePoll(cfg, resume, looks);
    }
  }

  lemma OneMorePoll(cfg: Config, resume: Option<int>, looks: seq<Look>)
    requires 2 <= |looks| && Growing(looks)
    ensures CheckpointAfter(cfg, resume, looks[..|looks| - 1]) <= CheckpointAfter(cfg, resume, looks)
  {
    var n := |looks| - 1;
    GrowingPrefix(looks, n);
    FollowsFile(cfg, resume, looks[..n]);
    var Progress(mid, lines) := Follow(cfg, Started(cfg, resume), looks[..n]);
    var o := Begun(cfg, resume, looks);
    StillFollowing(mid, looks[n - 1].file, looks[n].file, o, lines);
    PollAdvances(cfg, mid, looks[n].file, looks[n].got, o, lines);
  }

  lemma PollAdvances(cfg: Config, st: State, file: Bytes, got: nat, o: Outset, delivered: seq<Bytes>)
    requires Following(st, file, o, delivered)
    ensures st.checkpointOffset <= Poll(cfg, st, file, got).state.checkpointOffset
  {
    NotReplaced(cfg, st, |file|);
    if |file| != st.readOffset {
      AbsorbFollows(cfg, st, file, got, o, delivered);
    }
  }

  // ---- whole lines or a fragment ----------------------------------------------------------------------------

  /** The delivered lines are the last ones of the file's own lines. */
  ghost predicate WholeLines(delivered: seq<Bytes>, lines: seq<Bytes>) {
    |delivered| <= |lines| && delivered == lines[|lines| - |delivered|..]
  }

  /** Beginning at a line boundary, or between the two bytes of an otherwise empty line's CRLF. */
  ghost predicate BeginsClean(file: Bytes, begin: nat, read: nat)
    requires begin <= read <= |file|
  {
    Rest(file[..begin]) == [] || (Rest(file[..begin]) == [CR] && FirstRaw(file[begin..read]) == [])
  }

  /** The lines of a window are the file's own lines exactly when the window begins clean or completes none. */
  lemma WindowWholeIff(file: Bytes, begin: nat, read: nat)
    requires begin <= read <= |file|
    ensures WholeLines(Lines(file[begin..read]), Lines(file[..read])) <==>
            Lines(file[begin..read]) == [] || BeginsClean(file, begin, read)
  {
    var window, head := file[begin..read], file[..begin];
    LinesGrow(file, begin, read);
    RestIsSuffix(head);
    if Lines(window) != [] {
      var x, first := Rest(head), FirstRaw(window);
      var tail := FirstLineGlued(x, window);
      SuffixByFirst(Lines(head), Strip(x + first), Strip(first), tail);
      StripGlued(x, first);
    }
  }

  lemma SuffixByFirst<T(!new)>(before: seq<T>, x: T, y: T, tail: seq<T>)
    ensures var all := before + ([x] + tail);
      [y] + tail == all[|all| - |[y] + tail|..] <==> x == y
  {
    var all := before + ([x] + tail);
    assert all[|before|..] == [x] + tail;
    assert ([x] + tail)[0] == x && ([y] + tail)[0] == y;
  }

  lemma StripGlued(x: Bytes, first: Bytes)
    ensures Strip(x + first) == Strip(first) <==> x == [] || (x == [CR] && first == [])
  {
    if x == [] { assert x + first == first; }
  }

  /**
   Whatever the start, the reader delivers the file's own lines, and not a fragment first, exactly
   when it drops its first fragment, has delivered nothing yet, or began clean.
   */
  lemma DeliversWholeLinesIff(cfg: Config, resume: Option<int>, looks: seq<Look>)
    requires looks != [] && Growing(looks)
    ensures
      var p, o, file := Follow(cfg, Started(cfg, resume), looks), Begun(cfg, resume, looks), looks[|looks| - 1].file;
      && o.begin <= p.state.readOffset <= |file|
      && (WholeLines(p.delivered, Lines(file[..p.state.readOffset])) <==>
            o.discard || p.delivered == [] || BeginsClean(file, o.begin, p.state.readOffset))
  {
    FollowsFile(cfg, resume, looks);
    var p, o, file := Follow(cfg, Started(cfg, resume), looks), Begun(cfg, resume, looks), looks[|looks| - 1].file;
    if o.discard {
      var k := FragmentDropped(file, o.begin, p.state.readOffset);
    } else {
      WindowWholeIff(file, o.begin, p.state.readOffset);
    }
  }

  /**
   Tailing, the default start, delivers the lines completed after the file's end at the first poll; they
   are the file's own lines exactly when there are none or the file then ended clean.
   */
  lemma TailFirstLineWholeIff(cfg: Config, looks: seq<Look>)
    requires cfg.tail && looks != [] && Growing(looks)
    ensures
      var p, begin, file := Follow(cfg, Started(cfg, None), looks), |looks[0].file|, looks[|looks| - 1].file;
      && begin <= p.state.readOffset <= |file|
      && p.delivered == Lines(file[begin..p.state.readOffset])
      && (WholeLines(p.delivered, Lines(file[..p.state.readOffset])) <==>
            p.delivered == [] || BeginsClean(file, begin, p.state.readOffset))
  {
    FollowsFile(cfg, None, looks);
    DeliversWholeLinesIff(cfg, None, looks);
  }

  /** The reader has handed on the file's own lines, up to where it has read. */
  ghost predicate DeliversWhole(cfg: Config, resume: Option<int>, looks: seq<Look>)
    requires looks != []
  {
    var p, file := Follow(cfg, Started(cfg, resume), looks), looks[|looks| - 1].file;
    p.state.readOffset <= |file| && WholeLines(p.delivered, Lines(file[..p.state.readOffset]))
  }

  /**
   A tailing reader that reads at all delivers whole lines however the file grows and is polled, exactly
   when the file it first finds ends with a line feed or is empty.
   */
  lemma TailAlwaysWholeIff(cfg: Config, early: Bytes)
    requires cfg.tail && 0 < cfg.maxReadBytes
    ensures Rest(early) == [] <==>
      forall looks: seq<Look> :: looks != [] && Growing(looks) && looks[0].file == early ==> DeliversWhole(cfg, None, looks)
  {
    if Rest(early) == [] {
      forall looks: seq<Look> | looks != [] && Growing(looks) && looks[0].file == early ensures DeliversWhole(cfg, None, looks) {
        TailFirstLineWholeIff(cfg, looks);
        if |looks| > 1 { assert looks[0].file <= looks[|looks| - 1].file; }
      }
    } else {
      TailBreaksLine(cfg, early);
      assert !DeliversWhole(cfg, None, OneByteLooks(early));
    }
  }

  /** The file as first found, then with a letter added, then with a line feed. */
  function OneByteLooks(early: Bytes): seq<Look> {
    [Look(early, 0), Look(early + [LETTER], 1), Look(early + [LETTER] + [LF], 1)]
  }

  lemma TailBreaksLine(cfg: Config, early: Bytes)
    requires cfg.tail && 0 < cfg.maxReadBytes && Rest(early) != []
    ensures Growing(OneByteLooks(early)) && !DeliversWhole(cfg, None, OneByteLooks(early))
  {
    TailReadsBytes(cfg, early);
    TailFirstLineWholeIff(cfg, OneByteLooks(early));
    LetterWindow(early);
    LetterLine();
  }

  lemma LetterWindow(early: Bytes)
    ensures var late := early + [LETTER] + [LF];
      |late| == |early| + 2 && late[..|early|] == early && late[|early|..|early| + 2] == [LETTER] + [LF]
  {
    var late := early + [LETTER] + [LF];
    Reassociate(early, [LETTER], [LF]);
    Appended(early, [LETTER] + [LF]);
    assert late[|early|..|late|] == late[|early|..];
  }

  lemma LetterLine()
    ensures Lines([LETTER] + [LF]) != [] && FirstRaw([LETTER] + [LF]) != []
  {
    NoLineLeft([LETTER]);
    FirstFeed([LETTER]);
  }

  lemma TailReadsBytes(cfg: Config, early: Bytes)
    requires cfg.tail && 0 < cfg.maxReadBytes
    ensures Growing(OneByteLooks(early))
    ensures Follow(cfg, Started(cfg, None), OneByteLooks(early)).state.readOffset == |early| + 2
  {
    var looks, start := OneByteLooks(early), Started(cfg, None);
    TailReadsFirst(cfg, looks[0], looks[1]);
    FollowNext(cfg, start, [looks[0], looks[1]], looks[2]);
    assert [looks[0], looks[1]] + [looks[2]] == looks;
    ReadsOneByte(cfg, Follow(cfg, start, [looks[0], looks[1]]).state, looks[2].file);
  }

  lemma TailReadsFirst(cfg: Config, first: Look, second: Look)
    requires cfg.tail && 0 < cfg.maxReadBytes && |second.file| == |first.file| + 1 && second.got == 1
    ensures var st := Follow(cfg, Started(cfg, None), [first, second]).state;
      st.initialized && st.readOffset == |second.file| && st.checkpointFloor == |first.file|
  {
    var start := Started(cfg, None);
    FollowNext(cfg, start, [], first);
    FollowNext(cfg, start, [first], second);
    assert [] + [first] == [first] && [first] + [second] == [first, second];
    ReadsOneByte(cfg, Follow(cfg, start, [first]).state, second.file);
  }

  lemma FollowNext(cfg: Config, st: State, looks: seq<Look>, next: Look)
    ensures Follow(cfg, st, looks + [next]).state == Poll(cfg, Follow(cfg, st, looks).state, next.file, next.got).state
  {
    assert (looks + [next])[..|looks|] == looks;
  }

  lemma ReadsOneByte(cfg: Config, st: State, file: Bytes)
    requires st.initialized && st.readOffset + 1 == |file| && st.checkpointFloor <= |file| && 0 < cfg.maxReadBytes
    ensures var next := Poll(cfg, st, file, 1).state;
      next.initialized && next.readOffset == |file| && next.checkpointFloor == st.checkpointFloor
  {
    NotReplaced(cfg, st, |file|);
  }

  /**
   Whatever line was begun when a tailing reader first found the file, it is delivered without its
   beginning: once the reader has read past the end of that line, it delivered the rest `w` and then the
   lines that follow, where the file has what was there already with `w` after it.
   */
  lemma TailDeliversFragment(cfg: Config, looks: seq<Look>, w: Bytes) returns (following: seq<Bytes>)
    requires cfg.tail && looks != [] && Growing(looks) && NoFeed(w)
    requires looks[0].file + w + [LF] <= looks[|looks| - 1].file
    requires |looks[0].file + w + [LF]| <= Follow(cfg, Started(cfg, None), looks).state.readOffset
    ensures
      var p, early, file := Follow(cfg, Started(cfg, None), looks), looks[0].file, looks[|looks| - 1].file;
      && p.state.readOffset <= |file|
      && p.delivered == [Strip(w)] + following
      && Lines(file[..p.state.readOffset]) == Lines(early) + ([Strip(Rest(early) + w)] + following)
  {
    TailFirstLineWholeIff(cfg, looks);
    following := CutLine(looks[0].file, w, looks[|looks| - 1].file, Follow(cfg, Started(cfg, None), looks).state.readOffset);
  }

  /** The lines of a window that begins inside a line, and those of the whole file. */
  lemma CutLine(early: Bytes, w: Bytes, file: Bytes, read: nat) returns (following: seq<Bytes>)
    requires NoFeed(w) && early + w + [LF] <= file && |early + w + [LF]| <= read <= |file|
    ensures Lines(file[|early|..read]) == [Strip(w)] + following
    ensures Lines(file[..read]) == Lines(early) + ([Strip(Rest(early) + w)] + following)
  {
    var more := WindowSplit(early, w, file, read);
    LinesGrow(file, |early|, read);
    RestIsSuffix(early);
    FirstLineThen(w, more);
    LineThen(Rest(early), w, more);
    following := Lines(more);
  }

  lemma WindowSplit(early: Bytes, w: Bytes, file: Bytes, read: nat) returns (more: Bytes)
    requires early + w + [LF] <= file && |early + w + [LF]| <= read <= |file|
    ensures file[..|early|] == early && file[|early|..read] == (w + [LF]) + more
  {
    var line := early + w + [LF];
    assert line[..|early|] == early && line[|early|..] == w + [LF];
    assert file[..|line|] == line;
    more := file[|line|..read];
  }

  /** The first line of `x + w`, a line feed and anything after it. */
  lemma LineThen(x: Bytes, w: Bytes, more: Bytes)
    requires NoFeed(x) && NoFeed(w)
    ensures Lines(x + ((w + [LF]) + more)) == [Strip(x + w)] + Lines(more)
  {
    assert x + ((w + [LF]) + more) == ((x + w) + [LF]) + more;
    FirstLineThen(x + w, more);
  }

  lemma FirstLineThen(w: Bytes, more: Bytes)
    requires NoFeed(w)
    ensures Lines((w + [LF]) + more) == [Strip(w)] + Lines(more)
  {
    SplitConcat(w + [LF], more);
    OneLine(w);
    NextByte(w, LF);
    assert [] + more == more;
  }

  lemma OneLine(w: Bytes)
    requires NoFeed(w)
    ensures Lines(w + [LF]) == [Strip(w)]
  {
    NoLineLeft(w);
    FirstFeed(w);
  }

  /** A tailing reader's second poll of a grown file reads what was added. */
  lemma TailSecondPoll(cfg: Config, early: Bytes, late: Bytes, added: nat)
    requires cfg.tail && early <= late && 0 < added == |late| - |early| <= cfg.maxReadBytes
    ensures Follow(cfg, Started(cfg, None), [Look(early, 0), Look(late, added)]).delivered == Lines(late[|early|..])
  {
    var looks := [Look(early, 0), Look(late, added)];
    var n := |early|;
    var st := State(n, n, n, [], false, true);
    assert looks[..1] == [looks[0]] && [looks[0]][..0] == [];
    assert Follow(cfg, Started(cfg, None), [looks[0]]) == Progress(st, []);
    NotReplaced(cfg, st, |late|);
    assert Chunk(cfg, st, late, added) == late[n..];
    assert [] + late[n..] == late[n..];
  }

  lemma FragmentInTwoPolls(cfg: Config, x: Bytes, w: Bytes)
    requires cfg.tail && NoFeed(x) && NoFeed(w) && |w| < cfg.maxReadBytes
    ensures
      var looks := [Look(x, 0), Look(x + w + [LF], |w| + 1)];
      && Growing(looks)
      && Follow(cfg, Started(cfg, None), looks).delivered == [Strip(w)]
      && Lines(x + w + [LF]) == [Strip(x + w)]
  {
    var late := x + w + [LF];
    Reassociate(x, w, [LF]);
    Appended(x, w + [LF]);
    TailSecondPoll(cfg, x, late, |w| + 1);
    OneLine(w);
    OneLine(x + w);
  }

  const DEFAULT_TAIL := Config(true, 1_024 * 1_024, 4 * 1_024 * 1_024)

  /** For instance, polled when it holds `{"` and again when it holds `{"}` and a line feed, it delivers `}`. */
  lemma TailFragmentExample()
    ensures
      var looks := [Look([0x7b, 0x22], 0), Look([0x7b, 0x22] + [0x7d] + [LF], 2)];
      && Growing(looks)
      && Follow(DEFAULT_TAIL, Started(DEFAULT_TAIL, None), looks).delivered == [[0x7d]]
      && Lines([0x7b, 0x22] + [0x7d] + [LF]) == [[0x7b, 0x22] + [0x7d]]
  {
    FragmentInTwoPolls(DEFAULT_TAIL, [0x7b, 0x22], [0x7d]);
  }
}
