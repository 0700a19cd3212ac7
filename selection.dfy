/**
 * The two selection strategies of the client: least confidence (the pool is cut
 * into chunks of `batch_size` lines, each chunk yields its least-confident unseen
 * line, and the least confident of those wins) and random choice with rejection
 * of lines already annotated.
 *
 * The classifier's confidence in an utterance is a parameter `conf`; the
 * multiprocessing `map` over chunks is a sequential loop, which keeps its
 * order. `alaf` is the set of utterances already annotated ("seen").
 */
module Selection {
  import opened Common
  import opened PyText
  import opened PyIO
  import opened Datasets

  /** What a strategy returns: the utterance to annotate and, if the pool is labelled, its label. */
  datatype Pick = Pick(utterance: string, poolLabel: Option<int>)

  /** What a chunk worker returns: its least-confident unseen utterance, that confidence and the label. */
  datatype ChunkResult = ChunkResult(utterance: string, confidence: int, poolLabel: Option<int>)

  datatype SelectError =
    | EmptyPool                 // `sorted([])[0]` and `choice(range(0))` raise IndexError
    | NoUnseenPoolInstancesLeft // a worker found every line of its chunk seen
    | DrawsExhausted            // the supply of random draws ran out before an unseen line came up
    | PoolLabelMissing          // `pool_labels[idx]` past the end of the pool label list raises IndexError
    | ZeroBatchSize             // `range(0, inp, 0)` raises ValueError

  /** The confidence of every pool utterance, in pool order. */
  function Confidences(u: seq<string>, conf: string -> int): (cs: seq<int>)
    ensures |cs| == |u|
  {
    seq(|u|, i requires 0 <= i < |u| => conf(u[i]))
  }

  /** Every line of `[lo, hi)` is seen. */
  predicate AllSeen(u: seq<string>, alaf: set<string>, lo: nat, hi: nat)
    requires hi <= |u|
  {
    forall j :: lo <= j < hi ==> u[j] in alaf
  }

  /**
   * Line `k` is what a scan of `[lo, hi)` that skips seen lines and replaces its
   * candidate only on a strictly smaller confidence ends with: unseen, no more
   * confident than any unseen line of the range, and strictly less confident
   * than every unseen line before it.
   */
  predicate IsFirstLeast(u: seq<string>, cs: seq<int>, alaf: set<string>, lo: nat, hi: nat, k: nat)
    requires |cs| == |u| && hi <= |u|
  {
    lo <= k < hi && u[k] !in alaf
    && (forall j :: lo <= j < hi && u[j] !in alaf ==> cs[k] <= cs[j])
    && (forall j :: lo <= j < k && u[j] !in alaf ==> cs[k] < cs[j])
  }

  /** There is at most one first least line: ties go to the lowest index. */
  lemma FirstLeastUnique(u: seq<string>, cs: seq<int>, alaf: set<string>, lo: nat, hi: nat, a: nat, b: nat)
    requires |cs| == |u| && hi <= |u|
    requires IsFirstLeast(u, cs, alaf, lo, hi, a) && IsFirstLeast(u, cs, alaf, lo, hi, b)
    ensures a == b
  {
  }

  /** Joining two adjacent ranges: the left winner stands unless the right one is strictly less confident. */
  lemma JoinFirstLeast(u: seq<string>, cs: seq<int>, alaf: set<string>, lo: nat, mid: nat, hi: nat, a: nat, b: nat)
    requires |cs| == |u| && lo <= mid <= hi <= |u|
    requires IsFirstLeast(u, cs, alaf, lo, mid, a) && IsFirstLeast(u, cs, alaf, mid, hi, b)
    ensures IsFirstLeast(u, cs, alaf, lo, hi, if cs[b] < cs[a] then b else a)
  {
  }

  /** A range whose lines are all seen does not change the winner of the range after it. */
  lemma JoinSeenFirstLeast(u: seq<string>, cs: seq<int>, alaf: set<string>, lo: nat, mid: nat, hi: nat, b: nat)
    requires |cs| == |u| && lo <= mid <= hi <= |u|
    requires AllSeen(u, alaf, lo, mid) && IsFirstLeast(u, cs, alaf, mid, hi, b)
    ensures IsFirstLeast(u, cs, alaf, lo, hi, b)
  {
  }

  /** Nor does such a range change the winner of the range before it. */
  lemma JoinFirstLeastSeen(u: seq<string>, cs: seq<int>, alaf: set<string>, lo: nat, mid: nat, hi: nat, a: nat)
    requires |cs| == |u| && lo <= mid <= hi <= |u|
    requires IsFirstLeast(u, cs, alaf, lo, mid, a) && AllSeen(u, alaf, mid, hi)
    ensures IsFirstLeast(u, cs, alaf, lo, hi, a)
  {
  }

  // ---------------------------------------------------------------- chunks

  /** `[(i, min(i + n - 1, inp - 1)) for i in range(start, inp, n)]`. */
  function ChunksFrom(start: nat, inp: nat, n: nat): seq<(nat, nat)>
    requires n >= 1
    decreases inp - start
  {
    if start >= inp then [] else [(start, Min(start + n - 1, inp - 1))] + ChunksFrom(start + n, inp, n)
  }

  /** The inclusive line ranges `get_next_utterance` hands to the workers. */
  function Chunks(inp: nat, n: nat): seq<(nat, nat)>
    requires n >= 1
  {
    ChunksFrom(0, inp, n)
  }

  /**
   * The chunks of `[start, inp)` follow each other without gap: the first starts
   * at `start`, each starts right after the previous one ends, the last ends at
   * `inp - 1`; each holds at most `n` lines and all but the last exactly `n`.
   */
  lemma {:induction false} ChunksFromShape(start: nat, inp: nat, n: nat)
    requires n >= 1
    ensures var chunks := ChunksFrom(start, inp, n);
      && (chunks == [] <==> start >= inp)
      && (forall k :: 0 <= k < |chunks| ==> start <= chunks[k].0 <= chunks[k].1 < inp && chunks[k].1 - chunks[k].0 < n)
      && (forall k :: 0 <= k < |chunks| - 1 ==> chunks[k].1 - chunks[k].0 == n - 1)
      && (chunks != [] ==> chunks[0].0 == start && chunks[|chunks| - 1].1 == inp - 1)
      && (forall k :: 0 <= k < |chunks| - 1 ==> chunks[k + 1].0 == chunks[k].1 + 1)
    decreases inp - start
  {
    if start < inp {
      var rest := ChunksFrom(start + n, inp, n);
      var chunks := ChunksFrom(start, inp, n);
      ChunksFromShape(start + n, inp, n);
      forall k | 1 <= k < |chunks|
        ensures chunks[k] == rest[k - 1]
      {
      }
    }
  }

  /** The shape of the chunks of the whole pool. */
  lemma ChunksShape(inp: nat, n: nat)
    requires n >= 1
    ensures var chunks := Chunks(inp, n);
      && (chunks == [] <==> inp == 0)
      && (forall k :: 0 <= k < |chunks| ==> chunks[k].0 <= chunks[k].1 < inp && chunks[k].1 - chunks[k].0 < n)
      && (chunks != [] ==> chunks[0].0 == 0 && chunks[|chunks| - 1].1 == inp - 1)
      && (forall k :: 0 <= k < |chunks| - 1 ==> chunks[k + 1].0 == chunks[k].1 + 1)
  {
    ChunksFromShape(0, inp, n);
  }

  /** Chunks do not overlap: every line of an earlier chunk precedes every line of a later one. */
  lemma {:induction false} ChunksDisjoint(inp: nat, n: nat, j: nat, k: nat)
    requires n >= 1 && j < k < |Chunks(inp, n)|
    ensures Chunks(inp, n)[j].1 < Chunks(inp, n)[k].0
    decreases k
  {
    ChunksShape(inp, n);
    if j < k - 1 {
      ChunksDisjoint(inp, n, j, k - 1);
    }
  }

  lemma {:induction false} ChunkContainingFrom(start: nat, inp: nat, n: nat, x: nat) returns (k: nat)
    requires n >= 1 && start <= x < inp
    ensures k < |ChunksFrom(start, inp, n)|
    ensures ChunksFrom(start, inp, n)[k].0 <= x <= ChunksFrom(start, inp, n)[k].1
    decreases inp - start
  {
    var chunks := ChunksFrom(start, inp, n);
    ChunksFromShape(start, inp, n);
    if x <= chunks[0].1 {
      k := 0;
    } else {
      var rest := ChunksFrom(start + n, inp, n);
      assert chunks == [chunks[0]] + rest;
      var k' := ChunkContainingFrom(start + n, inp, n, x);
      k := k' + 1;
      assert chunks[k] == rest[k'];
    }
  }

  /** Every line of the pool lies in some chunk. */
  lemma ChunkContaining(inp: nat, n: nat, x: nat) returns (k: nat)
    requires n >= 1 && x < inp
    ensures k < |Chunks(inp, n)| && Chunks(inp, n)[k].0 <= x <= Chunks(inp, n)[k].1
  {
    k := ChunkContainingFrom(0, inp, n, x);
  }

  // ---------------------------------------------------------------- one chunk

  /**
   * A worker's file pass: seek to `offsets[start]` and take `rstrip()` of each line
   * until line `end` has been taken, or the file ends.
   */
  method ReadChunk(pool: seq<byte>, offsets: seq<nat>, start: nat, end: nat) returns (lines: seq<string>)
    requires IsPoolIndex(pool, offsets) && start < |offsets|
    ensures lines == PoolUtterances(pool)[start..if start <= end < |offsets| then end + 1 else |offsets|]
  {
    ReadAtOffset(pool, offsets, start);
    lines := ReadLinesUntil(pool[offsets[start]..], start, end);
    var ls := PoolLines(pool);
    var stop := if start <= end < |offsets| then end + 1 else |offsets|;
    assert ls[start..][..stop - start] == ls[start..stop];
    UtterancesSlice(ls, start, stop);
  }

  /**
   * The loop of that pass, from where the seek left the file: `for i, line in
   * enumerate(f)`, keeping `line.rstrip()` and stopping after the line with
   * `i + start == end`.
   */
  method ReadLinesUntil(f: seq<byte>, start: nat, end: nat) returns (lines: seq<string>)
    ensures var ls := Lines(f, Newline);
      lines == Utterances(ls[..if start <= end < start + |ls| then end + 1 - start else |ls|])
  {
    ghost var ls := Lines(f, Newline);
    lines := [];
    var rest := f;
    var i := 0;
    while rest != []
      invariant i <= |ls| && (start <= end ==> start + i <= end)
      invariant Lines(rest, Newline) == ls[i..]
      invariant lines == Utterances(ls[..i])
      decreases |rest|
    {
      NextLine(rest, ls, i);
      var line := ReadLine(rest, Newline);
      lines := lines + [Utterance(line)];
      rest := rest[|line|..];
      if i + start == end {
        break;
      }
      i := i + 1;
    }
  }

  /** Reading the line at the head of `rest`, where the lines ahead are `ls[i..]`. */
  lemma NextLine(rest: seq<byte>, ls: seq<seq<byte>>, i: nat)
    requires i <= |ls| && Lines(rest, Newline) == ls[i..] && rest != []
    ensures i < |ls|
    ensures Utterances(ls[..i]) + [Utterance(ReadLine(rest, Newline))] == Utterances(ls[..i + 1])
    ensures Lines(rest[|ReadLine(rest, Newline)|..], Newline) == ls[i + 1..]
  {
    LinesCons(rest, Newline);
    assert ls[i..][0] == ls[i] && ls[i..][1..] == ls[i + 1..];
  }

  /** The scan: the first unseen line, then any later unseen line with a strictly smaller confidence. */
  method LeastConfident(lines: seq<string>, confs: seq<int>, alaf: set<string>) returns (idx: Option<nat>)
    requires |confs| == |lines|
    ensures idx.None? <==> AllSeen(lines, alaf, 0, |lines|)
    ensures idx.Some? ==> IsFirstLeast(lines, confs, alaf, 0, |lines|, idx.value)
  {
    var confidence: Option<int> := None;
    idx := None;
    for i := 0 to |confs|
      invariant confidence.Some? <==> idx.Some?
      invariant idx.None? ==> AllSeen(lines, alaf, 0, i)
      invariant idx.Some? ==> IsFirstLeast(lines, confs, alaf, 0, i, idx.value) && confidence.value == confs[idx.value]
    {
      if (idx.None? || confs[i] < confidence.value) && lines[i] !in alaf {
        confidence := Some(confs[i]);
        idx := Some(i);
      }
    }
  }

  /** `pool_labels[k] if pool_labels else None` raises: the list is non-empty and too short for line `k`. */
  predicate LabelMissing(labels: Option<seq<int>>, k: nat) {
    labels.Some? && labels.value != [] && k >= |labels.value|
  }

  /** `pool_labels[k] if pool_labels else None`, where it does not raise. */
  function LabelAt(labels: Option<seq<int>>, k: nat): Option<int> {
    if labels.Some? && labels.value != [] && k < |labels.value| then Some(labels.value[k]) else None
  }

  /** Shifting a chunk's scan to pool line numbers. */
  lemma ShiftFirstLeast(u: seq<string>, cs: seq<int>, alaf: set<string>, start: nat, stop: nat, i: nat)
    requires |cs| == |u| && start <= stop <= |u|
    requires IsFirstLeast(u[start..stop], cs[start..stop], alaf, 0, stop - start, i)
    ensures IsFirstLeast(u, cs, alaf, start, stop, start + i)
  {
    var v, ds := u[start..stop], cs[start..stop];
    forall j | start <= j < stop && u[j] !in alaf
      ensures cs[start + i] <= cs[j]
      ensures j < start + i ==> cs[start + i] < cs[j]
    {
      assert v[j - start] == u[j] && ds[j - start] == cs[j];
    }
  }

  lemma ShiftAllSeen(u: seq<string>, alaf: set<string>, start: nat, stop: nat)
    requires start <= stop <= |u|
    ensures AllSeen(u[start..stop], alaf, 0, stop - start) <==> AllSeen(u, alaf, start, stop)
  {
    if AllSeen(u[start..stop], alaf, 0, stop - start) {
      forall j | start <= j < stop
        ensures u[j] in alaf
      {
        assert u[start..stop][j - start] == u[j];
      }
    }
  }

  /** The scan of lines `[start, stop)` of the pool, carried over to pool line numbers. */
  lemma ScanOfChunk(u: seq<string>, conf: string -> int, alaf: set<string>, start: nat, stop: nat,
                    lines: seq<string>, confs: seq<int>, idx: Option<nat>)
    requires start <= stop <= |u| && lines == u[start..stop]
    requires |confs| == |lines| && forall i :: 0 <= i < |lines| ==> confs[i] == conf(lines[i])
    requires idx.None? <==> AllSeen(lines, alaf, 0, |lines|)
    requires idx.Some? ==> IsFirstLeast(lines, confs, alaf, 0, |lines|, idx.value)
    ensures idx.None? <==> AllSeen(u, alaf, start, stop)
    ensures idx.Some? ==>
      && IsFirstLeast(u, Confidences(u, conf), alaf, start, stop, start + idx.value)
      && start + idx.value < |u| && lines[idx.value] == u[start + idx.value] && confs[idx.value] == conf(u[start + idx.value])
  {
    var cs := Confidences(u, conf);
    assert confs == cs[start..stop];
    ShiftAllSeen(u, alaf, start, stop);
    if idx.Some? {
      ShiftFirstLeast(u, cs, alaf, start, stop, idx.value);
    }
  }

  /** What a worker returns for the chunk of lines `lo..hi` (inclusive), where it found line `at`. */
  function Found(u: seq<string>, conf: string -> int, labels: Option<seq<int>>, at: nat): ChunkResult
    requires at < |u|
  {
    ChunkResult(u[at], conf(u[at]), LabelAt(labels, at))
  }

  /**
   * `_get_next_utterance_mp`: read lines `start..end`, score them, and return the
   * chunk's first least-confident unseen line with its confidence and label;
   * raise 'no unseen pool instances left' when there is none, and IndexError
   * when the pool labels stop before that line.
   */
  method ChunkWorker(pool: seq<byte>, offsets: seq<nat>, alaf: set<string>, labels: Option<seq<int>>,
                     conf: string -> int, start: nat, end: nat)
    returns (r: Result<ChunkResult, SelectError>, ghost at: nat)
    requires IsPoolIndex(pool, offsets) && start <= end < |offsets|
    ensures var u := PoolUtterances(pool);
      && (AllSeen(u, alaf, start, end + 1) ==> r == Err(NoUnseenPoolInstancesLeft))
      && (!AllSeen(u, alaf, start, end + 1) ==>
            && IsFirstLeast(u, Confidences(u, conf), alaf, start, end + 1, at)
            && (r.Err? <==> LabelMissing(labels, at))
            && (r.Err? ==> r.error == PoolLabelMissing)
            && (r.Ok? ==> r.value == Found(u, conf, labels, at)))
  {
    var lines := ReadChunk(pool, offsets, start, end);
    var confs := seq(|lines|, i requires 0 <= i < |lines| => conf(lines[i]));
    var idx := LeastConfident(lines, confs, alaf);
    ScanOfChunk(PoolUtterances(pool), conf, alaf, start, end + 1, lines, confs, idx);
    if idx.None? {
      return Err(NoUnseenPoolInstancesLeft), 0;
    }
    var line := start + idx.value;
    at := line;
    if LabelMissing(labels, line) {
      return Err(PoolLabelMissing), at;
    }
    r := Ok(ChunkResult(lines[idx.value], confs[idx.value], LabelAt(labels, line)));
  }

  /** `r` is what a worker may return for the chunk `chunk`, having found line `at`. */
  ghost predicate WorkerOutcome(u: seq<string>, conf: string -> int, alaf: set<string>, labels: Option<seq<int>>,
                                chunk: (nat, nat), r: Result<ChunkResult, SelectError>, at: nat)
  {
    && chunk.0 <= chunk.1 < |u|
    && (AllSeen(u, alaf, chunk.0, chunk.1 + 1) ==> r == Err(NoUnseenPoolInstancesLeft))
    && (!AllSeen(u, alaf, chunk.0, chunk.1 + 1) ==>
          && IsFirstLeast(u, Confidences(u, conf), alaf, chunk.0, chunk.1 + 1, at)
          && (r.Err? <==> LabelMissing(labels, at))
          && (r.Err? ==> r.error == PoolLabelMissing)
          && (r.Ok? ==> r.value == Found(u, conf, labels, at)))
  }

  /** `mp_pool.map(worker, args)`: every chunk's outcome, in chunk order. */
  method MapWorkers(pool: seq<byte>, offsets: seq<nat>, alaf: set<string>, labels: Option<seq<int>>,
                    conf: string -> int, chunks: seq<(nat, nat)>)
    returns (outcomes: seq<Result<ChunkResult, SelectError>>, ghost winners: seq<nat>)
    requires IsPoolIndex(pool, offsets)
    requires forall k :: 0 <= k < |chunks| ==> chunks[k].0 <= chunks[k].1 < |offsets|
    ensures |outcomes| == |winners| == |chunks|
    ensures forall k :: 0 <= k < |chunks| ==>
      WorkerOutcome(PoolUtterances(pool), conf, alaf, labels, chunks[k], outcomes[k], winners[k])
  {
    outcomes, winners := [], [];
    for c := 0 to |chunks|
      invariant |outcomes| == |winners| == c
      invariant forall k :: 0 <= k < c ==>
        WorkerOutcome(PoolUtterances(pool), conf, alaf, labels, chunks[k], outcomes[k], winners[k])
    {
      var r, at := ChunkWorker(pool, offsets, alaf, labels, conf, chunks[c].0, chunks[c].1);
      outcomes, winners := outcomes + [r], winners + [at];
    }
  }

  // ---------------------------------------------------------------- reduction

  /**
   * Index of the first least element of `cs`: `sorted(results, key=confidence)[0]`,
   * the sort being stable.
   */
  function FirstMin(cs: seq<int>): (m: nat)
    requires cs != []
    ensures m < |cs|
    ensures forall j :: 0 <= j < |cs| ==> cs[m] <= cs[j]
    ensures forall j :: 0 <= j < m ==> cs[m] < cs[j]
  {
    if |cs| == 1 then 0
    else
      var m := FirstMin(cs[..|cs| - 1]);
      if cs[|cs| - 1] < cs[m] then |cs| - 1 else m
  }

  lemma FirstMinAppend(cs: seq<int>, x: int)
    requires cs != []
    ensures FirstMin(cs + [x]) == if x < cs[FirstMin(cs)] then |cs| else FirstMin(cs)
  {
    assert (cs + [x])[..|cs|] == cs;
  }

  function ResultConfidences(results: seq<ChunkResult>): (cs: seq<int>)
    ensures |cs| == |results|
  {
    seq(|results|, i requires 0 <= i < |results| => results[i].confidence)
  }

  lemma ResultConfidencesAppend(results: seq<ChunkResult>, x: ChunkResult)
    ensures ResultConfidences(results + [x]) == ResultConfidences(results) + [x.confidence]
  {
  }

  /** The results of the workers that found a line, in chunk order. */
  function Successes(outcomes: seq<Result<ChunkResult, SelectError>>): seq<ChunkResult> {
    if outcomes == [] then []
    else
      var last := outcomes[|outcomes| - 1];
      Successes(outcomes[..|outcomes| - 1]) + if last.Ok? then [last.value] else []
  }

  /** The lines those workers found. */
  ghost function SuccessLines(outcomes: seq<Result<ChunkResult, SelectError>>, winners: seq<nat>): seq<nat>
    requires |winners| == |outcomes|
  {
    if outcomes == [] then []
    else
      var last := outcomes[|outcomes| - 1];
      SuccessLines(outcomes[..|outcomes| - 1], winners[..|winners| - 1])
        + if last.Ok? then [winners[|winners| - 1]] else []
  }

  /**
   * `found` are the results of the chunks covering lines `[0, hi)`, found at lines
   * `at` whose pool labels could be looked up: there are none exactly when all
   * those lines are seen, and otherwise the first least confident of them holds
   * the first least-confident unseen line.
   */
  ghost predicate Reduced(u: seq<string>, conf: string -> int, alaf: set<string>, labels: Option<seq<int>>,
                          found: seq<ChunkResult>, at: seq<nat>, hi: nat)
  {
    && hi <= |u| && |found| == |at|
    && (forall j :: 0 <= j < |at| ==>
          at[j] < |u| && !LabelMissing(labels, at[j]) && found[j] == Found(u, conf, labels, at[j]))
    && (found == [] <==> AllSeen(u, alaf, 0, hi))
    && (found != [] ==> IsFirstLeast(u, Confidences(u, conf), alaf, 0, hi, at[FirstMin(ResultConfidences(found))]))
  }

  /** Adding the outcome of the chunk that follows, when its worker did not fail on a pool label. */
  lemma ReduceStep(u: seq<string>, conf: string -> int, alaf: set<string>, labels: Option<seq<int>>,
                   found: seq<ChunkResult>, at: seq<nat>, lo: nat, hi: nat, r: Result<ChunkResult, SelectError>, w: nat)
    requires lo < hi && Reduced(u, conf, alaf, labels, found, at, lo)
    requires WorkerOutcome(u, conf, alaf, labels, (lo, hi - 1), r, w) && r != Err(PoolLabelMissing)
    ensures Reduced(u, conf, alaf, labels, found + if r.Ok? then [r.value] else [], at + if r.Ok? then [w] else [], hi)
  {
    if r.Err? {
      assert found + [] == found && at + [] == at;
      ReduceSkip(u, conf, alaf, labels, found, at, lo, hi);
    } else {
      ReduceAdd(u, conf, alaf, labels, found, at, lo, hi, r.value, w);
    }
  }

  /** A chunk with every line seen leaves the reduction as it was. */
  lemma ReduceSkip(u: seq<string>, conf: string -> int, alaf: set<string>, labels: Option<seq<int>>,
                   found: seq<ChunkResult>, at: seq<nat>, lo: nat, hi: nat)
    requires lo <= hi <= |u| && Reduced(u, conf, alaf, labels, found, at, lo) && AllSeen(u, alaf, lo, hi)
    ensures Reduced(u, conf, alaf, labels, found, at, hi)
  {
    if found != [] {
      JoinFirstLeastSeen(u, Confidences(u, conf), alaf, 0, lo, hi, at[FirstMin(ResultConfidences(found))]);
    }
  }

  /** A chunk whose worker found line `w`, and its label, joins the reduction as its last result. */
  lemma ReduceAdd(u: seq<string>, conf: string -> int, alaf: set<string>, labels: Option<seq<int>>,
                  found: seq<ChunkResult>, at: seq<nat>, lo: nat, hi: nat, x: ChunkResult, w: nat)
    requires lo <= hi <= |u| && Reduced(u, conf, alaf, labels, found, at, lo)
    requires IsFirstLeast(u, Confidences(u, conf), alaf, lo, hi, w) && !LabelMissing(labels, w)
    requires x == Found(u, conf, labels, w)
    ensures Reduced(u, conf, alaf, labels, found + [x], at + [w], hi)
  {
    var cs := Confidences(u, conf);
    var found', at' := found + [x], at + [w];
    assert forall j :: 0 <= j < |found| ==> found'[j] == found[j] && at'[j] == at[j];
    assert !AllSeen(u, alaf, 0, hi) by {
      assert u[w] !in alaf;
    }
    ResultConfidencesAppend(found, x);
    if found == [] {
      JoinSeenFirstLeast(u, cs, alaf, 0, lo, hi, w);
      assert ResultConfidences(found') == [x.confidence];
    } else {
      var m := FirstMin(ResultConfidences(found));
      JoinFirstLeast(u, cs, alaf, 0, lo, hi, at[m], w);
      FirstMinAppend(ResultConfidences(found), x.confidence);
      assert ResultConfidences(found)[m] == cs[at[m]];
    }
  }

  /** The successes among the first `c` outcomes extend those among the first `c - 1`. */
  lemma SuccessesPrefix(outcomes: seq<Result<ChunkResult, SelectError>>, winners: seq<nat>, c: nat)
    requires |winners| == |outcomes| && 0 < c <= |outcomes|
    ensures var last := outcomes[c - 1];
      && Successes(outcomes[..c]) == Successes(outcomes[..c - 1]) + (if last.Ok? then [last.value] else [])
      && SuccessLines(outcomes[..c], winners[..c])
         == SuccessLines(outcomes[..c - 1], winners[..c - 1]) + (if last.Ok? then [winners[c - 1]] else [])
  {
    var os, ws := outcomes[..c], winners[..c];
    assert os[..c - 1] == outcomes[..c - 1] && ws[..c - 1] == winners[..c - 1];
  }

  /** Where the chunks `ChunksFrom(0, ...)` of the pool end after the first `c` of them. */
  function CoveredBy(chunks: seq<(nat, nat)>, c: nat): nat
    requires c <= |chunks|
  {
    if c == 0 then 0 else chunks[c - 1].1 + 1
  }

  /** Some worker raised `e`. */
  predicate SomeRaised(outcomes: seq<Result<ChunkResult, SelectError>>, e: SelectError) {
    exists k :: 0 <= k < |outcomes| && outcomes[k] == Err(e)
  }

  /**
   * The chunks' outcomes, reduced in chunk order, cover the lines of the first
   * `c` chunks, provided no worker failed on a pool label.
   */
  lemma {:induction false} ReduceChunks(u: seq<string>, conf: string -> int, alaf: set<string>, labels: Option<seq<int>>,
                                        n: nat, outcomes: seq<Result<ChunkResult, SelectError>>, winners: seq<nat>, c: nat)
    requires n >= 1 && !SomeRaised(outcomes, PoolLabelMissing)
    requires |outcomes| == |winners| == |Chunks(|u|, n)| && c <= |outcomes|
    requires forall k :: 0 <= k < |outcomes| ==> WorkerOutcome(u, conf, alaf, labels, Chunks(|u|, n)[k], outcomes[k], winners[k])
    ensures |SuccessLines(outcomes[..c], winners[..c])| == |Successes(outcomes[..c])|
    ensures Reduced(u, conf, alaf, labels, Successes(outcomes[..c]), SuccessLines(outcomes[..c], winners[..c]),
                    CoveredBy(Chunks(|u|, n), c))
  {
    if c == 0 {
      assert outcomes[..0] == [] && winners[..0] == [];
    } else {
      ReduceChunks(u, conf, alaf, labels, n, outcomes, winners, c - 1);
      assert WorkerOutcome(u, conf, alaf, labels, Chunks(|u|, n)[c - 1], outcomes[c - 1], winners[c - 1]);
      assert outcomes[c - 1] != Err(PoolLabelMissing);
      ReduceNextChunk(u, conf, alaf, labels, n, outcomes, winners, c);
    }
  }

  /** The step of `ReduceChunks`: the outcome of chunk `c - 1` joins the reduction of those before it. */
  lemma ReduceNextChunk(u: seq<string>, conf: string -> int, alaf: set<string>, labels: Option<seq<int>>,
                        n: nat, outcomes: seq<Result<ChunkResult, SelectError>>, winners: seq<nat>, c: nat)
    requires n >= 1 && |outcomes| == |winners| == |Chunks(|u|, n)| && 0 < c <= |outcomes|
    requires WorkerOutcome(u, conf, alaf, labels, Chunks(|u|, n)[c - 1], outcomes[c - 1], winners[c - 1])
    requires outcomes[c - 1] != Err(PoolLabelMissing)
    requires |SuccessLines(outcomes[..c - 1], winners[..c - 1])| == |Successes(outcomes[..c - 1])|
    requires Reduced(u, conf, alaf, labels, Successes(outcomes[..c - 1]), SuccessLines(outcomes[..c - 1], winners[..c - 1]),
                     CoveredBy(Chunks(|u|, n), c - 1))
    ensures |SuccessLines(outcomes[..c], winners[..c])| == |Successes(outcomes[..c])|
    ensures Reduced(u, conf, alaf, labels, Successes(outcomes[..c]), SuccessLines(outcomes[..c], winners[..c]),
                    CoveredBy(Chunks(|u|, n), c))
  {
    var chunks := Chunks(|u|, n);
    SuccessesPrefix(outcomes, winners, c);
    ChunkStartsAtCovered(|u|, n, c - 1);
    ReduceStep(u, conf, alaf, labels, Successes(outcomes[..c - 1]), SuccessLines(outcomes[..c - 1], winners[..c - 1]),
               CoveredBy(chunks, c - 1), CoveredBy(chunks, c), outcomes[c - 1], winners[c - 1]);
  }

  /** Reduced over every chunk, the outcomes cover the whole pool. */
  lemma ReduceAll(u: seq<string>, conf: string -> int, alaf: set<string>, labels: Option<seq<int>>,
                  n: nat, outcomes: seq<Result<ChunkResult, SelectError>>, winners: seq<nat>)
    requires n >= 1 && !SomeRaised(outcomes, PoolLabelMissing)
    requires |outcomes| == |winners| == |Chunks(|u|, n)|
    requires forall k :: 0 <= k < |outcomes| ==> WorkerOutcome(u, conf, alaf, labels, Chunks(|u|, n)[k], outcomes[k], winners[k])
    ensures |SuccessLines(outcomes, winners)| == |Successes(outcomes)|
    ensures Reduced(u, conf, alaf, labels, Successes(outcomes), SuccessLines(outcomes, winners), |u|)
  {
    ReduceChunks(u, conf, alaf, labels, n, outcomes, winners, |outcomes|);
    assert outcomes[..|outcomes|] == outcomes && winners[..|winners|] == winners;
    ChunksCoverAll(|u|, n);
  }

  /** Chunk `c` starts where the chunks before it end. */
  lemma ChunkStartsAtCovered(inp: nat, n: nat, c: nat)
    requires n >= 1 && c < |Chunks(inp, n)|
    ensures Chunks(inp, n)[c].0 == CoveredBy(Chunks(inp, n), c)
  {
    ChunksShape(inp, n);
  }

  /** All the chunks together end where the pool ends. */
  lemma ChunksCoverAll(inp: nat, n: nat)
    requires n >= 1
    ensures CoveredBy(Chunks(inp, n), |Chunks(inp, n)|) == inp
  {
    ChunksShape(inp, n);
  }

  /** Some chunk has every line seen. */
  predicate SomeChunkExhausted(u: seq<string>, alaf: set<string>, chunks: seq<(nat, nat)>) {
    exists k :: 0 <= k < |chunks| && chunks[k].1 < |u| && AllSeen(u, alaf, chunks[k].0, chunks[k].1 + 1)
  }

  /** Line `w` is the line the worker of `chunk` finds. */
  ghost predicate WinsChunk(u: seq<string>, conf: string -> int, alaf: set<string>, chunk: (nat, nat), w: nat) {
    chunk.0 <= chunk.1 < |u| && IsFirstLeast(u, Confidences(u, conf), alaf, chunk.0, chunk.1 + 1, w)
  }

  /** The worker of some chunk finds a line that the pool labels stop before. */
  ghost predicate ChunkLabelMissing(u: seq<string>, conf: string -> int, alaf: set<string>, labels: Option<seq<int>>,
                                    chunks: seq<(nat, nat)>)
  {
    exists k: int, w: nat :: 0 <= k < |chunks| && WinsChunk(u, conf, alaf, chunks[k], w) && LabelMissing(labels, w)
  }

  /** A worker raises 'no unseen pool instances left' exactly for a chunk whose lines are all seen. */
  lemma FailedIffExhausted(u: seq<string>, conf: string -> int, alaf: set<string>, labels: Option<seq<int>>,
                           chunks: seq<(nat, nat)>, outcomes: seq<Result<ChunkResult, SelectError>>, winners: seq<nat>)
    requires |outcomes| == |winners| == |chunks|
    requires forall k :: 0 <= k < |chunks| ==> WorkerOutcome(u, conf, alaf, labels, chunks[k], outcomes[k], winners[k])
    ensures SomeRaised(outcomes, NoUnseenPoolInstancesLeft) <==> SomeChunkExhausted(u, alaf, chunks)
  {
    if SomeRaised(outcomes, NoUnseenPoolInstancesLeft) {
      var k :| 0 <= k < |outcomes| && outcomes[k] == Err(NoUnseenPoolInstancesLeft);
      assert WorkerOutcome(u, conf, alaf, labels, chunks[k], outcomes[k], winners[k]);
    }
    if SomeChunkExhausted(u, alaf, chunks) {
      var k :| 0 <= k < |chunks| && chunks[k].1 < |u| && AllSeen(u, alaf, chunks[k].0, chunks[k].1 + 1);
      assert WorkerOutcome(u, conf, alaf, labels, chunks[k], outcomes[k], winners[k]);
    }
  }

  /** A worker raises IndexError exactly for a chunk whose line lies past the pool labels. */
  lemma LabelFailedIffMissing(u: seq<string>, conf: string -> int, alaf: set<string>, labels: Option<seq<int>>,
                              chunks: seq<(nat, nat)>, outcomes: seq<Result<ChunkResult, SelectError>>, winners: seq<nat>)
    requires |outcomes| == |winners| == |chunks|
    requires forall k :: 0 <= k < |chunks| ==> WorkerOutcome(u, conf, alaf, labels, chunks[k], outcomes[k], winners[k])
    ensures SomeRaised(outcomes, PoolLabelMissing) <==> ChunkLabelMissing(u, conf, alaf, labels, chunks)
  {
    if SomeRaised(outcomes, PoolLabelMissing) {
      var k :| 0 <= k < |outcomes| && outcomes[k] == Err(PoolLabelMissing);
      assert WorkerOutcome(u, conf, alaf, labels, chunks[k], outcomes[k], winners[k]);
      assert WinsChunk(u, conf, alaf, chunks[k], winners[k]);
    }
    if ChunkLabelMissing(u, conf, alaf, labels, chunks) {
      var k: int, w: nat :| 0 <= k < |chunks| && WinsChunk(u, conf, alaf, chunks[k], w) && LabelMissing(labels, w);
      var lo, hi := chunks[k].0, chunks[k].1 + 1;
      assert WorkerOutcome(u, conf, alaf, labels, chunks[k], outcomes[k], winners[k]);
      assert !AllSeen(u, alaf, lo, hi) by {
        assert u[w] !in alaf;
      }
      FirstLeastUnique(u, Confidences(u, conf), alaf, lo, hi, w, winners[k]);
      assert outcomes[k] == Err(PoolLabelMissing);
    }
  }

  /** A worker can only find a line, and fail on its label, where some pool line is unseen. */
  lemma LabelMissingNeedsUnseen(u: seq<string>, conf: string -> int, alaf: set<string>, labels: Option<seq<int>>,
                                chunks: seq<(nat, nat)>)
    ensures ChunkLabelMissing(u, conf, alaf, labels, chunks) ==> !AllSeen(u, alaf, 0, |u|)
  {
    if ChunkLabelMissing(u, conf, alaf, labels, chunks) {
      var k: int, w: nat :| 0 <= k < |chunks| && WinsChunk(u, conf, alaf, chunks[k], w) && LabelMissing(labels, w);
      assert u[w] !in alaf;
    }
  }

  /** Every worker either returns a result or raises one of the two errors. */
  lemma {:induction false} AllSucceeded(u: seq<string>, conf: string -> int, alaf: set<string>, labels: Option<seq<int>>,
                                        chunks: seq<(nat, nat)>, outcomes: seq<Result<ChunkResult, SelectError>>, winners: seq<nat>)
    requires |outcomes| == |winners| == |chunks|
    requires forall k :: 0 <= k < |chunks| ==> WorkerOutcome(u, conf, alaf, labels, chunks[k], outcomes[k], winners[k])
    requires !SomeRaised(outcomes, NoUnseenPoolInstancesLeft) && !SomeRaised(outcomes, PoolLabelMissing)
    ensures |Successes(outcomes)| == |outcomes|
  {
    if outcomes != [] {
      var m := |outcomes| - 1;
      var init, ws := outcomes[..m], winners[..m];
      assert forall k :: 0 <= k < |init| ==> init[k] == outcomes[k] && ws[k] == winners[k];
      assert WorkerOutcome(u, conf, alaf, labels, chunks[m], outcomes[m], winners[m]);
      assert outcomes[m] != Err(NoUnseenPoolInstancesLeft) && outcomes[m] != Err(PoolLabelMissing);
      AllSucceeded(u, conf, alaf, labels, chunks[..m], init, ws);
    }
  }

  /**
   * Least-confidence selection as written: the workers' results are sorted by
   * confidence and the first taken; a chunk with no unseen line, or whose line
   * lies past the pool labels, makes `map` raise for the whole pool, and an
   * empty pool leaves nothing to take. A batch size of 0 makes `range` raise;
   * a negative one yields no chunks, so again nothing to take.
   */
  method SelectLeastConfidentAsWritten(pool: seq<byte>, offsets: seq<nat>, alaf: set<string>,
                                       labels: Option<seq<int>>, conf: string -> int, n: int)
    returns (r: Result<Pick, SelectError>, ghost at: nat)
    requires IsPoolIndex(pool, offsets)
    ensures n <= 0 ==> r == Err(if n == 0 then ZeroBatchSize else EmptyPool)
    ensures n >= 1 ==> var u := PoolUtterances(pool); var chunks := Chunks(|u|, n);
      && (r.Err? <==> |u| == 0 || SomeChunkExhausted(u, alaf, chunks) || ChunkLabelMissing(u, conf, alaf, labels, chunks))
      && (r == Err(EmptyPool) <==> |u| == 0)
      && (r == Err(NoUnseenPoolInstancesLeft) ==> SomeChunkExhausted(u, alaf, chunks))
      && (r == Err(PoolLabelMissing) ==> ChunkLabelMissing(u, conf, alaf, labels, chunks))
      && (r.Err? ==> r.error in {EmptyPool, NoUnseenPoolInstancesLeft, PoolLabelMissing})
      && (r.Ok? ==> IsFirstLeast(u, Confidences(u, conf), alaf, 0, |u|, at) && !LabelMissing(labels, at)
                    && r.value == Pick(u[at], LabelAt(labels, at)))
  {
    if n == 0 {
      return Err(ZeroBatchSize), 0;
    } else if n < 0 {
      return Err(EmptyPool), 0;
    }
    ghost var u := PoolUtterances(pool);
    var chunks := Chunks(|offsets|, n);
    ChunksShape(|offsets|, n);
    var outcomes, winners := MapWorkers(pool, offsets, alaf, labels, conf, chunks);
    FailedIffExhausted(u, conf, alaf, labels, chunks, outcomes, winners);
    LabelFailedIffMissing(u, conf, alaf, labels, chunks, outcomes, winners);
    if SomeRaised(outcomes, NoUnseenPoolInstancesLeft) {
      return Err(NoUnseenPoolInstancesLeft), 0;
    }
    if SomeRaised(outcomes, PoolLabelMissing) {
      return Err(PoolLabelMissing), 0;
    }
    ReduceAll(u, conf, alaf, labels, n, outcomes, winners);
    AllSucceeded(u, conf, alaf, labels, chunks, outcomes, winners);
    var results := Successes(outcomes);
    if results == [] {
      return Err(EmptyPool), 0;
    }
    var best := FirstMin(ResultConfidences(results));
    at := SuccessLines(outcomes, winners)[best];
    r := Ok(Pick(results[best].utterance, results[best].poolLabel));
  }

  /**
   * Least-confidence selection with exhausted chunks skipped: apart from a
   * line past the pool labels, it fails only when every pool line is seen, and
   * otherwise picks the first least-confident unseen line of the whole pool.
   */
  method SelectLeastConfident(pool: seq<byte>, offsets: seq<nat>, alaf: set<string>,
                              labels: Option<seq<int>>, conf: string -> int, n: nat)
    returns (r: Result<Pick, SelectError>, ghost at: nat)
    requires IsPoolIndex(pool, offsets) && n >= 1
    ensures var u := PoolUtterances(pool);
      && (AllSeen(u, alaf, 0, |u|) ==> r == Err(if |u| == 0 then EmptyPool else NoUnseenPoolInstancesLeft))
      && (!AllSeen(u, alaf, 0, |u|) ==>
            && (r.Err? <==> ChunkLabelMissing(u, conf, alaf, labels, Chunks(|u|, n)))
            && (r.Err? ==> r.error == PoolLabelMissing))
      && (r.Ok? ==> IsFirstLeast(u, Confidences(u, conf), alaf, 0, |u|, at) && !LabelMissing(labels, at)
                    && r.value == Pick(u[at], LabelAt(labels, at)))
  {
    ghost var u := PoolUtterances(pool);
    var chunks := Chunks(|offsets|, n);
    ChunksShape(|offsets|, n);
    var outcomes, winners := MapWorkers(pool, offsets, alaf, labels, conf, chunks);
    LabelFailedIffMissing(u, conf, alaf, labels, chunks, outcomes, winners);
    LabelMissingNeedsUnseen(u, conf, alaf, labels, chunks);
    if SomeRaised(outcomes, PoolLabelMissing) {
      return Err(PoolLabelMissing), 0;
    }
    ReduceAll(u, conf, alaf, labels, n, outcomes, winners);
    var results := Successes(outcomes);
    if results == [] {
      return Err(if |offsets| == 0 then EmptyPool else NoUnseenPoolInstancesLeft), 0;
    }
    var best := FirstMin(ResultConfidences(results));
    at := SuccessLines(outcomes, winners)[best];
    r := Ok(Pick(results[best].utterance, results[best].poolLabel));
  }

  /** A line of one non-blank character and a newline holds that character. */
  lemma OneCharLine(c: byte)
    requires c != Newline && !IsSpace(c as char)
    ensures Utterance([c, Newline]) == [c as char]
  {
    var d := Decode([c, Newline]);
    assert d == [c as char, '\n'];
    assert d[..1] == [c as char] && IsSpace('\n');
    assert RStrip(d) == RStrip([c as char]);
  }

  /** The pool file "a\nb\n". */
  lemma TwoLinePool()
    ensures var pool: seq<byte> := [97, 10, 98, 10];
      PoolLines(pool) == [[97, 10], [98, 10]] && PoolUtterances(pool) == ["a", "b"]
  {
    var a: seq<byte>, b: seq<byte> := [97, 10], [98, 10];
    assert IsTerminatedLine(a, Newline) && IsTerminatedLine(b, Newline);
    LinesOfTerminated([a, b], Newline);
    assert Flatten([a, b]) == [97, 10, 98, 10] by {
      assert Flatten([b]) == b + Flatten([]);
      assert Flatten([a, b]) == a + Flatten([b]);
    }
    OneCharLine(97);
    OneCharLine(98);
  }

  /** A two-line pool, batch size 1, the first line seen: its chunk is exhausted though the pool is not. */
  lemma ExhaustedChunkWithUnseenPool()
    ensures var pool: seq<byte> := [97, 10, 98, 10];
      && IsPoolIndex(pool, [0, 2])
      && PoolUtterances(pool) == ["a", "b"]
      && SomeChunkExhausted(["a", "b"], {"a"}, Chunks(2, 1))
      && !AllSeen(["a", "b"], {"a"}, 0, 2)
  {
    var pool: seq<byte> := [97, 10, 98, 10];
    TwoLinePool();
    assert LineStart(PoolLines(pool), 1) == 2;
    assert Chunks(2, 1)[0] == (0, 0);
    assert AllSeen(["a", "b"], {"a"}, 0, 1);
    assert ["a", "b"][1] !in {"a"};
  }

  // ---------------------------------------------------------------- random

  /** `f.seek(offsets[idx])`, then `f.readline().rstrip()`: the utterance of pool line `idx`. */
  method ReadPoolLine(pool: seq<byte>, offsets: seq<nat>, idx: nat) returns (utterance: string)
    requires IsPoolIndex(pool, offsets) && idx < |offsets|
    ensures utterance == PoolUtterances(pool)[idx]
  {
    ReadAtOffset(pool, offsets, idx);
    var line := ReadLine(pool[offsets[idx]..], Newline);
    utterance := Utterance(line);
  }

  /**
   * The drawing loop of `RandomALModel.get_next_utterance`: draw a line index,
   * read that line, and draw again while the utterance is seen. `draws` are the
   * successive values of `choice(range(len(offsets)))`; the source draws without
   * bound, the model stops when `draws` runs out. The result is the last index
   * drawn with its utterance.
   */
  method DrawUnseen(pool: seq<byte>, offsets: seq<nat>, alaf: set<string>, draws: seq<nat>)
    returns (r: Result<(nat, string), SelectError>, ghost used: nat)
    requires IsPoolIndex(pool, offsets)
    requires forall i :: 0 <= i < |draws| ==> draws[i] < |offsets|
    ensures var u := PoolUtterances(pool);
      && (r == Err(EmptyPool) <==> |u| == 0)
      && (r.Err? ==> r.error == EmptyPool || r.error == DrawsExhausted)
      && (r == Err(DrawsExhausted) ==> forall i :: 0 <= i < |draws| ==> u[draws[i]] in alaf)
      && (r.Ok? ==> 0 < used <= |draws| && r.value.0 == draws[used - 1]
                    && r.value.1 == u[r.value.0] && r.value.1 !in alaf
                    && forall i :: 0 <= i < used - 1 ==> u[draws[i]] in alaf)
  {
    ghost var u := PoolUtterances(pool);
    var utterance: Option<string> := None;
    var idx: nat := 0;
    var i := 0;
    while utterance.None? || utterance.value in alaf
      invariant i <= |draws| && (i > 0 ==> |u| > 0)
      invariant utterance.None? <==> i == 0
      invariant i > 0 ==> idx == draws[i - 1] && utterance == Some(u[idx])
      invariant forall j :: 0 <= j < i - 1 ==> u[draws[j]] in alaf
      decreases |draws| - i
    {
      if |offsets| == 0 {
        return Err(EmptyPool), 0;
      }
      if i == |draws| {
        return Err(DrawsExhausted), 0;
      }
      assert forall j :: 0 <= j < i ==> u[draws[j]] in alaf;
      idx := draws[i];
      var line := ReadPoolLine(pool, offsets, idx);
      utterance := Some(line);
      i := i + 1;
    }
    return Ok((idx, utterance.value)), i;
  }

  /** The `used`-th draw found the unseen line `at`, and every draw before it hit a seen line. */
  ghost predicate DrewUnseen(u: seq<string>, alaf: set<string>, draws: seq<nat>, used: nat, at: nat) {
    && 0 < used <= |draws| && at == draws[used - 1] && at < |u| && u[at] !in alaf
    && forall i :: 0 <= i < used - 1 ==> draws[i] < |u| && u[draws[i]] in alaf
  }

  /**
   * `RandomALModel.get_next_utterance`: an unseen line found by drawing, with
   * `pool_labels[idx]` when the dataset has pool labels; that lookup raises
   * IndexError when the labels stop before the line.
   */
  method SelectRandom(pool: seq<byte>, offsets: seq<nat>, alaf: set<string>, labels: Option<seq<int>>,
                      draws: seq<nat>)
    returns (r: Result<Pick, SelectError>, ghost at: nat, ghost used: nat)
    requires IsPoolIndex(pool, offsets)
    requires forall i :: 0 <= i < |draws| ==> draws[i] < |offsets|
    ensures var u := PoolUtterances(pool);
      && (r == Err(EmptyPool) <==> |u| == 0)
      && (r.Err? ==> r.error in {EmptyPool, DrawsExhausted, PoolLabelMissing})
      && (r == Err(DrawsExhausted) ==> forall i :: 0 <= i < |draws| ==> u[draws[i]] in alaf)
      && (r.Ok? || r == Err(PoolLabelMissing) ==>
            DrewUnseen(u, alaf, draws, used, at) && (r.Ok? <==> labels.None? || at < |labels.value|))
      && (r.Ok? ==> r.value == Pick(u[at], if labels.Some? then Some(labels.value[at]) else None))
  {
    var drawn;
    drawn, used := DrawUnseen(pool, offsets, alaf, draws);
    if drawn.Err? {
      return Err(drawn.error), 0, used;
    }
    var (idx, utterance) := drawn.value;
    at := idx;
    var poolLabel: Option<int> := None;
    if labels.Some? {
      if idx >= |labels.value| {
        return Err(PoolLabelMissing), at, used;
      }
      poolLabel := Some(labels.value[idx]);
    }
    r := Ok(Pick(utterance, poolLabel));
  }
}
