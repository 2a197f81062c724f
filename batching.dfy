/** The batch loop at the heart of `predict_from_array` (nobrainer/predict.py:104-120):
    the volume, already cut into blocks, is fed to the predictor `batch_size` blocks at
    a time and every answer is written into the matching slice of a zero-filled buffer. */
module Batching {
  import opened Outcomes
  import opened Volumes

  /** The key under which a chunk is fed to the predictor. */
  const VolumeKey := "volume"
  /** The key under which the predictor returns its labels (`_INFERENCE_CLASSES_KEY`). */
  const ClassesKey := "class_ids"
  /** What numpy raises when a slice assignment cannot broadcast. */
  const BroadcastMessage := "could not broadcast input array"

  /** A loaded TensorFlow predictor: called with a feed dictionary, it returns a
      dictionary of named outputs, or raises. Inference itself is not modelled. */
  datatype Predictor = Predictor(run: map<string, seq<NDArray>> -> Result<map<string, seq<NDArray>>>)

  function Min(a: int, b: int): int
  {
    if a <= b then a else b
  }

  /** The feed dictionary `{'volume': chunk}`. */
  function Feed(chunk: seq<NDArray>): map<string, seq<NDArray>>
  {
    map[VolumeKey := chunk]
  }

  /** `math.ceil` on a real number. */
  function Ceil(x: real): int
  {
    -((-x).Floor)
  }

  /** `n_batches = math.ceil(n_blocks / batch_size)`, with Python's true division. */
  function NBatches(n: nat, b: int): int
    requires b != 0
  {
    Ceil(n as real / b as real)
  }

  /** `blocks[..., None]` over the whole batch of blocks. */
  function WithChannel(blocks: seq<NDArray>): (r: seq<NDArray>)
    ensures |r| == |blocks|
    ensures forall i :: 0 <= i < |r| ==> r[i].shape == blocks[i].shape + [1] && r[i].values == blocks[i].values
  {
    seq(|blocks|, i requires 0 <= i < |blocks| => AddChannel(blocks[i]))
  }

  /** `np.zeros_like(blocks)`: the initial output buffer. */
  function Zeros(blocks: seq<NDArray>): (r: seq<NDArray>)
    ensures |r| == |blocks|
  {
    seq(|blocks|, i requires 0 <= i < |blocks| => ZerosLike(blocks[i]))
  }

  /** The rows numpy stores when `rows` is assigned to a slice of `len` rows:
      the rows themselves when the counts agree, one row repeated when a single row
      is broadcast, and nothing (numpy raises) otherwise. */
  function AssignRows(len: nat, rows: seq<NDArray>): (r: Option<seq<NDArray>>)
    ensures r.Some? ==> |r.value| == len
    ensures |rows| == len ==> r == Some(rows)
    ensures |rows| != len && |rows| == 1 ==> r.Some? && forall i :: 0 <= i < len ==> r.value[i] == rows[0]
    ensures r.None? <==> |rows| != len && |rows| != 1
  {
    if |rows| == len then Some(rows)
    else if |rows| == 1 then Some(seq(len, _ => rows[0]))
    else None
  }

  /** One predictor call, lines 116-117: feed the chunk, look up the labels and
      fit them to the slice they are assigned to. */
  function RunChunk(p: Predictor, chunk: seq<NDArray>): (r: Result<seq<NDArray>>)
    ensures r.Ok? ==> |r.value| == |chunk|
    ensures r.Ok? ==> p.run(Feed(chunk)).Ok? && ClassesKey in p.run(Feed(chunk)).value &&
                      AssignRows(|chunk|, p.run(Feed(chunk)).value[ClassesKey]) == Some(r.value)
    ensures p.run(Feed(chunk)).Err? ==> r == Err(p.run(Feed(chunk)).error)
    ensures p.run(Feed(chunk)).Ok? && ClassesKey !in p.run(Feed(chunk)).value ==> r == Err(KeyError(ClassesKey))
    ensures p.run(Feed(chunk)).Ok? && ClassesKey in p.run(Feed(chunk)).value &&
            AssignRows(|chunk|, p.run(Feed(chunk)).value[ClassesKey]).None? ==>
              r == Err(ValueError(BroadcastMessage))
  {
    match p.run(Feed(chunk))
    case Err(e) => Err(e)
    case Ok(out) =>
      if ClassesKey !in out then Err(KeyError(ClassesKey))
      else match AssignRows(|chunk|, out[ClassesKey])
        case None => Err(ValueError(BroadcastMessage))
        case Some(rows) => Ok(rows)
  }

  /** `xs` followed by the rows of `rest`, or the exception of `rest`. */
  function Prepend(xs: seq<NDArray>, rest: Result<seq<NDArray>>): Result<seq<NDArray>>
  {
    match rest
    case Err(e) => Err(e)
    case Ok(ys) => Ok(xs + ys)
  }

  /** The rows of `first` followed by those of `rest`; the first exception wins. */
  function Concat(first: Result<seq<NDArray>>, rest: Result<seq<NDArray>>): Result<seq<NDArray>>
  {
    match first
    case Err(e) => Err(e)
    case Ok(xs) => Prepend(xs, rest)
  }

  /** Reference definition of the filled buffer: the blocks are cut into chunks of `b`
      from the front (the last one may be shorter), each chunk is predicted on its own,
      and the answers are laid end to end. The first chunk that raises aborts the whole. */
  function PredictChunks(features: seq<NDArray>, p: Predictor, b: nat): (r: Result<seq<NDArray>>)
    requires b > 0
    ensures r.Ok? ==> |r.value| == |features|
    decreases |features|
  {
    if |features| == 0 then Ok([])
    else
      var k := Min(b, |features|);
      Concat(RunChunk(p, features[..k]), PredictChunks(features[k..], p, b))
  }

  /** What lines 107-118 leave in the output buffer for a given `batch_size`:
      zero raises in `math.ceil(n_blocks / batch_size)` (line 112), a negative size
      makes `range(0, n_blocks, batch_size)` empty so the zero buffer is kept, and a
      positive size runs the chunks. */
  function BlockPrediction(blocks: seq<NDArray>, p: Predictor, batchSize: int): (r: Result<seq<NDArray>>)
  {
    if batchSize == 0 then Err(ZeroDivisionError)
    else if batchSize < 0 then Ok(Zeros(blocks))
    else PredictChunks(WithChannel(blocks), p, batchSize)
  }

  /** First index of chunk `k`: the value of the loop variable `j` on turn `k`,
      which starts at 0 and grows by `b` each turn. */
  function ChunkStart(b: nat, k: nat): nat
  {
    if k == 0 then 0 else ChunkStart(b, k - 1) + b
  }

  /** One past the last index of chunk `k`: `j + batch_size`, clipped by numpy at `n`. */
  function ChunkEnd(n: nat, b: nat, k: nat): nat
  {
    Min(ChunkStart(b, k) + b, n)
  }

  /** The number of whole strides of `b` below `i`: the chunk that block `i` falls in. */
  function ChunkIndex(i: nat, b: nat): nat
    requires b > 0
    decreases i
  {
    if i < b then 0 else 1 + ChunkIndex(i - b, b)
  }

  // ---------------------------------------------------------------------------
  // Arithmetic of the strides.
  // ---------------------------------------------------------------------------

  lemma {:induction false} ChunkStartIsProduct(b: nat, k: nat)
    ensures ChunkStart(b, k) == k * b
  {
    if k > 0 {
      ChunkStartIsProduct(b, k - 1);
    }
  }

  /** Later chunks start later; a chunk before `k2` ends no later than `k2` starts. */
  lemma {:induction false} ChunkStartMono(b: nat, k1: nat, k2: nat)
    requires k1 <= k2
    ensures ChunkStart(b, k1) <= ChunkStart(b, k2)
    ensures k1 < k2 ==> ChunkStart(b, k1) + b <= ChunkStart(b, k2)
    decreases k2
  {
    if k1 < k2 {
      ChunkStartMono(b, k1, k2 - 1);
    }
  }

  /** The chunk of block `i` starts at or before `i` and ends after it. */
  lemma {:induction false} ChunkIndexBounds(i: nat, b: nat)
    requires b > 0
    ensures ChunkStart(b, ChunkIndex(i, b)) <= i < ChunkStart(b, ChunkIndex(i, b)) + b
    decreases i
  {
    if i >= b {
      ChunkIndexBounds(i - b, b);
    }
  }

  lemma CancelLt(x: int, y: int, b: int)
    requires b > 0 && x * b < y * b
    ensures x < y
  {
  }

  lemma CeilBounds(x: real)
    ensures Ceil(x) as real - 1.0 < x <= Ceil(x) as real
  {
  }

  lemma MulLeqReal(x: real, y: real, b: real)
    requires b > 0.0 && x <= y
    ensures x * b <= y * b
  {
  }

  lemma MulLtReal(x: real, y: real, b: real)
    requires b > 0.0 && x < y
    ensures x * b < y * b
  {
  }

  lemma CastMul(c: int, b: int)
    ensures (c * b) as real == (c as real) * (b as real)
  {
  }

  lemma DivMulReal(n: real, b: real)
    requires b != 0.0
    ensures (n / b) * b == n
  {
  }

  lemma CastLe(x: int, y: int)
    requires x as real <= y as real
    ensures x <= y
  {
  }

  lemma CastLt(x: int, y: int)
    requires x as real < y as real
    ensures x < y
  {
  }

  /** `math.ceil(n / b)` strides of `b` reach `n`. */
  lemma NBatchesReaches(n: nat, b: int)
    requires b > 0
    ensures n <= NBatches(n, b) * b
  {
    var x := n as real / b as real;
    var c := NBatches(n, b);
    CeilBounds(x);
    MulLeqReal(x, c as real, b as real);
    DivMulReal(n as real, b as real);
    CastMul(c, b);
    CastLe(n, c * b);
  }

  /** One stride fewer than `math.ceil(n / b)` stays below `n`. */
  lemma NBatchesTight(n: nat, b: int)
    requires b > 0
    ensures (NBatches(n, b) - 1) * b < n
  {
    var x := n as real / b as real;
    var c := NBatches(n, b);
    CeilBounds(x);
    MulLtReal(c as real - 1.0, x, b as real);
    DivMulReal(n as real, b as real);
    CastMul(c - 1, b);
    CastLt((c - 1) * b, n);
  }

  /** `n_batches = math.ceil(n / b)` is the one count `k` of turns such that the
      loop variable has reached `n` after `k` turns but was still below `n` on the
      last of them: exactly the turns of `for j in range(0, n, b)`. */
  lemma NBatchesMeaning(n: nat, b: nat, k: nat)
    requires b > 0
    ensures NBatches(n, b) >= 0
    ensures k == NBatches(n, b) <==> n <= ChunkStart(b, k) && (k == 0 || ChunkStart(b, k - 1) < n)
  {
    var c := NBatches(n, b);
    NBatchesReaches(n, b);
    NBatchesTight(n, b);
    ChunkStartIsProduct(b, k);
    if k > 0 {
      ChunkStartIsProduct(b, k - 1);
      assert (k - 1) * b == k * b - b;
    }
    if n <= k * b && (k == 0 || (k - 1) * b < n) {
      assert (c - 1) * b < k * b && (k - 1) * b < c * b;
      CancelLt(c - 1, k, b);
      CancelLt(k - 1, c, b);
    }
  }

  // ---------------------------------------------------------------------------
  // The chunks partition the blocks.
  // ---------------------------------------------------------------------------

  /** Every block `i < n` lies in exactly one chunk, the chunk `ChunkIndex(i, b)`, and
      that chunk is one the loop visits: the slices `[j, min(j + b, n))` are pairwise
      disjoint and together cover `[0, n)`, so each output block is written exactly once. */
  lemma ChunkContaining(n: nat, b: nat, i: nat, k: nat)
    requires b > 0 && i < n
    ensures ChunkStart(b, k) <= i < ChunkEnd(n, b, k) <==> k == ChunkIndex(i, b)
    ensures ChunkIndex(i, b) < NBatches(n, b)
  {
    var q := ChunkIndex(i, b);
    ChunkIndexBounds(i, b);
    if k <= q {
      ChunkStartMono(b, k, q);
    } else {
      ChunkStartMono(b, q, k);
    }
    var c := NBatches(n, b);
    NBatchesMeaning(n, b, c);
    if c <= q {
      ChunkStartMono(b, c, q);
    }
  }

  /** Chunk `k` is visited by the loop exactly when it starts before `n`; all visited
      chunks hold `b` blocks except the last, which holds between 1 and `b`. */
  lemma ChunkSizes(n: nat, b: nat, k: nat)
    requires b > 0
    ensures k < NBatches(n, b) <==> ChunkStart(b, k) < n
    ensures k + 1 < NBatches(n, b) ==> ChunkEnd(n, b, k) - ChunkStart(b, k) == b
    ensures k + 1 == NBatches(n, b) ==> 1 <= ChunkEnd(n, b, k) - ChunkStart(b, k) <= b
  {
    var c := NBatches(n, b);
    NBatchesMeaning(n, b, c);
    if k < c {
      ChunkStartMono(b, k, c - 1);
    } else {
      ChunkStartMono(b, c, k);
    }
    if k + 1 < c {
      ChunkStartMono(b, k + 1, c - 1);
    }
  }

  // ---------------------------------------------------------------------------
  // What ends up in each output block.
  // ---------------------------------------------------------------------------

  lemma PredictChunksOkUnfold(features: seq<NDArray>, p: Predictor, b: nat)
    requires b > 0 && |features| > 0
    requires PredictChunks(features, p, b).Ok?
    ensures var k := Min(b, |features|);
            RunChunk(p, features[..k]).Ok? && PredictChunks(features[k..], p, b).Ok? &&
            PredictChunks(features, p, b).value ==
              RunChunk(p, features[..k]).value + PredictChunks(features[k..], p, b).value
  {
  }

  /** Block `i` of `out` is row `i - j` of the predictor's answer for the chunk
      `[j, e)` that contains block `i` of `features`. */
  predicate RowFromChunk(features: seq<NDArray>, out: seq<NDArray>, p: Predictor, b: nat, i: nat)
    requires b > 0 && i < |features| == |out|
  {
    var j := ChunkStart(b, ChunkIndex(i, b));
    var e := ChunkEnd(|features|, b, ChunkIndex(i, b));
    j <= i < e <= |features| &&
    RunChunk(p, features[j..e]).Ok? &&
    out[i] == RunChunk(p, features[j..e]).value[i - j]
  }

  lemma RowFromFirstChunk(features: seq<NDArray>, out: seq<NDArray>, p: Predictor, b: nat, i: nat)
    requires b > 0 && i < |features| == |out| && i < b
    requires var k := Min(b, |features|);
             RunChunk(p, features[..k]).Ok? && out[..k] == RunChunk(p, features[..k]).value
    ensures RowFromChunk(features, out, p, b, i)
  {
    var k := Min(b, |features|);
    assert ChunkEnd(|features|, b, 0) == k;
    assert features[0..k] == features[..k];
  }

  lemma SliceOfDrop(s: seq<NDArray>, b: nat, x: nat, y: nat)
    requires x <= y && b + y <= |s|
    ensures s[b..][x..y] == s[b + x..b + y]
  {
  }

  lemma RowFromLaterChunk(features: seq<NDArray>, out: seq<NDArray>, p: Predictor, b: nat, i: nat)
    requires 0 < b <= i < |features| == |out|
    requires RowFromChunk(features[b..], out[b..], p, b, i - b)
    ensures RowFromChunk(features, out, p, b, i)
  {
    var n := |features|;
    var q := ChunkIndex(i - b, b);
    var j' := ChunkStart(b, q);
    var e' := ChunkEnd(n - b, b, q);
    assert ChunkIndex(i, b) == q + 1;
    assert ChunkStart(b, q + 1) == j' + b && ChunkEnd(n, b, q + 1) == e' + b;
    SliceOfDrop(features, b, j', e');
  }

  /** After a successful run, output block `i` is row `i - j` of the predictor's answer
      for the chunk `[j, min(j + b, n))` that contains `i`. */
  lemma {:induction false} PredictChunksAt(features: seq<NDArray>, p: Predictor, b: nat, i: nat)
    requires b > 0 && i < |features|
    requires PredictChunks(features, p, b).Ok?
    ensures var j := ChunkStart(b, ChunkIndex(i, b));
            var e := ChunkEnd(|features|, b, ChunkIndex(i, b));
            j <= i < e <= |features| &&
            RunChunk(p, features[j..e]).Ok? &&
            PredictChunks(features, p, b).value[i] == RunChunk(p, features[j..e]).value[i - j]
    decreases |features|
  {
    var out := PredictChunks(features, p, b).value;
    PredictChunksOkUnfold(features, p, b);
    var k := Min(b, |features|);
    var first := RunChunk(p, features[..k]).value;
    assert out[..k] == first;
    if i < b {
      RowFromFirstChunk(features, out, p, b, i);
    } else {
      PredictChunksAt(features[b..], p, b, i - b);
      assert out[b..] == PredictChunks(features[b..], p, b).value;
      RowFromLaterChunk(features, out, p, b, i);
    }
    assert RowFromChunk(features, out, p, b, i);
  }

  /** `xs` mapped block by block through `f`. */
  function Apply(f: NDArray -> NDArray, xs: seq<NDArray>): (r: seq<NDArray>)
    ensures |r| == |xs|
  {
    seq(|xs|, i requires 0 <= i < |xs| => f(xs[i]))
  }

  /** The predictor labels each block on its own with `f`, whatever else is in the chunk. */
  ghost predicate Blockwise(p: Predictor, f: NDArray -> NDArray)
  {
    forall chunk: seq<NDArray> {:trigger Feed(chunk)} ::
      p.run(Feed(chunk)).Ok? &&
      ClassesKey in p.run(Feed(chunk)).value &&
      p.run(Feed(chunk)).value[ClassesKey] == Apply(f, chunk)
  }

  /** With a block-by-block predictor the filled buffer is every block labelled on its
      own, whatever positive batch size cut the blocks into chunks. */
  lemma {:induction false} PredictChunksBlockwise(features: seq<NDArray>, p: Predictor, f: NDArray -> NDArray, b: nat)
    requires b > 0 && Blockwise(p, f)
    ensures PredictChunks(features, p, b) == Ok(Apply(f, features))
    decreases |features|
  {
    if |features| > 0 {
      var k := Min(b, |features|);
      var chunk := features[..k];
      assert p.run(Feed(chunk)).value[ClassesKey] == Apply(f, chunk);
      assert RunChunk(p, chunk) == Ok(Apply(f, chunk));
      PredictChunksBlockwise(features[k..], p, f, b);
      assert Apply(f, chunk) + Apply(f, features[k..]) == Apply(f, features);
    }
  }

  /** Batching only bounds memory: with a block-by-block predictor any two positive
      batch sizes leave the same labels in the buffer. */
  lemma BatchSizeIrrelevant(blocks: seq<NDArray>, p: Predictor, f: NDArray -> NDArray, b1: int, b2: int)
    requires b1 > 0 && b2 > 0 && Blockwise(p, f)
    ensures BlockPrediction(blocks, p, b1) == BlockPrediction(blocks, p, b2)
    ensures BlockPrediction(blocks, p, b1) == Ok(Apply(f, WithChannel(blocks)))
  {
    PredictChunksBlockwise(WithChannel(blocks), p, f, b1);
    PredictChunksBlockwise(WithChannel(blocks), p, f, b2);
  }

  // ---------------------------------------------------------------------------
  // The loop itself.
  // ---------------------------------------------------------------------------

  lemma PrependEmpty(r: Result<seq<NDArray>>)
    ensures Prepend([], r) == r
  {
    if r.Ok? {
      assert [] + r.value == r.value;
    }
  }

  lemma PredictChunksStep(features: seq<NDArray>, p: Predictor, b: nat, j: nat)
    requires b > 0 && j < |features|
    ensures PredictChunks(features[j..], p, b) ==
            Concat(RunChunk(p, features[j..Min(j + b, |features|)]),
                   PredictChunks(features[Min(j + b, |features|)..], p, b))
  {
    var s := features[j..];
    var k := Min(b, |s|);
    assert s[..k] == features[j..Min(j + b, |features|)];
    assert s[k..] == features[Min(j + b, |features|)..];
  }

  /** The loop invariant: the rows `done` stored for the first `lo` blocks, followed by
      what the chunks from `lo` on produce, make up the reference result. */
  predicate Pending(features: seq<NDArray>, p: Predictor, b: nat, lo: nat, done: seq<NDArray>)
    requires b > 0
  {
    lo <= |features| &&
    PredictChunks(features, p, b) == Prepend(done, PredictChunks(features[lo..], p, b))
  }

  lemma LoopEntry(features: seq<NDArray>, p: Predictor, b: nat)
    requires b > 0
    ensures Pending(features, p, b, 0, [])
  {
    assert features[0..] == features;
    PrependEmpty(PredictChunks(features, p, b));
  }

  /** One turn of the loop keeps its invariant, or ends the run with the chunk's exception. */
  lemma LoopStep(features: seq<NDArray>, p: Predictor, b: nat, j: nat, done: seq<NDArray>)
    requires b > 0 && j < |features|
    requires Pending(features, p, b, j, done)
    ensures var end := Min(j + b, |features|);
            var res := RunChunk(p, features[j..end]);
            (res.Err? ==> PredictChunks(features, p, b) == Err(res.error)) &&
            (res.Ok? ==> Pending(features, p, b, end, done + res.value))
  {
    PredictChunksStep(features, p, b, j);
    var end := Min(j + b, |features|);
    var res := RunChunk(p, features[j..end]);
    var rest := PredictChunks(features[end..], p, b);
    if res.Ok? && rest.Ok? {
      assert done + (res.value + rest.value) == (done + res.value) + rest.value;
    }
  }

  lemma SliceWritten(before: seq<NDArray>, after: seq<NDArray>, j: nat, end: nat, rows: seq<NDArray>)
    requires j <= end <= |before| == |after| && |rows| == end - j
    requires forall i :: 0 <= i < j ==> after[i] == before[i]
    requires forall i :: j <= i < end ==> after[i] == rows[i - j]
    ensures after[..end] == before[..j] + rows
  {
  }

  /** When the loop has passed the last block nothing remains to predict. */
  lemma LoopExit(features: seq<NDArray>, p: Predictor, b: nat, done: seq<NDArray>)
    requires b > 0
    requires Pending(features, p, b, |features|, done)
    ensures PredictChunks(features, p, b) == Ok(done)
  {
    assert features[|features|..] == [];
    assert done + [] == done;
  }

  /** Lines 107-118: allocate the zero buffer, then walk the blocks with
      `j in range(0, n_blocks, batch_size)`, feeding `features[j:j + batch_size]`
      to the predictor and storing its labels in `outputs[j:j + batch_size]`.
      `calls` counts the predictor calls (one per progress-bar tick) and the ghost
      `writes` counts how often each output block was assigned. */
  method PredictBlocks(blocks: seq<NDArray>, p: Predictor, batchSize: int)
    returns (r: Result<seq<NDArray>>, calls: nat, ghost writes: seq<nat>)
    ensures r == BlockPrediction(blocks, p, batchSize)
    ensures batchSize > 0 && r.Ok? ==> calls == NBatches(|blocks|, batchSize)
    ensures batchSize <= 0 ==> calls == 0
    ensures batchSize > 0 && r.Ok? ==>
              |writes| == |blocks| && forall i :: 0 <= i < |writes| ==> writes[i] == 1
  {
    var n := |blocks|;
    var outputs := new NDArray[n](i requires 0 <= i < n => ZerosLike(blocks[i]));
    var features := WithChannel(blocks);
    writes := seq(n, _ => 0);
    calls := 0;
    if batchSize == 0 {
      return Err(ZeroDivisionError), calls, writes;
    }
    if batchSize < 0 {
      assert outputs[..] == Zeros(blocks);
      return Ok(outputs[..]), calls, writes;
    }
    var b: nat := batchSize;
    var j := 0;
    ghost var lo := 0;
    LoopEntry(features, p, b);
    while j < n
      invariant lo <= n && (j < n ==> lo == j) && (j >= n ==> lo == n)
      invariant j == ChunkStart(b, calls)
      invariant calls == 0 || ChunkStart(b, calls - 1) < n
      invariant |writes| == n
      invariant Pending(features, p, b, lo, outputs[..lo])
      invariant forall i :: 0 <= i < n ==> writes[i] == if i < lo then 1 else 0
    {
      var end := Min(j + b, n);
      var res := RunChunk(p, features[j..end]);
      calls := calls + 1;
      LoopStep(features, p, b, j, outputs[..j]);
      if res.Err? {
        return Err(res.error), calls, writes;
      }
      var rows := res.value;
      ghost var before := outputs[..];
      forall i | j <= i < end {
        outputs[i] := rows[i - j];
      }
      SliceWritten(before, outputs[..], j, end, rows);
      writes := seq(n, i requires 0 <= i < n => if j <= i < end then writes[i] + 1 else writes[i]);
      j := j + b;
      lo := end;
    }
    assert outputs[..lo] == outputs[..];
    LoopExit(features, p, b, outputs[..]);
    NBatchesMeaning(n, b, calls);
    r := Ok(outputs[..]);
  }
}
