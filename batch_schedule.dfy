/**
  The measurement schedule of src/main.cpp with the GPU work reduced to the calls
  it issues. `numBatches` batches run, indexed from `initMode`; batch `batchInd`
  uses mode `batchInd % 2` (0 is the 1D texture, 1 the 2D texture), binds that
  mode's program and texture, issues `numFramesPerBatch` clear+draw pairs, waits
  for the GPU once, and adds the batch's elapsed time to `time[mode]`.

  The elapsed time of each batch is an input (`elapsed[b]` for the `b`-th batch);
  the clock readings it stands for are not modelled.
*/
module BatchSchedule {

  const NumBatches: nat := 40
  const NumFramesPerBatch: nat := 2500
  const NumTexels: nat := 128

  const GL_TEXTURE_1D: nat := 0x0DE0
  const GL_TEXTURE_2D: nat := 0x0DE1

  /** `targets`: the texture target of each mode. */
  const Targets: seq<nat> := [GL_TEXTURE_1D, GL_TEXTURE_2D]

  /**
    A GL call of the batch loop. `UseProgram(m)` binds `prog[m]` and
    `BindTexture(target, m)` binds `tex[m]`; the handles themselves are the
    driver's and are named by their slot.
  */
  datatype Call =
    | UseProgram(slot: nat)
    | BindTexture(target: nat, slot: nat)
    | Clear
    | DrawArrays
    | Finish

  /** The mode of batch `batchInd`. */
  function Mode(batchInd: nat): (m: nat)
    ensures m < 2
  {
    batchInd % 2
  }

  /** `n` clear+draw pairs. */
  function FrameCalls(n: nat): seq<Call>
  {
    seq(2 * n, i => if i % 2 == 0 then Clear else DrawArrays)
  }

  /** The calls of one batch in mode `mode` that draws `frames` frames. */
  function BatchCalls(mode: nat, frames: nat): seq<Call>
    requires mode < 2
  {
    [UseProgram(mode), BindTexture(Targets[mode], mode)] + FrameCalls(frames) + [Finish]
  }

  /** The calls of the first `k` batches, starting from index `initMode`. */
  function ScheduleCalls(initMode: nat, frames: nat, k: nat): seq<Call>
  {
    if k == 0 then [] else ScheduleCalls(initMode, frames, k - 1) + BatchCalls(Mode(initMode + k - 1), frames)
  }

  /** The time accumulated in slot `mode` after the first `k` batches. */
  function ModeTime(initMode: nat, elapsed: seq<real>, mode: nat, k: nat): real
    requires k <= |elapsed|
  {
    if k == 0 then 0.0
    else ModeTime(initMode, elapsed, mode, k - 1) + (if Mode(initMode + k - 1) == mode then elapsed[k - 1] else 0.0)
  }

  /** The number of the first `k` batches that run in mode `mode`. */
  function ModeCount(initMode: nat, mode: nat, k: nat): nat
  {
    if k == 0 then 0
    else ModeCount(initMode, mode, k - 1) + (if Mode(initMode + k - 1) == mode then 1 else 0)
  }

  function Sum(xs: seq<real>): real
  {
    if xs == [] then 0.0 else Sum(xs[..|xs| - 1]) + xs[|xs| - 1]
  }

  /** How often `c` occurs in `calls`. */
  function Count(calls: seq<Call>, c: Call): nat
  {
    if calls == [] then 0 else Count(calls[..|calls| - 1], c) + (if calls[|calls| - 1] == c then 1 else 0)
  }

  // ---------------------------------------------------------------------------
  // The batch loop

  /**
    The batch loop: for every batch index from `initMode` on, bind the mode's
    program and texture, issue the clear+draw pairs, finish, and add the batch's
    elapsed time to `time[mode]`, updating the two-slot array in place.
  */
  method RunBatches(initMode: nat, elapsed: seq<real>) returns (calls: seq<Call>, time: array<real>)
    requires |elapsed| == NumBatches
    ensures fresh(time) && time.Length == 2
    ensures calls == ScheduleCalls(initMode, NumFramesPerBatch, NumBatches)
    ensures time[0] == ModeTime(initMode, elapsed, 0, NumBatches)
    ensures time[1] == ModeTime(initMode, elapsed, 1, NumBatches)
  {
    time := new real[2];
    time[0], time[1] := 0.0, 0.0;
    calls := [];
    for batchInd := initMode to initMode + NumBatches
      invariant calls == ScheduleCalls(initMode, NumFramesPerBatch, batchInd - initMode)
      invariant time[0] == ModeTime(initMode, elapsed, 0, batchInd - initMode)
      invariant time[1] == ModeTime(initMode, elapsed, 1, batchInd - initMode)
    {
      var mode := batchInd % 2;
      var k := batchInd - initMode;
      assert mode == Mode(initMode + k);
      ModeTimeStep(initMode, elapsed, k);
      var batch := RunBatch(mode);
      calls := calls + batch;
      time[mode] := time[mode] + elapsed[k];
    }
  }

  /** The calls of one batch: bind, draw `numFramesPerBatch` frames, finish. */
  method RunBatch(mode: nat) returns (calls: seq<Call>)
    requires mode < 2
    ensures calls == BatchCalls(mode, NumFramesPerBatch)
  {
    calls := [UseProgram(mode), BindTexture(Targets[mode], mode)];
    for i := 0 to NumFramesPerBatch
      invariant calls == [UseProgram(mode), BindTexture(Targets[mode], mode)] + FrameCalls(i)
    {
      FrameCallsSnoc(i);
      calls := calls + [Clear, DrawArrays];
    }
    calls := calls + [Finish];
  }

  // ---------------------------------------------------------------------------
  // Properties of the schedule

  /** Consecutive batches alternate between the two modes; the first runs in `initMode % 2`. */
  lemma ModesAlternate(initMode: nat, b: nat)
    ensures Mode(initMode) == initMode % 2
    ensures Mode(initMode + b + 1) == 1 - Mode(initMode + b)
  {
  }

  /** Out of any two consecutive batches, one runs in each mode. */
  lemma {:induction false} ModeCountPairs(initMode: nat, mode: nat, j: nat)
    requires mode < 2
    ensures ModeCount(initMode, mode, 2 * j) == j
  {
    if j > 0 {
      ModeCountPairs(initMode, mode, j - 1);
      ModesAlternate(initMode, 2 * j - 2);
    }
  }

  /** Whatever `initMode` is, each mode gets exactly half of the 40 batches. */
  lemma TwentyBatchesPerMode(initMode: nat)
    ensures ModeCount(initMode, 0, NumBatches) == 20
    ensures ModeCount(initMode, 1, NumBatches) == 20
  {
    ModeCountPairs(initMode, 0, 20);
    ModeCountPairs(initMode, 1, 20);
  }

  /** The two slots together hold the time of every batch, each counted once. */
  lemma {:induction false} TimesAddUp(initMode: nat, elapsed: seq<real>, k: nat)
    requires k <= |elapsed|
    ensures ModeTime(initMode, elapsed, 0, k) + ModeTime(initMode, elapsed, 1, k) == Sum(elapsed[..k])
  {
    if k > 0 {
      TimesAddUp(initMode, elapsed, k - 1);
      assert elapsed[..k][..k - 1] == elapsed[..k - 1];
    }
  }

  /** A batch's time lands in its own mode's slot only. */
  lemma ModeTimeStep(initMode: nat, elapsed: seq<real>, k: nat)
    requires k < |elapsed|
    ensures var m := Mode(initMode + k);
      && ModeTime(initMode, elapsed, m, k + 1) == ModeTime(initMode, elapsed, m, k) + elapsed[k]
      && ModeTime(initMode, elapsed, 1 - m, k + 1) == ModeTime(initMode, elapsed, 1 - m, k)
  {
  }

  /** With non-negative batch times, neither accumulator ever decreases. */
  lemma {:induction false} ModeTimeMonotone(initMode: nat, elapsed: seq<real>, mode: nat, j: nat, k: nat)
    requires j <= k <= |elapsed|
    requires forall b :: 0 <= b < |elapsed| ==> elapsed[b] >= 0.0
    ensures ModeTime(initMode, elapsed, mode, j) <= ModeTime(initMode, elapsed, mode, k)
    decreases k
  {
    if j < k {
      ModeTimeMonotone(initMode, elapsed, mode, j, k - 1);
    }
  }

  /** One more frame appends one clear+draw pair. */
  lemma FrameCallsSnoc(n: nat)
    ensures FrameCalls(n + 1) == FrameCalls(n) + [Clear, DrawArrays]
  {
    var f, g := FrameCalls(n + 1), FrameCalls(n) + [Clear, DrawArrays];
    forall i | 0 <= i < 2 * n + 2
      ensures f[i] == g[i]
    {
      if i < 2 * n {
        assert g[i] == FrameCalls(n)[i];
      }
    }
  }

  /** `n` clear+draw pairs: clears at even positions, draws at odd ones. */
  lemma FrameCallsShape(n: nat)
    ensures |FrameCalls(n)| == 2 * n
    ensures forall i :: 0 <= i < n ==> FrameCalls(n)[2 * i] == Clear && FrameCalls(n)[2 * i + 1] == DrawArrays
  {
    forall i | 0 <= i < n
      ensures FrameCalls(n)[2 * i] == Clear && FrameCalls(n)[2 * i + 1] == DrawArrays
    {
      assert (2 * i) % 2 == 0 && (2 * i + 1) % 2 == 1;
    }
  }

  /** Counting is additive over concatenation. */
  lemma {:induction false} CountAppend(a: seq<Call>, b: seq<Call>, c: Call)
    ensures Count(a + b, c) == Count(a, c) + Count(b, c)
    decreases |b|
  {
    if b == [] {
      assert a + b == a;
    } else {
      CountAppend(a, b[..|b| - 1], c);
      assert (a + b)[..|a + b| - 1] == a + b[..|b| - 1];
    }
  }

  /** Counting in a trace of two calls. */
  lemma CountPair(x: Call, y: Call, c: Call)
    ensures Count([x, y], c) == (if x == c then 1 else 0) + (if y == c then 1 else 0)
    ensures Count([x], c) == if x == c then 1 else 0
  {
    assert [x][..0] == [];
    assert Count([x], c) == if x == c then 1 else 0;
    assert [x, y][..1] == [x];
  }

  /** A call occurs in a trace exactly when it is counted there. */
  lemma {:induction false} CountMember(calls: seq<Call>, c: Call)
    ensures c in calls <==> Count(calls, c) > 0
  {
    if calls != [] {
      var init := calls[..|calls| - 1];
      CountMember(init, c);
      assert calls == init + [calls[|calls| - 1]];
    }
  }

  /** `n` clear+draw pairs hold `n` clears, `n` draws and nothing else. */
  lemma {:induction false} FrameCallsCount(n: nat, c: Call)
    ensures Count(FrameCalls(n), c) == if c == Clear || c == DrawArrays then n else 0
  {
    if n > 0 {
      FrameCallsCount(n - 1, c);
      FrameCallsSnoc(n - 1);
      CountAppend(FrameCalls(n - 1), [Clear, DrawArrays], c);
      CountPair(Clear, DrawArrays, c);
    }
  }

  /** The calls of a batch, counted: its two bindings, its clear+draw pairs and its finish. */
  lemma BatchCount(mode: nat, frames: nat, c: Call)
    requires mode < 2
    ensures Count(BatchCalls(mode, frames), c) ==
              Count([UseProgram(mode), BindTexture(Targets[mode], mode)], c) + Count(FrameCalls(frames), c) + (if c == Finish then 1 else 0)
  {
    var head := [UseProgram(mode), BindTexture(Targets[mode], mode)];
    CountAppend(head, FrameCalls(frames), c);
    CountAppend(head + FrameCalls(frames), [Finish], c);
    CountPair(Finish, Finish, c);
  }

  /** A batch binds its mode's program and texture first and finishes once, at its end. */
  lemma BatchShape(mode: nat, frames: nat)
    requires mode < 2
    ensures var b := BatchCalls(mode, frames);
      && |b| == 2 * frames + 3
      && b[0] == UseProgram(mode) && b[1] == BindTexture(Targets[mode], mode)
      && b[|b| - 1] == Finish
      && Finish !in b[..|b| - 1]
  {
    var f := FrameCalls(frames);
    FrameCallsCount(frames, Finish);
    CountMember(f, Finish);
    var b := BatchCalls(mode, frames);
    assert b[..|b| - 1] == [UseProgram(mode), BindTexture(Targets[mode], mode)] + f;
  }

  /** Between its bindings and its finish, a batch issues the clear+draw pairs. */
  lemma BatchFrames(mode: nat, frames: nat, i: nat)
    requires mode < 2 && i < frames
    ensures BatchCalls(mode, frames)[2 + 2 * i] == Clear && BatchCalls(mode, frames)[3 + 2 * i] == DrawArrays
  {
    FrameCallsShape(frames);
  }

  /** One finish and `frames` clears and draws per batch. */
  lemma BatchCounts(mode: nat, frames: nat)
    requires mode < 2
    ensures Count(BatchCalls(mode, frames), Finish) == 1
    ensures Count(BatchCalls(mode, frames), Clear) == frames
    ensures Count(BatchCalls(mode, frames), DrawArrays) == frames
  {
    var head := [UseProgram(mode), BindTexture(Targets[mode], mode)];
    CountPair(head[0], head[1], Finish);
    CountPair(head[0], head[1], Clear);
    CountPair(head[0], head[1], DrawArrays);
    BatchCount(mode, frames, Finish);
    BatchCount(mode, frames, Clear);
    BatchCount(mode, frames, DrawArrays);
    FrameCallsCount(frames, Finish);
    FrameCallsCount(frames, Clear);
    FrameCallsCount(frames, DrawArrays);
  }

  /** A batch binds its own mode's program once and the other mode's program never. */
  lemma BatchProgramCount(mode: nat, frames: nat, other: nat)
    requires mode < 2
    ensures Count(BatchCalls(mode, frames), UseProgram(other)) == if other == mode then 1 else 0
  {
    BatchCount(mode, frames, UseProgram(other));
    FrameCallsCount(frames, UseProgram(other));
    CountPair(UseProgram(mode), BindTexture(Targets[mode], mode), UseProgram(other));
  }

  /** Every batch finishes once and issues `frames` clear+draw pairs. */
  lemma {:induction false} ScheduleCounts(initMode: nat, frames: nat, k: nat)
    ensures Count(ScheduleCalls(initMode, frames, k), Finish) == k
    ensures Count(ScheduleCalls(initMode, frames, k), Clear) == k * frames
    ensures Count(ScheduleCalls(initMode, frames, k), DrawArrays) == k * frames
  {
    if k > 0 {
      ScheduleCounts(initMode, frames, k - 1);
      var prev, batch := ScheduleCalls(initMode, frames, k - 1), BatchCalls(Mode(initMode + k - 1), frames);
      assert ScheduleCalls(initMode, frames, k) == prev + batch;
      BatchCounts(Mode(initMode + k - 1), frames);
      CountAppend(prev, batch, Finish);
      CountAppend(prev, batch, Clear);
      CountAppend(prev, batch, DrawArrays);
      assert k * frames == (k - 1) * frames + frames;
    }
  }

  /** A program is bound once for every batch of its mode. */
  lemma {:induction false} ScheduleProgramCount(initMode: nat, frames: nat, mode: nat, k: nat)
    requires mode < 2
    ensures Count(ScheduleCalls(initMode, frames, k), UseProgram(mode)) == ModeCount(initMode, mode, k)
  {
    if k > 0 {
      ScheduleProgramCount(initMode, frames, mode, k - 1);
      var m := Mode(initMode + k - 1);
      var prev, batch := ScheduleCalls(initMode, frames, k - 1), BatchCalls(m, frames);
      assert ScheduleCalls(initMode, frames, k) == prev + batch;
      CountAppend(prev, batch, UseProgram(mode));
      BatchProgramCount(m, frames, mode);
    }
  }

  /** The whole run: 40 finishes, 100000 clears and draws, 20 batches per program. */
  lemma WholeRun(initMode: nat)
    ensures var calls := ScheduleCalls(initMode, NumFramesPerBatch, NumBatches);
      && Count(calls, Finish) == 40
      && Count(calls, Clear) == 100000 && Count(calls, DrawArrays) == 100000
      && Count(calls, UseProgram(0)) == 20 && Count(calls, UseProgram(1)) == 20
  {
    ScheduleCounts(initMode, NumFramesPerBatch, NumBatches);
    ScheduleProgramCount(initMode, NumFramesPerBatch, 0, NumBatches);
    ScheduleProgramCount(initMode, NumFramesPerBatch, 1, NumBatches);
    TwentyBatchesPerMode(initMode);
  }

  // ---------------------------------------------------------------------------
  // The texel table

  type u8 = x: int | 0 <= x < 256

  /** `glm::u8vec3`: one byte per channel. */
  datatype Texel = Texel(r: u8, g: u8, b: u8)

  /** The conversion of a `size_t` to `u8`: the byte congruent to `v` modulo 256, `v` itself when it fits. */
  function ToU8(v: nat): (r: u8)
    ensures (v - r) % 256 == 0
    ensures v < 256 ==> r == v
  {
    v % 256
  }

  /** `u8vec3(v)`: all three channels hold the same byte, congruent to `v` modulo 256. */
  function Splat(v: nat): (t: Texel)
    ensures t.r == t.g == t.b
    ensures (v - t.r) % 256 == 0
    ensures v < 256 ==> t.r == v
  {
    var c := ToU8(v);
    Texel(c, c, c)
  }

  /** The texel fill: entry `i` becomes `u8vec3(2 * i)`. */
  method FillTexels() returns (texels: array<Texel>)
    ensures fresh(texels) && texels.Length == NumTexels
    ensures forall i :: 0 <= i < NumTexels ==>
              texels[i].r == 2 * i && texels[i].g == 2 * i && texels[i].b == 2 * i
  {
    texels := new Texel[NumTexels];
    for i := 0 to NumTexels
      invariant forall j :: 0 <= j < i ==>
                  texels[j].r == 2 * j && texels[j].g == 2 * j && texels[j].b == 2 * j
    {
      texels[i] := Splat(2 * i);
    }
  }

  /** No entry wraps: for every index the conversion to `u8` keeps `2 * i`, and 254 is the largest value. */
  lemma TexelsFit(i: nat)
    requires i < NumTexels
    ensures ToU8(2 * i) == 2 * i <= 254
    ensures ToU8(2 * (NumTexels - 1)) == 254
  {
  }
}
