/** Properties of the phaser's per-buffer processing: buffer layout, which
    taps change, which input samples are read, the independence of the two
    sides, the gain-recompute schedule, silence, and the two configurations
    in which the cascade is transparent and only feedback remains.
 */
module PhaserProperties {
  import opened Allpass
  import opened Phaser

  /** The state after the first `f` frames of a call. */
  function After(s: Settings, oldLeft: seq<real>, oldRight: seq<real>, input: seq<real>, f: nat): (r: Run)
    requires Fits(s, Start(oldLeft, oldRight)) && 2 * f <= |input|
  {
    Frames(s, Start(oldLeft, oldRight), input, f)
  }

  // ---------------------------------------------------------------------
  // Buffer layout

  /** One more frame appends its two side values to the output. */
  lemma FrameAppends(s: Settings, st: Run, input: seq<real>, k: nat)
    requires Fits(s, st) && 2 * k + 2 <= |input|
    ensures var r := Frames(s, st, input, k + 1);
      r.output == Frames(s, st, input, k).output + [r.left.out, r.right.out]
  {
  }

  /** Each sequence of the chain extends the one before it. */
  predicate Extends(outs: seq<seq<real>>)
  {
    forall k :: 0 <= k < |outs| - 1 ==> outs[k] <= outs[k + 1]
  }

  lemma {:induction false} ExtendsChain(outs: seq<seq<real>>, f: nat, g: nat)
    requires Extends(outs) && f <= g < |outs|
    ensures outs[f] <= outs[g]
    decreases g
  {
    if f < g {
      ExtendsChain(outs, f, g - 1);
      assert outs[g - 1] <= outs[g];
    }
  }

  /** The outputs after 0, 1, ..., g frames. */
  function Outputs(s: Settings, st: Run, input: seq<real>, g: nat): (outs: seq<seq<real>>)
    requires Fits(s, st) && 2 * g <= |input|
    ensures |outs| == g + 1
    ensures forall k :: 0 <= k <= g ==> outs[k] == Frames(s, st, input, k).output
  {
    seq(g + 1, k requires 0 <= k <= g => Frames(s, st, input, k).output)
  }

  /** Later frames only append to the output written by earlier ones. */
  lemma FramesExtendOutput(s: Settings, st: Run, input: seq<real>, f: nat, g: nat)
    requires Fits(s, st) && f <= g && 2 * g <= |input|
    ensures Frames(s, st, input, f).output <= Frames(s, st, input, g).output
  {
    var outs := Outputs(s, st, input, g);
    forall k | 0 <= k < g
      ensures outs[k] <= outs[k + 1]
    {
      FrameAppends(s, st, input, k);
    }
    ExtendsChain(outs, f, g);
  }

  /** An output sample, once written, keeps its value in every later frame. */
  lemma OutputStable(s: Settings, st: Run, input: seq<real>, i: nat, f: nat, g: nat)
    requires Fits(s, st) && f <= g && 2 * g <= |input|
    requires i < |st.output| + 2 * f
    ensures Frames(s, st, input, f).output[i] == Frames(s, st, input, g).output[i]
  {
    FramesExtendOutput(s, st, input, f, g);
  }

  /** Frame `f` of a run of `n` frames writes output indices 2f and 2f+1. */
  lemma FrameWritesAt(s: Settings, st: Run, input: seq<real>, f: nat, n: nat)
    requires Fits(s, st) && st.output == [] && f < n && 2 * n <= |input|
    ensures Frames(s, st, input, n).output[2 * f] == Frames(s, st, input, f + 1).left.out
    ensures Frames(s, st, input, n).output[2 * f + 1] == Frames(s, st, input, f + 1).right.out
  {
    LastWritten(s, st, input, f);
    var a, b := Frames(s, st, input, f + 1).output, Frames(s, st, input, n).output;
    FramesExtendOutput(s, st, input, f + 1, n);
    assert a[2 * f] == b[2 * f] && a[2 * f + 1] == b[2 * f + 1];
  }

  /** After frame k, the last two output samples are that frame's side values. */
  lemma LastWritten(s: Settings, st: Run, input: seq<real>, k: nat)
    requires Fits(s, st) && st.output == [] && 2 * k + 2 <= |input|
    ensures var r := Frames(s, st, input, k + 1);
      r.output[2 * k] == r.left.out && r.output[2 * k + 1] == r.right.out
  {
    FrameAppends(s, st, input, k);
    assert |Frames(s, st, input, k).output| == 2 * k;
  }

  /** Frame `f` writes its left sample to output index 2f and its right
      sample to 2f+1, and each side's running value is the sample it wrote. */
  lemma OutputLayout(s: Settings, oldLeft: seq<real>, oldRight: seq<real>, input: seq<real>, numSamples: nat)
    requires Ready(s, oldLeft, oldRight, input, numSamples)
    ensures var r := Process(s, oldLeft, oldRight, input, numSamples);
      forall f :: 0 <= f < numSamples / 2 ==>
        && r.output[2 * f] == After(s, oldLeft, oldRight, input, f + 1).left.out
        && r.output[2 * f + 1] == After(s, oldLeft, oldRight, input, f + 1).right.out
  {
    var n := numSamples / 2;
    forall f | 0 <= f < n
      ensures Process(s, oldLeft, oldRight, input, numSamples).output[2 * f]
           == After(s, oldLeft, oldRight, input, f + 1).left.out
      ensures Process(s, oldLeft, oldRight, input, numSamples).output[2 * f + 1]
           == After(s, oldLeft, oldRight, input, f + 1).right.out
    {
      FrameWritesAt(s, Start(oldLeft, oldRight), input, f, n);
    }
  }

  /** The sections at index `stages` and above are never touched: their taps
      leave the call as they entered it. */
  lemma {:induction false} InactiveTapsUnchanged(s: Settings, st: Run, input: seq<real>, f: nat)
    requires Fits(s, st) && 2 * f <= |input|
    ensures Frames(s, st, input, f).left.taps[s.stages..] == st.left.taps[s.stages..]
    ensures Frames(s, st, input, f).right.taps[s.stages..] == st.right.taps[s.stages..]
    decreases f
  {
    if f > 0 {
      InactiveTapsUnchanged(s, st, input, f - 1);
    }
  }

  /** Processing reads no input sample at or past index 2f: two inputs that
      agree below it give the same run. */
  lemma {:induction false} InputPastBufferIgnored(s: Settings, st: Run, a: seq<real>, b: seq<real>, f: nat)
    requires Fits(s, st) && 2 * f <= |a| && 2 * f <= |b|
    requires forall k :: 0 <= k < 2 * f ==> a[k] == b[k]
    ensures Frames(s, st, a, f) == Frames(s, st, b, f)
    decreases f
  {
    if f > 0 {
      InputPastBufferIgnored(s, st, a, b, f - 1);
    }
  }

  // ---------------------------------------------------------------------
  // Left/right independence

  /** The samples of one side of an interleaved buffer. */
  function Lefts(xs: seq<real>): (r: seq<real>)
    ensures |r| == |xs| / 2
  {
    seq(|xs| / 2, i requires 0 <= i < |xs| / 2 => xs[2 * i])
  }

  function Rights(xs: seq<real>): (r: seq<real>)
    ensures |r| == |xs| / 2
  {
    seq(|xs| / 2, i requires 0 <= i < |xs| / 2 => xs[2 * i + 1])
  }

  /** One side processed on its own. */
  datatype MonoRun = MonoRun(side: Side, output: seq<real>)

  /** A mono phaser: the first `f` samples of `xs` through one side, with the
      gain of base phase `phase`. Frame k recomputes when k is a multiple of
      the stride and then uses count k+1. */
  function Mono(s: Settings, phase: real, sd: Side, xs: seq<real>, f: nat): (m: MonoRun)
    requires s.skipSamples > 0 && s.stages <= |sd.taps| && f <= |xs|
    ensures |m.side.taps| == |sd.taps|
    ensures |m.output| == f
    decreases f
  {
    if f == 0 then MonoRun(sd, [])
    else
      var k := f - 1;
      var p := Mono(s, phase, sd, xs, k);
      var n := SideFrame(p.side, xs[k], Recomputes(s, k), Gain(s, f, phase), s.stages);
      MonoRun(n, p.output + [n.out])
  }

  /** A mono phaser reads only the samples it processes. */
  lemma {:induction false} MonoReadsPrefix(s: Settings, phase: real, sd: Side, xs: seq<real>, ys: seq<real>, f: nat)
    requires s.skipSamples > 0 && s.stages <= |sd.taps| && f <= |xs| && f <= |ys|
    requires forall k :: 0 <= k < f ==> xs[k] == ys[k]
    ensures Mono(s, phase, sd, xs, f) == Mono(s, phase, sd, ys, f)
    decreases f
  {
    if f > 0 {
      MonoReadsPrefix(s, phase, sd, xs, ys, f - 1);
    }
  }

  lemma SidesAppend(o: seq<real>, a: real, b: real)
    requires |o| % 2 == 0
    ensures Lefts(o + [a, b]) == Lefts(o) + [a]
    ensures Rights(o + [a, b]) == Rights(o) + [b]
  {
    assert |o + [a, b]| / 2 == |o| / 2 + 1;
  }

  /** One frame, seen from the left side: the left state advances by one
      mono step on the next left sample, and one left sample is written. */
  lemma LeftStep(s: Settings, oldLeft: seq<real>, oldRight: seq<real>, input: seq<real>, k: nat)
    requires Fits(s, Start(oldLeft, oldRight)) && 2 * k + 2 <= |input|
    ensures var p := After(s, oldLeft, oldRight, input, k);
      var r := After(s, oldLeft, oldRight, input, k + 1);
      && r.left == SideFrame(p.left, Lefts(input)[k], Recomputes(s, k), Gain(s, k + 1, RightPhase(s)), s.stages)
      && Lefts(r.output) == Lefts(p.output) + [r.left.out]
  {
    var p := After(s, oldLeft, oldRight, input, k);
    var r := Frame(s, p, input[2 * k], input[2 * k + 1]);
    assert Lefts(input)[k] == input[2 * k] && p.skipCount == k;
    SidesAppend(p.output, r.left.out, r.right.out);
  }

  /** One frame, seen from the right side. */
  lemma RightStep(s: Settings, oldLeft: seq<real>, oldRight: seq<real>, input: seq<real>, k: nat)
    requires Fits(s, Start(oldLeft, oldRight)) && 2 * k + 2 <= |input|
    ensures var p := After(s, oldLeft, oldRight, input, k);
      var r := After(s, oldLeft, oldRight, input, k + 1);
      && r.right == SideFrame(p.right, Rights(input)[k], Recomputes(s, k), Gain(s, k + 1, LeftPhase(s)), s.stages)
      && Rights(r.output) == Rights(p.output) + [r.right.out]
  {
    var p := After(s, oldLeft, oldRight, input, k);
    var r := Frame(s, p, input[2 * k], input[2 * k + 1]);
    assert Rights(input)[k] == input[2 * k + 1] && p.skipCount == k;
    SidesAppend(p.output, r.left.out, r.right.out);
  }

  /** The left half of the stereo loop is a mono phaser of the left samples,
      driven by the right base phase. */
  lemma {:induction false} LeftIsMono(s: Settings, oldLeft: seq<real>, oldRight: seq<real>, input: seq<real>, f: nat)
    requires Fits(s, Start(oldLeft, oldRight)) && 2 * f <= |input|
    ensures var r := After(s, oldLeft, oldRight, input, f);
      var m := Mono(s, RightPhase(s), Side(0.0, 0.0, oldLeft), Lefts(input), f);
      r.left == m.side && Lefts(r.output) == m.output
    decreases f
  {
    if f > 0 {
      LeftIsMono(s, oldLeft, oldRight, input, f - 1);
      LeftStep(s, oldLeft, oldRight, input, f - 1);
    }
  }

  /** The right half of the stereo loop is a mono phaser of the right
      samples, driven by the left base phase. */
  lemma {:induction false} RightIsMono(s: Settings, oldLeft: seq<real>, oldRight: seq<real>, input: seq<real>, f: nat)
    requires Fits(s, Start(oldLeft, oldRight)) && 2 * f <= |input|
    ensures var r := After(s, oldLeft, oldRight, input, f);
      var m := Mono(s, LeftPhase(s), Side(0.0, 0.0, oldRight), Rights(input), f);
      r.right == m.side && Rights(r.output) == m.output
    decreases f
  {
    if f > 0 {
      RightIsMono(s, oldLeft, oldRight, input, f - 1);
      RightStep(s, oldLeft, oldRight, input, f - 1);
    }
  }

  /** Left output and left taps depend only on the left input samples and
      the left taps: the right half of the input and the right taps can be
      anything. Symmetrically for the right side. */
  lemma LeftIndependence(
    s: Settings, oldLeft: seq<real>, rightA: seq<real>, rightB: seq<real>,
    a: seq<real>, b: seq<real>, numSamples: nat)
    requires Ready(s, oldLeft, rightA, a, numSamples) && Ready(s, oldLeft, rightB, b, numSamples)
    requires forall k :: 0 <= k < numSamples / 2 ==> a[2 * k] == b[2 * k]
    ensures Process(s, oldLeft, rightA, a, numSamples).left == Process(s, oldLeft, rightB, b, numSamples).left
    ensures Lefts(Process(s, oldLeft, rightA, a, numSamples).output) == Lefts(Process(s, oldLeft, rightB, b, numSamples).output)
  {
    var f := numSamples / 2;
    LeftIsMono(s, oldLeft, rightA, a, f);
    LeftIsMono(s, oldLeft, rightB, b, f);
    MonoReadsPrefix(s, RightPhase(s), Side(0.0, 0.0, oldLeft), Lefts(a), Lefts(b), f);
  }

  lemma RightIndependence(
    s: Settings, leftA: seq<real>, leftB: seq<real>, oldRight: seq<real>,
    a: seq<real>, b: seq<real>, numSamples: nat)
    requires Ready(s, leftA, oldRight, a, numSamples) && Ready(s, leftB, oldRight, b, numSamples)
    requires forall k :: 0 <= k < numSamples / 2 ==> a[2 * k + 1] == b[2 * k + 1]
    ensures Process(s, leftA, oldRight, a, numSamples).right == Process(s, leftB, oldRight, b, numSamples).right
    ensures Rights(Process(s, leftA, oldRight, a, numSamples).output) == Rights(Process(s, leftB, oldRight, b, numSamples).output)
  {
    var f := numSamples / 2;
    RightIsMono(s, leftA, oldRight, a, f);
    RightIsMono(s, leftB, oldRight, b, f);
    MonoReadsPrefix(s, LeftPhase(s), Side(0.0, 0.0, oldRight), Rights(a), Rights(b), f);
  }

  // ---------------------------------------------------------------------
  // Gain schedule

  /** The latest frame index at or before `i` whose frame recomputes the gain. */
  function LastRecompute(s: Settings, i: nat): (k: nat)
    requires s.skipSamples > 0
    ensures k <= i && Recomputes(s, k)
    ensures forall j :: k < j <= i ==> !Recomputes(s, j)
  {
    BlockStart(s.skipSamples, i);
    i - i % s.skipSamples
  }

  /** i - i % m is a multiple of m, and no index after it up to i is one. */
  lemma BlockStart(m: int, i: nat)
    requires m > 0
    ensures (i - i % m) % m == 0
    ensures forall j :: i - i % m < j <= i ==> j % m != 0
  {
    var k := i - i % m;
    assert k == m * (i / m);
    ModOfMultiple(m, i / m);
    forall j | k < j <= i
      ensures j % m != 0
    {
      ModInsideBlock(m, i / m, j - k);
    }
  }

  lemma ModOfMultiple(m: int, q: int)
    requires m > 0
    ensures (m * q) % m == 0
  {
    ModUnique(m * q, m, q, 0);
  }

  lemma ModInsideBlock(m: int, q: int, r: int)
    requires m > 0 && 0 < r < m
    ensures (m * q + r) % m == r
  {
    ModUnique(m * q + r, m, q, r);
  }

  lemma ModUnique(a: int, m: int, q: int, r: int)
    requires m > 0 && 0 <= r < m && a == m * q + r
    ensures a % m == r
  {
    var q', r' := a / m, a % m;
    assert m * q - m * q' == r' - r;
    assert m * (q - q') == r' - r;
    MultipleBounds(m, q - q');
  }

  /** A multiple of m is 0 or at least m away from 0. */
  lemma MultipleBounds(m: int, t: int)
    requires m > 0
    ensures t >= 1 ==> m * t >= m
    ensures t <= -1 ==> m * t <= -m
    ensures t == 0 ==> m * t == 0
  {
  }

  /** After `f` >= 1 frames, the gain of each side is the one computed at the
      last recompute frame: the count there was that frame's index plus one.
      The left side uses the right base phase, the right side the left one. */
  lemma {:induction false} GainSchedule(s: Settings, st: Run, input: seq<real>, f: nat)
    requires Fits(s, st) && st.skipCount == 0
    requires 1 <= f && 2 * f <= |input|
    ensures var r := Frames(s, st, input, f);
      var count := LastRecompute(s, f - 1) + 1;
      && r.left.gain == Gain(s, count, RightPhase(s))
      && r.right.gain == Gain(s, count, LeftPhase(s))
    decreases f
  {
    var i := f - 1;
    GainStep(s, st, input, i);
    if Recomputes(s, i) {
      assert LastRecompute(s, i) == i;
    } else {
      assert i > 0 by {
        ModOfMultiple(s.skipSamples, 0);
      }
      GainSchedule(s, st, input, i);
      assert LastRecompute(s, i) == LastRecompute(s, i - 1);
    }
  }

  /** Frame k of a call starting at counter 0 adopts the gains of count
      k + 1 when it recomputes, and keeps the previous gains otherwise. */
  lemma GainStep(s: Settings, st: Run, input: seq<real>, k: nat)
    requires Fits(s, st) && st.skipCount == 0 && 2 * k + 2 <= |input|
    ensures var p := Frames(s, st, input, k);
      var r := Frames(s, st, input, k + 1);
      && r.left.gain == (if Recomputes(s, k) then Gain(s, k + 1, RightPhase(s)) else p.left.gain)
      && r.right.gain == (if Recomputes(s, k) then Gain(s, k + 1, LeftPhase(s)) else p.right.gain)
  {
  }

  /** The first frame of every call recomputes the gain, with count 1. */
  lemma FirstFrameRecomputes(s: Settings, oldLeft: seq<real>, oldRight: seq<real>, input: seq<real>)
    requires Fits(s, Start(oldLeft, oldRight)) && 2 <= |input|
    ensures After(s, oldLeft, oldRight, input, 1).left.gain == Gain(s, 1, RightPhase(s))
    ensures After(s, oldLeft, oldRight, input, 1).right.gain == Gain(s, 1, LeftPhase(s))
  {
    GainSchedule(s, Start(oldLeft, oldRight), input, 1);
  }

  // ---------------------------------------------------------------------
  // Silence

  predicate AllZero(xs: seq<real>)
  {
    forall k :: 0 <= k < |xs| ==> xs[k] == 0.0
  }

  lemma {:induction false} SilentFrames(s: Settings, oldLeft: seq<real>, oldRight: seq<real>, input: seq<real>, f: nat)
    requires Fits(s, Start(oldLeft, oldRight)) && 2 * f <= |input|
    requires AllZero(input[..2 * f]) && AllZero(oldLeft) && AllZero(oldRight)
    ensures var r := After(s, oldLeft, oldRight, input, f);
      && r.left.out == 0.0 && r.right.out == 0.0
      && AllZero(r.left.taps) && AllZero(r.right.taps) && AllZero(r.output)
    decreases f
  {
    if f > 0 {
      var k := f - 1;
      assert input[..2 * k] == input[..2 * f][..2 * k];
      SilentFrames(s, oldLeft, oldRight, input, k);
      var p := After(s, oldLeft, oldRight, input, k);
      assert input[2 * k] == input[..2 * f][2 * k];
      assert input[2 * k + 1] == input[..2 * f][2 * k + 1];
      var r := Frame(s, p, input[2 * k], input[2 * k + 1]);
      CascadeSilent(r.left.gain, p.left.taps, s.stages);
      CascadeSilent(r.right.gain, p.right.taps, s.stages);
    }
  }

  /** A silent buffer through silent taps gives silence and leaves the taps
      silent, whatever the depth, the stage count and the LFO. */
  lemma SilenceInSilenceOut(s: Settings, oldLeft: seq<real>, oldRight: seq<real>, input: seq<real>, numSamples: nat)
    requires Ready(s, oldLeft, oldRight, input, numSamples)
    requires AllZero(input[..numSamples]) && AllZero(oldLeft) && AllZero(oldRight)
    ensures var r := Process(s, oldLeft, oldRight, input, numSamples);
      AllZero(r.output) && AllZero(r.left.taps) && AllZero(r.right.taps)
  {
    SilentFrames(s, oldLeft, oldRight, input, numSamples / 2);
  }

  // ---------------------------------------------------------------------
  // Feedback only

  /** Each output sample is its input sample plus the previous output sample
      of the same side times Feedback / 100, the first frame seeing 0. */
  predicate FeedbackOnly(input: seq<real>, output: seq<real>)
    requires |output| % 2 == 0 && |output| <= |input|
  {
    forall f :: 0 <= f < |output| / 2 ==>
      && output[2 * f] == Inject(if f == 0 then 0.0 else output[2 * f - 2], input[2 * f])
      && output[2 * f + 1] == Inject(if f == 0 then 0.0 else output[2 * f - 1], input[2 * f + 1])
  }

  /** The cascade is transparent when it has no sections, or when the depth
      is 0 (every gain is 1) and the section count is even. */
  predicate Transparent(s: Settings)
  {
    s.stages == 0 || (s.depth == 0 && s.stages % 2 == 0)
  }

  /** At depth 0 the LFO has no effect: after the first frame both gains are 1. */
  lemma DepthZeroUnitGain(s: Settings, oldLeft: seq<real>, oldRight: seq<real>, input: seq<real>, f: nat)
    requires Fits(s, Start(oldLeft, oldRight)) && 1 <= f && 2 * f <= |input|
    requires s.depth == 0
    ensures After(s, oldLeft, oldRight, input, f).left.gain == 1.0
    ensures After(s, oldLeft, oldRight, input, f).right.gain == 1.0
  {
    GainSchedule(s, Start(oldLeft, oldRight), input, f);
  }

  /** The value a side feeds back is the sample it wrote last. */
  lemma FeedbackIsLastOutput(s: Settings, oldLeft: seq<real>, oldRight: seq<real>, input: seq<real>, f: nat)
    requires Fits(s, Start(oldLeft, oldRight)) && 1 <= f && 2 * f <= |input|
    ensures var r := After(s, oldLeft, oldRight, input, f);
      r.left.out == r.output[2 * f - 2] && r.right.out == r.output[2 * f - 1]
  {
  }

  /** With a transparent cascade, one frame adds the fed-back input as is. */
  lemma TransparentFrame(s: Settings, oldLeft: seq<real>, oldRight: seq<real>, input: seq<real>, k: nat)
    requires Fits(s, Start(oldLeft, oldRight)) && 2 * k + 2 <= |input|
    requires Transparent(s)
    ensures var p := After(s, oldLeft, oldRight, input, k);
      var r := After(s, oldLeft, oldRight, input, k + 1);
      && r.left.out == Inject(p.left.out, input[2 * k])
      && r.right.out == Inject(p.right.out, input[2 * k + 1])
  {
    var p := After(s, oldLeft, oldRight, input, k);
    var r := Frame(s, p, input[2 * k], input[2 * k + 1]);
    if s.stages > 0 {
      DepthZeroUnitGain(s, oldLeft, oldRight, input, k + 1);
      CascadeUnitGain(p.left.taps, Inject(p.left.out, input[2 * k]), s.stages);
      CascadeUnitGain(p.right.taps, Inject(p.right.out, input[2 * k + 1]), s.stages);
    }
  }

  lemma {:induction false} TransparentFrames(s: Settings, oldLeft: seq<real>, oldRight: seq<real>, input: seq<real>, f: nat)
    requires Fits(s, Start(oldLeft, oldRight)) && 2 * f <= |input|
    requires Transparent(s)
    ensures FeedbackOnly(input, After(s, oldLeft, oldRight, input, f).output)
    decreases f
  {
    if f > 0 {
      var k := f - 1;
      TransparentFrames(s, oldLeft, oldRight, input, k);
      TransparentFrame(s, oldLeft, oldRight, input, k);
      var p := After(s, oldLeft, oldRight, input, k);
      if k > 0 {
        FeedbackIsLastOutput(s, oldLeft, oldRight, input, k);
      }
      var r := After(s, oldLeft, oldRight, input, f);
      assert r.output == p.output + [r.left.out, r.right.out];
    }
  }

  /** With a transparent cascade the phaser reduces to the feedback path. */
  lemma TransparentIsFeedbackOnly(s: Settings, oldLeft: seq<real>, oldRight: seq<real>, input: seq<real>, numSamples: nat)
    requires Ready(s, oldLeft, oldRight, input, numSamples)
    requires Transparent(s)
    ensures FeedbackOnly(input, Process(s, oldLeft, oldRight, input, numSamples).output)
  {
    TransparentFrames(s, oldLeft, oldRight, input, numSamples / 2);
  }
}
