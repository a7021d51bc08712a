/** Reference semantics of the phaser's per-buffer processing.

    One call processes an interleaved stereo buffer frame by frame. For each
    frame, on each side:
      1. the input sample gets the previous output added back, scaled by
         Feedback / 100;
      2. on the frames whose zero-based index is a multiple of the skip
         stride, the gain is recomputed from the LFO;
      3. the result runs through the allpass cascade over that side's taps;
      4. the cascade's output is written to that side's output slot.
    The cos/exp shaping of the LFO is the function-typed setting `sweep`.
    Everything around it is written out: the angle, the depth scaling, and
    the left side driven by the right phase (and the other way round).
 */
module Phaser {
  import opened Allpass

  /** Feedback coefficient. Injection divides it by a further 100. */
  const Feedback: real := 0.5

  /** M_PI as written in the source. The real value stands in for the double constant. */
  const Pi: real := 3.14159265358979323846

  /** Maps (LFO angle, LFO shape) to the reshaped sweep value. Stands for
      (exp(shape * (1 + cos angle) / 2) - 1) / (exp(shape) - 1). */
  type SweepFn = (real, real) -> real

  /** Everything one call reads that stays fixed for the whole buffer. */
  datatype Settings = Settings(
    stages: nat,        // active allpass sections per side
    depth: int,         // depth parameter, truncated to an integer
    skipSamples: int,   // gain-recompute stride, in frames
    lfoShape: real,
    lfoSkip: real,      // LFO angle advanced per recompute count
    startPhase: real,
    sweep: SweepFn)

  /** Parameter values as read from the four bound controls. */
  datatype ParameterValues = ParameterValues(
    stages: real, lfoFrequency: real, lfoStartPhase: real, depth: real)

  /** Per-channel DSP memory: one tap per section on each side. */
  datatype GroupState = GroupState(
    oldLeft: seq<real>, oldRight: seq<real>, lfoShape: real, lfoSkipSamples: int)

  /** C++ conversion of a floating value to `int`, rounding toward zero. */
  function Truncate(x: real): (n: int)
    ensures 0.0 <= x ==> n as real <= x < n as real + 1.0
    ensures x < 0.0 ==> n as real - 1.0 < x <= n as real
  {
    if x >= 0.0 then x.Floor else -((-x).Floor)
  }

  /** The number of sections a `j < stages` loop visits. */
  function ActiveStages(stages: int): (n: nat)
    ensures stages <= 0 ==> n == 0
    ensures stages >= 0 ==> n == stages
  {
    if stages < 0 then 0 else stages
  }

  /** The settings one call works with, built from the controls and the state. */
  function SettingsOf(p: ParameterValues, state: GroupState, sampleRate: nat, sweep: SweepFn): (s: Settings)
    requires sampleRate > 0
    ensures 0.0 <= p.stages ==> s.stages as real <= p.stages < s.stages as real + 1.0
    ensures p.stages < 1.0 ==> s.stages == 0
    ensures 0.0 <= p.depth ==> s.depth as real <= p.depth < s.depth as real + 1.0
    ensures p.depth < 0.0 ==> s.depth as real - 1.0 < p.depth <= s.depth as real
    ensures s.lfoSkip * (sampleRate as real) == p.lfoFrequency * 2.0 * Pi
    ensures s.skipSamples == state.lfoSkipSamples && s.lfoShape == state.lfoShape
    ensures s.startPhase == p.lfoStartPhase && s.sweep == sweep
  {
    Settings(
      ActiveStages(Truncate(p.stages)),
      Truncate(p.depth),
      state.lfoSkipSamples,
      state.lfoShape,
      p.lfoFrequency * 2.0 * Pi / sampleRate as real,
      p.lfoStartPhase,
      sweep)
  }

  /** The base phase of the left LFO: the start phase. */
  function LeftPhase(s: Settings): (phase: real)
  {
    s.startPhase
  }

  /** The base phase of the right LFO: half a turn after the left one. */
  function RightPhase(s: Settings): (phase: real)
  {
    s.startPhase + Pi
  }

  /** The gain an LFO update computes: the sweep at angle count*lfoSkip + phase,
      scaled by depth/255 and subtracted from 1. */
  function LfoGain(sweep: SweepFn, count: int, lfoSkip: real, phase: real, lfoShape: real, depth: int): (g: real)
  {
    1.0 - sweep((count as real) * lfoSkip + phase, lfoShape) / 255.0 * (depth as real)
  }

  /** The gain falls below 1 by sweep * depth / 255: it is 1 exactly when the
      depth or the sweep value is 0. */
  lemma LfoGainScaling(sweep: SweepFn, count: int, lfoSkip: real, phase: real, lfoShape: real, depth: int)
    ensures var v := sweep((count as real) * lfoSkip + phase, lfoShape);
      && (1.0 - LfoGain(sweep, count, lfoSkip, phase, lfoShape, depth)) * 255.0 == v * (depth as real)
      && (LfoGain(sweep, count, lfoSkip, phase, lfoShape, depth) == 1.0 <==> depth == 0 || v == 0.0)
  {
  }

  /** The gain for recompute count `count` and base phase `phase` under settings `s`. */
  function Gain(s: Settings, count: int, phase: real): (g: real)
  {
    LfoGain(s.sweep, count, s.lfoSkip, phase, s.lfoShape, s.depth)
  }

  /** The sample fed to section 0: the input plus the scaled previous output.
      The added amount is 1/200 of the previous output. */
  function Inject(prev: real, x: real): (y: real)
    ensures (y - x) * 200.0 == prev
    ensures prev == 0.0 ==> y == x
  {
    x + prev * Feedback / 100.0
  }

  /** Whether the frame whose counter value is `count` before the increment recomputes the gain. */
  predicate Recomputes(s: Settings, count: int)
    requires s.skipSamples > 0
  {
    count % s.skipSamples == 0
  }

  /** One side's running state: last output, current gain, taps. */
  datatype Side = Side(out: real, gain: real, taps: seq<real>)

  /** The state of a call after some frames. It holds the output written so far. */
  datatype Run = Run(left: Side, right: Side, skipCount: int, output: seq<real>)

  /** Both tap arrays hold every active section and the stride can be used as a divisor. */
  predicate Fits(s: Settings, r: Run)
  {
    && s.skipSamples > 0
    && s.stages <= |r.left.taps|
    && s.stages <= |r.right.taps|
  }

  /** State at the start of every call: outputs and gains zero, counter zero. */
  function Start(oldLeft: seq<real>, oldRight: seq<real>): (r: Run)
  {
    Run(Side(0.0, 0.0, oldLeft), Side(0.0, 0.0, oldRight), 0, [])
  }

  /** One side of one frame. `update` is the gain to adopt when `recompute` holds. */
  function SideFrame(sd: Side, x: real, recompute: bool, update: real, stages: nat): (r: Side)
    requires stages <= |sd.taps|
    ensures |r.taps| == |sd.taps|
    ensures r.taps[stages..] == sd.taps[stages..]
  {
    var g := if recompute then update else sd.gain;
    var c := Cascade(g, sd.taps, Inject(sd.out, x), stages);
    Side(c.1, g, c.0)
  }

  /** One stereo frame with input samples `l` and `rt`. */
  function Frame(s: Settings, r: Run, l: real, rt: real): (r': Run)
    requires Fits(s, r)
    ensures Fits(s, r')
    ensures |r'.left.taps| == |r.left.taps| && |r'.right.taps| == |r.right.taps|
    ensures r'.left.taps[s.stages..] == r.left.taps[s.stages..]
    ensures r'.right.taps[s.stages..] == r.right.taps[s.stages..]
    ensures r'.skipCount == r.skipCount + 1
    ensures r'.output == r.output + [r'.left.out, r'.right.out]
  {
    var recompute := Recomputes(s, r.skipCount);
    var count := r.skipCount + 1;
    var left := SideFrame(r.left, l, recompute, Gain(s, count, RightPhase(s)), s.stages);
    var right := SideFrame(r.right, rt, recompute, Gain(s, count, LeftPhase(s)), s.stages);
    Run(left, right, count, r.output + [left.out, right.out])
  }

  /** The first `f` frames of `input`, starting from `st`. */
  function Frames(s: Settings, st: Run, input: seq<real>, f: nat): (r: Run)
    requires Fits(s, st)
    requires 2 * f <= |input|
    ensures Fits(s, r)
    ensures |r.left.taps| == |st.left.taps| && |r.right.taps| == |st.right.taps|
    ensures r.skipCount == st.skipCount + f
    ensures |r.output| == |st.output| + 2 * f
    decreases f
  {
    if f == 0 then st
    else
      var p := Frames(s, st, input, f - 1);
      Frame(s, p, input[2 * (f - 1)], input[2 * (f - 1) + 1])
  }

  /** What processing a buffer of `numSamples` interleaved samples needs. */
  predicate Ready(s: Settings, oldLeft: seq<real>, oldRight: seq<real>, input: seq<real>, numSamples: nat)
  {
    && s.skipSamples > 0
    && s.stages <= |oldLeft|
    && s.stages <= |oldRight|
    && numSamples % 2 == 0
    && numSamples <= |input|
  }

  /** A whole call: every frame of the buffer, from the start state. */
  function Process(s: Settings, oldLeft: seq<real>, oldRight: seq<real>, input: seq<real>, numSamples: nat): (r: Run)
    requires Ready(s, oldLeft, oldRight, input, numSamples)
    ensures |r.output| == numSamples
    ensures |r.left.taps| == |oldLeft| && |r.right.taps| == |oldRight|
  {
    Frames(s, Start(oldLeft, oldRight), input, numSamples / 2)
  }
}
