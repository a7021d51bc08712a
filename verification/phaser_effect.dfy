/** The phaser effect: its identity, its manifest, and the per-channel
    processing entry point.
 */
module PhaserEffect {
  import opened EffectManifest
  import opened Allpass
  import opened Phaser

  /** The registry id of the effect type. */
  function GetId(): (id: string)
  {
    "org.mixxx.effects.phaser"
  }

  function KnobParameter(id: string, name: string, description: string, default: real, minimum: real, maximum: real): (p: Parameter)
  {
    Parameter(id, name, description, ControlKnobLinear, SemanticUnknown, UnitsUnknown, default, minimum, maximum)
  }

  /** The phaser's manifest: four linear-knob parameters. Its id is the
      registry id, every descriptor has ordered bounds, and the ids are
      distinct and in the order the processor binds them. */
  function GetManifest(): (m: Manifest)
    ensures m.id == GetId()
    ensures WellFormed(m)
    ensures Ids(m.parameters) == ["stages", "lfo_frequency", "lfo_startphase", "depth"]
  {
    var m := Manifest(GetId(), "Phaser", "The Mixxx Team", "1.0", "Phaser filter", []);
    var m := AddParameter(m, KnobParameter("stages", "Stages", "Sets number of stages.", 2.0, 2.0, 24.0));
    var m := AddParameter(m, KnobParameter("lfo_frequency", "LFO Frequency", "Controls LFO Frequency.", 0.4, 0.0, 4.0));
    var m := AddParameter(m, KnobParameter("lfo_startphase", "LFO Start Phase", "Sets starting phase.", 0.0, 0.0, 5.0));
    AddParameter(m, KnobParameter("depth", "Depth", "Controls depth.", 100.0, 0.0, 255.0))
  }

  /** The registry id, and the (minimum, default, maximum) of each parameter. */
  lemma ManifestValues()
    ensures GetId() == "org.mixxx.effects.phaser"
    ensures var ps := GetManifest().parameters;
      && (ps[0].minimum, ps[0].default, ps[0].maximum) == (2.0, 2.0, 24.0)
      && (ps[1].minimum, ps[1].default, ps[1].maximum) == (0.0, 0.4, 4.0)
      && (ps[2].minimum, ps[2].default, ps[2].maximum) == (0.0, 0.0, 5.0)
      && (ps[3].minimum, ps[3].default, ps[3].maximum) == (0.0, 100.0, 255.0)
  {
  }

  /** Processes one interleaved stereo buffer for one channel.

      Reads `numSamples` samples of `input` and returns exactly that many
      output samples, together with the channel state carrying the updated
      taps. The result is the reference semantics `Process` of the settings
      read from the controls; the taps past the active stage count come
      back unchanged. */
  method ProcessChannel(
    state: GroupState,
    params: ParameterValues,
    input: seq<real>,
    numSamples: nat,
    sampleRate: nat,
    sweep: SweepFn)
    returns (output: seq<real>, next: GroupState)
    requires numSamples % 2 == 0 && numSamples <= |input|
    requires sampleRate > 0
    requires state.lfoSkipSamples > 0
    requires ActiveStages(Truncate(params.stages)) <= |state.oldLeft|
    requires ActiveStages(Truncate(params.stages)) <= |state.oldRight|
    ensures var r := Process(SettingsOf(params, state, sampleRate, sweep), state.oldLeft, state.oldRight, input, numSamples);
      && output == r.output
      && next == state.(oldLeft := r.left.taps, oldRight := r.right.taps)
    ensures |output| == numSamples
    ensures |next.oldLeft| == |state.oldLeft| && |next.oldRight| == |state.oldRight|
  {
    var s := SettingsOf(params, state, sampleRate, sweep);
    var oldLeft, oldRight;
    output, oldLeft, oldRight := Render(s, state.oldLeft, state.oldRight, input, numSamples);
    next := state.(oldLeft := oldLeft, oldRight := oldRight);
  }

  /** The frame loop of one call, under fixed settings. */
  method Render(s: Settings, oldLeft: seq<real>, oldRight: seq<real>, input: seq<real>, numSamples: nat)
    returns (output: seq<real>, left: seq<real>, right: seq<real>)
    requires Ready(s, oldLeft, oldRight, input, numSamples)
    ensures var r := Process(s, oldLeft, oldRight, input, numSamples);
      output == r.output && left == r.left.taps && right == r.right.taps
  {
    ghost var st := Start(oldLeft, oldRight);
    left, right := oldLeft, oldRight;
    var leftOut, rightOut := 0.0, 0.0;
    var gainLeft, gainRight := 0.0, 0.0;
    var skipCount := 0;
    output := [];

    var frames := numSamples / 2;
    var f := 0;
    while f < frames
      invariant f <= frames
      invariant Run(Side(leftOut, gainLeft, left), Side(rightOut, gainRight, right), skipCount, output)
             == Frames(s, st, input, f)
    {
      var i := 2 * f;
      ghost var cur := Frames(s, st, input, f);
      leftOut, rightOut, gainLeft, gainRight, skipCount, left, right :=
        ProcessFrame(s, input[i], input[i + 1], leftOut, rightOut, gainLeft, gainRight, skipCount, left, right, cur);
      output := output + [leftOut, rightOut];
      f := f + 1;
    }
  }

  /** One frame: feedback injection, the gain update on the recompute
      stride, then the stage loop. `cur` is the reference state the
      arguments stand for; the results are the parts of `Frame` of it. */
  method ProcessFrame(
    s: Settings, l: real, rt: real,
    leftOut: real, rightOut: real, gainLeft: real, gainRight: real, skipCount: int,
    oldLeft: seq<real>, oldRight: seq<real>,
    ghost cur: Run)
    returns (leftOut': real, rightOut': real, gainLeft': real, gainRight': real, skipCount': int,
             oldLeft': seq<real>, oldRight': seq<real>)
    requires Fits(s, cur)
    requires cur.left == Side(leftOut, gainLeft, oldLeft)
    requires cur.right == Side(rightOut, gainRight, oldRight)
    requires cur.skipCount == skipCount
    ensures var after := Frame(s, cur, l, rt);
      && after.left == Side(leftOut', gainLeft', oldLeft')
      && after.right == Side(rightOut', gainRight', oldRight')
      && after.skipCount == skipCount'
  {
    leftOut' := Inject(leftOut, l);
    rightOut' := Inject(rightOut, rt);

    gainLeft', gainRight' := gainLeft, gainRight;
    var recompute := skipCount % s.skipSamples == 0;
    skipCount' := skipCount + 1;
    if recompute {
      gainLeft' := LfoGain(s.sweep, skipCount', s.lfoSkip, RightPhase(s), s.lfoShape, s.depth);
      gainRight' := LfoGain(s.sweep, skipCount', s.lfoSkip, LeftPhase(s), s.lfoShape, s.depth);
    }

    leftOut', rightOut', oldLeft', oldRight' :=
      RunStages(oldLeft, oldRight, s.stages, gainLeft', gainRight', leftOut', rightOut');
  }

  /** The stage loop of one frame: sections 0..stages-1 on both sides, in
      order, each side with its own gain, taps and running sample. The count
      is the signed one the source loops to, so a negative count runs no
      section. */
  method RunStages(
    oldLeft: seq<real>, oldRight: seq<real>, stages: int,
    gainLeft: real, gainRight: real, leftIn: real, rightIn: real)
    returns (leftOut: real, rightOut: real, left: seq<real>, right: seq<real>)
    requires ActiveStages(stages) <= |oldLeft| && ActiveStages(stages) <= |oldRight|
    ensures (left, leftOut) == Cascade(gainLeft, oldLeft, leftIn, ActiveStages(stages))
    ensures (right, rightOut) == Cascade(gainRight, oldRight, rightIn, ActiveStages(stages))
  {
    left, right := oldLeft, oldRight;
    leftOut, rightOut := leftIn, rightIn;
    var j := 0;
    while j < stages
      invariant 0 <= j <= ActiveStages(stages)
      invariant (left, leftOut) == Cascade(gainLeft, oldLeft, leftIn, j)
      invariant (right, rightOut) == Cascade(gainRight, oldRight, rightIn, j)
    {
      var tmpLeft := left[j];
      var tmpRight := right[j];
      var stepLeft := Stage(gainLeft, tmpLeft, leftOut);
      var stepRight := Stage(gainRight, tmpRight, rightOut);

      left := left[j := stepLeft.0];
      right := right[j := stepRight.0];

      leftOut := stepLeft.1;
      rightOut := stepRight.1;
      j := j + 1;
    }
  }
}
