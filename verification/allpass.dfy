/** First-order allpass sections and the cascade the phaser runs them in.

    A section keeps one tap. Fed the sample `x` with coefficient `g`, it
    stores `g*tap + x` as its new tap and emits `tap - g*newTap`. A cascade of
    `k` sections runs sections 0, 1, ..., k-1 in that order, each one fed the
    previous one's output. Arithmetic is over `real`; the source's single
    precision rounding is not modelled.
 */
module Allpass {

  /** One section: returns (new tap, section output). */
  function Stage(g: real, tap: real, x: real): (r: (real, real))
  {
    var next := g * tap + x;
    (next, tap - g * next)
  }

  /** The two difference equations of a section: the new tap exceeds the
      input by g times the old tap, and the old tap exceeds the output by g
      times the new tap. They determine the result uniquely. */
  lemma StageEquations(g: real, tap: real, x: real, next: real, y: real)
    ensures Stage(g, tap, x).0 == next && Stage(g, tap, x).1 == y <==> next - g * tap == x && y + g * next == tap
  {
  }

  /** Recovers (old tap, section input) from (new tap, section output). */
  function Unstage(g: real, next: real, y: real): (r: (real, real))
    ensures Stage(g, r.0, r.1).0 == next
    ensures Stage(g, r.0, r.1).1 == y
  {
    var tap := y + g * next;
    (tap, next - g * tap)
  }

  /** A section loses no information: Unstage undoes Stage for every coefficient. */
  lemma StageInverse(g: real, tap: real, x: real)
    ensures Unstage(g, Stage(g, tap, x).0, Stage(g, tap, x).1).0 == tap
    ensures Unstage(g, Stage(g, tap, x).0, Stage(g, tap, x).1).1 == x
  {
  }

  /** Runs sections 0..k-1 over `taps`, feeding `x` to section 0.
      Returns the updated taps and the output of section k-1. */
  function Cascade(g: real, taps: seq<real>, x: real, k: nat): (r: (seq<real>, real))
    requires k <= |taps|
    ensures |r.0| == |taps|
    ensures r.0[k..] == taps[k..]
    decreases k
  {
    if k == 0 then (taps, x)
    else
      var prev := Cascade(g, taps, x, k - 1);
      var s := Stage(g, prev.0[k - 1], prev.1);
      (prev.0[k - 1 := s.0], s.1)
  }

  /** Runs the sections backwards, k-1 down to 0, each one undone by Unstage. */
  function Uncascade(g: real, taps: seq<real>, y: real, k: nat): (r: (seq<real>, real))
    requires k <= |taps|
    ensures |r.0| == |taps|
    ensures r.0[k..] == taps[k..]
    decreases k
  {
    if k == 0 then (taps, y)
    else
      var u := Unstage(g, taps[k - 1], y);
      Uncascade(g, taps[k - 1 := u.0], u.1, k - 1)
  }

  /** Uncascade is a left inverse of Cascade: the taps and the input sample
      can always be reconstructed from what the cascade leaves behind. */
  lemma {:induction false} CascadeInverse(g: real, taps: seq<real>, x: real, k: nat)
    requires k <= |taps|
    ensures Uncascade(g, Cascade(g, taps, x, k).0, Cascade(g, taps, x, k).1, k) == (taps, x)
    decreases k
  {
    if k > 0 {
      var prev := Cascade(g, taps, x, k - 1);
      var s := Stage(g, prev.0[k - 1], prev.1);
      var after := prev.0[k - 1 := s.0];
      StageInverse(g, prev.0[k - 1], prev.1);
      assert after[k - 1 := prev.0[k - 1]] == prev.0;
      CascadeInverse(g, taps, x, k - 1);
    }
  }

  /** Cascade is a left inverse of Uncascade: every (taps, output) pair is
      reached by exactly one (taps, input) pair. */
  lemma {:induction false} UncascadeInverse(g: real, taps: seq<real>, y: real, k: nat)
    requires k <= |taps|
    ensures Cascade(g, Uncascade(g, taps, y, k).0, Uncascade(g, taps, y, k).1, k) == (taps, y)
    decreases k
  {
    if k > 0 {
      var u := Unstage(g, taps[k - 1], y);
      var before := taps[k - 1 := u.0];
      var r := Uncascade(g, before, u.1, k - 1);
      UncascadeInverse(g, before, u.1, k - 1);
      var prev := Cascade(g, r.0, r.1, k - 1);
      assert prev == (before, u.1);
      assert prev.0[k - 1] == u.0;
      assert prev.0[k - 1 := taps[k - 1]] == taps;
    }
  }

  /** Silence in a silent cascade stays silent, whatever the coefficient. */
  lemma {:induction false} CascadeSilent(g: real, taps: seq<real>, k: nat)
    requires k <= |taps|
    requires forall j :: 0 <= j < |taps| ==> taps[j] == 0.0
    ensures Cascade(g, taps, 0.0, k).1 == 0.0
    ensures forall j :: 0 <= j < |taps| ==> Cascade(g, taps, 0.0, k).0[j] == 0.0
    decreases k
  {
    if k > 0 {
      CascadeSilent(g, taps, k - 1);
    }
  }

  /** With coefficient 1 every section negates its input, so the cascade
      passes the sample through with the sign (-1)^k. */
  lemma {:induction false} CascadeUnitGain(taps: seq<real>, x: real, k: nat)
    requires k <= |taps|
    ensures Cascade(1.0, taps, x, k).1 == if k % 2 == 0 then x else -x
    decreases k
  {
    if k > 0 {
      CascadeUnitGain(taps, x, k - 1);
    }
  }
}
