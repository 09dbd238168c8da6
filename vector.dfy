/** Gerzon's velocity and energy localisation vectors for a set of loudspeaker channels.

    Each channel i has a direction whose Cartesian components (abscissa, ordinate and, in
    3D, height) are copied from the planewave geometry into per-channel caches. For one
    sample of every channel, the velocity vector weights those directions by the samples
    and the energy vector weights them by the squared samples; both are normalised by the
    total weight, and a total of exactly zero gives the zero vector. */
module Vector {
  import opened Signal

  /** One component of a localisation vector: the `weights`-weighted mean of the
      per-channel direction components `axis`, or 0 when the weights sum to exactly 0.
      This is the reference the analysers are proved against. */
  function Localise(weights: seq<real>, axis: seq<real>): real
    requires |weights| == |axis|
  {
    var total := Sum(weights);
    if total != 0.0 then Dot(weights, axis) / total else 0.0
  }

  /** The localisation vectors do not depend on the overall gain of the channels: scaling
      every weight by the same non-zero gain leaves each component unchanged. */
  lemma LocaliseGainInvariant(weights: seq<real>, axis: seq<real>, k: real)
    requires |weights| == |axis| && k != 0.0
    ensures Localise(Scale(weights, k), axis) == Localise(weights, axis)
  {
    SumScale(weights, k);
    DotScale(weights, axis, k);
    var s, d := Sum(weights), Dot(weights, axis);
    if s != 0.0 {
      CancelGain(k, d, s);
    } else {
      assert k * s == 0.0;
    }
  }

  /** A common non-zero gain cancels out of a quotient. */
  lemma CancelGain(k: real, d: real, s: real)
    requires k != 0.0 && s != 0.0
    ensures k * s != 0.0 && (k * d) / (k * s) == d / s
  {
    if k * s == 0.0 {
      ProductZero(k, s);
    }
    var r := d / s;
    assert r * s == d;
    assert k * d == r * (k * s);
  }

  /** The energy vector of a gain-scaled input equals that of the input itself. */
  lemma EnergyGainInvariant(inputs: seq<real>, axis: seq<real>, k: real)
    requires |inputs| == |axis| && k != 0.0
    ensures Localise(Squares(Scale(inputs, k)), axis) == Localise(Squares(inputs), axis)
  {
    SquaresScale(inputs, k);
    LocaliseGainInvariant(Squares(inputs), axis, k);
    LocaliseGainInvariant(Scale(Squares(inputs), k), axis, k);
  }

  /** Silence on every channel, and only silence, gives an energy total of zero; the energy
      vector of silence is the zero vector. */
  lemma EnergyOfSilence(inputs: seq<real>, axis: seq<real>)
    requires |inputs| == |axis|
    ensures Sum(Squares(inputs)) >= 0.0
    ensures Sum(Squares(inputs)) == 0.0 <==> forall i :: 0 <= i < |inputs| ==> inputs[i] == 0.0
    ensures (forall i :: 0 <= i < |inputs| ==> inputs[i] == 0.0) ==> Localise(Squares(inputs), axis) == 0.0
  {
    SumOfSquaresZeroIff(inputs);
  }

  /** When every direction component lies in [-1, 1], as the components of unit vectors do,
      every energy component lies in [-1, 1] as well: it is a mean of them. */
  lemma EnergyComponentBounded(inputs: seq<real>, axis: seq<real>)
    requires |inputs| == |axis|
    requires forall i :: 0 <= i < |axis| ==> -1.0 <= axis[i] <= 1.0
    ensures -1.0 <= Localise(Squares(inputs), axis) <= 1.0
  {
    var q := Squares(inputs);
    var s := Sum(q);
    if s != 0.0 {
      SumNonNegativeZeroIff(q);
      DotBetween(q, axis, -1.0, 1.0);
      var r := Localise(q, axis);
      var d := Dot(q, axis);
      assert -s <= d <= s;
      var rs := r * s;
      assert rs == d;
      UnitBound(r, s, rs);
    }
  }

  /** A value whose multiple by a positive total lies within plus and minus that total lies
      in [-1, 1]. */
  lemma UnitBound(r: real, s: real, rs: real)
    requires s > 0.0 && rs == r * s && -s <= rs <= s
    ensures -1.0 <= r <= 1.0
  {
  }

  /** Channels all fed the same sample, on a layout whose direction components along an
      axis sum to zero (loudspeakers placed symmetrically around the listener): the velocity
      vector has no component along that axis. */
  lemma BalancedLayoutVelocity(v: seq<real>, axis: seq<real>, x: real)
    requires |v| == |axis| && forall i :: 0 <= i < |v| ==> v[i] == x
    requires Sum(axis) == 0.0
    ensures Localise(v, axis) == 0.0
  {
    DotOfEqualSamples(v, axis, x);
  }

  /** Weighting every direction component by the same sample `x` gives `x` times their sum. */
  lemma {:induction false} DotOfEqualSamples(v: seq<real>, axis: seq<real>, x: real)
    requires |v| == |axis| && forall i :: 0 <= i < |v| ==> v[i] == x
    ensures Dot(v, axis) == x * Sum(axis)
  {
    if |v| > 0 {
      var n := |v| - 1;
      var t := Sum(axis[..n]);
      DotOfEqualSamples(v[..n], axis[..n], x);
      assert x * Sum(axis) == x * t + x * axis[n];
    }
  }

  /** The buffer `v` after a vector `front` has been written over its first entries (as
      many as it holds): what an in-place call leaves in the input samples once the
      velocity vector has been written. */
  function Overwritten(v: seq<real>, front: seq<real>): (r: seq<real>)
    ensures |r| == |v|
    ensures forall i :: 0 <= i < |v| ==> r[i] == (if i < |front| then front[i] else v[i])
  {
    if |front| >= |v| then front[..|v|] else front + v[|front|..]
  }

  /** The sum of three samples, written out. */
  lemma SumOfThree(s: seq<real>)
    requires |s| == 3
    ensures Sum(s) == s[0] + s[1] + s[2]
  {
    assert s[..0] == [] && s[..3] == s;
    SumExtend(s, 0);
    SumExtend(s, 1);
    SumExtend(s, 2);
  }

  /** The dot product of two buffers of three samples, written out. */
  lemma DotOfThree(a: seq<real>, b: seq<real>)
    requires |a| == 3 && |b| == 3
    ensures Dot(a, b) == a[0] * b[0] + a[1] * b[1] + a[2] * b[2]
  {
    assert a[..0] == [] && b[..0] == [] && a[..3] == a && b[..3] == b;
    DotExtend(a, b, 0);
    DotExtend(a, b, 1);
    DotExtend(a, b, 2);
  }

  /** Three loudspeakers along the axes, samples 1, 1 and 2 in a buffer used both as input
      and as output: the velocity vector (1/4, 1/4) overwrites the first two samples before
      the energy vector is computed, so its abscissa comes out as 1/66 instead of the 1/6
      of the samples that were passed in. */
  lemma InPlaceEnergyMisread()
    ensures var v, x, y := [1.0, 1.0, 2.0], [1.0, 0.0, 0.0], [0.0, 1.0, 0.0];
      var m := Overwritten(v, [Localise(v, x), Localise(v, y)]);
      Localise(Squares(m), x) == 1.0 / 66.0 && Localise(Squares(v), x) == 1.0 / 6.0
  {
    var v, x, y := [1.0, 1.0, 2.0], [1.0, 0.0, 0.0], [0.0, 1.0, 0.0];
    SumOfThree(v);
    DotOfThree(v, x);
    DotOfThree(v, y);
    assert Localise(v, x) == 0.25 && Localise(v, y) == 0.25;
    var m := Overwritten(v, [0.25, 0.25]);
    assert m == [0.25, 0.25, 2.0];
    SumOfThree(Squares(m));
    DotOfThree(Squares(m), x);
    SumOfThree(Squares(v));
    DotOfThree(Squares(v), x);
  }

  /** The planar analyser: two direction caches and the scratch buffer of squares, all of
      one length fixed at construction. The buffers are allocated once and never replaced,
      so they are constant references whose contents the methods update. */
  class Vector2d {
    const numberOfPlanewaves: nat
    const channelsSquare: array<real>
    const channelsAbscissa: array<real>
    const channelsOrdinate: array<real>

    ghost predicate Valid()
    {
      numberOfPlanewaves >= 1 &&
      channelsSquare.Length == numberOfPlanewaves &&
      channelsAbscissa.Length == numberOfPlanewaves &&
      channelsOrdinate.Length == numberOfPlanewaves &&
      channelsSquare != channelsAbscissa &&
      channelsSquare != channelsOrdinate &&
      channelsAbscissa != channelsOrdinate
    }

    /** A caller's buffer: the private buffers are never handed out. */
    ghost predicate Foreign(a: array<real>)
    {
      a != channelsSquare && a != channelsAbscissa && a != channelsOrdinate
    }

    /** Allocates the three zero-filled buffers; there must be at least one channel. */
    constructor (numberOfChannels: nat)
      requires numberOfChannels >= 1
      ensures Valid() && numberOfPlanewaves == numberOfChannels
      ensures fresh(channelsSquare) && fresh(channelsAbscissa) && fresh(channelsOrdinate)
      ensures forall i :: 0 <= i < numberOfChannels ==>
        channelsSquare[i] == 0.0 && channelsAbscissa[i] == 0.0 && channelsOrdinate[i] == 0.0
    {
      numberOfPlanewaves := numberOfChannels;
      channelsSquare := new real[numberOfChannels](_ => 0.0);
      channelsAbscissa := new real[numberOfChannels](_ => 0.0);
      channelsOrdinate := new real[numberOfChannels](_ => 0.0);
    }

    /** Copies the direction of every channel from the geometry into the caches. The new
        caches depend on the geometry only, so a second call changes nothing. */
    method ComputeRendering(abscissa: seq<real>, ordinate: seq<real>)
      requires Valid()
      requires |abscissa| == numberOfPlanewaves && |ordinate| == numberOfPlanewaves
      modifies channelsAbscissa, channelsOrdinate
      ensures channelsAbscissa[..] == abscissa && channelsOrdinate[..] == ordinate
    {
      for i := 0 to numberOfPlanewaves
        invariant forall k :: 0 <= k < i ==> channelsAbscissa[k] == abscissa[k]
        invariant forall k :: 0 <= k < i ==> channelsOrdinate[k] == ordinate[k]
      {
        channelsAbscissa[i] := abscissa[i];
        channelsOrdinate[i] := ordinate[i];
      }
    }

    /** Writes the velocity vector at `outputs[at]`, `outputs[at + 1]` (the source's
        `outputs + at`); inputs and outputs may be the same buffer. */
    method ProcessVelocity(inputs: array<real>, outputs: array<real>, at: nat)
      requires Valid() && Foreign(outputs)
      requires inputs.Length >= numberOfPlanewaves && at + 2 <= outputs.Length
      modifies outputs
      ensures var v := old(inputs[..numberOfPlanewaves]);
        outputs[at] == Localise(v, channelsAbscissa[..]) &&
        outputs[at + 1] == Localise(v, channelsOrdinate[..])
      ensures forall k :: 0 <= k < outputs.Length && k != at && k != at + 1 ==>
        outputs[k] == old(outputs[k])
    {
      var n := numberOfPlanewaves;
      ghost var v := inputs[..n];
      var velocitySum := inputs[0];
      assert v[..1][..0] == [];
      for i := 1 to n
        invariant inputs[..n] == v && outputs[..] == old(outputs[..])
        invariant velocitySum == Sum(v[..i])
      {
        SumExtend(v, i);
        velocitySum := velocitySum + inputs[i];
      }
      assert v[..n] == v;
      var velocityAbscissa := Dot(inputs[..n], channelsAbscissa[..]);
      var velocityOrdinate := Dot(inputs[..n], channelsOrdinate[..]);
      if velocitySum != 0.0 {
        outputs[at] := velocityAbscissa / velocitySum;
        outputs[at + 1] := velocityOrdinate / velocitySum;
      } else {
        outputs[at + 1] := 0.0;
        outputs[at] := 0.0;
      }
    }

    /** Squares every sample into the scratch buffer, then writes the energy vector at
        `outputs[at]`, `outputs[at + 1]`; inputs and outputs may be the same buffer. */
    method ProcessEnergy(inputs: array<real>, outputs: array<real>, at: nat)
      requires Valid() && Foreign(inputs) && Foreign(outputs)
      requires inputs.Length >= numberOfPlanewaves && at + 2 <= outputs.Length
      modifies channelsSquare, outputs
      ensures channelsSquare[..] == Squares(old(inputs[..numberOfPlanewaves]))
      ensures outputs[at] == Localise(channelsSquare[..], channelsAbscissa[..])
      ensures outputs[at + 1] == Localise(channelsSquare[..], channelsOrdinate[..])
      ensures forall k :: 0 <= k < outputs.Length && k != at && k != at + 1 ==>
        outputs[k] == old(outputs[k])
    {
      var n := numberOfPlanewaves;
      ghost var v := inputs[..n];
      channelsSquare[0] := inputs[0] * inputs[0];
      for i := 1 to n
        invariant inputs[..n] == v && outputs[..] == old(outputs[..])
        invariant forall k :: 0 <= k < i ==> channelsSquare[k] == Squares(v)[k]
      {
        channelsSquare[i] := inputs[i] * inputs[i];
      }
      assert channelsSquare[..] == Squares(v);
      var energySum := Sum(channelsSquare[..]);
      var energyAbscissa := Dot(channelsSquare[..], channelsAbscissa[..]);
      var energyOrdinate := Dot(channelsSquare[..], channelsOrdinate[..]);
      if energySum != 0.0 {
        outputs[at] := energyAbscissa / energySum;
        outputs[at + 1] := energyOrdinate / energySum;
      } else {
        outputs[at + 1] := 0.0;
        outputs[at] := 0.0;
      }
    }

    /** Velocity vector in `outputs[0..2)`, then energy vector in `outputs[2..4)`, as the
        two methods above write them one after the other. When `inputs` and `outputs` are
        the same buffer, the energy pass reads samples 0 and 1 after the velocity vector
        has been written over them (see InPlaceEnergyMisread). */
    method Process(inputs: array<real>, outputs: array<real>)
      requires Valid() && Foreign(inputs) && Foreign(outputs)
      requires inputs.Length >= numberOfPlanewaves && outputs.Length >= 4
      modifies channelsSquare, outputs
      ensures var v := old(inputs[..numberOfPlanewaves]);
        var velocity := [Localise(v, channelsAbscissa[..]), Localise(v, channelsOrdinate[..])];
        var e := if inputs == outputs then Overwritten(v, velocity) else v;
        outputs[0] == velocity[0] && outputs[1] == velocity[1] &&
        channelsSquare[..] == Squares(e) &&
        outputs[2] == Localise(Squares(e), channelsAbscissa[..]) &&
        outputs[3] == Localise(Squares(e), channelsOrdinate[..])
      ensures forall k :: 4 <= k < outputs.Length ==> outputs[k] == old(outputs[k])
    {
      ghost var v := inputs[..numberOfPlanewaves];
      ProcessVelocity(inputs, outputs, 0);
      ghost var velocity := [outputs[0], outputs[1]];
      if inputs == outputs {
        assert inputs[..numberOfPlanewaves] == Overwritten(v, velocity);
      }
      ProcessEnergy(inputs, outputs, 2);
    }

    /** Both vectors of the samples passed in, whether or not `inputs` and `outputs` are the
        same buffer: the velocity vector is held in a scratch buffer until the energy pass
        has read the samples. */
    method ProcessBuffered(inputs: array<real>, outputs: array<real>)
      requires Valid() && Foreign(inputs) && Foreign(outputs)
      requires inputs.Length >= numberOfPlanewaves && outputs.Length >= 4
      modifies channelsSquare, outputs
      ensures var v := old(inputs[..numberOfPlanewaves]);
        channelsSquare[..] == Squares(v) &&
        outputs[0] == Localise(v, channelsAbscissa[..]) &&
        outputs[1] == Localise(v, channelsOrdinate[..]) &&
        outputs[2] == Localise(Squares(v), channelsAbscissa[..]) &&
        outputs[3] == Localise(Squares(v), channelsOrdinate[..])
      ensures forall k :: 4 <= k < outputs.Length ==> outputs[k] == old(outputs[k])
    {
      var velocity := new real[2];
      ProcessVelocity(inputs, velocity, 0);
      ProcessEnergy(inputs, outputs, 2);
      outputs[0] := velocity[0];
      outputs[1] := velocity[1];
    }
  }

  /** The spatial analyser: as the planar one, with a third direction cache for height. */
  class Vector3d {
    const numberOfPlanewaves: nat
    const channelsSquare: array<real>
    const channelsAbscissa: array<real>
    const channelsOrdinate: array<real>
    const channelsHeight: array<real>

    ghost predicate Valid()
    {
      numberOfPlanewaves >= 1 &&
      channelsSquare.Length == numberOfPlanewaves &&
      channelsAbscissa.Length == numberOfPlanewaves &&
      channelsOrdinate.Length == numberOfPlanewaves &&
      channelsHeight.Length == numberOfPlanewaves &&
      channelsSquare != channelsAbscissa &&
      channelsSquare != channelsOrdinate &&
      channelsSquare != channelsHeight &&
      channelsAbscissa != channelsOrdinate &&
      channelsAbscissa != channelsHeight &&
      channelsOrdinate != channelsHeight
    }

    /** A caller's buffer: the private buffers are never handed out. */
    ghost predicate Foreign(a: array<real>)
    {
      a != channelsSquare && a != channelsAbscissa && a != channelsOrdinate && a != channelsHeight
    }

    /** Allocates the four zero-filled buffers; there must be at least one channel. */
    constructor (numberOfChannels: nat)
      requires numberOfChannels >= 1
      ensures Valid() && numberOfPlanewaves == numberOfChannels
      ensures fresh(channelsSquare) && fresh(channelsAbscissa)
      ensures fresh(channelsOrdinate) && fresh(channelsHeight)
      ensures forall i :: 0 <= i < numberOfChannels ==>
        channelsSquare[i] == 0.0 && channelsAbscissa[i] == 0.0 &&
        channelsOrdinate[i] == 0.0 && channelsHeight[i] == 0.0
    {
      numberOfPlanewaves := numberOfChannels;
      channelsSquare := new real[numberOfChannels](_ => 0.0);
      channelsAbscissa := new real[numberOfChannels](_ => 0.0);
      channelsOrdinate := new real[numberOfChannels](_ => 0.0);
      channelsHeight := new real[numberOfChannels](_ => 0.0);
    }

    /** Copies the direction of every channel from the geometry into the caches. The new
        caches depend on the geometry only, so a second call changes nothing. */
    method ComputeRendering(abscissa: seq<real>, ordinate: seq<real>, height: seq<real>)
      requires Valid()
      requires |abscissa| == numberOfPlanewaves && |ordinate| == numberOfPlanewaves
      requires |height| == numberOfPlanewaves
      modifies channelsAbscissa, channelsOrdinate, channelsHeight
      ensures channelsAbscissa[..] == abscissa && channelsOrdinate[..] == ordinate
      ensures channelsHeight[..] == height
    {
      for i := 0 to numberOfPlanewaves
        invariant forall k :: 0 <= k < i ==> channelsAbscissa[k] == abscissa[k]
        invariant forall k :: 0 <= k < i ==> channelsOrdinate[k] == ordinate[k]
        invariant forall k :: 0 <= k < i ==> channelsHeight[k] == height[k]
      {
        channelsAbscissa[i] := abscissa[i];
        channelsOrdinate[i] := ordinate[i];
        channelsHeight[i] := height[i];
      }
    }

    /** Writes the velocity vector at `outputs[at..at + 3)` (the source's `outputs + at`);
        inputs and outputs may be the same buffer. */
    method ProcessVelocity(inputs: array<real>, outputs: array<real>, at: nat)
      requires Valid() && Foreign(outputs)
      requires inputs.Length >= numberOfPlanewaves && at + 3 <= outputs.Length
      modifies outputs
      ensures var v := old(inputs[..numberOfPlanewaves]);
        outputs[at] == Localise(v, channelsAbscissa[..]) &&
        outputs[at + 1] == Localise(v, channelsOrdinate[..]) &&
        outputs[at + 2] == Localise(v, channelsHeight[..])
      ensures forall k :: 0 <= k < outputs.Length && !(at <= k < at + 3) ==>
        outputs[k] == old(outputs[k])
    {
      var n := numberOfPlanewaves;
      ghost var v := inputs[..n];
      var velocitySum := inputs[0];
      assert v[..1][..0] == [];
      for i := 1 to n
        invariant inputs[..n] == v && outputs[..] == old(outputs[..])
        invariant velocitySum == Sum(v[..i])
      {
        SumExtend(v, i);
        velocitySum := velocitySum + inputs[i];
      }
      assert v[..n] == v;
      var velocityAbscissa := Dot(inputs[..n], channelsAbscissa[..]);
      var velocityOrdinate := Dot(inputs[..n], channelsOrdinate[..]);
      var velocityHeight := Dot(inputs[..n], channelsHeight[..]);
      if velocitySum != 0.0 {
        outputs[at] := velocityAbscissa / velocitySum;
        outputs[at + 1] := velocityOrdinate / velocitySum;
        outputs[at + 2] := velocityHeight / velocitySum;
      } else {
        outputs[at + 2] := 0.0;
        outputs[at + 1] := 0.0;
        outputs[at] := 0.0;
      }
    }

    /** Squares every sample into the scratch buffer, then writes the energy vector at
        `outputs[at..at + 3)`; inputs and outputs may be the same buffer. */
    method ProcessEnergy(inputs: array<real>, outputs: array<real>, at: nat)
      requires Valid() && Foreign(inputs) && Foreign(outputs)
      requires inputs.Length >= numberOfPlanewaves && at + 3 <= outputs.Length
      modifies channelsSquare, outputs
      ensures channelsSquare[..] == Squares(old(inputs[..numberOfPlanewaves]))
      ensures outputs[at] == Localise(channelsSquare[..], channelsAbscissa[..])
      ensures outputs[at + 1] == Localise(channelsSquare[..], channelsOrdinate[..])
      ensures outputs[at + 2] == Localise(channelsSquare[..], channelsHeight[..])
      ensures forall k :: 0 <= k < outputs.Length && !(at <= k < at + 3) ==>
        outputs[k] == old(outputs[k])
    {
      var n := numberOfPlanewaves;
      ghost var v := inputs[..n];
      channelsSquare[0] := inputs[0] * inputs[0];
      for i := 1 to n
        invariant inputs[..n] == v && outputs[..] == old(outputs[..])
        invariant forall k :: 0 <= k < i ==> channelsSquare[k] == Squares(v)[k]
      {
        channelsSquare[i] := inputs[i] * inputs[i];
      }
      assert channelsSquare[..] == Squares(v);
      var energySum := Sum(channelsSquare[..]);
      var energyAbscissa := Dot(channelsSquare[..], channelsAbscissa[..]);
      var energyOrdinate := Dot(channelsSquare[..], channelsOrdinate[..]);
      var energyHeight := Dot(channelsSquare[..], channelsHeight[..]);
      if energySum != 0.0 {
        outputs[at] := energyAbscissa / energySum;
        outputs[at + 1] := energyOrdinate / energySum;
        outputs[at + 2] := energyHeight / energySum;
      } else {
        outputs[at + 2] := 0.0;
        outputs[at + 1] := 0.0;
        outputs[at] := 0.0;
      }
    }

    /** Velocity vector in `outputs[0..3)`, then energy vector in `outputs[3..6)`, as the
        two methods above write them one after the other; in place, the energy pass reads
        samples 0 to 2 after the velocity vector has been written over them. */
    method Process(inputs: array<real>, outputs: array<real>)
      requires Valid() && Foreign(inputs) && Foreign(outputs)
      requires inputs.Length >= numberOfPlanewaves && outputs.Length >= 6
      modifies channelsSquare, outputs
      ensures var v := old(inputs[..numberOfPlanewaves]);
        var velocity := [Localise(v, channelsAbscissa[..]), Localise(v, channelsOrdinate[..]),
                         Localise(v, channelsHeight[..])];
        var e := if inputs == outputs then Overwritten(v, velocity) else v;
        outputs[0] == velocity[0] && outputs[1] == velocity[1] && outputs[2] == velocity[2] &&
        channelsSquare[..] == Squares(e) &&
        outputs[3] == Localise(Squares(e), channelsAbscissa[..]) &&
        outputs[4] == Localise(Squares(e), channelsOrdinate[..]) &&
        outputs[5] == Localise(Squares(e), channelsHeight[..])
      ensures forall k :: 6 <= k < outputs.Length ==> outputs[k] == old(outputs[k])
    {
      ghost var v := inputs[..numberOfPlanewaves];
      ProcessVelocity(inputs, outputs, 0);
      ghost var velocity := [outputs[0], outputs[1], outputs[2]];
      if inputs == outputs {
        assert inputs[..numberOfPlanewaves] == Overwritten(v, velocity);
      }
      ProcessEnergy(inputs, outputs, 3);
    }

    /** Both vectors of the samples passed in, whether or not `inputs` and `outputs` are the
        same buffer: the velocity vector is held in a scratch buffer until the energy pass
        has read the samples. */
    method ProcessBuffered(inputs: array<real>, outputs: array<real>)
      requires Valid() && Foreign(inputs) && Foreign(outputs)
      requires inputs.Length >= numberOfPlanewaves && outputs.Length >= 6
      modifies channelsSquare, outputs
      ensures var v := old(inputs[..numberOfPlanewaves]);
        channelsSquare[..] == Squares(v) &&
        outputs[0] == Localise(v, channelsAbscissa[..]) &&
        outputs[1] == Localise(v, channelsOrdinate[..]) &&
        outputs[2] == Localise(v, channelsHeight[..]) &&
        outputs[3] == Localise(Squares(v), channelsAbscissa[..]) &&
        outputs[4] == Localise(Squares(v), channelsOrdinate[..]) &&
        outputs[5] == Localise(Squares(v), channelsHeight[..])
      ensures forall k :: 6 <= k < outputs.Length ==> outputs[k] == old(outputs[k])
    {
      var velocity := new real[3];
      ProcessVelocity(inputs, velocity, 0);
      ProcessEnergy(inputs, outputs, 3);
      outputs[0] := velocity[0];
      outputs[1] := velocity[1];
      outputs[2] := velocity[2];
    }
  }
}
