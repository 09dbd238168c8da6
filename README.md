# HOA localisation vectors and planar rotation

This project models two per-sample kernels of a higher-order ambisonics (HOA) library and proves properties of them.

- **Vector** (`Vector<Hoa2d,T>`, `Vector<Hoa3d,T>`). Each loudspeaker channel has a direction, and the object caches the Cartesian components of that direction: abscissa, ordinate, and height in 3D. From one sample per channel it computes two localisation vectors.
  - Gerzon's **velocity** vector weights the channel directions by the samples.
  - Gerzon's **energy** vector weights them by the squared samples. The squares go into a scratch buffer owned by the object.
  - Each vector is normalised by the sum of its weights. A sum of exactly zero gives the zero vector.
  - `process` writes the velocity vector and then the energy vector into adjacent output slots.
- **Rotate** (`Rotate<Hoa2d,T>`) turns a planar field of order N around the vertical axis by a yaw angle. The field is the vector of 2N + 1 circular harmonics.
  - Degree 0 passes through unchanged.
  - The pair of degree l is turned by the angle l·yaw.
  - The cosine and sine of l·yaw come from the angle-addition recurrence, i.e. from the l-th power of the unit complex number cos(yaw) + i·sin(yaw).
  - The reported yaw is the stored one, reduced into [0, 2π).

Files:

- `signal.dfy` (module `Signal`): the library's sum and dot-product helpers as specification functions over `seq<real>`, and their algebra.
- `vector.dfy` (module `Vector`): the specification function `Localise` and the classes `Vector2d` and `Vector3d`. Their direction caches and scratch buffer are arrays whose contents the methods update in place.
- `rotate.dfy` (module `Rotate`):
  - complex powers and the specification `Rotated` of a rotated field;
  - the reference reduction `Wrapped`;
  - the class `Rotate2d`, whose `Process` walks the input and output buffers pair by pair.

Samples are `real`. `cos(yaw)` and `sin(yaw)` are parameters of `SetYaw`. A property that needs a true rotation asks for cos² + sin² = 1.

## Model

| member | source | states |
|---|---|---|
| Signal.Sum | Sources/Hoa_Vector.hpp:125-127 | Reference definition (no contract of its own): the sum of a buffer, accumulated from the first sample to the last as the velocity loop does; it stands for `Signal<T>::sum` at line 153 |
| Signal.Dot | Sources/Hoa_Vector.hpp:129-130 | Reference definition (no contract of its own): the sum of the sample-by-sample products of two buffers of the same length; it stands for `Signal<T>::dot` here and at lines 154-155 |
| Signal.Squares | Sources/Hoa_Vector.hpp:149-151 | The squared-sample buffer has one entry per sample, and every entry is at least 0, so the energy weights are never negative |
| Signal.SumScale | Sources/Hoa_Vector.hpp:153 | A gain applied to every sample scales the sum by that gain |
| Signal.DotScale | Sources/Hoa_Vector.hpp:154-155 | A gain applied to the weights scales the dot product by that gain |
| Signal.SquaresScale | Sources/Hoa_Vector.hpp:149-151 | The squares of k-scaled samples are the squares scaled twice by k |
| Signal.SumNonNegativeZeroIff | Sources/Hoa_Vector.hpp:153 | A sum of non-negative samples is at least 0, and it is 0 exactly when every sample is 0 |
| Signal.SumOfSquaresZeroIff | Sources/Hoa_Vector.hpp:149-153 | The energy total, a sum of squares, is at least 0, and it is 0 exactly when every input sample is 0 |
| Signal.DotBetween | Sources/Hoa_Vector.hpp:153-155 | With non-negative weights and every component in [lo, hi], the weighted dot product lies between lo and hi times the sum of the weights |
| Vector.Localise | Sources/Hoa_Vector.hpp:129-139 | Reference definition (no contract of its own) that the analysers are proved against: the weighted mean of the direction components, dot product over the weight total, and 0 when the total is exactly 0. Its properties are the lemmas below and the methods' ensures |
| Vector.LocaliseGainInvariant | Sources/Hoa_Vector.hpp:125-139 | A velocity component is unchanged when every sample is scaled by one non-zero gain |
| Vector.EnergyGainInvariant | Sources/Hoa_Vector.hpp:147-166 | An energy component is unchanged when every sample is scaled by one non-zero gain |
| Vector.EnergyOfSilence | Sources/Hoa_Vector.hpp:153-165 | The energy total is at least 0. It is 0 if and only if every sample is 0, and then every energy component is 0 |
| Vector.EnergyComponentBounded | Sources/Hoa_Vector.hpp:153-161 | When every direction component lies in [-1, 1], every energy component lies in [-1, 1] |
| Vector.BalancedLayoutVelocity | Sources/Hoa_Vector.hpp:125-135 | On any layout whose direction components along an axis sum to 0, channels that all receive the same sample give a velocity component of 0 along that axis |
| Vector.DotOfEqualSamples | Sources/Hoa_Vector.hpp:129-130 | When every sample equals x, the dot product with the direction components is x times their sum |
| Vector.Overwritten | Sources/Hoa_Vector.hpp:112-116 | The buffer after a vector was written over its first entries: the same length, the vector's entries in front and the old samples after them |
| Vector.InPlaceEnergyMisread | Sources/Hoa_Vector.hpp:112-116 | Counterexample for in-place `process`: three channels, buffer [1, 1, 2]. The energy abscissa computed from the overwritten buffer is 1/66, while the samples passed in give 1/6 |
| Vector.Vector2d.constructor | Sources/Hoa_Vector.hpp:74-83 | Requires at least one channel. Allocates the three buffers, one entry per channel, and they are distinct |
| Vector.Vector2d.ComputeRendering | Sources/Hoa_Vector.hpp:98-105 | The caches equal the geometry's abscissae and ordinates for every channel. The result depends only on the geometry, so a second call changes nothing |
| Vector.Vector2d.ProcessVelocity | Sources/Hoa_Vector.hpp:123-140 | outputs[0..2) hold the velocity vector of the samples (the zero guard included). No other output slot and no field changes |
| Vector.Vector2d.ProcessEnergy | Sources/Hoa_Vector.hpp:147-166 | The scratch buffer holds the squared samples, and outputs[0..2) hold the energy vector of those squares. The caches and all other output slots are unchanged |
| Vector.Vector2d.Process | Sources/Hoa_Vector.hpp:112-116 | The velocity vector goes to outputs[0..2), then the energy vector to outputs[2..4), and nothing past slot 4 changes. Without aliasing both are vectors of the samples passed in. In place, the energy is that of the buffer after the velocity overwrote its first two samples |
| Vector.Vector2d.ProcessBuffered | Sources/Hoa_Vector.hpp:107-116 | The documented behaviour, in place or not: outputs[0..4) hold the velocity and energy vectors of the samples passed in |
| Vector.Vector3d.constructor | Sources/Hoa_Vector.hpp:178-188 | Requires at least one channel. Allocates the four buffers, one entry per channel, and they are distinct |
| Vector.Vector3d.ComputeRendering | Sources/Hoa_Vector.hpp:204-212 | The caches equal the geometry's abscissae, ordinates and heights for every channel, so the call is idempotent |
| Vector.Vector3d.ProcessVelocity | Sources/Hoa_Vector.hpp:230-250 | outputs[0..3) hold the velocity vector of the samples (the zero guard included). No other output slot and no field changes |
| Vector.Vector3d.ProcessEnergy | Sources/Hoa_Vector.hpp:257-278 | The scratch buffer holds the squared samples, and outputs[0..3) hold the energy vector. The caches and all other output slots are unchanged |
| Vector.Vector3d.Process | Sources/Hoa_Vector.hpp:219-223 | The velocity vector goes to outputs[0..3), then the energy vector to outputs[3..6), and nothing past slot 6 changes. In place, the energy is that of the overwritten buffer |
| Vector.Vector3d.ProcessBuffered | Sources/Hoa_Vector.hpp:214-223 | The documented behaviour, in place or not: outputs[0..6) hold the velocity and energy vectors of the samples passed in |
| Rotate.Power | Sources/Hoa_Rotate.hpp:118-130 | Reference definition (no contract of its own): the l-th power of cos + i·sin by repeated angle addition, the value `cos_x`, `sin_x` hold at degree l |
| Rotate.Rotated | Sources/Hoa_Rotate.hpp:51-57 | The rotated field has as many harmonics as the field. Its entries are fixed by the reference definition: Y(0,0) passes through and the pair of degree l is turned by the l-th power (see RotatedPair, RotatedKeepsFirst) |
| Rotate.PowerStep | Sources/Hoa_Rotate.hpp:128-129 | Each complex power of z is the previous power times z |
| Rotate.PowerNext | Sources/Hoa_Rotate.hpp:128-130 | One angle-addition step, using the old cosine, turns the (l-1)-th power of cos + i·sin into the l-th power |
| Rotate.PowerOfProduct | Sources/Hoa_Rotate.hpp:118-130 | (z·w)^l = z^l · w^l, so the recurrence for yaw t + u is the product of the recurrences for t and u |
| Rotate.RotatedPrefix | Sources/Hoa_Rotate.hpp:126-134 | Rotation works degree by degree: the first 2j + 1 rotated harmonics are the rotation of the first 2j + 1 harmonics |
| Rotate.RotatedKeepsFirst | Sources/Hoa_Rotate.hpp:122 | Degree 0 passes through the rotation unchanged |
| Rotate.RotatedPair | Sources/Hoa_Rotate.hpp:51-57 | The rotated pair of degree l is the pair times the l-th power c + i·s. Written out: Y'(l,-l) = s·Y(l,l) + c·Y(l,-l) and Y'(l,l) = c·Y(l,l) - s·Y(l,-l) |
| Rotate.StepWritten | Sources/Hoa_Rotate.hpp:131-133 | Appending the pair formulas for degree l to the rotation of the first 2l - 1 harmonics gives the rotation of the first 2l + 1 |
| Rotate.PairWritten | Sources/Hoa_Rotate.hpp:131-133 | Overwriting the pair of degree l with its turned values extends the rotated prefix by one degree and keeps every later entry |
| Rotate.RotateByZeroIsIdentity | Sources/Hoa_Rotate.hpp:97-99 | Yaw 0 (cos = 1, sin = 0) leaves every field unchanged |
| Rotate.RotateTwice | Sources/Hoa_Rotate.hpp:51-57 | Rotating by z and then by w is rotating by z·w: yaw t and then u is yaw t + u |
| Rotate.RotateRoundTrip | Sources/Hoa_Rotate.hpp:51-57 | With cos² + sin² = 1, rotating by (c, s) and then by (c, -s) restores the field |
| Rotate.Wrapped | Sources/Hoa_Rotate.hpp:138-147 | The reference reduction of a yaw lies in [0, 2π) |
| Rotate.WrappedInRange | Sources/Hoa_Rotate.hpp:138-147 | A value already in [0, 2π) is its own reduction |
| Rotate.WrappedPeriodic | Sources/Hoa_Rotate.hpp:138-147 | Adding whole turns of 2π does not change the reduction |
| Rotate.Rotate2d.constructor | Sources/Hoa_Rotate.hpp:74-81 | Requires order ≥ 1 and binds the rotator to that order |
| Rotate.Rotate2d.SetYaw | Sources/Hoa_Rotate.hpp:95-100 | Stores the raw yaw without reduction, together with its cosine and sine. Nothing else changes |
| Rotate.Rotate2d.GetYaw | Sources/Hoa_Rotate.hpp:103-109 | Returns the stored yaw reduced into [0, 2π). A yaw already in range comes back unchanged, and no state changes |
| Rotate.Rotate2d.WrapTwoPi | Sources/Hoa_Rotate.hpp:138-147 | Over exact reals both loops terminate (each step moves the value by one whole turn). The result lies in [0, 2π), differs from the value by whole turns (it equals the reference reduction), and a value already in range is returned as is |
| Rotate.Rotate2d.Process | Sources/Hoa_Rotate.hpp:116-135 | outputs[0..2N+1) hold the rotation of the inputs by the l-th powers of cos + i·sin, and outputs[0] = inputs[0]. Entries past 2N are untouched. The ensures speaks only of the inputs before the call, so an in-place call gives the same result as an out-of-place one |
| Rotate.Rotate2d.NextPower | Sources/Hoa_Rotate.hpp:128-130 | The loop's recurrence step (through tcos_x): from the (l-1)-th power of cos + i·sin it computes the l-th |
| Rotate.Rotate2d.TurnPair | Sources/Hoa_Rotate.hpp:123-125 | One degree of the walk, in place or not: the rotated prefix grows by one pair, the harmonics still to be read are intact, and nothing past the field is written |
| Rotate.Rotate2d.WritePair | Sources/Hoa_Rotate.hpp:131-133 | The pair formulas, computed from the values the pair held before the call (Y(l,-l) is kept in `sig`). Only the two slots of the pair change |

## Left out

- `Signal<T>::alloc`, `Signal<T>::free` and the destructors. They manage memory. The buffers are Dafny arrays, allocated once in the constructors.
- `Signal<T>::sum` and `Signal<T>::dot`. Their code is not part of this model, so they are the specification functions `Sum` and `Dot`. The accumulation loops the kernels run themselves (the velocity sum, the squares) are modelled as loops.
- The planewave and harmonic geometry (`ProcessorPlanewaves`, `ProcessorHarmonics`). Their code is not part of this model. The channel directions reach `ComputeRendering` as sequences, and the channel count and the order reach the constructors as parameters.
- IEEE floating point (rounding, NaN, infinity). Samples are exact reals, so the guard `if(sum)` is the test `sum != 0.0`.
- `std::cos` and `std::sin`. The caller passes the cosine and sine of the yaw to `SetYaw`.
- `HOA_2PI`. Its definition (Hoa_Defs.hpp) is not part of this model, so `TwoPi` is 2π to thirty decimal places.
- The generic, pure-virtual `Vector<D,T>` and `Rotate<D,T>` templates. They only declare the interface. The 3D rotator is declared but never defined.
- Rotate.Rotate2d.constructor: it does not initialise the yaw, cosine or sine, so neither does the model. They are unconstrained until `SetYaw`.
- Rotate.Rotate2d.WrapTwoPi: proved over exact reals only. With IEEE doubles, `value += HOA_2PI` does not change a value that is ±infinity or whose magnitude exceeds about 2^56 (2^27 for `float`), so the source loops forever there, and a NaN fails both tests and comes back as NaN. The model promises nothing about those inputs.
- Rotate.Rotated: defined on every length by peeling off the last two entries, but a field has an odd length, and only odd lengths are used.
- Rotate.Rotate2d.Process: the source's loop body is factored into the methods `NextPower`, `TurnPair` and `WritePair`. Their statements, and the order of reads and writes, are those of lines 123-125 and 128-133.

## Findings

| source | as written | input that shows it | evidently intended | confidence | as-written member | corrected member |
|---|---|---|---|---|---|---|
| Sources/Hoa_Vector.hpp:112-116 (also 219-223) | In-place `process` writes the velocity vector over the first samples, then passes the same buffer to `processEnergy` | 2D, three channels, abscissae (1, 0, 0), ordinates (0, 1, 0), buffer [1, 1, 2, 0] used as input and output: energy abscissa 1/66 instead of 1/6 | Both vectors of the samples passed in, "in-place or not-in-place" (line 108) | high, not executed | Vector.Vector2d.Process, Vector.InPlaceEnergyMisread | Vector.Vector2d.ProcessBuffered |
