/** Rotation of a planar (circular-harmonic) sound field around the vertical axis.

    A planar field of decomposition order N is the vector of 2N + 1 harmonics
    [Y(0,0), Y(1,-1), Y(1,1), ..., Y(N,-N), Y(N,N)]. Rotating it by the yaw angle t leaves
    Y(0,0) alone and turns each pair (Y(l,-l), Y(l,l)) by the angle l * t. The cosine and
    sine of l * t are never evaluated directly: they are the real and imaginary parts of
    the l-th power of the unit complex number cos(t) + i sin(t), built up one degree at a
    time by the angle-addition recurrence. Here cos(t) and sin(t) are any two reals; the
    properties that need a rotation (rather than a scaled rotation) ask for
    cos(t)^2 + sin(t)^2 == 1. */
module Rotate {

  /** The library's HOA_2PI, to thirty decimal places. */
  const TwoPi: real := 6.283185307179586476925286766559

  /** `re + i im`. */
  datatype Complex = Complex(re: real, im: real)

  const One: Complex := Complex(1.0, 0.0)

  function Mul(a: Complex, b: Complex): Complex
  {
    Complex(a.re * b.re - a.im * b.im, a.re * b.im + a.im * b.re)
  }

  function Conj(a: Complex): Complex
  {
    Complex(a.re, -a.im)
  }

  /** The squared modulus: 1 for cos(t) + i sin(t). */
  function Norm2(a: Complex): real
  {
    a.re * a.re + a.im * a.im
  }

  /** `z` to the power `l`, by repeated multiplication: for z = cos(t) + i sin(t) this is
      cos(l t) + i sin(l t). Each step is the angle-addition formula for cos((l - 1) t + t)
      and sin((l - 1) t + t). */
  function Power(z: Complex, l: nat): Complex
  {
    if l == 0 then One
    else Complex(Power(z, l - 1).re * z.re - Power(z, l - 1).im * z.im,
                 Power(z, l - 1).re * z.im + Power(z, l - 1).im * z.re)
  }

  /** Each power is the previous one times `z`. */
  lemma PowerStep(z: Complex, l: nat)
    requires l > 0
    ensures Power(z, l) == Mul(Power(z, l - 1), z)
  {
    var p := Power(z, l - 1);
    var q := Mul(p, z);
    assert Power(z, l).re == q.re;
    assert Power(z, l).im == q.im;
  }

  /** The product of c + i s and zc + i zs, written out. */
  lemma MulParts(c: real, s: real, z: Complex, zc: real, zs: real)
    requires z == Complex(zc, zs)
    ensures Mul(Complex(c, s), z) == Complex(c * zc - s * zs, c * zs + s * zc)
  {
  }

  /** The angle-addition step: from the parts c + i s of the power l - 1 of zc + i zs, the
      power l is (c zc - s zs) + i (c zs + s zc). */
  lemma PowerNext(z: Complex, l: nat, c: real, s: real, zc: real, zs: real, c2: real, s2: real)
    requires l > 0 && c == Power(z, l - 1).re && s == Power(z, l - 1).im && z == Complex(zc, zs)
    requires c2 == c * zc - s * zs && s2 == c * zs + s * zc
    ensures Power(z, l) == Complex(c2, s2)
  {
    PowerStep(z, l);
    assert Power(z, l - 1) == Complex(c, s);
    MulParts(c, s, z, zc, zs);
  }

  /** The first power of `z` is `z`. */
  lemma FirstPower(z: Complex)
    ensures Power(z, 1) == z
  {
  }

  /** Number of harmonics of a planar field of the given order. */
  function Harmonics(order: nat): nat
  {
    2 * order + 1
  }

  /** The pair of degree `l` of a planar field read as one complex number: Y(l,l) is its
      real part and Y(l,-l) its imaginary part. Turning the pair by l t is multiplying
      it by cos(l t) + i sin(l t). */
  function PairOf(h: seq<real>, m: nat, n: nat): Complex
    requires m < |h| && n < |h|
  {
    Complex(h[n], h[m])
  }

  /** 2l + 1 harmonics form a field. */
  lemma OddLength(l: nat, k: nat)
    requires k == 2 * l + 1
    ensures k % 2 == 1
  {
  }

  /** Removing the last pair of a field leaves a field. */
  lemma OddLessTwo(k: nat, m: nat)
    requires k % 2 == 1 && k > 1 && m == k - 2
    ensures m % 2 == 1
  {
  }

  /** The field `h` rotated by `z`, built degree by degree: Y(0,0) passes through, and the
      pair of degree l (Y(l,-l) at index 2l - 1, Y(l,l) at index 2l) is multiplied by the
      l-th power of `z`. Fields have an odd number of harmonics; the definition peels the
      last two entries off any buffer, so it is total, and the composition lemmas below
      hold on every length. */
  function Rotated(h: seq<real>, z: Complex): (r: seq<real>)
    ensures |r| == |h|
    decreases |h|
  {
    if |h| <= 1 then h
    else
      var n := |h| - 1;
      var v := Mul(Power(z, n / 2), PairOf(h, n - 1, n));
      Rotated(h[..n - 1], z) + [v.im, v.re]
  }

  /** The last pair of a field, at k and k + 1, is turned by the power (k + 1) / 2 of `z`
      and the rest is rotated on its own. */
  lemma RotatedLast(h: seq<real>, z: Complex)
    requires |h| > 1
    ensures var k := |h| - 2; var v := Mul(Power(z, (k + 1) / 2), PairOf(h, k, k + 1));
            Rotated(h, z) == Rotated(h[..k], z) + [v.im, v.re]
  {
  }

  /** The rotation of the first 2l + 1 harmonics is that of the first 2l - 1 followed by
      the turned pair of degree l, at m = 2l - 1 and n = 2l. */
  lemma RotatedStep(h: seq<real>, z: Complex, l: nat, m: nat, n: nat)
    requires 0 < l && m == 2 * l - 1 && n == 2 * l && n < |h|
    ensures Rotated(h[..n + 1], z)
         == Rotated(h[..m], z) + [Mul(Power(z, l), PairOf(h, m, n)).im, Mul(Power(z, l), PairOf(h, m, n)).re]
  {
    var g := h[..n + 1];
    assert g[..m] == h[..m] && PairOf(g, m, n) == PairOf(h, m, n) && n / 2 == l;
    var v := Mul(Power(z, l), PairOf(h, m, n));
    assert Rotated(g, z)[..m] == Rotated(h[..m], z);
    assert Rotated(g, z)[m] == v.im;
    assert Rotated(g, z)[n] == v.re;
  }

  /** Rotation works degree by degree: the first j harmonics of the rotated field are the
      rotation of the first j harmonics. */
  lemma {:induction false} RotatedPrefix(h: seq<real>, z: Complex, j: nat)
    requires |h| % 2 == 1 && j % 2 == 1 && j <= |h|
    ensures Rotated(h, z)[..j] == Rotated(h[..j], z)
    decreases |h|
  {
    if j == |h| {
      assert h[..j] == h;
    } else {
      var m := |h| - 2;
      OddLessTwo(|h|, m);
      RotatedPrefix(h[..m], z, j);
      assert h[..m][..j] == h[..j];
      assert Rotated(h, z)[..m] == Rotated(h[..m], z);
    }
  }

  /** Y(0,0) passes through the rotation unchanged. */
  lemma RotatedKeepsFirst(h: seq<real>, z: Complex)
    requires |h| % 2 == 1
    ensures Rotated(h, z)[0] == h[0]
  {
    RotatedPrefix(h, z, 1);
  }

  /** Multiplying the pair (a, b) = (Y(l,-l), Y(l,l)) by c + i s, written out. */
  lemma TurnParts(p: Complex, c: real, s: real, a: real, b: real)
    requires p == Complex(c, s)
    ensures Mul(p, Complex(b, a)) == Complex(c * b - s * a, s * b + c * a)
  {
  }

  /** The pair of degree `l` of a rotated field, at m = 2l - 1 and n = 2l, is the pair of
      the field multiplied by the l-th power c + i s of `z`; written out (TurnParts),
        Y'(l,-l) = s * Y(l,l) + c * Y(l,-l)
        Y'(l,l)  = c * Y(l,l) - s * Y(l,-l) */
  lemma RotatedPair(h: seq<real>, z: Complex, l: nat, m: nat, n: nat)
    requires |h| % 2 == 1 && 0 < l && m == 2 * l - 1 && n == 2 * l && n < |h|
    ensures PairOf(Rotated(h, z), m, n) == Mul(Power(z, l), PairOf(h, m, n))
  {
    OddLength(l, n + 1);
    RotatedPrefix(h, z, n + 1);
    RotatedStep(h, z, l, m, n);
    assert Rotated(h, z)[m] == Rotated(h, z)[..n + 1][m];
    assert Rotated(h, z)[n] == Rotated(h, z)[..n + 1][n];
  }

  /** One pass of the rotator's loop: a prefix holding the rotation of the first 2l - 1
      harmonics, followed by the pair (a, b) of degree l turned by c + i s = z^l as the
      rotator writes it, holds the rotation of the first 2l + 1 harmonics. */
  lemma StepWritten(h: seq<real>, z: Complex, l: nat, m: nat, n: nat, c: real, s: real, a: real, b: real,
                    x: real, y: real, before: seq<real>, after: seq<real>)
    requires 0 < l && m == 2 * l - 1 && n == 2 * l && n < |h|
    requires Power(z, l) == Complex(c, s) && a == h[m] && b == h[n]
    requires x == s * b + c * a && y == c * b - s * a
    requires before == Rotated(h[..m], z) && after == before + [x, y]
    ensures after == Rotated(h[..n + 1], z)
  {
    RotatedStep(h, z, l, m, n);
    TurnParts(Power(z, l), c, s, a, b);
  }

  /** The same pass over a whole buffer: `after` is `before` with the pair of degree l
      overwritten by its turned values x and y, so everything past the pair is kept. */
  lemma PairWritten(h: seq<real>, z: Complex, l: nat, c: real, s: real, a: real, b: real, x: real, y: real,
                    before: seq<real>, after: seq<real>)
    requires 0 < l && 2 * l < |h| <= |before|
    requires Power(z, l) == Complex(c, s) && a == h[2 * l - 1] && b == h[2 * l]
    requires x == s * b + c * a && y == c * b - s * a
    requires before[..2 * l - 1] == Rotated(h[..2 * l - 1], z)
    requires after == before[2 * l - 1 := x][2 * l := y]
    ensures after[..2 * l + 1] == Rotated(h[..2 * l + 1], z)
    ensures after[2 * l + 1..|h|] == before[2 * l + 1..|h|]
    ensures after[|h|..] == before[|h|..]
  {
    var m, n := 2 * l - 1, 2 * l;
    assert after[..m] == before[..m];
    assert after[..n + 1] == after[..m] + [x, y];
    StepWritten(h, z, l, m, n, c, s, a, b, x, y, before[..m], after[..n + 1]);
  }

  /** The part of a buffer from `j` on that still holds the field's harmonics: its first
      two are the pair at j and j + 1, and the part after them still holds the field's. */
  lemma HarmonicsAhead(buffer: seq<real>, h: seq<real>, j: nat)
    requires j + 1 < |h| <= |buffer| && buffer[j..|h|] == h[j..]
    ensures buffer[j] == h[j] && buffer[j + 1] == h[j + 1]
    ensures buffer[j + 2..|h|] == h[j + 2..]
  {
    assert buffer[j] == buffer[j..|h|][0];
    assert buffer[j + 1] == buffer[j..|h|][1];
    assert buffer[j + 2..|h|] == buffer[j..|h|][2..];
  }

  /** The powers of 1 are all 1. */
  lemma {:induction false} PowerOfOne(z: Complex, l: nat)
    requires z == One
    ensures Power(z, l) == One
  {
    if l > 0 {
      PowerOfOne(z, l - 1);
    }
  }

  /** 1 is the unit of the complex product. */
  lemma MulByOne(p: Complex, v: Complex)
    requires p == One
    ensures Mul(p, v) == v
  {
  }

  /** A field is its front followed by its last pair. */
  lemma LastPairSplit(h: seq<real>)
    requires |h| > 1
    ensures h == h[..|h| - 2] + [h[|h| - 2], h[|h| - 1]]
  {
  }

  /** A field rotated by a number whose powers are all 1 is unchanged. */
  lemma {:induction false} RotateByPowersOfOne(h: seq<real>, z: Complex)
    requires forall l: nat :: Power(z, l) == One
    ensures Rotated(h, z) == h
    decreases |h|
  {
    if |h| > 1 {
      var k := |h| - 2;
      var p := Power(z, (k + 1) / 2);
      var v := PairOf(h, k, k + 1);
      RotatedLast(h, z);
      MulByOne(p, v);
      RotateByPowersOfOne(h[..k], z);
      LastPairSplit(h);
    }
  }

  /** A rotation by the yaw 0 (cos = 1, sin = 0) is the identity on every field. */
  lemma RotateByZeroIsIdentity(h: seq<real>, z: Complex)
    requires z == One
    ensures Rotated(h, z) == h
  {
    forall l: nat
      ensures Power(z, l) == One
    {
      PowerOfOne(z, l);
    }
    RotateByPowersOfOne(h, z);
  }

  /** Complex multiplication is commutative. */
  lemma MulCommutes(a: Complex, b: Complex)
    ensures Mul(a, b) == Mul(b, a)
  {
  }

  /** Complex multiplication is associative. */
  lemma MulAssociates(a: Complex, b: Complex, c: Complex)
    ensures Mul(Mul(a, b), c) == Mul(a, Mul(b, c))
  {
    assert (a.re * b.re - a.im * b.im) * c.re - (a.re * b.im + a.im * b.re) * c.im
        == a.re * (b.re * c.re - b.im * c.im) - a.im * (b.re * c.im + b.im * c.re);
    assert (a.re * b.re - a.im * b.im) * c.im + (a.re * b.im + a.im * b.re) * c.re
        == a.re * (b.re * c.im + b.im * c.re) + a.im * (b.re * c.re - b.im * c.im);
  }

  /** Powers distribute over products: (z w)^l = z^l w^l. */
  lemma {:induction false} PowerOfProduct(z: Complex, w: Complex, l: nat)
    ensures Power(Mul(z, w), l) == Mul(Power(z, l), Power(w, l))
  {
    if l > 0 {
      PowerOfProduct(z, w, l - 1);
      PowerStep(Mul(z, w), l);
      PowerStep(z, l);
      PowerStep(w, l);
      var pz, pw := Power(z, l - 1), Power(w, l - 1);
      calc {
        Power(Mul(z, w), l);
        Mul(Mul(pz, pw), Mul(z, w));
        { MulAssociates(pz, pw, Mul(z, w)); }
        Mul(pz, Mul(pw, Mul(z, w)));
        { MulAssociates(pw, z, w); MulCommutes(pw, z); MulAssociates(z, pw, w); }
        Mul(pz, Mul(z, Mul(pw, w)));
        { MulAssociates(pz, z, Mul(pw, w)); }
        Mul(Mul(pz, z), Mul(pw, w));
      }
    }
  }

  /** Turning a pair by `p` and then by `q` is turning it by `r` = p q. */
  lemma PairTurnedTwice(p: Complex, q: Complex, r: Complex, v: Complex)
    requires r == Mul(p, q)
    ensures Mul(q, Mul(p, v)) == Mul(r, v)
  {
    MulAssociates(q, p, v);
    MulCommutes(q, p);
  }

  /** Rotating by `z` and then by `w` is rotating by `z w`: for unit numbers, turning by
      the yaw t and then by u is turning by t + u. */
  lemma {:induction false} RotateTwice(h: seq<real>, z: Complex, w: Complex)
    ensures Rotated(Rotated(h, z), w) == Rotated(h, Mul(z, w))
    decreases |h|
  {
    if |h| > 1 {
      var k := |h| - 2;
      var l := (k + 1) / 2;
      var once := Rotated(h, z);
      RotateTwice(h[..k], z, w);
      RotatedLast(h, z);
      RotatedLast(once, w);
      RotatedLast(h, Mul(z, w));
      assert once[..k] == Rotated(h[..k], z);
      assert PairOf(once, k, k + 1) == Mul(Power(z, l), PairOf(h, k, k + 1));
      PowerOfProduct(z, w, l);
      PairTurnedTwice(Power(z, l), Power(w, l), Power(Mul(z, w), l), PairOf(h, k, k + 1));
    }
  }

  /** A unit number times its conjugate is 1. */
  lemma UnitTimesConjugate(z: Complex, u: Complex)
    requires Norm2(z) == 1.0 && u == Mul(z, Conj(z))
    ensures u == One
  {
  }

  /** Rotating by a unit `z` and then by its conjugate (the yaw t, then -t) gives back the
      field. */
  lemma RotateRoundTrip(h: seq<real>, z: Complex)
    requires Norm2(z) == 1.0
    ensures Rotated(Rotated(h, z), Conj(z)) == h
  {
    var u := Mul(z, Conj(z));
    UnitTimesConjugate(z, u);
    RotateTwice(h, z, Conj(z));
    RotateByZeroIsIdentity(h, u);
  }

  /** The reference for the yaw that the rotator reports: `value` reduced modulo 2π into
      [0, 2π). */
  function Wrapped(value: real): (r: real)
    ensures 0.0 <= r < TwoPi
  {
    value - (value / TwoPi).Floor as real * TwoPi
  }

  /** A value already in [0, 2π) is its own reduction. */
  lemma WrappedInRange(value: real)
    requires 0.0 <= value < TwoPi
    ensures Wrapped(value) == value
  {
    assert (value / TwoPi).Floor == 0;
  }

  /** Shifting by a whole number shifts the floor by the same number. */
  lemma FloorShift(x: real, t: int)
    ensures (x + t as real).Floor == x.Floor + t
  {
  }

  /** Adding whole turns does not change the reduction. */
  lemma WrappedPeriodic(value: real, turns: int)
    ensures Wrapped(value + turns as real * TwoPi) == Wrapped(value)
  {
    var x := value / TwoPi;
    assert (value + turns as real * TwoPi) / TwoPi == x + turns as real;
    FloorShift(x, turns);
  }

  /** The planar rotator: its decomposition order and the yaw with its cached cosine and
      sine. */
  class Rotate2d {
    const order: nat
    var yaw: real
    var cosx: real
    var sinx: real

    ghost predicate Valid()
    {
      order >= 1
    }

    /** Binds the rotator to an order of at least 1. The yaw and its cosine and sine are
        not initialised here; they are unconstrained until SetYaw. */
    constructor (order: nat)
      requires order >= 1
      ensures Valid() && this.order == order
    {
      this.order := order;
    }

    /** Stores the yaw as given, without reducing it, together with its cosine and sine
        (computed by the caller). */
    method SetYaw(newYaw: real, cosYaw: real, sinYaw: real)
      modifies this
      ensures yaw == newYaw && cosx == cosYaw && sinx == sinYaw
    {
      yaw := newYaw;
      cosx := cosYaw;
      sinx := sinYaw;
    }

    /** The stored yaw reduced into [0, 2π); nothing is changed. */
    method GetYaw() returns (r: real)
      ensures 0.0 <= r < TwoPi && r == Wrapped(yaw)
      ensures 0.0 <= yaw < TwoPi ==> r == yaw
    {
      r := WrapTwoPi(yaw);
    }

    /** Reduces `value` into [0, 2π) by adding, then subtracting, whole turns. */
    static method WrapTwoPi(value: real) returns (r: real)
      ensures 0.0 <= r < TwoPi
      ensures r == Wrapped(value)
      ensures 0.0 <= value < TwoPi ==> r == value
    {
      r := value;
      ghost var turns: int := 0;
      while r < 0.0
        invariant r == value + turns as real * TwoPi
        invariant value >= 0.0 ==> turns == 0
        invariant value < 0.0 ==> r < TwoPi
        decreases -(r / TwoPi).Floor
      {
        r := r + TwoPi;
        turns := turns + 1;
      }
      while r >= TwoPi
        invariant r >= 0.0
        invariant r == value + turns as real * TwoPi
        decreases (r / TwoPi).Floor
      {
        r := r - TwoPi;
        turns := turns - 1;
      }
      assert value / TwoPi == r / TwoPi - turns as real;
      assert (value / TwoPi).Floor == -turns;
    }

    /** Rotates the 2 * order + 1 harmonics of `inputs` into `outputs` by the cached yaw.
        The two buffers may be the same: each pair is read before it is written. */
    method Process(inputs: array<real>, outputs: array<real>)
      requires Valid()
      requires inputs.Length >= Harmonics(order) && outputs.Length >= Harmonics(order)
      modifies outputs
      ensures outputs[..Harmonics(order)] == Rotated(old(inputs[..Harmonics(order)]), Complex(cosx, sinx))
      ensures outputs[0] == old(inputs[0])
      ensures outputs[Harmonics(order)..] == old(outputs[Harmonics(order)..])
    {
      ghost var h := inputs[..Harmonics(order)];
      ghost var z := Complex(cosx, sinx);
      var cosX := cosx;
      var sinX := sinx;

      outputs[0] := inputs[0];
      assert outputs[..1] == Rotated(h[..1], z);
      assert inputs[1..|h|] == h[1..];
      FirstPower(z);
      TurnPair(inputs, outputs, 1, cosX, sinX, h, z);
      ghost var done: nat := 1;
      ghost var written: nat := 3;
      for i := 2 to order + 1
        invariant done == i - 1 && written == 2 * i - 1
        invariant Power(z, done) == Complex(cosX, sinX)
        invariant outputs[..written] == Rotated(h[..written], z)
        invariant inputs[written..|h|] == h[written..]
        invariant outputs[|h|..] == old(outputs[|h|..])
      {
        cosX, sinX := NextPower(cosX, sinX, cosx, sinx, z, i);
        TurnPair(inputs, outputs, i, cosX, sinX, h, z);
        done, written := i, 2 * i + 1;
      }
      assert h[..Harmonics(order)] == h;
      OddLength(order, Harmonics(order));
      RotatedKeepsFirst(h, z);
    }

    /** One step of the angle-addition recurrence: from cosX + i sinX, the power l - 1 of
        cos + i sin, to the power l. */
    static method NextPower(cosX: real, sinX: real, cos: real, sin: real, ghost z: Complex, ghost l: nat)
      returns (c: real, s: real)
      requires l > 0 && Power(z, l - 1) == Complex(cosX, sinX) && z == Complex(cos, sin)
      ensures Power(z, l) == Complex(c, s)
    {
      var tcosX := cosX;
      c := tcosX * cos - sinX * sin;
      s := tcosX * sin + sinX * cos;
      PowerNext(z, l, cosX, sinX, cos, sin, c, s);
    }

    /** Turns the pair of degree `l` (Y(l,-l) at 2l - 1, Y(l,l) at 2l) by cosX + i sinX,
        the l-th power of the cached cos + i sin, and states what that does to the whole
        field. */
    method TurnPair(inputs: array<real>, outputs: array<real>, l: nat, cosX: real, sinX: real,
                    ghost h: seq<real>, ghost z: Complex)
      requires 0 < l && 2 * l < |h| && |h| <= inputs.Length && |h| <= outputs.Length
      requires Power(z, l) == Complex(cosX, sinX)
      requires outputs[..2 * l - 1] == Rotated(h[..2 * l - 1], z)
      requires inputs[2 * l - 1..|h|] == h[2 * l - 1..]
      modifies outputs
      ensures outputs[..2 * l + 1] == Rotated(h[..2 * l + 1], z)
      ensures inputs[2 * l + 1..|h|] == h[2 * l + 1..]
      ensures outputs[|h|..] == old(outputs[|h|..])
    {
      ghost var before, ahead := outputs[..], inputs[..];
      HarmonicsAhead(ahead, h, 2 * l - 1);
      ghost var a, b := inputs[2 * l - 1], inputs[2 * l];
      WritePair(inputs, outputs, 2 * l - 1, cosX, sinX, a, b);
      ghost var x, y := outputs[2 * l - 1], outputs[2 * l];
      assert outputs[..] == before[2 * l - 1 := x][2 * l := y];
      PairWritten(h, z, l, cosX, sinX, a, b, x, y, before, outputs[..]);
      if inputs == outputs {
        assert inputs[2 * l + 1..|h|] == outputs[..][2 * l + 1..|h|];
      }
    }

    /** The loop body proper: the pair at m and m + 1 is turned by cosX + i sinX. Y(l,-l)
        is read before it is overwritten, so the pair may be turned in place. */
    static method WritePair(inputs: array<real>, outputs: array<real>, m: nat, cosX: real, sinX: real,
                            ghost a: real, ghost b: real)
      requires m + 1 < inputs.Length && m + 1 < outputs.Length
      requires inputs[m] == a && inputs[m + 1] == b
      modifies outputs
      ensures outputs[m] == sinX * b + cosX * a
      ensures outputs[m + 1] == cosX * b - sinX * a
      ensures forall k :: 0 <= k < outputs.Length && k != m && k != m + 1 ==> outputs[k] == old(outputs[k])
    {
      var sig := inputs[m];
      outputs[m] := sinX * inputs[m + 1] + cosX * sig;
      outputs[m + 1] := cosX * inputs[m + 1] - sinX * sig;
    }
  }
}
