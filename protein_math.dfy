/**
 Geometry helpers used when a protein is loaded: the mean atom position and
 the shift that centres the atoms on it, the axis-aligned bounding box, the
 bounding sphere with a safety margin, and the Halton low-discrepancy
 sequence used to jitter frames. Coordinates are reals; the infinities that
 an empty bounding box starts from are `ExtReal` bounds, and the NaN that a
 division by zero produces is `None`.
 */
module ProteinMath {
  import opened Wrappers
  import opened Vectors

  const UInt32Max: nat := 0xFFFF_FFFF
  /** The default `extraMargin`, in the units of the atom positions. */
  const DefaultExtraMargin: real := 5.0

  // ---------------------------------------------------------------------------
  // Mean position and centring

  /** The componentwise sum, accumulated front to back. */
  function Sum(s: seq<Vec3>): Vec3
  {
    if s == [] then Zero else Add(Sum(s[..|s| - 1]), s[|s| - 1])
  }

  /** Every position moved by `-center`. */
  function Shifted(s: seq<Vec3>, center: Vec3): (r: seq<Vec3>)
    ensures |r| == |s|
    ensures forall i :: 0 <= i < |s| ==> r[i] == Sub(s[i], center)
  {
    seq(|s|, i requires 0 <= i < |s| => Sub(s[i], center))
  }

  /** The mean position, `None` standing for the NaN of an empty input. */
  function Mean(s: seq<Vec3>): Option<Vec3>
  {
    if |s| == 0 then None else Some(Scale(Sum(s), 1.0 / |s| as real))
  }

  /** One more shifted position: the shift is subtracted `k + 1` times instead of `k`. */
  lemma ShiftOneMore(prev: Vec3, last: Vec3, center: Vec3, k: real)
    ensures Add(Sub(prev, Scale(center, k)), Sub(last, center)) == Sub(Add(prev, last), Scale(center, k + 1.0))
  {
    assert center.x * k + center.x == center.x * (k + 1.0);
    assert center.y * k + center.y == center.y * (k + 1.0);
    assert center.z * k + center.z == center.z * (k + 1.0);
  }

  /** Summing shifted positions subtracts the shift once per position. */
  lemma {:induction false} ShiftedSum(s: seq<Vec3>, center: Vec3)
    ensures Sum(Shifted(s, center)) == Sub(Sum(s), Scale(center, |s| as real))
  {
    if s != [] {
      var n := |s|;
      var init, last := s[..n - 1], s[n - 1];
      assert Shifted(s, center)[..n - 1] == Shifted(init, center);
      ShiftedSum(init, center);
      ShiftOneMore(Sum(init), last, center, (n - 1) as real);
    }
  }

  /** Shifting by the mean position centres the atoms: their sum becomes zero. */
  lemma CenteredSumIsZero(s: seq<Vec3>)
    requires |s| > 0
    ensures Sum(Shifted(s, Mean(s).value)) == Zero
  {
    var n := |s| as real;
    var total := Sum(s);
    var mean := Mean(s).value;
    ShiftedSum(s, mean);
    ScaleBack(total, n);
  }

  /** Dividing by a positive count and multiplying back gives the vector again. */
  lemma ScaleBack(v: Vec3, n: real)
    requires n > 0.0
    ensures Scale(Scale(v, 1.0 / n), n) == v
  {
    DivideAndMultiply(v.x, n);
    DivideAndMultiply(v.y, n);
    DivideAndMultiply(v.z, n);
  }

  lemma DivideAndMultiply(t: real, n: real)
    requires n > 0.0
    ensures (t * (1.0 / n)) * n == t
  {
  }

  /** `averagePosition`: sums the positions, then divides by their count. */
  method AveragePosition(atoms: seq<Vec3>) returns (mean: Option<Vec3>)
    ensures mean == Mean(atoms)
  {
    var meanPosition := Zero;
    var i := 0;
    while i < |atoms|
      invariant 0 <= i <= |atoms|
      invariant meanPosition == Sum(atoms[..i])
    {
      assert atoms[..i + 1][..i] == atoms[..i];
      meanPosition := Add(meanPosition, atoms[i]);
      i := i + 1;
    }
    assert atoms[..i] == atoms;
    if |atoms| == 0 {
      mean := None;
    } else {
      mean := Some(Scale(meanPosition, 1.0 / |atoms| as real));
    }
  }

  /** `normalizeAtomPositions`: moves every atom by `-center`, in place. */
  method NormalizeAtomPositions(atoms: array<Vec3>, center: Vec3)
    modifies atoms
    ensures atoms[..] == Shifted(old(atoms[..]), center)
  {
    for i := 0 to atoms.Length
      invariant forall k :: 0 <= k < i ==> atoms[k] == Sub(old(atoms[k]), center)
      invariant forall k :: i <= k < atoms.Length ==> atoms[k] == old(atoms[k])
    {
      atoms[i] := Sub(atoms[i], center);
    }
  }

  // ---------------------------------------------------------------------------
  // Bounding box

  datatype BoundingBox = BoundingBox(minX: ExtReal, maxX: ExtReal, minY: ExtReal, maxY: ExtReal,
                                     minZ: ExtReal, maxZ: ExtReal)

  /** The box an empty set of atoms gets: every minimum `+inf`, every maximum `-inf`. */
  const EmptyBox := BoundingBox(PosInf, NegInf, PosInf, NegInf, PosInf, NegInf)

  function Lower(b: BoundingBox, a: Axis): ExtReal
  {
    match a
    case X => b.minX
    case Y => b.minY
    case Z => b.minZ
  }

  function Upper(b: BoundingBox, a: Axis): ExtReal
  {
    match a
    case X => b.maxX
    case Y => b.maxY
    case Z => b.maxZ
  }

  /** The coordinates of the atoms along one axis. */
  function Coords(s: seq<Vec3>, a: Axis): (r: seq<real>)
    ensures |r| == |s|
    ensures forall i :: 0 <= i < |s| ==> r[i] == Coord(s[i], a)
  {
    seq(|s|, i requires 0 <= i < |s| => Coord(s[i], a))
  }

  /**
   `lo` and `hi` are the minimum and maximum of `cs`: they enclose every value
   and, for a non-empty list, are values of it; an empty list has `+inf` and `-inf`.
   */
  predicate IsRangeOf(cs: seq<real>, lo: ExtReal, hi: ExtReal)
  {
    && (forall k :: 0 <= k < |cs| ==> Le(lo, Finite(cs[k])) && Le(Finite(cs[k]), hi))
    && (|cs| == 0 ==> lo == PosInf && hi == NegInf)
    && (|cs| > 0 ==> lo.Finite? && hi.Finite? && lo.r in cs && hi.r in cs)
  }

  predicate IsBoundingBoxOf(atoms: seq<Vec3>, box: BoundingBox)
  {
    forall a: Axis :: IsRangeOf(Coords(atoms, a), Lower(box, a), Upper(box, a))
  }

  /** One step of the min/max fold on one axis. */
  lemma ExtendRange(cs: seq<real>, lo: ExtReal, hi: ExtReal, c: real)
    requires IsRangeOf(cs, lo, hi)
    ensures IsRangeOf(cs + [c], if Below(c, lo) then Finite(c) else lo, if Above(c, hi) then Finite(c) else hi)
  {
    var lo' := if Below(c, lo) then Finite(c) else lo;
    var hi' := if Above(c, hi) then Finite(c) else hi;
    var cs' := cs + [c];
    forall k | 0 <= k < |cs'|
      ensures Le(lo', Finite(cs'[k])) && Le(Finite(cs'[k]), hi')
    {
      if k < |cs| {
        assert cs'[k] == cs[k];
      }
    }
    if lo' == lo {
      assert lo.r in cs;
    }
    if hi' == hi {
      assert hi.r in cs;
    }
  }

  /** A box with the range properties on every axis is unique. */
  lemma {:induction false} RangeDetermined(cs: seq<real>, lo: ExtReal, hi: ExtReal, lo': ExtReal, hi': ExtReal)
    requires IsRangeOf(cs, lo, hi) && IsRangeOf(cs, lo', hi')
    ensures lo == lo' && hi == hi'
  {
    if |cs| > 0 {
      var i :| 0 <= i < |cs| && cs[i] == lo.r;
      var j :| 0 <= j < |cs| && cs[j] == lo'.r;
      assert Le(lo, Finite(cs[j])) && Le(lo', Finite(cs[i]));
      var p :| 0 <= p < |cs| && cs[p] == hi.r;
      var q :| 0 <= q < |cs| && cs[q] == hi'.r;
      assert Le(Finite(cs[q]), hi) && Le(Finite(cs[p]), hi');
    }
  }

  lemma BoundingBoxDetermined(atoms: seq<Vec3>, box: BoundingBox, box': BoundingBox)
    requires IsBoundingBoxOf(atoms, box) && IsBoundingBoxOf(atoms, box')
    ensures box == box'
  {
    RangeDetermined(Coords(atoms, X), box.minX, box.maxX, box'.minX, box'.maxX);
    RangeDetermined(Coords(atoms, Y), box.minY, box.maxY, box'.minY, box'.maxY);
    RangeDetermined(Coords(atoms, Z), box.minZ, box.maxZ, box'.minZ, box'.maxZ);
  }

  /** One step of the fold on all three axes. */
  function StepBox(b: BoundingBox, atom: Vec3): BoundingBox
  {
    BoundingBox(if Below(atom.x, b.minX) then Finite(atom.x) else b.minX,
                if Above(atom.x, b.maxX) then Finite(atom.x) else b.maxX,
                if Below(atom.y, b.minY) then Finite(atom.y) else b.minY,
                if Above(atom.y, b.maxY) then Finite(atom.y) else b.maxY,
                if Below(atom.z, b.minZ) then Finite(atom.z) else b.minZ,
                if Above(atom.z, b.maxZ) then Finite(atom.z) else b.maxZ)
  }

  lemma ExtendBox(atoms: seq<Vec3>, b: BoundingBox, atom: Vec3)
    requires IsBoundingBoxOf(atoms, b)
    ensures IsBoundingBoxOf(atoms + [atom], StepBox(b, atom))
  {
    var b' := StepBox(b, atom);
    forall a: Axis
      ensures IsRangeOf(Coords(atoms + [atom], a), Lower(b', a), Upper(b', a))
    {
      assert Coords(atoms + [atom], a) == Coords(atoms, a) + [Coord(atom, a)];
      ExtendRange(Coords(atoms, a), Lower(b, a), Upper(b, a), Coord(atom, a));
    }
  }

  /** `computeBoundingBox`: the min/max fold over the atoms, from infinite bounds. */
  method ComputeBoundingBox(atoms: seq<Vec3>) returns (box: BoundingBox)
    ensures IsBoundingBoxOf(atoms, box)
    ensures |atoms| == 0 ==> box == EmptyBox
  {
    var minX, maxX, minY, maxY, minZ, maxZ := PosInf, NegInf, PosInf, NegInf, PosInf, NegInf;
    var i := 0;
    while i < |atoms|
      invariant 0 <= i <= |atoms|
      invariant IsBoundingBoxOf(atoms[..i], BoundingBox(minX, maxX, minY, maxY, minZ, maxZ))
      invariant i == 0 ==> BoundingBox(minX, maxX, minY, maxY, minZ, maxZ) == EmptyBox
    {
      var atom := atoms[i];
      assert atoms[..i + 1] == atoms[..i] + [atom];
      ExtendBox(atoms[..i], BoundingBox(minX, maxX, minY, maxY, minZ, maxZ), atom);
      if Above(atom.x, maxX) {
        maxX := Finite(atom.x);
      }
      if Below(atom.x, minX) {
        minX := Finite(atom.x);
      }
      if Above(atom.y, maxY) {
        maxY := Finite(atom.y);
      }
      if Below(atom.y, minY) {
        minY := Finite(atom.y);
      }
      if Above(atom.z, maxZ) {
        maxZ := Finite(atom.z);
      }
      if Below(atom.z, minZ) {
        minZ := Finite(atom.z);
      }
      i := i + 1;
    }
    assert atoms[..i] == atoms;
    box := BoundingBox(minX, maxX, minY, maxY, minZ, maxZ);
  }

  // ---------------------------------------------------------------------------
  // Bounding volume

  /** A sphere; a `None` centre is the NaN centre of an empty input. */
  datatype BoundingSphere = BoundingSphere(center: Option<Vec3>, radius: real)

  datatype BoundingVolume = BoundingVolume(sphere: BoundingSphere, box: BoundingBox)

  /** The midpoint of a box, NaN (`None`) when a bound is infinite. */
  function BoxCenter(b: BoundingBox): Option<Vec3>
  {
    if b.minX.Finite? && b.maxX.Finite? && b.minY.Finite? && b.maxY.Finite? && b.minZ.Finite? && b.maxZ.Finite?
    then Some(Vec3((b.minX.r + b.maxX.r) / 2.0, (b.minY.r + b.maxY.r) / 2.0, (b.minZ.r + b.maxZ.r) / 2.0))
    else None
  }

  /** The box of a single atom: the atom widened by `margin` on every axis. */
  predicate IsMarginBox(atom: Vec3, margin: real, b: BoundingBox)
  {
    forall a: Axis :: Lower(b, a) == Finite(Coord(atom, a) - margin) && Upper(b, a) == Finite(Coord(atom, a) + margin)
  }

  /**
   What `computeBoundingVolume` returns: for one atom, the atom with the margin
   around it; otherwise the bounding box, a sphere centred on the box's
   midpoint, and a radius that is the margin plus the largest atom distance
   from that centre (zero when there is none), under the distance `distance`.
   */
  predicate IsBoundingVolumeOf(atoms: seq<Vec3>, margin: real, distance: (Vec3, Vec3) -> real, v: BoundingVolume)
  {
    if |atoms| == 1 then
      v.sphere == BoundingSphere(Some(atoms[0]), margin) && IsMarginBox(atoms[0], margin, v.box)
    else
      && IsBoundingBoxOf(atoms, v.box)
      && v.sphere.center == BoxCenter(v.box)
      && (|atoms| == 0 ==> v.sphere.radius == margin)
      && (|atoms| > 0 ==>
            && v.sphere.center.Some?
            && v.sphere.radius - margin >= 0.0
            && (forall i :: 0 <= i < |atoms| ==> distance(atoms[i], v.sphere.center.value) <= v.sphere.radius - margin)
            && (v.sphere.radius - margin == 0.0
                || exists i :: 0 <= i < |atoms| && distance(atoms[i], v.sphere.center.value) == v.sphere.radius - margin))
  }

  /** The exact bounds of a non-empty sequence are finite, and the lower one is at most the upper one. */
  lemma RangeOfNonEmpty(cs: seq<real>, lo: ExtReal, hi: ExtReal)
    requires |cs| > 0 && IsRangeOf(cs, lo, hi)
    ensures lo.Finite? && hi.Finite? && lo.r <= hi.r
  {
    assert Le(lo, Finite(cs[0])) && Le(Finite(cs[0]), hi);
  }

  /** The centre of the bounding box of a non-empty set of atoms lies inside the box. */
  lemma CenterInsideBox(atoms: seq<Vec3>, box: BoundingBox)
    requires |atoms| > 0 && IsBoundingBoxOf(atoms, box)
    ensures BoxCenter(box).Some?
    ensures forall a: Axis :: Le(Lower(box, a), Finite(Coord(BoxCenter(box).value, a)))
                            && Le(Finite(Coord(BoxCenter(box).value, a)), Upper(box, a))
  {
    RangeOfNonEmpty(Coords(atoms, X), box.minX, box.maxX);
    RangeOfNonEmpty(Coords(atoms, Y), box.minY, box.maxY);
    RangeOfNonEmpty(Coords(atoms, Z), box.minZ, box.maxZ);
  }

  /** The sphere of a set of atoms is unique: the predicate fixes the whole volume. */
  lemma BoundingVolumeDetermined(atoms: seq<Vec3>, margin: real, distance: (Vec3, Vec3) -> real,
                                 v: BoundingVolume, v': BoundingVolume)
    requires IsBoundingVolumeOf(atoms, margin, distance, v) && IsBoundingVolumeOf(atoms, margin, distance, v')
    ensures v == v'
  {
    if |atoms| != 1 {
      BoundingBoxDetermined(atoms, v.box, v'.box);
      if |atoms| > 0 {
        var r, r' := v.sphere.radius - margin, v'.sphere.radius - margin;
        if r != 0.0 {
          var i :| 0 <= i < |atoms| && distance(atoms[i], v.sphere.center.value) == r;
          assert r <= r';
        }
        if r' != 0.0 {
          var i :| 0 <= i < |atoms| && distance(atoms[i], v'.sphere.center.value) == r';
          assert r' <= r;
        }
      }
    } else {
      assert Lower(v.box, X) == Lower(v'.box, X) && Upper(v.box, X) == Upper(v'.box, X);
      assert Lower(v.box, Y) == Lower(v'.box, Y) && Upper(v.box, Y) == Upper(v'.box, Y);
      assert Lower(v.box, Z) == Lower(v'.box, Z) && Upper(v.box, Z) == Upper(v'.box, Z);
    }
  }

  /**
   `computeBoundingVolume(atoms:extraMargin:)`. The Euclidean distance is the
   parameter `distance`.
   */
  method ComputeBoundingVolume(atoms: seq<Vec3>, extraMargin: real, distance: (Vec3, Vec3) -> real)
    returns (volume: BoundingVolume)
    ensures IsBoundingVolumeOf(atoms, extraMargin, distance, volume)
  {
    if |atoms| == 1 {
      var center := atoms[0];
      var box := BoundingBox(Finite(center.x - extraMargin), Finite(center.x + extraMargin),
                             Finite(center.y - extraMargin), Finite(center.y + extraMargin),
                             Finite(center.z - extraMargin), Finite(center.z + extraMargin));
      return BoundingVolume(BoundingSphere(Some(atoms[0]), extraMargin), box);
    }
    var box := ComputeBoundingBox(atoms);
    var center := BoxCenter(box);
    if |atoms| > 0 {
      CenterInsideBox(atoms, box);
    }
    var maxDistanceToCenter := 0.0;
    var i := 0;
    while i < |atoms|
      invariant 0 <= i <= |atoms|
      invariant maxDistanceToCenter >= 0.0
      invariant forall k :: 0 <= k < i ==> distance(atoms[k], center.value) <= maxDistanceToCenter
      invariant maxDistanceToCenter == 0.0
                || exists k :: 0 <= k < i && distance(atoms[k], center.value) == maxDistanceToCenter
    {
      var atomDistance := distance(atoms[i], center.value);
      if atomDistance > maxDistanceToCenter {
        maxDistanceToCenter := atomDistance;
      }
      i := i + 1;
    }
    volume := BoundingVolume(BoundingSphere(center, maxDistanceToCenter + extraMargin), box);
  }

  /** The atoms of several proteins, in order. */
  function Flatten(proteins: seq<seq<Vec3>>): seq<Vec3>
  {
    if proteins == [] then [] else Flatten(proteins[..|proteins| - 1]) + proteins[|proteins| - 1]
  }

  /**
   `computeBoundingVolume(proteins:extraMargin:)`: the bounding volume of all
   atoms of all proteins together.
   */
  /** Whatever the atoms, the bounding sphere's radius is at least the margin. */
  lemma RadiusAtLeastMargin(atoms: seq<Vec3>, margin: real, distance: (Vec3, Vec3) -> real, v: BoundingVolume)
    requires IsBoundingVolumeOf(atoms, margin, distance, v)
    ensures v.sphere.radius >= margin
  {
    if |atoms| > 1 {
      assert v.sphere.radius - margin >= 0.0;
    }
  }

  /** `computeBoundingVolume(atoms:)` called without a margin, so with the default one. */
  method ComputeBoundingVolumeDefaultMargin(atoms: seq<Vec3>, distance: (Vec3, Vec3) -> real)
    returns (volume: BoundingVolume)
    ensures IsBoundingVolumeOf(atoms, DefaultExtraMargin, distance, volume)
    ensures volume.sphere.radius >= DefaultExtraMargin
  {
    volume := ComputeBoundingVolume(atoms, DefaultExtraMargin, distance);
    RadiusAtLeastMargin(atoms, DefaultExtraMargin, distance, volume);
  }

  method ComputeBoundingVolumeOfProteins(proteins: seq<seq<Vec3>>, extraMargin: real, distance: (Vec3, Vec3) -> real)
    returns (volume: BoundingVolume)
    ensures IsBoundingVolumeOf(Flatten(proteins), extraMargin, distance, volume)
  {
    var allAtoms: seq<Vec3> := [];
    var i := 0;
    while i < |proteins|
      invariant 0 <= i <= |proteins|
      invariant allAtoms == Flatten(proteins[..i])
    {
      assert proteins[..i + 1][..i] == proteins[..i];
      allAtoms := allAtoms + proteins[i];
      i := i + 1;
    }
    assert proteins[..i] == proteins;
    volume := ComputeBoundingVolume(allAtoms, extraMargin, distance);
  }

  // ---------------------------------------------------------------------------
  // Halton sequence

  /** The base-`b` digits of `i`, least significant first. */
  function Digits(i: nat, b: nat): seq<nat>
    requires b >= 2
  {
    if i == 0 then [] else [i % b] + Digits(i / b, b)
  }

  /** The number whose base-`b` digits, least significant first, are `ds`. */
  function FromDigits(ds: seq<nat>, b: nat): nat
  {
    if ds == [] then 0 else ds[0] + b * FromDigits(ds[1..], b)
  }

  /** The digits `ds` mirrored about the radix point: `0.d0 d1 d2 ...` in base `b`. */
  function Mirror(ds: seq<nat>, b: real): real
    requires b > 0.0
  {
    if ds == [] then 0.0 else (ds[0] as real + Mirror(ds[1..], b)) / b
  }

  /** The base-`b` digits of `i` mirrored about the radix point. */
  function RadicalInverse(i: nat, b: nat): real
    requires b >= 2
  {
    Mirror(Digits(i, b), b as real)
  }

  /** Removing the last digit: `i % b` followed by the digits of `i / b`. */
  lemma DigitsStep(i: nat, b: nat, quotient: nat, digit: nat)
    requires b >= 2 && i > 0 && quotient == i / b && digit == i % b
    ensures quotient < i && i == b * quotient + digit
    ensures Digits(i, b) == [digit] + Digits(quotient, b)
  {
    assert i == b * quotient + digit && 0 <= digit;
    assert b * quotient == quotient + (b - 1) * quotient;
    assert (b - 1) * quotient >= quotient;
  }

  /** Every digit is below the base. */
  lemma {:induction false} DigitsBelowBase(i: nat, b: nat)
    requires b >= 2
    ensures forall k :: 0 <= k < |Digits(i, b)| ==> Digits(i, b)[k] < b
  {
    if i != 0 {
      DigitsBelowBase(i / b, b);
      var ds := Digits(i, b);
      assert ds[1..] == Digits(i / b, b);
      forall k | 1 <= k < |ds|
        ensures ds[k] < b
      {
        assert ds[k] == ds[1..][k - 1];
      }
    }
  }

  lemma FromDigitsCons(d: nat, rest: seq<nat>, b: nat)
    ensures FromDigits([d] + rest, b) == d + b * FromDigits(rest, b)
  {
    assert ([d] + rest)[1..] == rest;
  }

  /** The digits are a faithful base-`b` representation: they give `i` back. */
  lemma {:induction false} DigitsRoundTrip(i: nat, b: nat)
    requires b >= 2
    ensures FromDigits(Digits(i, b), b) == i
  {
    if i != 0 {
      var q, d := i / b, i % b;
      DigitsStep(i, b, q, d);
      FromDigitsCons(d, Digits(q, b), b);
      DigitsRoundTrip(q, b);
    }
  }

  /** Dividing a value of `[0, b)` by `b` lands in `[0, 1)`. */
  lemma DivideBelowBase(x: real, b: real)
    requires 0.0 <= x < b
    ensures 0.0 <= x / b < 1.0
  {
  }

  lemma {:induction false} MirrorInUnitInterval(ds: seq<nat>, b: nat)
    requires b >= 2
    requires forall k :: 0 <= k < |ds| ==> ds[k] < b
    ensures 0.0 <= Mirror(ds, b as real) < 1.0
  {
    if ds != [] {
      MirrorInUnitInterval(ds[1..], b);
      assert ds[0] <= b - 1;
      DivideBelowBase(ds[0] as real + Mirror(ds[1..], b as real), b as real);
    }
  }

  /** Every radical inverse is a fraction in `[0, 1)`. */
  lemma RadicalInverseInUnitInterval(i: nat, b: nat)
    requires b >= 2
    ensures 0.0 <= RadicalInverse(i, b) < 1.0
  {
    DigitsBelowBase(i, b);
    MirrorInUnitInterval(Digits(i, b), b);
  }

  /** Indices below the base have a single digit: their radical inverse is `i / b`. */
  lemma RadicalInverseOfSingleDigit(i: nat, b: nat)
    requires b >= 2 && i < b
    ensures RadicalInverse(i, b) == i as real / b as real
  {
    if i > 0 {
      DigitsStep(i, b, 0, i);
      assert Digits(i, b) == [i];
      assert [i][1..] == [];
      assert Mirror([i], b as real) == (i as real + 0.0) / b as real;
    }
  }

  lemma PositiveQuotient(f: real, b: real)
    requires f > 0.0 && b > 0.0
    ensures f / b > 0.0
  {
  }

  /** Splitting the weight `f` of the remaining digits among the next digit and the rest. */
  lemma WeightStep(f: real, b: real, d: real, rest: real)
    requires b > 0.0
    ensures (f / b) * d + (f / b) * rest == f * ((d + rest) / b)
  {
  }

  lemma Regroup(result: real, f: real, w: real, d: real, rest: real, r: real, target: real)
    requires w * d + w * rest == f * r
    requires result + f * r == target
    ensures (result + w * d) + w * rest == target
  {
  }

  /**
   What the Halton loop keeps: the digits `ds` still to be consumed, weighted
   by `fractional`, complete `result` to `target`.
   */
  ghost predicate HaltonInvariant(result: real, fractional: real, ds: seq<nat>, b: real, target: real)
    requires b > 0.0
  {
    fractional > 0.0 && result + fractional * Mirror(ds, b) == target
  }

  /** Consuming digit `d` with weight `fractional / b` keeps the invariant. */
  lemma HaltonInvariantStep(result: real, fractional: real, d: nat, rest: seq<nat>, b: real, target: real)
    requires b > 0.0
    requires HaltonInvariant(result, fractional, [d] + rest, b, target)
    ensures HaltonInvariant(result + (fractional / b) * d as real, fractional / b, rest, b, target)
  {
    assert ([d] + rest)[1..] == rest;
    PositiveQuotient(fractional, b);
    WeightStep(fractional, b, d as real, Mirror(rest, b));
    Regroup(result, fractional, fractional / b, d as real, Mirror(rest, b), Mirror([d] + rest, b), target);
  }

  /** `currentIndex % base` and `currentIndex / base`, with the digit sequence they split. */
  method DivMod(i: nat, b: nat) returns (quotient: nat, digit: nat)
    requires b >= 2 && i > 0
    ensures quotient == i / b && digit == i % b
    ensures quotient < i
    ensures Digits(i, b) == [digit] + Digits(quotient, b)
  {
    quotient, digit := i / b, i % b;
    DigitsStep(i, b, quotient, digit);
  }

  /** `halton`: peels base-`b` digits off `index`, each weighted by the next power of `1/b`. */
  method Halton(index: nat, base: nat) returns (result: real)
    requires index <= UInt32Max && (index == 0 || base >= 2)
    ensures index == 0 ==> result == 0.0
    ensures base >= 2 ==> result == RadicalInverse(index, base) && 0.0 <= result < 1.0
  {
    result := 0.0;
    var fractional := 1.0;
    var currentIndex: nat := index;
    if base < 2 {
      // Only index 0 may come with such a base, and then the loop does not run.
      return;
    }
    ghost var target := RadicalInverse(index, base);
    while currentIndex > 0
      invariant HaltonInvariant(result, fractional, Digits(currentIndex, base), base as real, target)
      decreases currentIndex
    {
      var quotient, digit := DivMod(currentIndex, base);
      HaltonInvariantStep(result, fractional, digit, Digits(quotient, base), base as real, target);
      // fractional /= base; result += fractional * digit; currentIndex /= base
      result, fractional, currentIndex := result + (fractional / base as real) * digit as real,
                                          fractional / base as real,
                                          quotient;
    }
    RadicalInverseInUnitInterval(index, base);
  }
}
