/** Resolving an area against the Bot and listing its cells (core/src/endbot_core/areas.py). */
module AreaCells {
  import opened Common
  import opened Areas

  // -- resolution --------------------------------------------------------------------------------

  lemma ShapeResolvesOnce(s: Shape, first: Triple<real>, second: Triple<real>, within: bool)
    requires ResolveShape(s, first, within).Ok?
    ensures var r := ResolveShape(s, first, within).value;
      !ShapeRelative(r) && ResolveShape(r, second, within) == Ok(r)
  {
    match s
    case Cell(at) => FloorsInWorld(ResolvePoint(at, first).value);
    case Box(corner, opposite) =>
      var a, b := Floors(ResolvePoint(corner, first).value), Floors(ResolvePoint(opposite, first).value);
      FloorsInWorld(ResolvePoint(corner, first).value);
      FloorsInWorld(ResolvePoint(opposite, first).value);
      var low := Triple(Min(a.x, b.x), Min(a.y, b.y), Min(a.z, b.z));
      var high := Triple(Max(a.x, b.x), Max(a.y, b.y), Max(a.z, b.z));
      WholeResolves(low, second);
      WholeResolves(high, second);
    case Sphere(_, _) =>
  }

  lemma FloorsInWorld(r: Triple<real>)
    requires Abs(r.x) <= WORLD_LIMIT && Abs(r.y) <= WORLD_LIMIT && Abs(r.z) <= WORLD_LIMIT
    ensures Abs(r.x.Floor as real) <= WORLD_LIMIT && Abs(r.y.Floor as real) <= WORLD_LIMIT
            && Abs(r.z.Floor as real) <= WORLD_LIMIT
  {
    FloorInWorld(r.x);
    FloorInWorld(r.y);
    FloorInWorld(r.z);
  }

  /** The limit is whole, so rounding down stays within it. */
  lemma FloorInWorld(v: real)
    requires Abs(v) <= WORLD_LIMIT
    ensures Abs(v.Floor as real) <= WORLD_LIMIT
  {
    assert v >= -30000000.0 ==> v.Floor >= -30000000;
  }

  lemma WholeResolves(r: Triple<int>, reference: Triple<real>)
    requires Abs(r.x as real) <= WORLD_LIMIT && Abs(r.y as real) <= WORLD_LIMIT && Abs(r.z as real) <= WORLD_LIMIT
    ensures ResolvePoint(Whole(r), reference).Ok? && Floors(ResolvePoint(Whole(r), reference).value) == r
    ensures !PointRelative(Whole(r))
  {
  }

  lemma {:induction false} ShapesResolveOnce(shapes: seq<Shape>, first: Triple<real>, second: Triple<real>)
    requires ResolveAll(shapes, first).Ok?
    ensures var r := ResolveAll(shapes, first).value;
      (forall s :: s in r ==> !ShapeRelative(s)) && ResolveAll(r, second) == Ok(r)
    decreases |shapes|
  {
    hide ResolveShape, ShapeRelative;
    if shapes != [] {
      ShapeResolvesOnce(shapes[0], first, second, false);
      ShapesResolveOnce(shapes[1..], first, second);
      var r := ResolveAll(shapes, first).value;
      assert r[1..] == ResolveAll(shapes[1..], first).value;
    }
  }

  /** A resolved area has nothing relative left, and resolves to itself wherever the Bot has gone since. */
  lemma ResolvesOnce(a: Area, first: Triple<real>, second: Triple<real>)
    requires Resolve(a, first).Ok?
    ensures var r := Resolve(a, first).value; !HasRelative(r) && Resolve(r, second) == Ok(r)
  {
    hide ResolveShape, ShapeRelative;
    if a.within.Some? { ShapeResolvesOnce(a.within.value, first, second, true); }
    ShapesResolveOnce(a.exceptions, first, second);
  }

  lemma FixedShape(s: Shape, first: Triple<real>, second: Triple<real>, within: bool)
    requires !ShapeRelative(s)
    ensures ResolveShape(s, first, within) == ResolveShape(s, second, within)
  {
  }

  lemma {:induction false} FixedShapes(shapes: seq<Shape>, first: Triple<real>, second: Triple<real>)
    requires forall s :: s in shapes ==> !ShapeRelative(s)
    ensures ResolveAll(shapes, first) == ResolveAll(shapes, second)
    decreases |shapes|
  {
    hide ResolveShape, ShapeRelative;
    if shapes != [] {
      FixedShape(shapes[0], first, second, false);
      FixedShapes(shapes[1..], first, second);
    }
  }

  /** An area with nothing relative resolves the same everywhere, so it never needs the Bot's position. */
  lemma ResolvesAnywhere(a: Area, first: Triple<real>, second: Triple<real>)
    requires !HasRelative(a)
    ensures Resolve(a, first) == Resolve(a, second)
  {
    hide ResolveShape, ShapeRelative;
    if a.within.Some? { FixedShape(a.within.value, first, second, true); }
    forall s | s in a.exceptions ensures !ShapeRelative(s) {}
    FixedShapes(a.exceptions, first, second);
  }

  // -- the size of a box ------------------------------------------------------------------------------

  /** Where both coordinates resolve to numbers of the world. */
  predicate Resolves(a: Coordinate, b: Coordinate, reference: real)
  {
    Abs(At(a, reference)) <= WORLD_LIMIT && Abs(At(b, reference)) <= WORLD_LIMIT
  }

  function ResolvedSpan(a: Coordinate, b: Coordinate, reference: real): int
  {
    Span(At(a, reference).Floor, At(b, reference).Floor)
  }

  function Ceiling(v: real): int { if IsWhole(v) then v.Floor else v.Floor + 1 }

  /** How far apart two coordinates of one kind are. */
  function Distance(a: Coordinate, b: Coordinate): real { Abs(Raw(b) - Raw(a)) }

  /** The fewest cells that two coordinates of one kind can span, wherever the Bot stands. */
  function LeastSpan(a: Coordinate, b: Coordinate): int
  {
    if BothRelative(a, b) then Distance(a, b).Floor + 1 else RawSpan(a, b)
  }

  /** The most cells that two coordinates can span; an offset and a number can be as far apart as the world goes. */
  function MostSpan(a: Coordinate, b: Coordinate): int
  {
    if BothRelative(a, b) then Ceiling(Distance(a, b)) + 1
    else if SameKind(a, b) then RawSpan(a, b)
    else
      var fixed := (if a.Relative? then Raw(b) else Raw(a)).Floor;
      Max(Span(fixed, 30000000), Span(fixed, -30000000))
  }

  lemma FloorShift(v: real, d: int)
    ensures (v + d as real).Floor == v.Floor + d
  {
  }

  lemma FloorBetween(low: real, high: real)
    requires low <= high
    ensures (high - low).Floor <= high.Floor - low.Floor <= Ceiling(high - low)
  {
    if IsWhole(high - low) { FloorShift(low, (high - low).Floor); }
  }

  lemma FloorInLimits(v: real)
    requires Abs(v) <= WORLD_LIMIT
    ensures -30000000 <= v.Floor <= 30000000
  {
  }

  /** Wherever both resolve, what two coordinates span lies between the least and the most. */
  lemma SpanBetween(a: Coordinate, b: Coordinate, reference: real)
    requires Resolves(a, b, reference)
    ensures 1 <= ResolvedSpan(a, b, reference) <= MostSpan(a, b)
    ensures SameKind(a, b) ==> LeastSpan(a, b) <= ResolvedSpan(a, b, reference)
  {
    FloorInLimits(At(a, reference));
    FloorInLimits(At(b, reference));
    if BothRelative(a, b) {
      if a.offset <= b.offset {
        assert Distance(a, b) == At(b, reference) - At(a, reference);
        FloorBetween(At(a, reference), At(b, reference));
      } else {
        assert Distance(a, b) == At(a, reference) - At(b, reference);
        FloorBetween(At(b, reference), At(a, reference));
      }
    }
  }

  /** The Bot can stand so that two offsets span the least: the lower one at the edge of the world. */
  lemma LeastReached(a: Coordinate, b: Coordinate) returns (reference: real)
    requires InWorld(a) && InWorld(b) && SameKind(a, b)
    ensures Resolves(a, b, reference) && ResolvedSpan(a, b, reference) == LeastSpan(a, b)
  {
    var low := if Raw(a) <= Raw(b) then Raw(a) else Raw(b);
    reference := -WORLD_LIMIT - low;
    if BothRelative(a, b) {
      var d := Distance(a, b);
      FloorShift(d, -30000000);
      assert (-WORLD_LIMIT).Floor == -30000000;
    }
  }

  /** The Bot can stand so that two coordinates span the most: the upper of two offsets at the edge of the world. */
  lemma MostReached(a: Coordinate, b: Coordinate) returns (reference: real)
    requires InWorld(a) && InWorld(b)
    ensures Resolves(a, b, reference) && ResolvedSpan(a, b, reference) == MostSpan(a, b)
  {
    if BothRelative(a, b) {
      var high := if Raw(a) <= Raw(b) then Raw(b) else Raw(a);
      reference := WORLD_LIMIT - high;
      NegativeFloor(Distance(a, b));
      FloorShift(-Distance(a, b), 30000000);
    } else if SameKind(a, b) {
      reference := 0.0;
    } else {
      var fixed := (if a.Relative? then Raw(b) else Raw(a)).Floor;
      var offset := if a.Relative? then Raw(a) else Raw(b);
      reference := (if Span(fixed, 30000000) >= Span(fixed, -30000000) then WORLD_LIMIT else -WORLD_LIMIT) - offset;
      assert WORLD_LIMIT.Floor == 30000000 && (-WORLD_LIMIT).Floor == -30000000;
    }
  }

  lemma NegativeFloor(v: real)
    ensures (-v).Floor == -Ceiling(v)
  {
    if IsWhole(v) { FloorShift(0.0, -v.Floor); }
  }

  function LeastSize(a: Point, b: Point): int { LeastSpan(a.x, b.x) * LeastSpan(a.y, b.y) * LeastSpan(a.z, b.z) }

  function MostSize(a: Point, b: Point): int { MostSpan(a.x, b.x) * MostSpan(a.y, b.y) * MostSpan(a.z, b.z) }

  function ResolvedSize(a: Point, b: Point, reference: Triple<real>): int
  {
    ResolvedSpan(a.x, b.x, reference.x) * ResolvedSpan(a.y, b.y, reference.y) * ResolvedSpan(a.z, b.z, reference.z)
  }

  predicate BothResolve(a: Point, b: Point, reference: Triple<real>)
  {
    ResolvePoint(a, reference).Ok? && ResolvePoint(b, reference).Ok?
  }

  lemma ProductGrows(a: int, b: int, c: int, x: int, y: int, z: int)
    requires 0 <= a <= x && 0 <= b <= y && 0 <= c <= z
    ensures a * b * c <= x * y * z
  {
    assert a * b <= a * y <= x * y by { MulMonotone(a, b, y); MulMonotone(y, a, x); }
    MulMonotone(a * b, c, z);
    MulMonotone(z, a * b, x * y);
  }

  /** A box is refused when it resolves exactly where it spans more than the cap. */
  lemma RefusedBySize(a: Point, b: Point, reference: Triple<real>)
    requires BothResolve(a, b, reference)
    ensures ResolveShape(Box(a, b), reference, true) == Err(TooLarge) <==> ResolvedSize(a, b, reference) > MAX_CELLS
    ensures Resolves(a.x, b.x, reference.x) && Resolves(a.y, b.y, reference.y) && Resolves(a.z, b.z, reference.z)
  {
    var p, q := Floors(ResolvePoint(a, reference).value), Floors(ResolvePoint(b, reference).value);
    var low := Triple(Min(p.x, q.x), Min(p.y, q.y), Min(p.z, q.z));
    var high := Triple(Max(p.x, q.x), Max(p.y, q.y), Max(p.z, q.z));
    assert Volume(low, high) == ResolvedSize(a, b, reference);
  }

  lemma SizeBetween(a: Point, b: Point, reference: Triple<real>)
    requires BothResolve(a, b, reference)
    ensures ResolvedSize(a, b, reference) <= MostSize(a, b)
    ensures SameKind(a.x, b.x) && SameKind(a.y, b.y) && SameKind(a.z, b.z)
            ==> LeastSize(a, b) <= ResolvedSize(a, b, reference)
  {
    hide LeastSpan, MostSpan, ResolvedSpan;
    RefusedBySize(a, b, reference);
    SpanBetween(a.x, b.x, reference.x);
    SpanBetween(a.y, b.y, reference.y);
    SpanBetween(a.z, b.z, reference.z);
    var x, y, z := ResolvedSpan(a.x, b.x, reference.x), ResolvedSpan(a.y, b.y, reference.y), ResolvedSpan(a.z, b.z, reference.z);
    ProductGrows(x, y, z, MostSpan(a.x, b.x), MostSpan(a.y, b.y), MostSpan(a.z, b.z));
    if SameKind(a.x, b.x) && SameKind(a.y, b.y) && SameKind(a.z, b.z) {
      LeastPositive(a.x, b.x);
      LeastPositive(a.y, b.y);
      LeastPositive(a.z, b.z);
      ProductGrows(LeastSpan(a.x, b.x), LeastSpan(a.y, b.y), LeastSpan(a.z, b.z), x, y, z);
    }
  }

  lemma LeastPositive(a: Coordinate, b: Coordinate)
    ensures LeastSpan(a, b) >= 1
  {
  }

  lemma LeastSizeReached(a: Point, b: Point) returns (reference: Triple<real>)
    requires PointInWorld(a) && PointInWorld(b) && SameKind(a.x, b.x) && SameKind(a.y, b.y) && SameKind(a.z, b.z)
    ensures BothResolve(a, b, reference) && ResolvedSize(a, b, reference) == LeastSize(a, b)
  {
    hide LeastSpan, ResolvedSpan;
    var x := LeastReached(a.x, b.x);
    var y := LeastReached(a.y, b.y);
    var z := LeastReached(a.z, b.z);
    reference := Triple(x, y, z);
  }

  lemma MostSizeReached(a: Point, b: Point) returns (reference: Triple<real>)
    requires PointInWorld(a) && PointInWorld(b)
    ensures BothResolve(a, b, reference) && ResolvedSize(a, b, reference) == MostSize(a, b)
  {
    hide MostSpan, ResolvedSpan;
    var x := MostReached(a.x, b.x);
    var y := MostReached(a.y, b.y);
    var z := MostReached(a.z, b.z);
    reference := Triple(x, y, z);
  }

  /** Wherever both corners resolve, a box refused when typed is refused when it resolves. */
  ghost predicate NeverWronglyRefused(a: Point, b: Point)
  {
    forall reference :: BothResolve(a, b, reference) && BoxTooLarge(a, b)
      ==> ResolveShape(Box(a, b), reference, true) == Err(TooLarge)
  }

  /** Wherever both corners resolve, a box accepted when typed is accepted when it resolves. */
  ghost predicate NeverWronglyAccepted(a: Point, b: Point)
  {
    forall reference :: BothResolve(a, b, reference) && !BoxTooLarge(a, b)
      ==> ResolveShape(Box(a, b), reference, true) != Err(TooLarge)
  }

  /** No box is refused too early exactly when even the least that its corners can span is over the cap. */
  lemma WronglyRefusedExactly(a: Point, b: Point)
    requires PointInWorld(a) && PointInWorld(b)
    ensures NeverWronglyRefused(a, b) <==> (BoxTooLarge(a, b) ==> LeastSize(a, b) > MAX_CELLS)
  {
    hide ResolveShape, ResolvedSize, LeastSize, ResolvePoint;
    if BoxTooLarge(a, b) {
      if LeastSize(a, b) > MAX_CELLS {
        forall reference | BothResolve(a, b, reference) ensures ResolveShape(Box(a, b), reference, true) == Err(TooLarge) {
          SizeBetween(a, b, reference);
          RefusedBySize(a, b, reference);
        }
      } else {
        var reference := LeastSizeReached(a, b);
        RefusedBySize(a, b, reference);
      }
    }
  }

  /** No box is accepted too early exactly when even the most that its corners can span is within the cap. */
  lemma WronglyAcceptedExactly(a: Point, b: Point)
    requires PointInWorld(a) && PointInWorld(b)
    ensures NeverWronglyAccepted(a, b) <==> (!BoxTooLarge(a, b) ==> MostSize(a, b) <= MAX_CELLS)
  {
    hide ResolveShape, ResolvedSize, MostSize, ResolvePoint, BoxTooLarge;
    if !BoxTooLarge(a, b) {
      if MostSize(a, b) <= MAX_CELLS {
        forall reference | BothResolve(a, b, reference) ensures ResolveShape(Box(a, b), reference, true) != Err(TooLarge) {
          SizeBetween(a, b, reference);
          RefusedBySize(a, b, reference);
        }
      } else {
        var reference := MostSizeReached(a, b);
        RefusedBySize(a, b, reference);
      }
    }
  }

  /**
   * The verdict on the size when a box is typed is the verdict wherever it resolves, exactly when the least that its
   * corners can span is over the cap with it, or the most is within the cap.
   */
  lemma SizeVerdictExactly(a: Point, b: Point)
    requires PointInWorld(a) && PointInWorld(b)
    ensures (forall reference :: BothResolve(a, b, reference) ==>
               (BoxTooLarge(a, b) <==> ResolveShape(Box(a, b), reference, true) == Err(TooLarge)))
            <==> (if BoxTooLarge(a, b) then LeastSize(a, b) > MAX_CELLS else MostSize(a, b) <= MAX_CELLS)
  {
    hide ResolveShape, LeastSize, MostSize, ResolvePoint, BoxTooLarge, BothResolve;
    WronglyRefusedExactly(a, b);
    WronglyAcceptedExactly(a, b);
  }

  /** Both coordinates are plain numbers, or both are offsets a whole number apart. */
  predicate WholeApart(a: Coordinate, b: Coordinate)
  {
    SameKind(a, b) && (a.Relative? ==> IsWhole(b.offset - a.offset))
  }

  predicate CornersWholeApart(a: Point, b: Point)
  {
    WholeApart(a.x, b.x) && WholeApart(a.y, b.y) && WholeApart(a.z, b.z)
  }

  lemma WholeSpan(a: Coordinate, b: Coordinate)
    requires WholeApart(a, b)
    ensures LeastSpan(a, b) == RawSpan(a, b) == MostSpan(a, b)
  {
    if a.Relative? {
      var d := (b.offset - a.offset).Floor;
      FloorShift(a.offset, d);
      FloorShift(0.0, -d);
      assert Distance(a, b) == (if d < 0 then -d else d) as real;
    }
  }

  /** For corners a whole number of blocks apart the least and the most are what is seen when typed: both verdicts agree. */
  lemma SizeVerdictAgrees(corner: Point, opposite: Point, reference: Triple<real>)
    requires CornersWholeApart(corner, opposite) && BothResolve(corner, opposite, reference)
    ensures BoxTooLarge(corner, opposite) <==> ResolveShape(Box(corner, opposite), reference, true) == Err(TooLarge)
  {
    WholeSpan(corner.x, opposite.x);
    WholeSpan(corner.y, opposite.y);
    WholeSpan(corner.z, opposite.z);
    SizeBetween(corner, opposite, reference);
    RefusedBySize(corner, opposite, reference);
  }

  lemma WholeOffsets(corner: Point, opposite: Point)
    requires SameKind(corner.x, opposite.x) && SameKind(corner.y, opposite.y) && SameKind(corner.z, opposite.z)
    requires IsWhole(Raw(corner.x)) && IsWhole(Raw(corner.y)) && IsWhole(Raw(corner.z))
    requires IsWhole(Raw(opposite.x)) && IsWhole(Raw(opposite.y)) && IsWhole(Raw(opposite.z))
    ensures CornersWholeApart(corner, opposite)
  {
    FloorShift(0.0, Raw(opposite.x).Floor - Raw(corner.x).Floor);
    FloorShift(0.0, Raw(opposite.y).Floor - Raw(corner.y).Floor);
    FloorShift(0.0, Raw(opposite.z).Floor - Raw(corner.z).Floor);
  }

  /** A row of fractional offsets can be refused when typed although it fits where the Bot stands. */
  lemma FractionsMayDisagree()
    ensures var corner: Point := Triple(Relative(0.5), Absolute(0.0), Absolute(0.0));
      var opposite: Point := Triple(Relative(17157.4), Absolute(0.0), Absolute(0.0));
      BoxTooLarge(corner, opposite) && ResolveShape(Box(corner, opposite), Triple(0.5, 0.0, 0.0), true).Ok?
  {
    assert (0.5).Floor == 0 && (17157.4).Floor == 17157;
    assert (0.5 + 0.5).Floor == 1 && (0.5 + 17157.4).Floor == 17157;
  }

  // -- bounds ---------------------------------------------------------------------------------------------

  predicate InBounds(c: Block, low: Block, high: Block)
  {
    low.x <= c.x <= high.x && low.y <= c.y <= high.y && low.z <= c.z <= high.z
  }

  lemma SquareNonNegative(v: real)
    ensures Square(v) >= 0.0
  {
  }

  lemma SquareGrows(v: real, r: real)
    requires v > r >= 0.0
    ensures Square(v) > Square(r)
  {
    var d := v - r;
    assert d * d > 0.0 && d * r >= 0.0;
    assert Square(r + d) == r * r + 2.0 * (d * r) + d * d;
    assert r + d == v;
  }

  lemma WithinRoot(v: real, r: real)
    requires r >= 0.0 && Square(v) <= Square(r)
    ensures -r <= v <= r
  {
    if v > r { SquareGrows(v, r); }
    if v < -r { SquareGrows(-v, r); }
  }

  lemma CentreWithin(c: int, at: real, radius: real)
    requires -radius <= c as real + 0.5 - at <= radius
    ensures (at - radius - 0.5).Floor <= c <= (at + radius - 0.5).Floor
  {
  }

  /** Every cell that a shape has lies in its bounds. */
  lemma BoundsCover(s: Shape, c: Block)
    requires ShapeContains(s, c)
    ensures InBounds(c, Bounds(s).0, Bounds(s).1)
  {
    if s.Sphere? {
      var at := Numbers(if s.centre.Some? then s.centre.value else BOT_CENTRE);
      var x, y, z := c.x as real + 0.5 - at.x, c.y as real + 0.5 - at.y, c.z as real + 0.5 - at.z;
      SquareNonNegative(x);
      SquareNonNegative(y);
      SquareNonNegative(z);
      WithinRoot(x, s.radius);
      WithinRoot(y, s.radius);
      WithinRoot(z, s.radius);
      CentreWithin(c.x, at.x, s.radius);
      CentreWithin(c.y, at.y, s.radius);
      CentreWithin(c.z, at.z, s.radius);
    }
  }

  lemma AxisSpan(at: real, radius: real)
    requires 0.0 < radius <= MAX_RADIUS
    ensures 1 <= (at + radius - 0.5).Floor - (at - radius - 0.5).Floor + 1 <= 33
  {
  }

  /** A resolved area is at most 17157 cells of a box, or 33 cells along each axis of a sphere. */
  lemma ResolvedBounds(a: Area, reference: Triple<real>)
    requires Resolve(a, reference).Ok? && a.within.Some?
    ensures var s := Resolve(a, reference).value.within.value;
      var (low, high) := Bounds(s);
      && low.x <= high.x && low.y <= high.y && low.z <= high.z
      && (s.Cell? ==> low == high)
      && (s.Box? ==> Volume(low, high) <= MAX_CELLS)
      && (s.Sphere? ==> high.x - low.x + 1 <= 33 && high.y - low.y + 1 <= 33 && high.z - low.z + 1 <= 33)
  {
    var s := Resolve(a, reference).value.within.value;
    if s.Sphere? {
      var at := Numbers(s.centre.value);
      AxisSpan(at.x, s.radius);
      AxisSpan(at.y, s.radius);
      AxisSpan(at.z, s.radius);
    }
  }

  // -- the cells --------------------------------------------------------------------------------------------

  /** The order in which cells are listed. */
  predicate Before(c: Block, d: Block)
  {
    c.x < d.x || (c.x == d.x && (c.y < d.y || (c.y == d.y && c.z < d.z)))
  }

  ghost predicate Ordered(r: seq<Block>) { forall i, k :: 0 <= i < k < |r| ==> Before(r[i], r[k]) }

  /** Exactly the admitted cells of the bounds that come before a place. */
  ghost predicate ListedUpTo(r: seq<Block>, a: Area, low: Block, high: Block, place: Block)
  {
    forall c :: c in r <==> InBounds(c, low, high) && Before(c, place) && Contains(a, c)
  }

  lemma AppendOrdered(r: seq<Block>, c: Block)
    requires Ordered(r) && forall d :: d in r ==> Before(d, c)
    ensures Ordered(r + [c])
  {
  }

  lemma NextPlace(a: Area, low: Block, high: Block, r: seq<Block>, c: Block)
    requires ListedUpTo(r, a, low, high, c) && InBounds(c, low, high)
    ensures ListedUpTo(if Contains(a, c) then r + [c] else r, a, low, high, Triple(c.x, c.y, c.z + 1))
  {
    var s := if Contains(a, c) then r + [c] else r;
    forall d ensures d in s <==> InBounds(d, low, high) && Before(d, Triple(c.x, c.y, c.z + 1)) && Contains(a, d) {
      assert d in s <==> d in r || (d == c && Contains(a, c));
    }
  }

  lemma NextRow(a: Area, low: Block, high: Block, r: seq<Block>, x: int, y: int)
    requires ListedUpTo(r, a, low, high, Triple(x, y, high.z + 1))
    ensures ListedUpTo(r, a, low, high, Triple(x, y + 1, low.z))
  {
    forall d ensures d in r <==> InBounds(d, low, high) && Before(d, Triple(x, y + 1, low.z)) && Contains(a, d) {
      assert InBounds(d, low, high) ==> (Before(d, Triple(x, y + 1, low.z)) <==> Before(d, Triple(x, y, high.z + 1)));
    }
  }

  lemma NextPlane(a: Area, low: Block, high: Block, r: seq<Block>, x: int)
    requires ListedUpTo(r, a, low, high, Triple(x, high.y + 1, low.z))
    ensures ListedUpTo(r, a, low, high, Triple(x + 1, low.y, low.z))
  {
    forall d ensures d in r <==> InBounds(d, low, high) && Before(d, Triple(x + 1, low.y, low.z)) && Contains(a, d) {
      assert InBounds(d, low, high)
             ==> (Before(d, Triple(x + 1, low.y, low.z)) <==> Before(d, Triple(x, high.y + 1, low.z)));
    }
  }

  lemma MoreRows(n: int, size: int)
    ensures (n + 1) * size == n * size + size
  {
  }

  /**
   * Lists, once each and in order, exactly the cells that the area admits, for any area with a `within` shape; there
   * are no more of them than its bounds hold.
   */
  method Cells(a: Area) returns (r: seq<Block>)
    requires a.within.Some?
    ensures Ordered(r)
    ensures forall c :: c in r <==> Contains(a, c)
    ensures var (low, high) := Bounds(a.within.value);
      low.x <= high.x && low.y <= high.y && low.z <= high.z ==> |r| <= Volume(low, high)
  {
    hide Contains, Bounds;
    var (low, high) := Bounds(a.within.value);
    r := [];
    if high.x < low.x || high.y < low.y || high.z < low.z {
      NothingOutside(a, low, high);
      return;
    }
    ghost var row, plane := high.z - low.z + 1, (high.y - low.y + 1) * (high.z - low.z + 1);
    var x := low.x;
    while x <= high.x
      invariant low.x <= x <= high.x + 1
      invariant Ordered(r) && ListedUpTo(r, a, low, high, Triple(x, low.y, low.z))
      invariant |r| <= (x - low.x) * plane
    {
      var y := low.y;
      while y <= high.y
        invariant low.y <= y <= high.y + 1
        invariant Ordered(r) && ListedUpTo(r, a, low, high, Triple(x, y, low.z))
        invariant |r| <= (x - low.x) * plane + (y - low.y) * row
      {
        var z := low.z;
        while z <= high.z
          invariant low.z <= z <= high.z + 1
          invariant Ordered(r) && ListedUpTo(r, a, low, high, Triple(x, y, z))
          invariant |r| <= (x - low.x) * plane + (y - low.y) * row + (z - low.z)
        {
          NextPlace(a, low, high, r, Triple(x, y, z));
          if Contains(a, Triple(x, y, z)) {
            AppendOrdered(r, Triple(x, y, z));
            r := r + [Triple(x, y, z)];
          }
          z := z + 1;
        }
        NextRow(a, low, high, r, x, y);
        MoreRows(y - low.y, row);
        y := y + 1;
      }
      NextPlane(a, low, high, r, x);
      MoreRows(x - low.x, plane);
      x := x + 1;
    }
    AllListed(a, low, high, r);
    assert Volume(low, high) == (high.x + 1 - low.x) * plane;
  }

  lemma NothingOutside(a: Area, low: Block, high: Block)
    requires a.within.Some? && (low, high) == Bounds(a.within.value)
    requires high.x < low.x || high.y < low.y || high.z < low.z
    ensures forall c :: !Contains(a, c)
  {
    forall c ensures !Contains(a, c) {
      if Contains(a, c) { BoundsCover(a.within.value, c); }
    }
  }

  lemma AllListed(a: Area, low: Block, high: Block, r: seq<Block>)
    requires a.within.Some? && (low, high) == Bounds(a.within.value)
    requires ListedUpTo(r, a, low, high, Triple(high.x + 1, low.y, low.z))
    ensures forall c :: c in r <==> Contains(a, c)
  {
    forall c ensures c in r <==> Contains(a, c) {
      if Contains(a, c) { BoundsCover(a.within.value, c); }
      assert InBounds(c, low, high) ==> Before(c, Triple(high.x + 1, low.y, low.z));
    }
  }
}
