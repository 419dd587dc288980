/** The area value of every operation (core/src/endbot_core/areas.py): clauses, resolution, membership and cells. */
module Areas {
  import opened Common

  const MAX_RADIUS: real := 16.0
  const MAX_CELLS: int := 17157
  const WORLD_LIMIT: real := 30000000.0
  /** Below this size a number that is not whole is printed with an exponent. */
  const PLAIN_LIMIT: real := 0.0001

  /**
   * A word of the clause text. A number is kept by its value; `BareSign` is a `~` with a sign and no digits, and
   * `Scientific` a number printed with an exponent, which no area value may have.
   */
  datatype Token = Word(text: string) | Value(relative: bool, value: real) | BareSign
                 | Scientific(relative: bool, value: real)

  datatype Coordinate = Absolute(value: real) | Relative(offset: real)

  datatype Triple<T> = Triple(x: T, y: T, z: T)

  type Point = Triple<Coordinate>

  datatype Shape = Cell(at: Point) | Box(corner: Point, opposite: Point)
                 | Sphere(radius: real, centre: Option<Point>)

  datatype Area = Area(within: Option<Shape>, exceptions: seq<Shape>)

  datatype Error = OutOfWorld | NotANumber | RelativeRadius | RadiusNotPositive | TooLarge | Usage | WithinTwice
                 | ExceptTwice | UnknownShape | NoArea | InvalidRadius

  // -- words ----------------------------------------------------------------------------------

  function LowerChar(c: char): char { if 'A' <= c <= 'Z' then c - 'A' + 'a' else c }

  function Lower(s: string): string { if s == "" then "" else [LowerChar(s[0])] + Lower(s[1..]) }

  predicate Alphabetic(s: string) { s != "" && forall i :: 0 <= i < |s| ==> 'a' <= LowerChar(s[i]) <= 'z' }

  predicate IsWord(t: Token, word: string) { t.Word? && Lower(t.text) == word }

  predicate IsClause(t: Token) { IsWord(t, "within") || IsWord(t, "except") }

  predicate IsValue(t: Token) { t.Value? || t.BareSign? }

  /** A word after an empty clause that names no shape and is no other clause's word either. */
  predicate NamesNothing(t: Token)
  {
    t.Word? && Alphabetic(t.text)
    && Lower(t.text) !in ["for", "count", "limit", "continuous", "once", "stop", "within", "except"]
  }

  // -- reading clauses --------------------------------------------------------------------------

  function Abs(v: real): real { if v < 0.0 then -v else v }

  function Number(t: Token): Result<real, Error>
  {
    if !t.Value? then Err(NotANumber) else if Abs(t.value) > WORLD_LIMIT then Err(OutOfWorld) else Ok(t.value)
  }

  function ReadCoordinate(t: Token): Result<Coordinate, Error>
  {
    match Number(t)
    case Err(e) => Err(e)
    case Ok(v) => Ok(if t.Value? && t.relative then Relative(v) else Absolute(v))
  }

  function ReadRadius(t: Token, within: bool): Result<real, Error>
  {
    if t.BareSign? || (t.Value? && t.relative) then Err(RelativeRadius)
    else if Number(t).Err? then Err(Number(t).error)
    else if Number(t).value <= 0.0 then Err(RadiusNotPositive)
    else if within && Number(t).value > MAX_RADIUS then Err(TooLarge)
    else Number(t)
  }

  function ReadPoint(values: seq<Token>): Result<Point, Error>
    requires |values| == 3
  {
    var x, y, z := ReadCoordinate(values[0]), ReadCoordinate(values[1]), ReadCoordinate(values[2]);
    if x.Err? then Err(x.error)
    else if y.Err? then Err(y.error)
    else if z.Err? then Err(z.error)
    else Ok(Triple(x.value, y.value, z.value))
  }

  function Span(a: int, b: int): int { (if a < b then b - a else a - b) + 1 }

  predicate BothRelative(a: Coordinate, b: Coordinate) { a.Relative? && b.Relative? }

  predicate SameKind(a: Coordinate, b: Coordinate) { a.Relative? == b.Relative? }

  function Raw(c: Coordinate): real { if c.Relative? then c.offset else c.value }

  predicate InWorld(c: Coordinate) { Abs(Raw(c)) <= WORLD_LIMIT }

  predicate PointInWorld(p: Point) { InWorld(p.x) && InWorld(p.y) && InWorld(p.z) }

  /** The cells between two coordinates of one kind, as far as it is known before `~` resolves. */
  function RawSpan(a: Coordinate, b: Coordinate): int { Span(Raw(a).Floor, Raw(b).Floor) }

  function RawSize(a: Point, b: Point): int { RawSpan(a.x, b.x) * RawSpan(a.y, b.y) * RawSpan(a.z, b.z) }

  /** A box is refused early only where every axis is of one kind. */
  predicate BoxTooLarge(a: Point, b: Point)
  {
    SameKind(a.x, b.x) && SameKind(a.y, b.y) && SameKind(a.z, b.z) && RawSize(a, b) > MAX_CELLS
  }

  function ReadShape(within: bool, values: seq<Token>, of: bool): Result<Shape, Error>
  {
    if of then
      if |values| != 4 then Err(Usage)
      else
        var radius := ReadRadius(values[0], within);
        if radius.Err? then Err(radius.error)
        else
          var at := ReadPoint(values[1..]);
          if at.Err? then Err(at.error) else Ok(Sphere(radius.value, Some(at.value)))
    else if |values| == 1 then
      var radius := ReadRadius(values[0], within);
      if radius.Err? then Err(radius.error) else Ok(Sphere(radius.value, None))
    else if |values| == 3 then
      var at := ReadPoint(values);
      if at.Err? then Err(at.error) else Ok(Cell(at.value))
    else if |values| == 6 then
      var a := ReadPoint(values[..3]);
      if a.Err? then Err(a.error)
      else
        var b := ReadPoint(values[3..]);
        if b.Err? then Err(b.error)
        else if within && BoxTooLarge(a.value, b.value) then Err(TooLarge)
        else Ok(Box(a.value, b.value))
    else Err(Usage)
  }

  /** The values after a clause word, whether `of` stood after the first, and what follows. */
  datatype Grabbed = Grabbed(values: seq<Token>, of: bool, next: seq<Token>)

  function Grab(tokens: seq<Token>, values: seq<Token>, of: bool): (r: Grabbed)
    ensures |r.next| <= |tokens|
    decreases |tokens|
  {
    if tokens == [] then Grabbed(values, of, tokens)
    else if IsValue(tokens[0]) then Grab(tokens[1..], values + [tokens[0]], of)
    else if IsWord(tokens[0], "of") && |values| == 1 && !of then Grab(tokens[1..], values, true)
    else Grabbed(values, of, tokens)
  }

  datatype Taken = Taken(area: Area, rest: seq<Token>, seen: bool)

  const NOTHING := Taken(Area(None, []), [], false)

  predicate Repeats(taken: Taken, within: bool, chain: bool)
  {
    if within then taken.area.within.Some? else taken.area.exceptions != [] && !chain
  }

  function WithShape(taken: Taken, within: bool, shape: Shape): Taken
  {
    taken.(seen := true,
           area := if within then taken.area.(within := Some(shape))
                   else taken.area.(exceptions := taken.area.exceptions + [shape]))
  }

  /** The clauses of a command's words, and the other words in order. */
  function Take(tokens: seq<Token>, taken: Taken, chain: bool): Result<Taken, Error>
    decreases |tokens|
  {
    if tokens == [] then Ok(taken)
    else if !IsClause(tokens[0]) then Take(tokens[1..], taken.(rest := taken.rest + [tokens[0]]), chain)
    else
      var within := IsWord(tokens[0], "within");
      if Repeats(taken, within, chain) then Err(if within then WithinTwice else ExceptTwice)
      else
        var grabbed := Grab(tokens[1..], [], false);
        if grabbed.values == [] && grabbed.next != [] && NamesNothing(grabbed.next[0]) then Err(UnknownShape)
        else
          var shape := ReadShape(within, grabbed.values, grabbed.of);
          if shape.Err? then Err(shape.error) else Take(grabbed.next, WithShape(taken, within, shape.value), chain)
  }

  function ParseArea(tokens: seq<Token>, chain: bool): Result<Area, Error>
  {
    if tokens == [] then Err(NoArea)
    else
      var taken := Take(tokens, NOTHING, chain);
      if taken.Err? then Err(taken.error)
      else if !taken.value.seen || taken.value.rest != [] then Err(NoArea)
      else Ok(taken.value.area)
  }

  /** The source's loop over the words; the inner loop gathers the values of one clause. */
  method TakeArea(tokens: seq<Token>, chain: bool) returns (r: Result<Taken, Error>)
    ensures r == Take(tokens, NOTHING, chain)
  {
    var taken, index := NOTHING, 0;
    while index < |tokens|
      invariant index <= |tokens|
      invariant Take(tokens, NOTHING, chain) == Take(tokens[index..], taken, chain)
    {
      if !IsClause(tokens[index]) {
        taken := taken.(rest := taken.rest + [tokens[index]]);
        index := index + 1;
        continue;
      }
      var within := IsWord(tokens[index], "within");
      if within && taken.area.within.Some? { return Err(WithinTwice); }
      if !within && taken.area.exceptions != [] && !chain { return Err(ExceptTwice); }
      ghost var start := index;
      index := index + 1;
      var values, of := [], false;
      while index < |tokens|
        invariant start < index <= |tokens|
        invariant Grab(tokens[start + 1..], [], false) == Grab(tokens[index..], values, of)
      {
        if IsValue(tokens[index]) { values := values + [tokens[index]]; }
        else if IsWord(tokens[index], "of") && |values| == 1 && !of { of := true; }
        else { break; }
        index := index + 1;
      }
      assert Grab(tokens[start + 1..], [], false) == Grabbed(values, of, tokens[index..]);
      if values == [] && index < |tokens| && NamesNothing(tokens[index]) { return Err(UnknownShape); }
      var shape := ReadShape(within, values, of);
      if shape.Err? { return Err(shape.error); }
      taken := WithShape(taken, within, shape.value);
    }
    return Ok(taken);
  }

  /** The size check multiplies axis by axis and gives up at the first pair of mixed kinds. */
  method CheckBox(a: Point, b: Point) returns (refused: bool)
    ensures refused == BoxTooLarge(a, b)
  {
    var first, second := [a.x, a.y, a.z], [b.x, b.y, b.z];
    var size, axis := 1, 0;
    while axis < 3
      invariant 0 <= axis <= 3
      invariant axis >= 1 ==> SameKind(a.x, b.x)
      invariant axis >= 2 ==> SameKind(a.y, b.y)
      invariant axis >= 3 ==> SameKind(a.z, b.z)
      invariant size == if axis == 0 then 1 else if axis == 1 then RawSpan(a.x, b.x)
                        else if axis == 2 then RawSpan(a.x, b.x) * RawSpan(a.y, b.y) else RawSize(a, b)
    {
      if first[axis].Relative? != second[axis].Relative? { return false; }
      size := size * RawSpan(first[axis], second[axis]);
      axis := axis + 1;
    }
    return size > MAX_CELLS;
  }

  // -- printing --------------------------------------------------------------------------------

  predicate IsWhole(v: real) { v == v.Floor as real }

  function Printed(relative: bool, v: real): Token
  {
    if IsWhole(v) || Abs(v) >= PLAIN_LIMIT then Value(relative, v) else Scientific(relative, v)
  }

  function Format(c: Coordinate): Token { Printed(c.Relative?, Raw(c)) }

  function PointTokens(p: Point): seq<Token> { [Format(p.x), Format(p.y), Format(p.z)] }

  function ShapeTokens(s: Shape): seq<Token>
  {
    match s
    case Cell(at) => PointTokens(at)
    case Box(corner, opposite) => PointTokens(corner) + PointTokens(opposite)
    case Sphere(radius, centre) =>
      [Printed(false, radius)] + if centre.Some? then [Word("of")] + PointTokens(centre.value) else []
  }

  function ExceptTokens(shapes: seq<Shape>): seq<Token>
  {
    if shapes == [] then [] else [Word("except")] + ShapeTokens(shapes[0]) + ExceptTokens(shapes[1..])
  }

  function AreaTokens(a: Area): seq<Token>
  {
    (if a.within.Some? then [Word("within")] + ShapeTokens(a.within.value) else []) + ExceptTokens(a.exceptions)
  }

  // -- resolution --------------------------------------------------------------------------------

  function At(c: Coordinate, reference: real): real
  {
    if c.Relative? then reference + c.offset else c.value
  }

  function ResolvePoint(p: Point, reference: Triple<real>): Result<Triple<real>, Error>
  {
    var r := Triple(At(p.x, reference.x), At(p.y, reference.y), At(p.z, reference.z));
    if Abs(r.x) <= WORLD_LIMIT && Abs(r.y) <= WORLD_LIMIT && Abs(r.z) <= WORLD_LIMIT then Ok(r) else Err(OutOfWorld)
  }

  const BOT_CENTRE: Point := Triple(Relative(0.0), Relative(0.0), Relative(0.0))

  function Fixed(r: Triple<real>): Point { Triple(Absolute(r.x), Absolute(r.y), Absolute(r.z)) }

  function Floors(r: Triple<real>): Triple<int> { Triple(r.x.Floor, r.y.Floor, r.z.Floor) }

  function Whole(r: Triple<int>): Point { Fixed(Triple(r.x as real, r.y as real, r.z as real)) }

  function Min(a: int, b: int): int { if a < b then a else b }

  function Max(a: int, b: int): int { if a < b then b else a }

  function Volume(low: Triple<int>, high: Triple<int>): int
  {
    (high.x - low.x + 1) * (high.y - low.y + 1) * (high.z - low.z + 1)
  }

  function ResolveShape(s: Shape, reference: Triple<real>, within: bool): Result<Shape, Error>
  {
    match s
    case Cell(at) =>
      var r := ResolvePoint(at, reference);
      if r.Err? then Err(r.error) else Ok(Cell(Whole(Floors(r.value))))
    case Box(corner, opposite) =>
      var first := ResolvePoint(corner, reference);
      if first.Err? then Err(first.error)
      else
        var second := ResolvePoint(opposite, reference);
        if second.Err? then Err(second.error)
        else
          var a, b := Floors(first.value), Floors(second.value);
          var low := Triple(Min(a.x, b.x), Min(a.y, b.y), Min(a.z, b.z));
          var high := Triple(Max(a.x, b.x), Max(a.y, b.y), Max(a.z, b.z));
          if within && Volume(low, high) > MAX_CELLS then Err(TooLarge) else Ok(Box(Whole(low), Whole(high)))
    case Sphere(radius, centre) =>
      if radius <= 0.0 || (within && radius > MAX_RADIUS) then Err(InvalidRadius)
      else
        var r := ResolvePoint(if centre.Some? then centre.value else BOT_CENTRE, reference);
        if r.Err? then Err(r.error) else Ok(Sphere(radius, Some(Fixed(r.value))))
  }

  function ResolveAll(shapes: seq<Shape>, reference: Triple<real>): Result<seq<Shape>, Error>
  {
    if shapes == [] then Ok([])
    else
      var first := ResolveShape(shapes[0], reference, false);
      if first.Err? then Err(first.error)
      else
        var others := ResolveAll(shapes[1..], reference);
        if others.Err? then Err(others.error) else Ok([first.value] + others.value)
  }

  function Resolve(a: Area, reference: Triple<real>): Result<Area, Error>
  {
    var within := if a.within.Some? then ResolveShape(a.within.value, reference, true) else Ok(BOT_CELL);
    if within.Err? then Err(within.error)
    else
      var exceptions := ResolveAll(a.exceptions, reference);
      if exceptions.Err? then Err(exceptions.error)
      else Ok(Area(if a.within.Some? then Some(within.value) else None, exceptions.value))
  }

  const BOT_CELL := Cell(BOT_CENTRE)

  predicate PointRelative(p: Point) { p.x.Relative? || p.y.Relative? || p.z.Relative? }

  predicate ShapeRelative(s: Shape)
  {
    match s
    case Cell(at) => PointRelative(at)
    case Box(corner, opposite) => PointRelative(corner) || PointRelative(opposite)
    case Sphere(_, centre) => centre.None? || PointRelative(centre.value)
  }

  /** Whether resolving the area needs the Bot's position. */
  predicate HasRelative(a: Area)
  {
    (a.within.Some? && ShapeRelative(a.within.value)) || exists s :: s in a.exceptions && ShapeRelative(s)
  }

  // -- membership -----------------------------------------------------------------------------------

  type Block = Triple<int>

  function Square(v: real): real { v * v }

  function Numbers(p: Point): Triple<real> { Triple(Raw(p.x), Raw(p.y), Raw(p.z)) }

  predicate ShapeContains(s: Shape, c: Block)
  {
    match s
    case Cell(at) => Numbers(at) == Triple(c.x as real, c.y as real, c.z as real)
    case Box(corner, opposite) =>
      var low, high := Numbers(corner), Numbers(opposite);
      && low.x <= c.x as real <= high.x && low.y <= c.y as real <= high.y && low.z <= c.z as real <= high.z
    case Sphere(radius, centre) =>
      var at := Numbers(if centre.Some? then centre.value else BOT_CENTRE);
      radius >= 0.0 &&
      Square(c.x as real + 0.5 - at.x) + Square(c.y as real + 0.5 - at.y) + Square(c.z as real + 0.5 - at.z)
      <= Square(radius)
  }

  predicate Contains(a: Area, c: Block)
  {
    && (a.within.Some? ==> ShapeContains(a.within.value, c))
    && !exists s :: s in a.exceptions && ShapeContains(s, c)
  }

  function Bounds(s: Shape): (Block, Block)
  {
    match s
    case Cell(at) => (Floors(Numbers(at)), Floors(Numbers(at)))
    case Box(corner, opposite) => (Floors(Numbers(corner)), Floors(Numbers(opposite)))
    case Sphere(radius, centre) =>
      var at := Numbers(if centre.Some? then centre.value else BOT_CENTRE);
      (Floors(Triple(at.x - radius - 0.5, at.y - radius - 0.5, at.z - radius - 0.5)),
       Floors(Triple(at.x + radius - 0.5, at.y + radius - 0.5, at.z + radius - 0.5)))
  }
}
