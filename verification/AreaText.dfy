/** Printing an area and reading it back (core/src/endbot_core/areas.py). */
module AreaText {
  import opened Common
  import opened Areas

  /** A shape that the reader of clauses can have built. */
  predicate WellFormed(s: Shape, within: bool)
  {
    match s
    case Cell(at) => PointInWorld(at)
    case Box(corner, opposite) =>
      PointInWorld(corner) && PointInWorld(opposite) && (within ==> !BoxTooLarge(corner, opposite))
    case Sphere(radius, centre) =>
      && 0.0 < radius <= WORLD_LIMIT && (within ==> radius <= MAX_RADIUS)
      && (centre.Some? ==> PointInWorld(centre.value))
  }

  ghost predicate AllWellFormed(shapes: seq<Shape>) { forall i :: 0 <= i < |shapes| ==> WellFormed(shapes[i], false) }

  ghost predicate AreaWellFormed(a: Area)
  {
    && (a.within.Some? ==> WellFormed(a.within.value, true))
    && AllWellFormed(a.exceptions)
    && (a.within.Some? || a.exceptions != [])
  }

  /** Whether a number prints without an exponent. */
  predicate Plain(v: real) { IsWhole(v) || Abs(v) >= PLAIN_LIMIT }

  predicate PointPlain(p: Point) { Plain(Raw(p.x)) && Plain(Raw(p.y)) && Plain(Raw(p.z)) }

  predicate ShapePlain(s: Shape)
  {
    match s
    case Cell(at) => PointPlain(at)
    case Box(corner, opposite) => PointPlain(corner) && PointPlain(opposite)
    case Sphere(radius, centre) => Plain(radius) && (centre.Some? ==> PointPlain(centre.value))
  }

  predicate AllPlain(shapes: seq<Shape>)
  {
    shapes == [] || (ShapePlain(shapes[0]) && AllPlain(shapes[1..]))
  }

  predicate AreaPlain(a: Area) { (a.within.Some? ==> ShapePlain(a.within.value)) && AllPlain(a.exceptions) }

  /** Words at which the values of a clause end. */
  predicate Stops(tokens: seq<Token>) { tokens == [] || IsClause(tokens[0]) }

  lemma ClauseWords()
    ensures IsClause(Word("within")) && IsClause(Word("except"))
    ensures IsWord(Word("within"), "within") && !IsWord(Word("except"), "within")
    ensures IsWord(Word("of"), "of")
  {
    hide Lower;
    LowerOf("within", 6);
    LowerOf("except", 6);
    LowerOf("of", 2);
  }

  /** Words in lower case stay as they are. */
  lemma {:induction false} LowerOf(s: string, n: nat)
    requires n == |s| && forall i :: 0 <= i < |s| ==> 'a' <= s[i] <= 'z'
    ensures Lower(s) == s
    decreases n
  {
    if s != "" {
      LowerOf(s[1..], n - 1);
      assert s == [s[0]] + s[1..];
    }
  }

  lemma StopsGrab(tokens: seq<Token>, values: seq<Token>, of: bool)
    requires Stops(tokens)
    ensures Grab(tokens, values, of) == Grabbed(values, of, tokens)
  {
    if tokens != [] { assert Lower(tokens[0].text) != "of"; }
  }

  lemma {:induction false} GrabValues(read: seq<Token>, tail: seq<Token>, values: seq<Token>, of: bool)
    requires forall i :: 0 <= i < |read| ==> IsValue(read[i])
    ensures Grab(read + tail, values, of) == Grab(tail, values + read, of)
    decreases |read|
  {
    if read == [] {
      assert read + tail == tail && values + read == values;
    } else {
      assert (read + tail)[0] == read[0] && (read + tail)[1..] == read[1..] + tail;
      GrabValues(read[1..], tail, values + [read[0]], of);
      assert values + [read[0]] + read[1..] == values + read;
    }
  }

  lemma GrabOf(radius: Token, rest: seq<Token>)
    ensures Grab([Word("of")] + rest, [radius], false) == Grab(rest, [radius], true)
  {
    ClauseWords();
    assert ([Word("of")] + rest)[1..] == rest;
  }

  lemma GrabSphere(radius: Token, at: seq<Token>, tail: seq<Token>)
    requires IsValue(radius) && Stops(tail) && forall i :: 0 <= i < |at| ==> IsValue(at[i])
    ensures Grab([radius] + [Word("of")] + at + tail, [], false) == Grabbed([radius] + at, true, tail)
  {
    hide Grab, Stops, IsWord, IsClause, IsValue;
    GrabValues([radius], [Word("of")] + (at + tail), [], false);
    assert [radius] + [Word("of")] + at + tail == [radius] + ([Word("of")] + (at + tail));
    assert [] + [radius] == [radius];
    GrabOf(radius, at + tail);
    GrabValues(at, tail, [radius], true);
    StopsGrab(tail, [radius] + at, true);
  }

  lemma PointReads(p: Point)
    requires PointInWorld(p) && PointPlain(p)
    ensures ReadPoint(PointTokens(p)) == Ok(p)
    ensures forall i :: 0 <= i < 3 ==> IsValue(PointTokens(p)[i])
  {
  }

  lemma PlainGrab(values: seq<Token>, tail: seq<Token>)
    requires Stops(tail) && forall i :: 0 <= i < |values| ==> IsValue(values[i])
    ensures Grab(values + tail, [], false) == Grabbed(values, false, tail)
  {
    GrabValues(values, tail, [], false);
    StopsGrab(tail, [] + values, false);
    assert [] + values == values;
  }

  lemma BoxReads(corner: Point, opposite: Point, within: bool)
    requires WellFormed(Box(corner, opposite), within) && ShapePlain(Box(corner, opposite))
    ensures ReadShape(within, PointTokens(corner) + PointTokens(opposite), false) == Ok(Box(corner, opposite))
  {
    hide PointPlain, PointInWorld, BoxTooLarge;
    PointReads(corner);
    PointReads(opposite);
    var values := PointTokens(corner) + PointTokens(opposite);
    assert values[..3] == PointTokens(corner) && values[3..] == PointTokens(opposite);
  }

  lemma SphereReads(radius: real, centre: Point, within: bool)
    requires WellFormed(Sphere(radius, Some(centre)), within) && ShapePlain(Sphere(radius, Some(centre)))
    ensures ReadShape(within, [Printed(false, radius)] + PointTokens(centre), true) == Ok(Sphere(radius, Some(centre)))
  {
    PointReads(centre);
    assert ([Printed(false, radius)] + PointTokens(centre))[1..] == PointTokens(centre);
  }

  /** The values of one printed shape are grabbed whole, and read as that shape. */
  lemma ShapeReads(s: Shape, within: bool, tail: seq<Token>)
    requires WellFormed(s, within) && ShapePlain(s) && Stops(tail)
    ensures var grabbed := Grab(ShapeTokens(s) + tail, [], false);
      grabbed.values != [] && grabbed.next == tail && ReadShape(within, grabbed.values, grabbed.of) == Ok(s)
  {
    hide Grab, Stops, BoxTooLarge;
    match s
    case Cell(at) =>
      PointReads(at);
      PlainGrab(PointTokens(at), tail);
    case Box(corner, opposite) =>
      PointReads(corner);
      PointReads(opposite);
      BoxReads(corner, opposite, within);
      hide ReadShape, PointInWorld, PointPlain;
      PlainGrab(PointTokens(corner) + PointTokens(opposite), tail);
    case Sphere(radius, centre) =>
      var size := Printed(false, radius);
      if centre.Some? {
        PointReads(centre.value);
        SphereReads(radius, centre.value, within);
        GrabSphere(size, PointTokens(centre.value), tail);
        hide ReadShape, PointTokens;
        assert ShapeTokens(s) + tail == [size] + [Word("of")] + PointTokens(centre.value) + tail;
      } else {
        PlainGrab([size], tail);
        assert ShapeTokens(s) == [size] + [] == [size];
      }
  }

  /** One printed clause is taken off the front. */
  lemma ClauseTaken(within: bool, s: Shape, tail: seq<Token>, taken: Taken)
    requires WellFormed(s, within) && ShapePlain(s) && Stops(tail) && !Repeats(taken, within, true)
    ensures Take([Word(if within then "within" else "except")] + ShapeTokens(s) + tail, taken, true)
            == Take(tail, WithShape(taken, within, s), true)
  {
    hide ShapeTokens, ReadShape, WithShape;
    ClauseWords();
    ShapeReads(s, within, tail);
    var all := [Word(if within then "within" else "except")] + ShapeTokens(s) + tail;
    assert all[1..] == ShapeTokens(s) + tail;
  }

  lemma ExceptTaken(shapes: seq<Shape>, taken: Taken)
    requires shapes != [] && WellFormed(shapes[0], false) && ShapePlain(shapes[0])
    ensures Take(ExceptTokens(shapes), taken, true)
            == Take(ExceptTokens(shapes[1..]), WithShape(taken, false, shapes[0]), true)
  {
    ExceptsStop(shapes[1..]);
    assert ExceptTokens(shapes) == [Word("except")] + ShapeTokens(shapes[0]) + ExceptTokens(shapes[1..]);
    hide ShapeTokens, Take, WellFormed, ShapePlain, Stops, ExceptTokens, WithShape;
    ClauseTaken(false, shapes[0], ExceptTokens(shapes[1..]), taken);
  }

  /** The area taken so far with more exceptions. */
  function WithExceptions(taken: Taken, shapes: seq<Shape>): Taken
  {
    taken.(seen := taken.seen || shapes != [],
           area := taken.area.(exceptions := taken.area.exceptions + shapes))
  }

  lemma WithNext(taken: Taken, shapes: seq<Shape>)
    requires shapes != []
    ensures WithExceptions(WithShape(taken, false, shapes[0]), shapes[1..]) == WithExceptions(taken, shapes)
  {
    assert taken.area.exceptions + [shapes[0]] + shapes[1..] == taken.area.exceptions + shapes;
  }

  lemma {:induction false} ExceptsTaken(shapes: seq<Shape>, taken: Taken)
    requires AllWellFormed(shapes) && AllPlain(shapes)
    ensures Take(ExceptTokens(shapes), taken, true) == Ok(WithExceptions(taken, shapes))
    decreases |shapes|
  {
    if shapes == [] {
      assert taken.area.exceptions + shapes == taken.area.exceptions;
    } else {
      assert AllWellFormed(shapes[1..]);
      hide Take, ExceptTokens, WithExceptions, WithShape, WellFormed, ShapePlain;
      ExceptTaken(shapes, taken);
      ExceptsTaken(shapes[1..], WithShape(taken, false, shapes[0]));
      WithNext(taken, shapes);
    }
  }

  lemma ExceptsStop(shapes: seq<Shape>)
    ensures Stops(ExceptTokens(shapes))
  {
    hide ShapeTokens;
    ClauseWords();
  }

  lemma PlainPrintsBack(a: Area)
    requires AreaWellFormed(a) && AreaPlain(a)
    ensures ParseArea(AreaTokens(a), true) == Ok(a)
  {
    hide ShapeTokens;
    ClauseWords();
    var excepts := ExceptTokens(a.exceptions);
    if a.within.Some? {
      assert Stops(excepts);
      ClauseTaken(true, a.within.value, excepts, NOTHING);
      ExceptsTaken(a.exceptions, WithShape(NOTHING, true, a.within.value));
    } else {
      assert [] + excepts == excepts;
      ExceptsTaken(a.exceptions, NOTHING);
    }
    assert [] + a.exceptions == a.exceptions;
  }

  // -- numbers with an exponent are never read ------------------------------------------------------

  lemma {:induction false} GrabLeaves(tokens: seq<Token>, values: seq<Token>, of: bool, t: Token)
    requires t.Scientific? && t in tokens
    ensures t in Grab(tokens, values, of).next
    decreases |tokens|
  {
    if tokens[0] != t {
      if IsValue(tokens[0]) {
        GrabLeaves(tokens[1..], values + [tokens[0]], of, t);
      } else if IsWord(tokens[0], "of") && |values| == 1 && !of {
        GrabLeaves(tokens[1..], values, true, t);
      }
    }
  }

  lemma {:induction false} TakeLeaves(tokens: seq<Token>, taken: Taken, chain: bool, t: Token)
    requires t.Scientific? && (t in tokens || t in taken.rest)
    ensures Take(tokens, taken, chain).Ok? ==> t in Take(tokens, taken, chain).value.rest
    decreases |tokens|
  {
    hide ReadShape;
    if tokens != [] {
      if !IsClause(tokens[0]) {
        TakeLeaves(tokens[1..], taken.(rest := taken.rest + [tokens[0]]), chain, t);
      } else if !Repeats(taken, IsWord(tokens[0], "within"), chain) {
        var within, grabbed := IsWord(tokens[0], "within"), Grab(tokens[1..], [], false);
        if t in tokens { GrabLeaves(tokens[1..], [], false, t); }
        var shape := ReadShape(within, grabbed.values, grabbed.of);
        if shape.Ok? { TakeLeaves(grabbed.next, WithShape(taken, within, shape.value), chain, t); }
      }
    }
  }

  lemma PointHasScientific(p: Point) returns (t: Token)
    requires !PointPlain(p)
    ensures t.Scientific? && t in PointTokens(p)
  {
    t := if !Plain(Raw(p.x)) then Format(p.x) else if !Plain(Raw(p.y)) then Format(p.y) else Format(p.z);
  }

  lemma ShapeHasScientific(s: Shape) returns (t: Token)
    requires !ShapePlain(s)
    ensures t.Scientific? && t in ShapeTokens(s)
  {
    match s
    case Cell(at) => t := PointHasScientific(at);
    case Box(corner, opposite) =>
      if !PointPlain(corner) { t := PointHasScientific(corner); } else { t := PointHasScientific(opposite); }
    case Sphere(radius, centre) =>
      if !Plain(radius) {
        t := Printed(false, radius);
        assert t == ShapeTokens(s)[0];
      } else {
        t := PointHasScientific(centre.value);
      }
  }

  lemma {:induction false} ExceptsHaveScientific(shapes: seq<Shape>) returns (t: Token)
    requires !AllPlain(shapes)
    ensures t.Scientific? && t in ExceptTokens(shapes)
    decreases |shapes|
  {
    if !ShapePlain(shapes[0]) { t := ShapeHasScientific(shapes[0]); } else { t := ExceptsHaveScientific(shapes[1..]); }
  }

  lemma AreaHasScientific(a: Area) returns (t: Token)
    requires !AreaPlain(a)
    ensures t.Scientific? && t in AreaTokens(a)
  {
    if a.within.Some? && !ShapePlain(a.within.value) { t := ShapeHasScientific(a.within.value); }
    else { t := ExceptsHaveScientific(a.exceptions); }
  }

  /**
   * Printing an area and reading it with chained `except` gives the same area exactly when every number in it that is
   * not whole is at least 0.0001 in size: smaller ones print with an exponent, which no area value may have.
   */
  lemma PrintsBackExactly(a: Area)
    requires AreaWellFormed(a)
    ensures ParseArea(AreaTokens(a), true) == Ok(a) <==> AreaPlain(a)
  {
    hide AreaPlain, AreaTokens;
    if AreaPlain(a) {
      PlainPrintsBack(a);
    } else {
      var t := AreaHasScientific(a);
      TakeLeaves(AreaTokens(a), NOTHING, true, t);
    }
  }

  /** A sphere centred one part in twenty thousand of a block beside the Bot does not print back. */
  lemma TinyOffsetDoesNotPrintBack()
    ensures var a := Area(Some(Sphere(1.0, Some(Triple(Relative(0.00005), Relative(0.0), Relative(0.0))))), []);
      AreaWellFormed(a) && ParseArea(AreaTokens(a), true) != Ok(a)
  {
    var p: Point := Triple(Relative(0.00005), Relative(0.0), Relative(0.0));
    var a := Area(Some(Sphere(1.0, Some(p))), []);
    assert (0.00005 as real).Floor == 0;
    assert !PointPlain(p);
    assert !AreaPlain(a);
    PrintsBackExactly(a);
  }

  // -- whatever is read is well formed --------------------------------------------------------------

  lemma ReadShapeWellFormed(within: bool, values: seq<Token>, of: bool)
    ensures ReadShape(within, values, of).Ok? ==> WellFormed(ReadShape(within, values, of).value, within)
  {
  }

  lemma {:induction false} TakeWellFormed(tokens: seq<Token>, taken: Taken, chain: bool)
    requires taken.seen ==> AreaWellFormed(taken.area)
    requires !taken.seen ==> taken.area == Area(None, [])
    ensures var r := Take(tokens, taken, chain); r.Ok? && r.value.seen ==> AreaWellFormed(r.value.area)
    decreases |tokens|
  {
    hide ReadShape, WellFormed;
    if tokens != [] {
      if !IsClause(tokens[0]) {
        TakeWellFormed(tokens[1..], taken.(rest := taken.rest + [tokens[0]]), chain);
      } else {
        var within, grabbed := IsWord(tokens[0], "within"), Grab(tokens[1..], [], false);
        var shape := ReadShape(within, grabbed.values, grabbed.of);
        ReadShapeWellFormed(within, grabbed.values, grabbed.of);
        if shape.Ok? { TakeWellFormed(grabbed.next, WithShape(taken, within, shape.value), chain); }
      }
    }
  }

  /** What is read is well formed, so printing it and reading again changes nothing unless it has a tiny fraction. */
  lemma ReadPrintRead(tokens: seq<Token>, chain: bool)
    requires ParseArea(tokens, chain).Ok?
    ensures var a := ParseArea(tokens, chain).value;
      AreaWellFormed(a) && (ParseArea(AreaTokens(a), true) == Ok(a) <==> AreaPlain(a))
  {
    TakeWellFormed(tokens, NOTHING, chain);
    PrintsBackExactly(ParseArea(tokens, chain).value);
  }
}
