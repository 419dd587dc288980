/** Every canonical operation text is read back (core/src/endbot_core/operations.py). */
module OperationText {
  import opened Common
  import opened Operations
  import opened OperationValues

  // -- shapes ---------------------------------------------------------------------------------

  predicate Unique(fields: seq<Field>)
  {
    fields == [] || (fields[0].key !in Keys(fields[1..]) && Unique(fields[1..]))
  }

  predicate AreaLast(fields: seq<Field>)
  {
    fields == [] || ((fields[0].spec.kind == KindArea ==> |fields| == 1) && AreaLast(fields[1..]))
  }

  predicate NoArea(fields: seq<Field>)
  {
    fields == [] || (fields[0].spec.kind != KindArea && NoArea(fields[1..]))
  }

  /** Every field has its own name, and only the last option may be an area. */
  predicate WellShaped(shape: Shape)
  {
    && Unique(shape.positional + shape.options) && NoArea(shape.positional) && AreaLast(shape.options)
    && "dimension" !in Keys(shape.positional)
  }

  /** No set of fields fits both shapes. */
  predicate Separated(a: Shape, b: Shape)
  {
    !(Keys(a.positional) + Keys(b.positional)
      <= (Keys(a.positional) + Keys(a.options)) * (Keys(b.positional) + Keys(b.options)))
  }

  lemma SeparatedExactly(a: Shape, b: Shape)
    ensures Separated(a, b) <==> !exists keys :: Admits(a, keys) && Admits(b, keys)
  {
    var both := Keys(a.positional) + Keys(b.positional);
    if !Separated(a, b) { assert Admits(a, both) && Admits(b, both); }
  }

  ghost predicate AllSeparated(shapes: seq<Shape>)
  {
    forall i, k :: 0 <= i < k < |shapes| ==> Separated(shapes[i], shapes[k])
  }

  ghost predicate AllWellShaped(shapes: seq<Shape>) { forall i :: 0 <= i < |shapes| ==> WellShaped(shapes[i]) }

  ghost predicate FieldReadsBack(v: Value, spec: Spec, area: AreaCodec)
  {
    if spec.kind == KindArea
    then v.AreaWords? && area(v.words).Some?
         && (var words := area(v.words).value; words != [] && words[0] in AREA_CLAUSES && area(words) == Some(words))
    else Scalar(v, spec).Some? && ReadsBack(v, spec)
  }

  ghost predicate AllReadBack(fields: seq<Field>, p: Params, area: AreaCodec)
  {
    forall f :: f in fields && f.key in p ==> FieldReadsBack(p[f.key], f.spec, area)
  }

  // -- writing ----------------------------------------------------------------------------------

  lemma {:induction false} WriteFrame(fields: seq<Field>, p: Params, q: Params, area: AreaCodec)
    requires forall k :: k in Keys(fields) ==> (k in p <==> k in q) && (k in p ==> p[k] == q[k])
    ensures Write(fields, p, area) == Write(fields, q, area)
    decreases |fields|
  {
    hide FieldTokens;
    if fields != [] { WriteFrame(fields[1..], p, q, area); }
  }

  lemma {:induction false} WriteAppend(a: seq<Field>, b: seq<Field>, p: Params, area: AreaCodec)
    ensures Write(a + b, p, area).Some? <==> Write(a, p, area).Some? && Write(b, p, area).Some?
    ensures Write(a + b, p, area).Some?
            ==> Write(a + b, p, area).value == Write(a, p, area).value + Write(b, p, area).value
    decreases |a|
  {
    hide FieldTokens;
    if a == [] {
      assert a + b == b;
    } else {
      assert (a + b)[1..] == a[1..] + b;
      WriteAppend(a[1..], b, p, area);
    }
  }

  lemma {:induction false} KeysAppend(a: seq<Field>, b: seq<Field>)
    ensures Keys(a + b) == Keys(a) + Keys(b)
    decreases |a|
  {
    if a == [] {
      assert a + b == b;
    } else {
      assert (a + b)[1..] == a[1..] + b;
      KeysAppend(a[1..], b);
    }
  }

  lemma {:induction false} UniqueParts(a: seq<Field>, b: seq<Field>)
    requires Unique(a + b)
    ensures Unique(a) && Unique(b) && Keys(a) !! Keys(b)
    decreases |a|
  {
    if a == [] {
      assert a + b == b;
    } else {
      assert (a + b)[1..] == a[1..] + b;
      KeysAppend(a[1..], b);
      UniqueParts(a[1..], b);
    }
  }

  lemma {:induction false} WithoutKeeps(fields: seq<Field>, key: string)
    requires Unique(fields)
    ensures var r := Without(fields, key);
      && Unique(r) && Keys(r) == Keys(fields) - {key} && (forall f :: f in r ==> f in fields)
    decreases |fields|
  {
    if fields != [] {
      WithoutKeeps(fields[1..], key);
      var r := Without(fields[1..], key);
      if fields[0].key != key {
        assert Without(fields, key) == [fields[0]] + r && ([fields[0]] + r)[1..] == r;
      } else {
        assert Without(fields, key) == [] + r == r;
      }
    }
  }

  lemma {:induction false} WithoutKeepsAreaLast(fields: seq<Field>, key: string)
    requires AreaLast(fields)
    ensures AreaLast(Without(fields, key)) && |Without(fields, key)| <= |fields|
    decreases |fields|
  {
    if fields != [] {
      WithoutKeepsAreaLast(fields[1..], key);
      var r := Without(fields[1..], key);
      assert ([fields[0]] + r)[1..] == r && [] + r == r;
    }
  }

  lemma TrailingKeeps(name: string, shape: Shape)
    requires WellShaped(shape)
    ensures var r := Trailing(name, shape);
      && Unique(r) && AreaLast(r) && Unique(shape.positional) && NoArea(shape.positional) && Keys(shape.positional) !! Keys(r)
      && Keys(r) == Keys(shape.options) - (if name == "tp" then {"dimension"} else {})
      && (forall f :: f in r ==> f in shape.options)
  {
    UniqueParts(shape.positional, shape.options);
    WithoutKeeps(shape.options, "dimension");
    WithoutKeepsAreaLast(shape.options, "dimension");
  }

  // -- reading what was written ----------------------------------------------------------------

  lemma PrependAt(key: string, v: Value, found: seq<Params>, q: Params)
    requires q in found
    ensures map[key := v] + q in Prepend(key, v, found)
  {
    var i :| 0 <= i < |found| && found[i] == q;
    assert Prepend(key, v, found)[i] == map[key := v] + q;
  }

  lemma JoinedAt(p: Params, found: seq<Params>, q: Params)
    requires q in found
    ensures p + q in Joined(p, found)
  {
    var i :| 0 <= i < |found| && found[i] == q;
    assert Joined(p, found)[i] == p + q;
  }

  /** Some reading of the written options gives the same fields and the same tokens. */
  lemma {:induction false} OptionsFind(fields: seq<Field>, p: Params, area: AreaCodec) returns (q: Params)
    requires Write(fields, p, area).Some? && Unique(fields) && AreaLast(fields) && AllReadBack(fields, p, area)
    ensures q in Options(fields, Write(fields, p, area).value, area)
    ensures q.Keys == p.Keys * Keys(fields) && Write(fields, q, area) == Write(fields, p, area)
    decreases |fields|
  {
    hide ReadValue, Scalar, ReadsBack;
    if fields == [] {
      q := map[];
    } else {
      var key, spec, others := fields[0].key, fields[0].spec, fields[1..];
      assert fields[0] in fields && forall f :: f in others ==> f in fields;
      if key !in p {
        q := OptionsFind(others, p, area);
      } else if spec.kind == KindArea {
        assert others == [];
        var words := area(p[key].words).value;
        q := map[key := AreaWords(words)];
        assert words + [] == words;
        assert Write(others, p, area) == Some([]) == Write(others, q, area);
      } else {
        q := FieldFind(fields, p, area);
      }
    }
  }

  lemma {:induction false} FieldFind(fields: seq<Field>, p: Params, area: AreaCodec) returns (q: Params)
    requires fields != [] && fields[0].key in p && fields[0].spec.kind != KindArea
    requires Write(fields, p, area).Some? && Unique(fields) && AreaLast(fields) && AllReadBack(fields, p, area)
    ensures q in Options(fields, Write(fields, p, area).value, area)
    ensures q.Keys == p.Keys * Keys(fields) && Write(fields, q, area) == Write(fields, p, area)
    decreases |fields|, 0
  {
    var key, spec, others := fields[0].key, fields[0].spec, fields[1..];
    OthersReadBack(fields, p, area);
    assert key !in Keys(others);
    var rest := Write(others, p, area).value;
    hide ReadValue, Scalar, AllReadBack;
    var found := OptionsFind(others, p, area);
    var token := Scalar(p[key], spec).value;
    var v := ReadValue(token, spec).value;
    q := map[key := v] + found;
    hide Unique, AreaLast, ReadsBack;
    OptionTaken(fields, token, rest, area, found);
    WriteFrame(others, q, found, area);
    WriteJoins(fields, p, area, token, rest);
    WriteJoins(fields, q, area, token, rest);
  }

  /** A first option that is there is read, and then the others are. */
  lemma OptionTaken(fields: seq<Field>, token: string, rest: seq<string>, area: AreaCodec, found: Params)
    requires fields != [] && fields[0].spec.kind != KindArea && ReadValue(token, fields[0].spec).Some?
    requires found in Options(fields[1..], rest, area)
    ensures map[fields[0].key := ReadValue(token, fields[0].spec).value] + found
            in Options(fields, ClauseOf(fields[0].spec) + [token] + rest, area)
  {
    hide ReadValue;
    var key, spec := fields[0].key, fields[0].spec;
    var tokens, n := ClauseOf(spec) + [token] + rest, |ClauseOf(spec)|;
    assert tokens[n] == token && tokens[..n] == ClauseOf(spec) && tokens[n + 1..] == rest;
    PrependAt(key, ReadValue(token, spec).value, Options(fields[1..], rest, area), found);
  }

  lemma OthersReadBack(fields: seq<Field>, p: Params, area: AreaCodec)
    requires fields != [] && AllReadBack(fields, p, area)
    ensures AllReadBack(fields[1..], p, area) && (fields[0].key in p ==> FieldReadsBack(p[fields[0].key], fields[0].spec, area))
  {
    hide FieldReadsBack;
    assert fields[0] in fields && forall f :: f in fields[1..] ==> f in fields;
  }

  lemma PositionalTaken(fields: seq<Field>, token: string, rest: seq<string>, start: Params)
    requires fields != [] && ReadValue(token, fields[0].spec).Some?
    ensures Positionals(fields, ClauseOf(fields[0].spec) + [token] + rest, start)
            == Positionals(fields[1..], rest, start[fields[0].key := ReadValue(token, fields[0].spec).value])
  {
    hide ReadValue;
    var spec := fields[0].spec;
    var tokens, n := ClauseOf(spec) + [token] + rest, |ClauseOf(spec)|;
    assert tokens[n] == token && tokens[..n] == ClauseOf(spec) && tokens[n + 1..] == rest;
  }

  lemma {:induction false} PositionalsFind(fields: seq<Field>, p: Params, tail: seq<string>, start: Params,
                                           area: AreaCodec) returns (q: Params)
    requires Write(fields, p, area).Some? && Unique(fields) && NoArea(fields) && AllReadBack(fields, p, area)
    requires Keys(fields) <= p.Keys
    ensures Positionals(fields, Write(fields, p, area).value + tail, start) == Some((q, tail))
    ensures q.Keys == start.Keys + Keys(fields) && Write(fields, q, area) == Write(fields, p, area)
    ensures forall k :: k in start && k !in Keys(fields) ==> q[k] == start[k]
    decreases |fields|
  {
    if fields == [] {
      q := start;
      assert [] + tail == tail;
    } else {
      var key, others := fields[0].key, fields[1..];
      OthersReadBack(fields, p, area);
      FirstReads(fields, p, area);
      hide *;
      var v := ReadValue(Scalar(p[key], fields[0].spec).value, fields[0].spec).value;
      q := PositionalsFind(others, p, tail, start[key := v], area);
      PositionalsJoin(fields, p, tail, start, q, area);
    }
  }

  lemma FirstReads(fields: seq<Field>, p: Params, area: AreaCodec)
    requires fields != [] && Write(fields, p, area).Some? && Unique(fields) && NoArea(fields)
    requires AllReadBack(fields, p, area) && Keys(fields) <= p.Keys
    ensures var f, others := fields[0], fields[1..];
      && f.spec.kind != KindArea && f.key in p && f.key !in Keys(others) && Unique(others) && NoArea(others)
      && Keys(fields) == {f.key} + Keys(others) && Write(others, p, area).Some?
      && Scalar(p[f.key], f.spec).Some? && ReadsBack(p[f.key], f.spec)
      && ReadValue(Scalar(p[f.key], f.spec).value, f.spec).Some?
  {
    assert fields[0].key in Keys(fields);
    OthersReadBack(fields, p, area);
    hide AllReadBack;
    assert FieldReadsBack(p[fields[0].key], fields[0].spec, area);
  }

  /** One more field in front of fields that were read. */
  lemma PositionalsJoin(fields: seq<Field>, p: Params, tail: seq<string>, start: Params, q: Params, area: AreaCodec)
    requires fields != [] && fields[0].spec.kind != KindArea && fields[0].key in p && Write(fields[1..], p, area).Some?
    requires Scalar(p[fields[0].key], fields[0].spec).Some? && ReadsBack(p[fields[0].key], fields[0].spec)
    requires var v := ReadValue(Scalar(p[fields[0].key], fields[0].spec).value, fields[0].spec).value;
      && Positionals(fields[1..], Write(fields[1..], p, area).value + tail, start[fields[0].key := v]) == Some((q, tail))
      && fields[0].key in q && q[fields[0].key] == v
    requires Write(fields[1..], q, area) == Write(fields[1..], p, area)
    ensures Write(fields, p, area).Some? && Write(fields, q, area) == Write(fields, p, area)
    ensures Positionals(fields, Write(fields, p, area).value + tail, start) == Some((q, tail))
  {
    var spec := fields[0].spec;
    var rest, token := Write(fields[1..], p, area).value, Scalar(p[fields[0].key], spec).value;
    WriteJoins(fields, p, area, token, rest);
    WriteJoins(fields, q, area, token, rest);
    hide *;
    PositionalTaken(fields, token, rest + tail, start);
    Regroup(ClauseOf(spec) + [token], rest, tail);
  }

  lemma Regroup(a: seq<string>, b: seq<string>, c: seq<string>)
    ensures a + b + c == a + (b + c)
  {
  }

  lemma WriteJoins(fields: seq<Field>, p: Params, area: AreaCodec, token: string, rest: seq<string>)
    requires fields != [] && fields[0].key in p && fields[0].spec.kind != KindArea
    requires Scalar(p[fields[0].key], fields[0].spec) == Some(token) && Write(fields[1..], p, area) == Some(rest)
    ensures Write(fields, p, area) == Some(ClauseOf(fields[0].spec) + [token] + rest)
  {
    hide Scalar, ClauseOf;
  }

  // -- one shape -----------------------------------------------------------------------------------

  ghost predicate ParamsReadBack(name: string, shape: Shape, p: Params, area: AreaCodec)
  {
    && AllReadBack(shape.positional, p, area) && AllReadBack(shape.options, p, area)
  }

  /** Words that start with `in` where no dimension was given would be taken for one. */
  predicate NoFalseDimension(name: string, shape: Shape, p: Params, tokens: seq<string>)
  {
    Leads(name, shape) && "dimension" !in p ==> tokens == [] || tokens[0] != "in"
  }

  lemma {:induction false} PositionIn(fields: seq<Field>, key: string)
    requires key in Keys(fields)
    ensures fields[Position(fields, key)] in fields && fields[Position(fields, key)].key == key
  {
  }

  lemma LeadingFind(name: string, shape: Shape, p: Params, body: seq<string>, area: AreaCodec) returns (start: Params)
    requires WellShaped(shape) && ParamsReadBack(name, shape, p, area)
    requires Leads(name, shape) && "dimension" in p ==> Scalar(p["dimension"], Dimension(shape)).Some?
    requires NoFalseDimension(name, shape, p, body)
    ensures var given := Leads(name, shape) && "dimension" in p;
      var lead := if given then ["in", Scalar(p["dimension"], Dimension(shape)).value] else [];
      && Leading(name, shape, lead + body) == Some((start, body))
      && start.Keys == (if given then {"dimension"} else {})
      && (given ==> Scalar(start["dimension"], Dimension(shape)) == Scalar(p["dimension"], Dimension(shape)))
  {
    if Leads(name, shape) && "dimension" in p {
      PositionIn(shape.options, "dimension");
      var field := shape.options[Position(shape.options, "dimension")];
      assert FieldReadsBack(p["dimension"], field.spec, area);
      var token := Scalar(p["dimension"], Dimension(shape)).value;
      start := map["dimension" := ReadValue(token, Dimension(shape)).value];
      assert (["in", token] + body)[2..] == body;
    } else {
      start := map[];
      assert [] + body == body;
    }
  }

  lemma MatchOf(name: string, shape: Shape, words: seq<string>, tail: seq<string>, rest: seq<string>, start: Params,
                placed: Params, found: Params, area: AreaCodec)
    ensures Leading(name, shape, words) == Some((start, shape.prefix + tail))
            && Positionals(shape.positional, tail, start) == Some((placed, rest))
            && found in Options(Trailing(name, shape), rest, area)
            ==> Match(name, shape, words, area).Some? && placed + found in Match(name, shape, words, area).value
  {
    hide Leading, Positionals, Options;
    assert (shape.prefix + tail)[|shape.prefix|..] == tail;
    if found in Options(Trailing(name, shape), rest, area) {
      JoinedAt(placed, Options(Trailing(name, shape), rest, area), found);
    }
  }

  /** The fields read in parts write the words that the parts write. */
  lemma MergedWrites(name: string, shape: Shape, placed: Params, found: Params, area: AreaCodec)
    requires WellShaped(shape) && Keys(shape.positional) <= placed.Keys
    requires placed.Keys <= Keys(shape.positional) + (if Leads(name, shape) then {"dimension"} else {})
    requires found.Keys <= Keys(Trailing(name, shape))
    requires Write(shape.positional, placed, area).Some? && Write(Trailing(name, shape), found, area).Some?
    ensures var q := placed + found;
      && Write(shape.positional + Trailing(name, shape), q, area)
         == Some(Write(shape.positional, placed, area).value + Write(Trailing(name, shape), found, area).value)
      && ("dimension" in placed ==> q["dimension"] == placed["dimension"])
      && (Leads(name, shape) ==> ("dimension" in q <==> "dimension" in placed))
  {
    hide Write, Unique, AreaLast, NoArea;
    var trailing, q := Trailing(name, shape), placed + found;
    TrailingKeeps(name, shape);
    hide Trailing;
    WriteFrame(shape.positional, q, placed, area);
    WriteFrame(trailing, q, found, area);
    WriteAppend(shape.positional, trailing, q, area);
  }

  /** The words of a shape in their parts: a leading dimension, the literal words and the fields. */
  lemma ShapeParts(name: string, shape: Shape, p: Params, area: AreaCodec)
    requires ShapeTokens(name, shape, p, area).Some?
    ensures var given := Leads(name, shape) && "dimension" in p;
      && (given ==> Scalar(p["dimension"], Dimension(shape)).Some?)
      && Write(shape.positional, p, area).Some? && Write(Trailing(name, shape), p, area).Some?
      && (var lead := if given then ["in", Scalar(p["dimension"], Dimension(shape)).value] else [];
          ShapeTokens(name, shape, p, area).value
          == lead + (shape.prefix + (Write(shape.positional, p, area).value + Write(Trailing(name, shape), p, area).value)))
  {
    hide Write, Scalar, Dimension, Trailing;
    WriteAppend(shape.positional, Trailing(name, shape), p, area);
    var fields := Write(shape.positional, p, area).value + Write(Trailing(name, shape), p, area).value;
    if Leads(name, shape) && "dimension" in p {
      var lead := ["in", Scalar(p["dimension"], Dimension(shape)).value];
      assert lead + shape.prefix + fields == lead + (shape.prefix + fields);
    } else {
      assert [] + (shape.prefix + fields) == shape.prefix + fields;
    }
  }

  /** Parts that write the same words write the same shape. */
  lemma SameParts(name: string, shape: Shape, p: Params, q: Params, area: AreaCodec)
    requires ShapeTokens(name, shape, p, area).Some?
    requires Write(shape.positional, p, area).Some? && Write(Trailing(name, shape), p, area).Some?
    requires Write(shape.positional + Trailing(name, shape), q, area)
             == Some(Write(shape.positional, p, area).value + Write(Trailing(name, shape), p, area).value)
    requires Leads(name, shape) ==> ("dimension" in q <==> "dimension" in p)
    requires Leads(name, shape) && "dimension" in p
             ==> Scalar(q["dimension"], Dimension(shape)) == Scalar(p["dimension"], Dimension(shape))
    ensures ShapeTokens(name, shape, q, area) == ShapeTokens(name, shape, p, area)
  {
    hide Write, Scalar, Dimension, Trailing, Leads;
    WriteAppend(shape.positional, Trailing(name, shape), p, area);
  }

  /** Some reading of the written words of a shape gives the same fields and the same words. */
  lemma MatchFind(name: string, shape: Shape, p: Params, area: AreaCodec) returns (q: Params)
    requires WellShaped(shape) && Admits(shape, p.Keys) && ShapeTokens(name, shape, p, area).Some?
    requires ParamsReadBack(name, shape, p, area)
    requires NoFalseDimension(name, shape, p, ShapeTokens(name, shape, p, area).value)
    ensures var tokens := ShapeTokens(name, shape, p, area);
      && Match(name, shape, tokens.value, area).Some? && q in Match(name, shape, tokens.value, area).value
      && q.Keys == p.Keys && ShapeTokens(name, shape, q, area) == tokens
  {
    var trailing := Trailing(name, shape);
    TrailingReadBack(name, shape, p, area);
    hide Write, Options, Positionals, Leading, Scalar, ReadValue, ReadsBack, FieldReadsBack, Unique, AreaLast, NoArea;
    hide Dimension, Match, ShapeTokens, Trailing, Leads, AllReadBack, Keys, WellShaped;
    ShapeParts(name, shape, p, area);
    var front, back := Write(shape.positional, p, area).value, Write(trailing, p, area).value;
    var body := shape.prefix + (front + back);
    var given := Leads(name, shape) && "dimension" in p;
    var lead := if given then ["in", Scalar(p["dimension"], Dimension(shape)).value] else [];
    assert !given ==> lead + body == body;
    var start := LeadingFind(name, shape, p, body, area);
    var placed := PositionalsFind(shape.positional, p, back, start, area);
    var found := OptionsFind(trailing, p, area);
    q := placed + found;
    MatchOf(name, shape, lead + body, front + back, back, start, placed, found, area);
    MergedWrites(name, shape, placed, found, area);
    SameParts(name, shape, p, q, area);
    KeysFit(name, shape, p.Keys);
  }

  lemma TrailingReadBack(name: string, shape: Shape, p: Params, area: AreaCodec)
    requires WellShaped(shape) && ParamsReadBack(name, shape, p, area)
    ensures AllReadBack(shape.positional, p, area) && AllReadBack(Trailing(name, shape), p, area)
    ensures var r := Trailing(name, shape);
      && Unique(r) && AreaLast(r) && Unique(shape.positional) && NoArea(shape.positional) && Keys(shape.positional) !! Keys(r)
      && "dimension" !in Keys(shape.positional)
  {
    hide FieldReadsBack;
    TrailingKeeps(name, shape);
  }

  lemma KeysFit(name: string, shape: Shape, keys: set<string>)
    requires WellShaped(shape) && Admits(shape, keys)
    ensures keys == (if Leads(name, shape) && "dimension" in keys then {"dimension"} else {})
                    + Keys(shape.positional) + keys * Keys(Trailing(name, shape))
  {
    TrailingKeeps(name, shape);
  }

  // -- no reading raises where shapes are apart ---------------------------------------------------------

  /** Reading an area out of the words never gives one that cannot be printed. */
  ghost predicate AreasStable(words: seq<string>, area: AreaCodec)
  {
    forall k :: 0 <= k <= |words| && area(words[k..]).Some? ==> area(area(words[k..]).value).Some?
  }

  lemma StableSuffix(words: seq<string>, n: nat, area: AreaCodec)
    requires AreasStable(words, area) && n <= |words|
    ensures AreasStable(words[n..], area)
  {
    forall k | 0 <= k <= |words| - n && area(words[n..][k..]).Some? ensures area(area(words[n..][k..]).value).Some? {
      assert words[n..][k..] == words[n + k..];
    }
  }

  lemma {:induction false} OptionsWritable(fields: seq<Field>, words: seq<string>, area: AreaCodec, q: Params)
    requires Unique(fields) && AreasStable(words, area) && q in Options(fields, words, area)
    ensures q.Keys <= Keys(fields) && Write(fields, q, area).Some?
    decreases |fields|
  {
    if fields != [] {
      hide Scalar;
      var key, spec, others := fields[0].key, fields[0].spec, fields[1..];
      if q in Options(others, words, area) {
        OptionsWritable(others, words, area, q);
      } else if spec.kind == KindArea {
        assert words[0..] == words;
        WriteFrame(others, q, map[], area);
        WriteNothing(others, area);
      } else {
        var n := |ClauseOf(spec)|;
        var v := ReadValue(words[n], spec).value;
        var found := Options(others, words[n + 1..], area);
        var i :| 0 <= i < |found| && q == map[key := v] + found[i];
        StableSuffix(words, n + 1, area);
        OptionsWritable(others, words[n + 1..], area, found[i]);
        WriteFrame(others, q, found[i], area);
      }
    }
  }

  lemma {:induction false} WriteNothing(fields: seq<Field>, area: AreaCodec)
    ensures Write(fields, map[], area) == Some([])
    decreases |fields|
  {
    if fields != [] { WriteNothing(fields[1..], area); }
  }

  lemma {:induction false} PositionalsWritable(fields: seq<Field>, words: seq<string>, start: Params, area: AreaCodec)
    requires Unique(fields) && NoArea(fields) && Positionals(fields, words, start).Some?
    ensures var (q, rest) := Positionals(fields, words, start).value;
      && q.Keys == start.Keys + Keys(fields) && Write(fields, q, area).Some?
      && (forall k :: k in start && k !in Keys(fields) ==> q[k] == start[k])
      && exists n :: 0 <= n <= |words| && rest == words[n..]
    decreases |fields|
  {
    hide Scalar;
    if fields == [] {
      assert words[0..] == words;
    } else {
      var spec := fields[0].spec;
      var n := |ClauseOf(spec)|;
      var next := start[fields[0].key := ReadValue(words[n], spec).value];
      PositionalsWritable(fields[1..], words[n + 1..], next, area);
      var (q, rest) := Positionals(fields, words, start).value;
      var m :| 0 <= m <= |words[n + 1..]| && rest == words[n + 1..][m..];
      assert words[n + 1..][m..] == words[n + 1 + m..];
      assert q[fields[0].key] == next[fields[0].key];
    }
  }

  /** What a reading of a shape is put together from. */
  lemma MatchParts(name: string, shape: Shape, words: seq<string>, area: AreaCodec, q: Params)
    returns (start: Params, tail: seq<string>, placed: Params, rest: seq<string>, found: Params)
    requires Match(name, shape, words, area).Some? && q in Match(name, shape, words, area).value
    ensures Leading(name, shape, words) == Some((start, shape.prefix + tail))
    ensures Positionals(shape.positional, tail, start) == Some((placed, rest))
    ensures found in Options(Trailing(name, shape), rest, area) && q == placed + found
  {
    hide Leading, Positionals, Options, Trailing;
    var led := Leading(name, shape, words).value;
    start, tail := led.0, led.1[|shape.prefix|..];
    assert shape.prefix + tail == led.1;
    var at := Positionals(shape.positional, tail, start).value;
    placed, rest := at.0, at.1;
    var all := Options(Trailing(name, shape), rest, area);
    var i :| 0 <= i < |all| && q == placed + all[i];
    found := all[i];
  }

  lemma MergedKeys(name: string, shape: Shape, start: set<string>, placed: Params, found: Params)
    requires WellShaped(shape) && (start == {} || (start == {"dimension"} && Leads(name, shape)))
    requires placed.Keys == start + Keys(shape.positional) && found.Keys <= Keys(Trailing(name, shape))
    ensures Admits(shape, (placed + found).Keys)
  {
    hide Keys, Unique, AreaLast, NoArea;
    TrailingKeeps(name, shape);
    assert (placed + found).Keys == placed.Keys + found.Keys;
  }

  /** Whatever is read as a shape has fields that the shape takes, and can be written as that shape. */
  lemma MatchWritable(name: string, shape: Shape, words: seq<string>, area: AreaCodec, q: Params)
    requires WellShaped(shape) && AreasStable(words, area)
    requires Match(name, shape, words, area).Some? && q in Match(name, shape, words, area).value
    ensures Admits(shape, q.Keys) && ShapeTokens(name, shape, q, area).Some?
  {
    hide *;
    var start, tail, placed, rest, found := MatchParts(name, shape, words, area, q);
    TrailingKeeps(name, shape);
    LeadingWritable(name, shape, words);
    var k :| 0 <= k <= |words| && shape.prefix + tail == words[k..];
    StableSuffix(words, k, area);
    StableSuffix(words[k..], |shape.prefix|, area);
    assert words[k..][|shape.prefix|..] == tail;
    PositionalsWritable(shape.positional, tail, start, area);
    var n :| 0 <= n <= |tail| && rest == tail[n..];
    StableSuffix(tail, n, area);
    OptionsWritable(Trailing(name, shape), rest, area, found);
    PartsWritable(name, shape, start, placed, found, area);
  }

  lemma PartsWritable(name: string, shape: Shape, start: Params, placed: Params, found: Params, area: AreaCodec)
    requires WellShaped(shape)
    requires start.Keys == {} || (start.Keys == {"dimension"} && Leads(name, shape)
                                  && Scalar(start["dimension"], Dimension(shape)).Some?)
    requires placed.Keys == start.Keys + Keys(shape.positional) && found.Keys <= Keys(Trailing(name, shape))
    requires forall k :: k in start && k !in Keys(shape.positional) ==> placed[k] == start[k]
    requires Write(shape.positional, placed, area).Some? && Write(Trailing(name, shape), found, area).Some?
    ensures Admits(shape, (placed + found).Keys) && ShapeTokens(name, shape, placed + found, area).Some?
  {
    MergedWrites(name, shape, placed, found, area);
    MergedKeys(name, shape, start.Keys, placed, found);
    hide Trailing, Admits, Leads, Write, Scalar, Unique, AreaLast, NoArea, Keys, Dimension;
    if "dimension" in start { assert (placed + found)["dimension"] == start["dimension"]; }
  }

  lemma LeadingWritable(name: string, shape: Shape, words: seq<string>)
    requires Leading(name, shape, words).Some?
    ensures var (start, body) := Leading(name, shape, words).value;
      && (start.Keys == {} || (start.Keys == {"dimension"} && Leads(name, shape)
                               && Scalar(start["dimension"], Dimension(shape)).Some?))
      && exists k :: 0 <= k <= |words| && body == words[k..]
  {
    assert words[0..] == words;
  }

  // -- the whole reader -------------------------------------------------------------------------------

  /** A registry whose shapes are well formed and apart. */
  ghost predicate Registered(registry: Registry)
  {
    forall name :: name in registry ==> AllWellShaped(registry[name]) && AllSeparated(registry[name])
  }

  lemma SameShape(shapes: seq<Shape>, keys: set<string>, i: nat)
    requires AllSeparated(shapes) && i < |shapes| && Admits(shapes[i], keys)
    ensures FirstAdmitting(shapes, keys) == i
  {
    hide Admits, Separated;
    var k := FirstAdmitting(shapes, keys);
    if k < i {
      assert Separated(shapes[k], shapes[i]);
      SeparatedExactly(shapes[k], shapes[i]);
    }
  }

  /** The heading that a reading's operation is given. */
  predicate Headed(name: string, target: Option<string>, registry: Registry)
  {
    name in registry && Unaliased(name) == name
    && (if name in ROOT_OPERATIONS then target.None? else target.Some? && IsTarget(target.value))
  }

  lemma ArgvOf(name: string, target: Option<string>, p: Params, registry: Registry, i: nat, area: AreaCodec)
    requires Headed(name, target, registry) && i < |registry[name]| && Admits(registry[name][i], p.Keys)
    requires AllSeparated(registry[name]) && ShapeTokens(name, registry[name][i], p, area).Some?
    ensures Argv(Operation(name, target, p), registry, area)
            == Some((if target.None? then [name] else [target.value, name])
                    + ShapeTokens(name, registry[name][i], p, area).value)
  {
    hide ShapeTokens, Admits;
    SameShape(registry[name], p.Keys, i);
  }

  /** No reading of any shape raises when its operation is printed again. */
  lemma ReadingsNeverRaise(name: string, target: Option<string>, registry: Registry, i: nat, words: seq<string>,
                           tokens: seq<string>, area: AreaCodec, q: Params)
    requires Headed(name, target, registry) && Registered(registry) && i < |registry[name]| && AreasStable(words, area)
    requires Match(name, registry[name][i], words, area).Some? && q in Match(name, registry[name][i], words, area).value
    ensures !TryReading(Operation(name, target, q), tokens, registry, area).Raises?
  {
    hide Match, ShapeTokens, Admits, WellShaped, Separated, AreasStable, Argv, GroupsComplete;
    assert WellShaped(registry[name][i]);
    MatchWritable(name, registry[name][i], words, area, q);
    ArgvOf(name, target, q, registry, i, area);
  }

  lemma {:induction false} TryReadingsFinds(name: string, target: Option<string>, readings: seq<Params>,
                                            tokens: seq<string>, registry: Registry, area: AreaCodec, q: Params)
    requires forall r :: r in readings ==> !TryReading(Operation(name, target, r), tokens, registry, area).Raises?
    ensures !TryReadings(name, target, readings, tokens, registry, area).Raises?
    ensures q in readings && TryReading(Operation(name, target, q), tokens, registry, area).Found?
            ==> TryReadings(name, target, readings, tokens, registry, area).Found?
    decreases |readings|
  {
    hide TryReading;
    if readings != [] {
      assert readings[0] in readings;
      TryReadingsFinds(name, target, readings[1..], tokens, registry, area, q);
    }
  }

  lemma {:induction false} TryShapesFinds(name: string, target: Option<string>, from: nat, words: seq<string>,
                                          tokens: seq<string>, registry: Registry, area: AreaCodec, i: nat, q: Params)
    requires Headed(name, target, registry) && Registered(registry) && AreasStable(words, area)
    requires from <= i < |registry[name]|
    requires Match(name, registry[name][i], words, area).Some? && q in Match(name, registry[name][i], words, area).value
    requires TryReading(Operation(name, target, q), tokens, registry, area).Found?
    ensures TryShapes(name, target, registry[name][from..], words, tokens, registry, area).Found?
    decreases i - from
  {
    assert name in registry;
    hide Match, TryReading, TryReadings, Registered, AreasStable, Headed;
    var shapes := registry[name][from..];
    assert shapes[0] == registry[name][from] && shapes[1..] == registry[name][from + 1..];
    var readings := Match(name, shapes[0], words, area);
    if readings.Some? {
      forall r | r in readings.value ensures !TryReading(Operation(name, target, r), tokens, registry, area).Raises? {
        ReadingsNeverRaise(name, target, registry, from, words, tokens, area, r);
      }
      TryReadingsFinds(name, target, readings.value, tokens, registry, area, q);
    }
    if from < i { TryShapesFinds(name, target, from + 1, words, tokens, registry, area, i, q); }
  }

  /** What the reader is promised of an operation: see the lemma that needs it. */
  ghost predicate Readable(op: Operation, registry: Registry, area: AreaCodec)
  {
    var name := Unaliased(op.name);
    && name in registry && (op.target.Some? && name !in ROOT_OPERATIONS ==> op.target.value !in ROOT_OPERATIONS)
    && GroupsComplete(op.params)
    && var shapes := registry[name];
       var i := FirstAdmitting(shapes, op.params.Keys);
       && i < |shapes| && ParamsReadBack(name, shapes[i], op.params, area)
       && var tokens := ShapeTokens(name, shapes[i], op.params, area);
          tokens.Some? ==> NoFalseDimension(name, shapes[i], op.params, tokens.value) && AreasStable(tokens.value, area)
  }

  lemma GroupsByKeys(p: Params, q: Params)
    requires p.Keys == q.Keys
    ensures GroupsComplete(p) <==> GroupsComplete(q)
  {
    forall g | g in GROUPS ensures Halved(p, g) <==> Halved(q, g) {
      assert forall k :: k in p <==> k in q;
    }
  }

  lemma HeadingOf(op: Operation, registry: Registry, area: AreaCodec) returns (target: Option<string>, words: seq<string>)
    requires Argv(op, registry, area).Some? && Readable(op, registry, area)
    ensures var name := Unaliased(op.name);
      && Heading(Argv(op, registry, area).value) == Some((name, target, words)) && Headed(name, target, registry)
      && (var i := FirstAdmitting(registry[name], op.params.Keys);
          && i < |registry[name]| && ShapeTokens(name, registry[name][i], op.params, area) == Some(words)
          && Argv(op, registry, area).value == (if target.None? then [name] else [target.value, name]) + words)
  {
    hide ShapeTokens, GroupsComplete, NoFalseDimension, ParamsReadBack, AreasStable, FirstAdmitting;
    var name := Unaliased(op.name);
    var i := FirstAdmitting(registry[name], op.params.Keys);
    words := ShapeTokens(name, registry[name][i], op.params, area).value;
    if name in ROOT_OPERATIONS {
      target := None;
      assert ([name] + words)[1..] == words;
    } else {
      target := op.target;
      assert ([op.target.value, name] + words)[2..] == words;
    }
  }

  /**
   * Every canonical text is read: for an operation that prints, whose values and area read back, whose option groups
   * are complete, whose target is no root word, and whose words do not begin with `in` by accident, the reader finds
   * an operation that prints the same words, in any registry of shapes that are apart.
   */
  lemma CanonicalTextReads(op: Operation, registry: Registry, area: AreaCodec)
    requires Registered(registry) && Argv(op, registry, area).Some? && Readable(op, registry, area)
    ensures var tokens := Argv(op, registry, area).value;
      && ParseOperation(tokens, registry, area).Some?
      && Argv(ParseOperation(tokens, registry, area).value, registry, area) == Some(tokens)
  {
    var name, tokens := Unaliased(op.name), Argv(op, registry, area).value;
    var target, words := HeadingOf(op, registry, area);
    var shapes := registry[name];
    var i := FirstAdmitting(shapes, op.params.Keys);
    assert WellShaped(shapes[i]) && AllSeparated(shapes);
    hide Match, ShapeTokens, Admits, WellShaped, Separated, AreasStable, GroupsComplete, ParamsReadBack,
      NoFalseDimension, TryShapes, FirstAdmitting, Heading, Argv, Registered;
    var q := MatchFind(name, shapes[i], op.params, area);
    GroupsByKeys(op.params, q);
    ArgvOf(name, target, q, registry, i, area);
    assert TryReading(Operation(name, target, q), tokens, registry, area).Found?;
    assert shapes[0..] == shapes;
    TryShapesFinds(name, target, 0, words, tokens, registry, area, i, q);
    ParsedPrints(tokens, registry, area);
  }

  // -- what is read prints the same -----------------------------------------------------------------------

  lemma {:induction false} FoundPrints(name: string, target: Option<string>, readings: seq<Params>, tokens: seq<string>,
                                       registry: Registry, area: AreaCodec)
    ensures var t := TryReadings(name, target, readings, tokens, registry, area);
      t.Found? ==> Argv(t.op, registry, area) == Some(tokens) && GroupsComplete(t.op.params)
    decreases |readings|
  {
    hide Argv, GroupsComplete;
    if readings != [] { FoundPrints(name, target, readings[1..], tokens, registry, area); }
  }

  lemma {:induction false} ShapesPrint(name: string, target: Option<string>, shapes: seq<Shape>, words: seq<string>,
                                       tokens: seq<string>, registry: Registry, area: AreaCodec)
    ensures var t := TryShapes(name, target, shapes, words, tokens, registry, area);
      t.Found? ==> Argv(t.op, registry, area) == Some(tokens) && GroupsComplete(t.op.params)
    decreases |shapes|
  {
    hide Argv, GroupsComplete, TryReadings, Match;
    if shapes != [] {
      var readings := Match(name, shapes[0], words, area);
      if readings.Some? { FoundPrints(name, target, readings.value, tokens, registry, area); }
      ShapesPrint(name, target, shapes[1..], words, tokens, registry, area);
    }
  }

  /** Whatever the reader accepts prints exactly the words that it was given, in any registry. */
  lemma ParsedPrints(tokens: seq<string>, registry: Registry, area: AreaCodec)
    ensures var op := ParseOperation(tokens, registry, area);
      op.Some? ==> Argv(op.value, registry, area) == Some(tokens) && GroupsComplete(op.value.params)
  {
    hide Argv, GroupsComplete, TryShapes;
    var heading := Heading(tokens);
    if heading.Some? {
      var (name, target, words) := heading.value;
      var shapes := if name in registry then registry[name] else [];
      ShapesPrint(name, target, shapes, words, tokens, registry, area);
    }
  }
}
