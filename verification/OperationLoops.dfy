/** The loops of core/src/endbot_core/operations.py, each computing the function that specifies it. */
module OperationLoops {
  import opened Common
  import opened Operations

  /** Appends the tokens of every field that is given. */
  method WriteFields(fields: seq<Field>, p: Params, area: AreaCodec) returns (r: Option<seq<string>>)
    ensures r == Write(fields, p, area)
  {
    hide FieldTokens;
    var tokens: seq<string>, i := [], 0;
    ghost var all := Write(fields, p, area);
    assert fields[0..] == fields && (all.Some? ==> tokens + all.value == all.value);
    while i < |fields|
      invariant 0 <= i <= |fields|
      invariant Write(fields, p, area)
                == var rest := Write(fields[i..], p, area); if rest.None? then None else Some(tokens + rest.value)
    {
      assert fields[i..][0] == fields[i] && fields[i..][1..] == fields[i + 1..];
      if fields[i].key in p {
        var next := FieldTokens(p[fields[i].key], fields[i].spec, area);
        if next.None? { return None; }
        ghost var rest := Write(fields[i + 1..], p, area);
        assert rest.Some? ==> tokens + (next.value + rest.value) == tokens + next.value + rest.value;
        tokens := tokens + next.value;
      }
      i := i + 1;
    }
    assert tokens + [] == tokens;
    return Some(tokens);
  }

  /** The first shape that takes the given fields decides. */
  method OperationArgv(op: Operation, registry: Registry, area: AreaCodec) returns (r: Option<seq<string>>)
    ensures r == Argv(op, registry, area)
  {
    hide Write, Admits, Scalar, IsTarget;
    var name := Unaliased(op.name);
    if name !in registry { return None; }
    if !(name in ROOT_OPERATIONS && op.target.None?) && !(op.target.Some? && IsTarget(op.target.value)) { return None; }
    var shapes, i := registry[name], 0;
    while i < |shapes|
      invariant 0 <= i <= |shapes| && FirstAdmitting(shapes, op.params.Keys) >= i
    {
      if Admits(shapes[i], op.params.Keys) {
        var tokens := shapes[i].prefix;
        var fields := WriteFields(shapes[i].positional + Trailing(name, shapes[i]), op.params, area);
        if Leads(name, shapes[i]) && "dimension" in op.params {
          var dimension := Scalar(op.params["dimension"], Dimension(shapes[i]));
          if dimension.None? { return None; }
          tokens := ["in", dimension.value] + tokens;
        }
        if fields.None? { return None; }
        tokens := tokens + fields.value;
        return Some(if name in ROOT_OPERATIONS then [name] + tokens else [op.target.value, name] + tokens);
      }
      i := i + 1;
    }
    return None;
  }

  /** Takes literal words off the front, or says that they are not there. */
  method TakeWords(prefix: seq<string>, words: seq<string>) returns (rest: Option<seq<string>>)
    ensures rest == if prefix <= words then Some(words[|prefix|..]) else None
  {
    var tokens, i := words, 0;
    while i < |prefix|
      invariant 0 <= i <= |prefix| && i <= |words| && tokens == words[i..] && prefix[..i] == words[..i]
    {
      if tokens == [] || tokens[0] != prefix[i] { return None; }
      tokens := tokens[1..];
      i := i + 1;
    }
    return Some(tokens);
  }

  /** Takes the positional fields off the front. */
  method TakeFields(fields: seq<Field>, words: seq<string>, given: Params) returns (r: Option<(Params, seq<string>)>)
    ensures r == Positionals(fields, words, given)
  {
    hide ReadValue;
    var tokens, params, i := words, given, 0;
    while i < |fields|
      invariant 0 <= i <= |fields|
      invariant Positionals(fields, words, given) == Positionals(fields[i..], tokens, params)
    {
      var spec, key := fields[i].spec, fields[i].key;
      assert fields[i..][0] == fields[i] && fields[i..][1..] == fields[i + 1..];
      ghost var before := tokens;
      if spec.clause.Some? {
        if tokens == [] || tokens[0] != spec.clause.value { return None; }
        tokens := tokens[1..];
      }
      if tokens == [] || ReadValue(tokens[0], spec).None? { return None; }
      assert before[|ClauseOf(spec)|] == tokens[0] && before[|ClauseOf(spec)| + 1..] == tokens[1..];
      params := params[key := ReadValue(tokens[0], spec).value];
      tokens := tokens[1..];
      i := i + 1;
    }
    return Some((params, tokens));
  }

  /** Takes the literal words and then the fields off the front of the words. */
  method MatchShape(name: string, shape: Shape, words: seq<string>, area: AreaCodec) returns (r: Option<seq<Params>>)
    ensures r == Match(name, shape, words, area)
  {
    hide ReadValue, Options, Positionals;
    var tokens: seq<string>, params: Params := words, map[];
    if Leads(name, shape) && tokens != [] && tokens[0] == "in" {
      var dimension := if |tokens| < 2 then None else ReadValue(tokens[1], Dimension(shape));
      if dimension.None? { return None; }
      params := params["dimension" := dimension.value];
      tokens := tokens[2..];
    }
    assert Leading(name, shape, words) == Some((params, tokens));
    hide Leading;
    var rest := TakeWords(shape.prefix, tokens);
    if rest.None? { return None; }
    var placed := TakeFields(shape.positional, rest.value, params);
    if placed.None? { return None; }
    return Some(Joined(placed.value.0, Options(Trailing(name, shape), placed.value.1, area)));
  }

  /** Tries every reading of every shape until one prints the words it was read from. */
  method ReadOperation(tokens: seq<string>, registry: Registry, area: AreaCodec) returns (r: Option<Operation>)
    ensures r == ParseOperation(tokens, registry, area)
  {
    hide Argv, Match, GroupsComplete, Heading;
    var heading := Heading(tokens);
    if heading.None? { return None; }
    var (name, target, words) := heading.value;
    var shapes := if name in registry then registry[name] else [];
    var i := 0;
    while i < |shapes|
      invariant 0 <= i <= |shapes|
      invariant TryShapes(name, target, shapes, words, tokens, registry, area)
                == TryShapes(name, target, shapes[i..], words, tokens, registry, area)
    {
      assert shapes[i..][0] == shapes[i] && shapes[i..][1..] == shapes[i + 1..];
      var readings := MatchShape(name, shapes[i], words, area);
      if readings.Some? {
        var all, k := readings.value, 0;
        while k < |all|
          invariant 0 <= k <= |all|
          invariant TryReadings(name, target, all, tokens, registry, area)
                    == TryReadings(name, target, all[k..], tokens, registry, area)
        {
          assert all[k..][0] == all[k] && all[k..][1..] == all[k + 1..];
          if GroupsComplete(all[k]) {
            var op := Operation(name, target, all[k]);
            var printed := OperationArgv(op, registry, area);
            if printed.None? { return None; }
            if printed.value == tokens { return Some(op); }
          }
          k := k + 1;
        }
      }
      i := i + 1;
    }
    return None;
  }
}
