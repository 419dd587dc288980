/** Typed operations, their canonical words, and the reader of those words (core/src/endbot_core/operations.py). */
module Operations {
  import opened Common

  datatype Kind = KindString | KindNumber | KindInteger | KindBoolean | KindCoordinate | KindStringOrInteger
                | KindPlayer | KindIntegerOrDefault | KindArea

  /**
   * A typed value. A number that is not whole is its sign, its whole part and the digits after its point; the clause
   * text of an area is kept as its words.
   */
  datatype Value = Str(text: string) | Int(number: int) | Decimal(negative: bool, whole: nat, fraction: string)
                 | Bool(on: bool) | AreaWords(words: seq<string>)

  datatype Spec = Spec(kind: Kind, choices: Option<seq<Value>>, clause: Option<string>)
  datatype Field = Field(key: string, spec: Spec)
  datatype Shape = Shape(prefix: seq<string>, positional: seq<Field>, options: seq<Field>)

  type Registry = map<string, seq<Shape>>
  type Params = map<string, Value>

  /** The canonical words of the clause words of an area, where they make one. */
  type AreaCodec = seq<string> -> Option<seq<string>>

  datatype Operation = Operation(name: string, target: Option<string>, params: Params)

  const ROOT_OPERATIONS: set<string> := {"list", "ping", "help"}
  const AREA_CLAUSES: set<string> := {"within", "except"}
  const GROUPS: seq<seq<string>> := [["yaw", "pitch"], ["facingX", "facingY", "facingZ"]]

  function Unaliased(name: string): string { if name == "teleport" then "tp" else name }

  // -- characters and numbers -----------------------------------------------------------------

  predicate IsSpace(c: char) { c == ' ' || c == '\t' || c == '\n' || c == '\r' }
  predicate IsQuoting(c: char) { c == '"' || c == '\'' || c == '\\' }
  predicate IsDigit(c: char) { '0' <= c <= '9' }
  predicate IsNameChar(c: char) { 'a' <= c <= 'z' || 'A' <= c <= 'Z' || IsDigit(c) || c == '_' }

  predicate AllDigits(s: string) { forall i :: 0 <= i < |s| ==> IsDigit(s[i]) }

  /** One token of a command line: not empty, and nothing that splits or quotes. */
  predicate SingleToken(s: string) { s != "" && forall i :: 0 <= i < |s| ==> !IsSpace(s[i]) && !IsQuoting(s[i]) }

  predicate IsIntText(s: string)
  {
    if s != "" && s[0] == '-' then |s| > 1 && AllDigits(s[1..]) else s != "" && AllDigits(s)
  }

  function DigitsOf(n: nat): (s: string)
    ensures s != "" && AllDigits(s)
  {
    if n < 10 then ['0' + n as char] else DigitsOf(n / 10) + ['0' + (n % 10) as char]
  }

  function NumberOf(s: string): nat
    requires AllDigits(s)
  {
    if s == "" then 0 else 10 * NumberOf(s[..|s| - 1]) + (s[|s| - 1] - '0') as nat
  }

  function IntText(n: int): (s: string)
    ensures IsIntText(s)
  {
    if n < 0 then "-" + DigitsOf(-n) else DigitsOf(n)
  }

  function IntOf(s: string): int
    requires IsIntText(s)
  {
    if s[0] == '-' then -(NumberOf(s[1..]) as int) else NumberOf(s)
  }

  /** Digits after a point that make a number of their own: some, and no zero at the end. */
  predicate IsFraction(s: string) { s != "" && AllDigits(s) && s[|s| - 1] != '0' }

  predicate IsProper(v: Value) { v.Decimal? && IsFraction(v.fraction) }

  /** Whether a number prints without an exponent: it is at least 0.0001 in size. */
  predicate IsPlain(v: Value)
    requires v.Decimal?
  {
    v.whole > 0 || !("0000" <= v.fraction)
  }

  function Sign(negative: bool): string { if negative then "-" else "" }

  function Significant(s: string): (r: string)
    ensures |r| <= |s|
  {
    if s != "" && s[0] == '0' then Significant(s[1..]) else s
  }

  /** The digits of a number below 0.0001 with its power of ten. */
  function ExponentText(v: Value): string
    requires v.Decimal?
  {
    var digits := Significant(v.fraction);
    var power := |v.fraction| - |digits| + 1;
    Sign(v.negative) + digits[..Least(|digits|, 1)] + (if |digits| > 1 then "." + digits[1..] else "")
    + "e-" + (if power < 10 then "0" else "") + DigitsOf(power)
  }

  function Least(a: nat, b: nat): nat { if a < b then a else b }

  function DecimalText(v: Value): string
    requires v.Decimal?
  {
    if IsPlain(v) then Sign(v.negative) + DigitsOf(v.whole) + "." + v.fraction else ExponentText(v)
  }

  /** Where the first point stands, or the length. */
  function PointAt(s: string): (k: nat)
    ensures k <= |s| && (k < |s| ==> s[k] == '.')
    ensures forall i :: 0 <= i < k ==> s[i] != '.'
  {
    if s == "" || s[0] == '.' then 0 else 1 + PointAt(s[1..])
  }

  predicate IsDecimalText(s: string)
  {
    var k := PointAt(s);
    k + 1 < |s| && IsIntText(s[..k]) && AllDigits(s[k + 1..])
  }

  function Trimmed(s: string): string { if s != "" && s[|s| - 1] == '0' then Trimmed(s[..|s| - 1]) else s }

  function DecimalOf(s: string): Value
    requires IsDecimalText(s)
  {
    var k := PointAt(s);
    var negative, fraction := s[0] == '-', Trimmed(s[k + 1..]);
    var whole := NumberOf(if negative then s[1..k] else s[..k]);
    if fraction == "" then Int(if negative then -(whole as int) else whole) else Decimal(negative, whole, fraction)
  }

  /** Words separated by single spaces, without quoting and without `~`. */
  predicate IsPlayerName(s: string)
  {
    && s != "" && s[0] != ' ' && s[|s| - 1] != ' '
    && (forall i :: 0 <= i < |s| ==> s[i] != '~' && !IsQuoting(s[i]) && (IsSpace(s[i]) ==> s[i] == ' '))
    && (forall i :: 0 <= i < |s| - 1 ==> s[i] != ' ' || s[i + 1] != ' ')
  }

  /** `~`, or `~` and a number. */
  predicate IsRelative(s: string)
  {
    s != "" && s[0] == '~'
    && (|s| == 1 || IsIntText(s[1..])
        || exists k :: 1 < k < |s| - 1 && s[k] == '.' && IsIntText(s[1..k]) && AllDigits(s[k + 1..]))
  }

  predicate IsBotName(s: string) { 1 <= |s| <= 16 && forall i :: 0 <= i < |s| ==> IsNameChar(s[i]) }

  predicate IsIndex(s: string)
  {
    && |s| >= 3 && s[0] == '[' && s[|s| - 1] == ']' && s[1] != '0' && AllDigits(s[1..|s| - 1])
  }

  predicate IsTarget(s: string)
  {
    || IsBotName(s)
    || (|s| >= 2 && s[0] == '#' && !IsDigit(s[1])
        && exists k :: 2 <= k <= |s| && IsBotName(s[1..k]) && (k == |s| || IsIndex(s[k..])))
  }

  // -- one value and its token ------------------------------------------------------------------

  predicate Fits(v: Value, kind: Kind)
  {
    match kind
    case KindString => v.Str?
    case KindNumber => v.Int? || IsProper(v)
    case KindInteger => v.Int?
    case KindBoolean => v.Bool?
    case KindCoordinate => v.Int? || IsProper(v) || (v.Str? && IsRelative(v.text))
    case KindStringOrInteger => v.Str? || v.Int?
    case KindPlayer => v.Str? && IsPlayerName(v.text)
    case KindIntegerOrDefault => v == Str("default") || v.Int?
    case KindArea => false
  }

  predicate Allowed(v: Value, spec: Spec) { Fits(v, spec.kind) && (spec.choices.Some? ==> v in spec.choices.value) }

  /** The token of a typed value; a player's name with spaces is quoted. */
  function Scalar(v: Value, spec: Spec): Option<string>
  {
    if !Allowed(v, spec) then None
    else if spec.kind == KindPlayer && v.Str? && ' ' in v.text then Some("'" + v.text + "'")
    else match v
      case Str(text) => if SingleToken(text) then Some(text) else None
      case Bool(on) => Some(if on then "on" else "off")
      case Int(number) => Some(IntText(number))
      case Decimal(_, _, _) => Some(DecimalText(v))
      case AreaWords(_) => None
  }

  /** The one word of a token as a shell splits it: bare, or in single quotes. */
  function Unquoted(token: string): Option<string>
  {
    if SingleToken(token) then Some(token)
    else if |token| >= 2 && token[0] == '\'' && token[|token| - 1] == '\'' && '\'' !in token[1..|token| - 1]
    then Some(token[1..|token| - 1])
    else None
  }

  function ReadNumber(token: string): Option<Value>
  {
    if IsIntText(token) then Some(Int(IntOf(token)))
    else if IsDecimalText(token) then Some(DecimalOf(token)) else None
  }

  function Candidate(token: string, kind: Kind): Option<Value>
  {
    match kind
    case KindPlayer => if Unquoted(token).Some? then Some(Str(Unquoted(token).value)) else None
    case KindBoolean => if token == "on" then Some(Bool(true)) else if token == "off" then Some(Bool(false)) else None
    case KindString => Some(Str(token))
    case KindCoordinate =>
      if token != "" && token[0] == '~' then Some(Str(token))
      else ReadNumber(token)
    case KindStringOrInteger => if IsIntText(token) then Some(Int(IntOf(token))) else Some(Str(token))
    case KindIntegerOrDefault => if IsIntText(token) then Some(Int(IntOf(token))) else Some(Str(token))
    case KindInteger => if IsIntText(token) then Some(Int(IntOf(token))) else None
    case KindNumber => ReadNumber(token)
    case KindArea => None
  }

  /** The typed value of one canonical token. */
  function ReadValue(token: string, spec: Spec): Option<Value>
  {
    var v := Candidate(token, spec.kind);
    if v.Some? && Scalar(v.value, spec).Some? then v else None
  }

  // -- writing ----------------------------------------------------------------------------------

  function ClauseOf(spec: Spec): seq<string> { if spec.clause.Some? then [spec.clause.value] else [] }

  function FieldTokens(v: Value, spec: Spec, area: AreaCodec): Option<seq<string>>
  {
    if spec.kind == KindArea then (if v.AreaWords? then area(v.words) else None)
    else if Scalar(v, spec).None? then None
    else Some(ClauseOf(spec) + [Scalar(v, spec).value])
  }

  /** The tokens of the fields that are given, in order. */
  function Write(fields: seq<Field>, p: Params, area: AreaCodec): Option<seq<string>>
  {
    if fields == [] then Some([])
    else if fields[0].key !in p then Write(fields[1..], p, area)
    else
      var first, others := FieldTokens(p[fields[0].key], fields[0].spec, area), Write(fields[1..], p, area);
      if first.None? || others.None? then None else Some(first.value + others.value)
  }

  function Keys(fields: seq<Field>): set<string>
  {
    if fields == [] then {} else {fields[0].key} + Keys(fields[1..])
  }

  predicate Admits(shape: Shape, keys: set<string>)
  {
    Keys(shape.positional) <= keys && keys <= Keys(shape.positional) + Keys(shape.options)
  }

  function Without(fields: seq<Field>, key: string): seq<Field>
  {
    if fields == [] then [] else (if fields[0].key == key then [] else [fields[0]]) + Without(fields[1..], key)
  }

  /** Where an option of that name stands, or the length. */
  function Position(fields: seq<Field>, key: string): (i: nat)
    ensures i <= |fields| && (i < |fields| ==> fields[i].key == key)
    ensures i < |fields| <==> key in Keys(fields)
  {
    if fields == [] then 0 else if fields[0].key == key then 0 else 1 + Position(fields[1..], key)
  }

  /** Teleport's dimension is a leading clause. */
  predicate Leads(name: string, shape: Shape) { name == "tp" && "dimension" in Keys(shape.options) }

  function Dimension(shape: Shape): Spec
    requires "dimension" in Keys(shape.options)
  {
    shape.options[Position(shape.options, "dimension")].spec
  }

  function Trailing(name: string, shape: Shape): seq<Field>
  {
    if name == "tp" then Without(shape.options, "dimension") else shape.options
  }

  function ShapeTokens(name: string, shape: Shape, p: Params, area: AreaCodec): Option<seq<string>>
  {
    var fields := Write(shape.positional + Trailing(name, shape), p, area);
    if fields.None? then None
    else if Leads(name, shape) && "dimension" in p then
      var dimension := Scalar(p["dimension"], Dimension(shape));
      if dimension.None? then None else Some(["in", dimension.value] + shape.prefix + fields.value)
    else Some(shape.prefix + fields.value)
  }

  /** The position of the first shape that takes exactly such fields, or the length. */
  function FirstAdmitting(shapes: seq<Shape>, keys: set<string>): (i: nat)
    ensures i <= |shapes|
    ensures i < |shapes| ==> Admits(shapes[i], keys)
    ensures forall k :: 0 <= k < i ==> !Admits(shapes[k], keys)
  {
    if shapes == [] || Admits(shapes[0], keys) then 0 else 1 + FirstAdmitting(shapes[1..], keys)
  }

  function Argv(op: Operation, registry: Registry, area: AreaCodec): Option<seq<string>>
  {
    var name := Unaliased(op.name);
    if name !in registry then None
    else if !(name in ROOT_OPERATIONS && op.target.None?) && !(op.target.Some? && IsTarget(op.target.value)) then None
    else
      var shapes := registry[name];
      var i := FirstAdmitting(shapes, op.params.Keys);
      if i == |shapes| then None
      else
        var tokens := ShapeTokens(name, shapes[i], op.params, area);
        if tokens.None? then None
        else if name in ROOT_OPERATIONS then Some([name] + tokens.value)
        else Some([op.target.value, name] + tokens.value)
  }

  // -- reading ------------------------------------------------------------------------------------

  function Prepend(key: string, v: Value, found: seq<Params>): (r: seq<Params>)
    ensures |r| == |found| && forall i :: 0 <= i < |r| ==> r[i] == map[key := v] + found[i]
  {
    if found == [] then [] else [map[key := v] + found[0]] + Prepend(key, v, found[1..])
  }

  /** Every way to read all the tokens as the given options, in order. */
  function Options(fields: seq<Field>, tokens: seq<string>, area: AreaCodec): seq<Params>
    decreases |fields|
  {
    if fields == [] then (if tokens == [] then [map[]] else [])
    else
      var key, spec, others := fields[0].key, fields[0].spec, fields[1..];
      var given :=
        if spec.kind == KindArea then
          if tokens != [] && tokens[0] in AREA_CLAUSES && others == [] && area(tokens).Some?
          then [map[key := AreaWords(area(tokens).value)]] else []
        else
          var n := |ClauseOf(spec)|;
          if |tokens| > n && tokens[..n] == ClauseOf(spec) && ReadValue(tokens[n], spec).Some?
          then Prepend(key, ReadValue(tokens[n], spec).value, Options(others, tokens[n + 1..], area)) else [];
      given + Options(others, tokens, area)
  }

  /** The positional fields off the front, and what is left. */
  function Positionals(fields: seq<Field>, tokens: seq<string>, p: Params): Option<(Params, seq<string>)>
    decreases |fields|
  {
    if fields == [] then Some((p, tokens))
    else
      var spec := fields[0].spec;
      var n := |ClauseOf(spec)|;
      if |tokens| <= n || tokens[..n] != ClauseOf(spec) || ReadValue(tokens[n], spec).None? then None
      else Positionals(fields[1..], tokens[n + 1..], p[fields[0].key := ReadValue(tokens[n], spec).value])
  }

  /** Teleport's leading dimension, where it is there. */
  function Leading(name: string, shape: Shape, tokens: seq<string>): Option<(Params, seq<string>)>
  {
    if !Leads(name, shape) || tokens == [] || tokens[0] != "in" then Some((map[], tokens))
    else if |tokens| < 2 || ReadValue(tokens[1], Dimension(shape)).None? then None
    else Some((map["dimension" := ReadValue(tokens[1], Dimension(shape)).value], tokens[2..]))
  }

  function Joined(p: Params, found: seq<Params>): (r: seq<Params>)
    ensures |r| == |found| && forall i :: 0 <= i < |r| ==> r[i] == p + found[i]
  {
    if found == [] then [] else [p + found[0]] + Joined(p, found[1..])
  }

  /** Every reading of the tokens as one shape, or nothing where the source raises. */
  function Match(name: string, shape: Shape, tokens: seq<string>, area: AreaCodec): Option<seq<Params>>
  {
    var led := Leading(name, shape, tokens);
    if led.None? then None
    else if !(shape.prefix <= led.value.1) then None
    else
      var placed := Positionals(shape.positional, led.value.1[|shape.prefix|..], led.value.0);
      if placed.None? then None
      else Some(Joined(placed.value.0, Options(Trailing(name, shape), placed.value.1, area)))
  }

  predicate Halved(p: Params, group: seq<string>)
  {
    (exists k :: k in group && k in p) && (exists k :: k in group && k !in p)
  }

  /** Options that only mean something together are given together. */
  predicate GroupsComplete(p: Params) { forall g :: g in GROUPS ==> !Halved(p, g) }

  /** What trying one reading comes to: the operation, a reprint that raises, or neither. */
  datatype Try = Found(op: Operation) | Raises | Nothing

  function TryReading(op: Operation, tokens: seq<string>, registry: Registry, area: AreaCodec): Try
  {
    if !GroupsComplete(op.params) then Nothing
    else if Argv(op, registry, area).None? then Raises
    else if Argv(op, registry, area) == Some(tokens) then Found(op)
    else Nothing
  }

  function TryReadings(name: string, target: Option<string>, readings: seq<Params>, tokens: seq<string>,
                       registry: Registry, area: AreaCodec): Try
  {
    if readings == [] then Nothing
    else
      var first := TryReading(Operation(name, target, readings[0]), tokens, registry, area);
      if first.Nothing? then TryReadings(name, target, readings[1..], tokens, registry, area) else first
  }

  function TryShapes(name: string, target: Option<string>, shapes: seq<Shape>, words: seq<string>, tokens: seq<string>,
                     registry: Registry, area: AreaCodec): Try
  {
    if shapes == [] then Nothing
    else
      var readings := Match(name, shapes[0], words, area);
      var first := if readings.None? then Nothing
                   else TryReadings(name, target, readings.value, tokens, registry, area);
      if first.Nothing? then TryShapes(name, target, shapes[1..], words, tokens, registry, area) else first
  }

  /** The name, the target and the remaining words of a command line. */
  function Heading(tokens: seq<string>): Option<(string, Option<string>, seq<string>)>
  {
    if tokens != [] && tokens[0] in ROOT_OPERATIONS then Some((tokens[0], None, tokens[1..]))
    else if |tokens| >= 2 && IsTarget(tokens[0]) then Some((Unaliased(tokens[1]), Some(tokens[0]), tokens[2..]))
    else None
  }

  /** The operation whose words these are, or nothing where the source raises. */
  function ParseOperation(tokens: seq<string>, registry: Registry, area: AreaCodec): Option<Operation>
  {
    var heading := Heading(tokens);
    if heading.None? then None
    else
      var (name, target, words) := heading.value;
      var shapes := if name in registry then registry[name] else [];
      var tried := TryShapes(name, target, shapes, words, tokens, registry, area);
      if tried.Found? then Some(tried.op) else None
  }
}
