/** The source's own shapes (core/src/endbot_core/operations.json), and what the reader promises of them. */
module OperationRegistry {
  import opened Common
  import opened Operations
  import opened OperationValues
  import opened OperationText

  // -- the shapes ----------------------------------------------------------------------------------

  function Of(key: string, kind: Kind): Field { Field(key, Spec(kind, None, None)) }

  function After(clause: string, key: string, kind: Kind): Field { Field(key, Spec(kind, None, Some(clause))) }

  function OneOf(key: string, choices: seq<Value>): Field { Field(key, Spec(KindString, Some(choices), None)) }

  function Bare(): Shape { Shape([], [], []) }

  function Only(key: string, kind: Kind): Shape { Shape([], [Of(key, kind)], []) }

  function Point(): seq<Field> { [Of("x", KindCoordinate), Of("y", KindCoordinate), Of("z", KindCoordinate)] }

  function Mode(): Field { OneOf("mode", [Str("once"), Str("continuous"), Str("stop")]) }

  function Every(): Field { After("interval", "interval", KindInteger) }

  function Lasting(): Field { After("for", "ticks", KindInteger) }

  function Counted(): Field { After("count", "count", KindInteger) }

  function Area(): Field { Of("area", KindArea) }

  function Face(): Field
  {
    OneOf("face", [Str("down"), Str("up"), Str("north"), Str("south"), Str("west"), Str("east")])
  }

  function SpawnAt(): Shape
  {
    Shape(["at"], Point(),
          [After("facing", "yaw", KindNumber), Of("pitch", KindNumber), After("in", "dimension", KindString)])
  }

  function TeleportTo(): Shape
  {
    Shape([], Point(),
          [Of("yaw", KindNumber), Of("pitch", KindNumber), After("in", "dimension", KindString),
           After("facing", "facing", KindPlayer), After("facing", "facingX", KindCoordinate),
           Of("facingY", KindCoordinate), Of("facingZ", KindCoordinate)])
  }

  function Move(): Shape
  {
    Shape([], [OneOf("direction", [Str("forward"), Str("backward"), Str("left"), Str("right"), Str("stop")])], [Lasting()])
  }

  function Look(): seq<Shape>
  {
    [Shape([], [Of("yaw", KindNumber), Of("pitch", KindNumber)], []), Shape(["at"], Point(), [])]
  }

  function TouchAt(): Shape { Shape([], Point(), []) }

  function TouchFace(): Shape { Shape([], Point() + [Face()], []) }

  function TouchTarget(): Shape
  {
    Shape([], [Of("target", KindString)], [Mode(), Every(), Lasting(), Counted(), Area()])
  }

  function BreakNearest(): Shape { Shape([], [], [Mode(), Lasting(), Counted(), Area()]) }

  function BreakAt(): Shape { Shape([], Point(), [Face()]) }

  function BreakType(): Shape
  {
    Shape([], [Of("type", KindString)], [OneOf("mode", [Str("continuous")]), Lasting(), Counted(), Area()])
  }

  function Drop(): seq<Shape> { [Bare(), Shape([], [Of("selector", KindStringOrInteger)], [Of("count", KindInteger)])] }

  function Attack(): seq<Shape>
  {
    [Shape([], [], [Mode(), Every(), Lasting()]),
     Shape([], [Of("target", KindString)], [Mode(), Every(), Lasting(), Counted()])]
  }

  const BARE: set<string> := {"status", "inventory", "entities", "target", "resume", "reconnect", "despawn", "forget",
                              "stop", "dismount", "menu", "list", "ping"}

  const NAMES: set<string> := BARE + {"entity", "block", "blocks", "visibility", "spawn", "rename", "owner", "tp", "move",
                                      "look", "swap", "hold", "hotbar", "radius", "interact", "destroy", "drop", "jump",
                                      "attack", "use", "sprint", "sneak", "help"}

  function ShapesOf(name: string): seq<Shape>
  {
    if name in BARE then [Bare()]
    else if name == "entity" then [Bare(), Only("target", KindString)]
    else if name == "block" then [Shape([], Point(), [])]
    else if name == "blocks"
    then [Shape([], [Of("type", KindString)], [After("limit", "limit", KindInteger), Area()])]
    else if name == "visibility" then [Shape([], [OneOf("visibility", [Str("shared"), Str("private")])], [])]
    else if name == "spawn" then [Bare(), SpawnAt()]
    else if name == "rename" then [Only("name", KindString)]
    else if name == "owner" then [Only("gamertag", KindString)]
    else if name == "tp" then [Only("target", KindPlayer), TeleportTo()]
    else if name == "move" then [Move()]
    else if name == "look" then Look()
    else if name == "swap" then [Shape([], [Of("a", KindInteger), Of("b", KindInteger)], [])]
    else if name == "hold" then [Only("item", KindString)]
    else if name == "hotbar" then [Bare(), Only("slot", KindInteger)]
    else if name == "radius" then [Bare(), Only("value", KindIntegerOrDefault)]
    else if name == "interact" then [Bare(), TouchAt(), TouchFace(), TouchTarget()]
    else if name == "destroy" then [BreakNearest(), BreakAt(), BreakType()]
    else if name == "drop" then Drop()
    else if name == "jump" then [Shape([], [], [Mode(), Every(), Lasting()])]
    else if name == "attack" then Attack()
    else if name == "use" then [Shape([], [], [Mode(), Every(), After("hold", "hold", KindInteger), Lasting()])]
    else if name == "sprint" || name == "sneak" then [Only("value", KindBoolean)]
    else if name == "help" then [Bare(), Only("topic", KindStringOrInteger)]
    else []
  }

  /** Every operation with its shapes. */
  const REGISTRY: Registry := map name | name in NAMES :: ShapesOf(name)

  // -- they are well formed and apart -----------------------------------------------------------------

  predicate Differ(fields: seq<Field>)
  {
    forall i, k :: 0 <= i < k < |fields| ==> fields[i].key != fields[k].key
  }

  lemma {:induction false} KeyAt(fields: seq<Field>, key: string)
    ensures key in Keys(fields) <==> exists i :: 0 <= i < |fields| && fields[i].key == key
    decreases |fields|
  {
    if fields != [] {
      KeyAt(fields[1..], key);
      if key in Keys(fields[1..]) {
        var i :| 0 <= i < |fields[1..]| && fields[1..][i].key == key;
        assert fields[i + 1].key == key;
      }
      assert forall i :: 1 <= i < |fields| ==> fields[i] == fields[1..][i - 1];
    }
  }

  lemma {:induction false} UniqueIf(fields: seq<Field>)
    requires Differ(fields)
    ensures Unique(fields)
    decreases |fields|
  {
    if fields != [] {
      UniqueIf(fields[1..]);
      KeyAt(fields[1..], fields[0].key);
    }
  }

  lemma {:induction false} NoAreaIf(fields: seq<Field>)
    requires forall i :: 0 <= i < |fields| ==> fields[i].spec.kind != KindArea
    ensures NoArea(fields)
    decreases |fields|
  {
    if fields != [] { NoAreaIf(fields[1..]); }
  }

  lemma {:induction false} AreaLastIf(fields: seq<Field>)
    requires forall i :: 0 <= i < |fields| - 1 ==> fields[i].spec.kind != KindArea
    ensures AreaLast(fields)
    decreases |fields|
  {
    if fields != [] { AreaLastIf(fields[1..]); }
  }

  predicate Shapely(shape: Shape)
  {
    && Differ(shape.positional + shape.options)
    && (forall i :: 0 <= i < |shape.positional|
          ==> shape.positional[i].spec.kind != KindArea && shape.positional[i].key != "dimension")
    && (forall i :: 0 <= i < |shape.options| - 1 ==> shape.options[i].spec.kind != KindArea)
  }

  lemma ShapelyWell(shape: Shape)
    requires Shapely(shape)
    ensures WellShaped(shape)
  {
    UniqueIf(shape.positional + shape.options);
    NoAreaIf(shape.positional);
    AreaLastIf(shape.options);
    KeyAt(shape.positional, "dimension");
  }

  /** A field that one shape demands and the other does not have tells them apart. */
  predicate TellsApart(a: Shape, b: Shape, n: nat)
  {
    && n < |a.positional|
    && forall i :: 0 <= i < |b.positional + b.options| ==> (b.positional + b.options)[i].key != a.positional[n].key
  }

  lemma ToldApart(a: Shape, b: Shape, n: nat)
    requires TellsApart(a, b, n)
    ensures Separated(a, b) && Separated(b, a)
  {
    var key := a.positional[n].key;
    KeyAt(a.positional, key);
    KeyAt(b.positional + b.options, key);
    KeysAppend(b.positional, b.options);
    assert key in Keys(a.positional);
  }

  ghost predicate Sound(shapes: seq<Shape>) { AllWellShaped(shapes) && AllSeparated(shapes) }

  lemma OneSound(shape: Shape)
    requires Shapely(shape)
    ensures Sound([shape])
  {
    ShapelyWell(shape);
  }

  lemma TwoSound(a: Shape, b: Shape)
    requires Shapely(a) && Shapely(b) && TellsApart(b, a, 0)
    ensures Sound([a, b])
  {
    ShapelyWell(a);
    ShapelyWell(b);
    ToldApart(b, a, 0);
  }

  /** One more shape in front of shapes that are in order. */
  lemma MoreSound(shape: Shape, others: seq<Shape>, ns: seq<nat>)
    requires Shapely(shape) && Sound(others)
    requires |ns| == |others| && forall k :: 0 <= k < |others| ==> TellsApart(others[k], shape, ns[k])
    ensures Sound([shape] + others)
  {
    hide Shapely, WellShaped, TellsApart, Separated;
    ShapelyWell(shape);
    forall k | 0 <= k < |others| ensures Separated(shape, others[k]) {
      ToldApart(others[k], shape, ns[k]);
    }
  }

  lemma OnlySound(key: string, kind: Kind)
    requires kind != KindArea && key != "dimension"
    ensures Sound([Only(key, kind)]) && Sound([Bare(), Only(key, kind)])
  {
    OneSound(Only(key, kind));
    TwoSound(Bare(), Only(key, kind));
  }

  lemma TeleportSound()
    ensures Sound([Only("target", KindPlayer), TeleportTo()])
  {
    TwoSound(Only("target", KindPlayer), TeleportTo());
  }

  lemma InteractSound()
    ensures Sound([Bare(), TouchAt(), TouchFace(), TouchTarget()])
  {
    hide *;
    InteractShapely();
    InteractApart();
    InteractBare();
    var a, b, c, d := Bare(), TouchAt(), TouchFace(), TouchTarget();
    TwoSound(c, d);
    MoreSound(b, [c, d], [3, 0]);
    assert [b] + [c, d] == [b, c, d];
    MoreSound(a, [b, c, d], [0, 0, 0]);
    assert [a] + [b, c, d] == [a, b, c, d];
  }

  lemma InteractShapely()
    ensures Shapely(Bare()) && Shapely(TouchAt()) && Shapely(TouchFace()) && Shapely(TouchTarget())
  {
  }

  lemma InteractApart()
    ensures TellsApart(TouchTarget(), TouchFace(), 0)
    ensures TellsApart(TouchFace(), TouchAt(), 3) && TellsApart(TouchTarget(), TouchAt(), 0)
  {
  }

  lemma InteractBare()
    ensures TellsApart(TouchAt(), Bare(), 0) && TellsApart(TouchFace(), Bare(), 0) && TellsApart(TouchTarget(), Bare(), 0)
  {
  }

  lemma DestroySound()
    ensures Sound([BreakNearest(), BreakAt(), BreakType()])
  {
    hide *;
    DestroyShapely();
    DestroyApart();
    var a, b, c := BreakNearest(), BreakAt(), BreakType();
    TwoSound(b, c);
    MoreSound(a, [b, c], [0, 0]);
    assert [a] + [b, c] == [a, b, c];
  }

  lemma DestroyShapely()
    ensures Shapely(BreakNearest()) && Shapely(BreakAt()) && Shapely(BreakType())
  {
  }

  lemma DestroyApart()
    ensures TellsApart(BreakType(), BreakAt(), 0)
    ensures TellsApart(BreakAt(), BreakNearest(), 0) && TellsApart(BreakType(), BreakNearest(), 0)
  {
  }

  lemma LookSound()
    ensures Sound(Look())
  {
    hide Sound;
    TwoSound(Look()[0], Look()[1]);
  }

  lemma AttackSound()
    ensures Sound(Attack())
  {
    hide Sound;
    TwoSound(Attack()[0], Attack()[1]);
  }

  lemma SpawnSound()
    ensures Sound([Bare(), SpawnAt()])
  {
    hide Sound;
    TwoSound(Bare(), SpawnAt());
  }

  lemma DropSound()
    ensures Sound(Drop())
  {
    hide Sound;
    TwoSound(Drop()[0], Drop()[1]);
  }

  lemma NoneSound()
    ensures Sound([]) && Sound([Bare()])
  {
    OneSound(Bare());
  }

  lemma ShapesSound(name: string)
    ensures Sound(ShapesOf(name))
  {
    hide Sound, Shapely, TellsApart;
    NoneSound();
    OnlySound("target", KindString);
    OnlySound("name", KindString);
    OnlySound("gamertag", KindString);
    OnlySound("item", KindString);
    OnlySound("slot", KindInteger);
    OnlySound("value", KindIntegerOrDefault);
    OnlySound("value", KindBoolean);
    OnlySound("topic", KindStringOrInteger);
    SinglesSound();
    TimedSound();
    SpawnSound();
    TeleportSound();
    LookSound();
    InteractSound();
    DestroySound();
    DropSound();
    AttackSound();
    hide Bare, Only, Point, Of, After, OneOf, Mode, Every, Lasting, Counted, Area, SpawnAt, TeleportTo, Look, Move;
    hide TouchAt, TouchFace, TouchTarget, BreakNearest, BreakAt, BreakType, Drop, Attack;
  }

  lemma SinglesSound()
    ensures Sound([Shape([], Point(), [])]) && Sound([Move()])
    ensures Sound([Shape([], [Of("type", KindString)], [After("limit", "limit", KindInteger), Area()])])
    ensures Sound([Shape([], [OneOf("visibility", [Str("shared"), Str("private")])], [])])
    ensures Sound([Shape([], [Of("a", KindInteger), Of("b", KindInteger)], [])])
  {
    hide Sound;
    OneSound(Shape([], Point(), []));
    OneSound(Move());
    OneSound(Shape([], [Of("type", KindString)], [After("limit", "limit", KindInteger), Area()]));
    OneSound(Shape([], [OneOf("visibility", [Str("shared"), Str("private")])], []));
    OneSound(Shape([], [Of("a", KindInteger), Of("b", KindInteger)], []));
  }

  lemma TimedSound()
    ensures Sound([Shape([], [], [Mode(), Every(), Lasting()])])
    ensures Sound([Shape([], [], [Mode(), Every(), After("hold", "hold", KindInteger), Lasting()])])
  {
    hide Sound;
    OneSound(Shape([], [], [Mode(), Every(), Lasting()]));
    OneSound(Shape([], [], [Mode(), Every(), After("hold", "hold", KindInteger), Lasting()]));
  }

  /** The source's own registry is in order: its shapes are well formed and apart. */
  lemma SourceRegistered()
    ensures Registered(REGISTRY)
  {
    hide ShapesOf;
    forall name | name in REGISTRY ensures AllWellShaped(REGISTRY[name]) && AllSeparated(REGISTRY[name]) {
      ShapesSound(name);
    }
  }

  // -- the source's own texts ------------------------------------------------------------------------------

  /** No coordinate is written as the word `in`. */
  lemma CoordinateIsNotIn(v: Value, spec: Spec)
    requires spec.kind == KindCoordinate && Scalar(v, spec).Some?
    ensures Scalar(v, spec).value != "in"
  {
    assert ReadNumber("in") == None;
    if v.Int? {
      NumberBack(v.number);
      assert IntText(v.number)[0] == '-' || IsDigit(IntText(v.number)[0]);
    } else if v.Decimal? {
      if IsPlain(v) { PlainBack(v); } else { TinyText(v); }
    }
  }

  /** Only a teleport to a point has a leading dimension. */
  lemma OnlyTeleportLeads(name: string, i: nat)
    requires name in REGISTRY && i < |REGISTRY[name]| && Leads(name, REGISTRY[name][i])
    ensures name == "tp" && REGISTRY[name][i] == TeleportTo()
  {
    assert "tp" !in BARE;
    assert Keys(Only("target", KindPlayer).options) == {};
  }

  lemma TeleportStartsWithNumber(p: Params, area: AreaCodec)
    requires Admits(TeleportTo(), p.Keys) && "dimension" !in p && ShapeTokens("tp", TeleportTo(), p, area).Some?
    ensures NoFalseDimension("tp", TeleportTo(), p, ShapeTokens("tp", TeleportTo(), p, area).value)
  {
    var shape := TeleportTo();
    var fields := shape.positional + Trailing("tp", shape);
    var first := Of("x", KindCoordinate);
    assert fields[0] == shape.positional[0] == first;
    assert "x" in Keys(shape.positional);
    hide Trailing, Leads, Admits, TeleportTo;
    assert Write(fields, p, area).Some?;
    CoordinateIsNotIn(p["x"], first.spec);
    assert Write(fields, p, area).value[0] == Scalar(p["x"], first.spec).value;
  }

  /**
   * Every canonical text of the source's own operations is read: for an operation that prints, whose values read
   * back, whose option groups are complete, whose target is no root word, and in whose words no area is read that
   * does not print, the reader finds an operation that prints the same words.
   */
  lemma SourceTextReads(op: Operation, area: AreaCodec)
    requires Argv(op, REGISTRY, area).Some? && GroupsComplete(op.params)
    requires AreasStable(Argv(op, REGISTRY, area).value, area)
    requires op.target.Some? && Unaliased(op.name) !in ROOT_OPERATIONS ==> op.target.value !in ROOT_OPERATIONS
    requires var shapes := REGISTRY[Unaliased(op.name)];
      AllReadBack(Taken(shapes, op.params.Keys), op.params, area)
    ensures var tokens := Argv(op, REGISTRY, area).value;
      && ParseOperation(tokens, REGISTRY, area).Some?
      && Argv(ParseOperation(tokens, REGISTRY, area).value, REGISTRY, area) == Some(tokens)
  {
    SourceReadable(op, area);
    SourceRegistered();
    CanonicalTextReads(op, REGISTRY, area);
  }

  /** The fields of the shape that an operation prints as. */
  function Taken(shapes: seq<Shape>, keys: set<string>): seq<Field>
  {
    var i := FirstAdmitting(shapes, keys);
    if i < |shapes| then shapes[i].positional + shapes[i].options else []
  }

  lemma SourceReadable(op: Operation, area: AreaCodec)
    requires Argv(op, REGISTRY, area).Some? && GroupsComplete(op.params)
    requires AreasStable(Argv(op, REGISTRY, area).value, area)
    requires op.target.Some? && Unaliased(op.name) !in ROOT_OPERATIONS ==> op.target.value !in ROOT_OPERATIONS
    requires AllReadBack(Taken(REGISTRY[Unaliased(op.name)], op.params.Keys), op.params, area)
    ensures Readable(op, REGISTRY, area)
  {
    hide ShapeTokens, GroupsComplete, AreasStable, AllReadBack, ShapesOf, Leads, Admits, NoFalseDimension;
    var name, argv := Unaliased(op.name), Argv(op, REGISTRY, area).value;
    var shapes := REGISTRY[name];
    var i := FirstAdmitting(shapes, op.params.Keys);
    var words := ShapeTokens(name, shapes[i], op.params, area).value;
    PartsReadBack(shapes[i].positional, shapes[i].options, op.params, area);
    var n := if name in ROOT_OPERATIONS then 1 else 2;
    assert argv[n..] == words;
    StableSuffix(argv, n, area);
    SourceNoFalseDimension(name, i, op.params, area);
  }

  lemma SourceNoFalseDimension(name: string, i: nat, p: Params, area: AreaCodec)
    requires name in REGISTRY && i < |REGISTRY[name]| && Admits(REGISTRY[name][i], p.Keys)
    requires ShapeTokens(name, REGISTRY[name][i], p, area).Some?
    ensures NoFalseDimension(name, REGISTRY[name][i], p, ShapeTokens(name, REGISTRY[name][i], p, area).value)
  {
    hide ShapeTokens, ShapesOf, Leads, Admits;
    if Leads(name, REGISTRY[name][i]) && "dimension" !in p {
      OnlyTeleportLeads(name, i);
      TeleportStartsWithNumber(p, area);
    }
  }

  lemma PartsReadBack(a: seq<Field>, b: seq<Field>, p: Params, area: AreaCodec)
    requires AllReadBack(a + b, p, area)
    ensures AllReadBack(a, p, area) && AllReadBack(b, p, area)
  {
    hide FieldReadsBack;
    assert forall f :: f in a || f in b ==> f in a + b;
  }

  lemma BareOperations()
    ensures "status" in REGISTRY && REGISTRY["status"] == [Bare()] && "status" !in ROOT_OPERATIONS
    ensures "list" in REGISTRY && REGISTRY["list"] == [Bare()] && "list" in ROOT_OPERATIONS
    ensures IsTarget("list")
  {
    assert "status" in BARE && "list" in BARE;
    assert IsBotName("list");
  }

  lemma BarePrints(name: string, target: string, registry: Registry, area: AreaCodec)
    requires name in registry && registry[name] == [Bare()] && Unaliased(name) == name && name !in ROOT_OPERATIONS
    requires IsTarget(target)
    ensures Argv(Operation(name, Some(target), map[]), registry, area) == Some([target, name])
  {
    var empty: Params := map[];
    BareTokens(name, empty, area);
    assert empty.Keys == {} && Admits(Bare(), {}) && FirstAdmitting([Bare()], {}) == 0;
    hide ShapeTokens, FirstAdmitting, IsTarget, Bare, Admits;
    assert [target, name] + [] == [target, name];
  }

  lemma BareTakesNoWords(name: string, word: string, registry: Registry, area: AreaCodec)
    requires name in registry && registry[name] == [Bare()] && name in ROOT_OPERATIONS
    ensures ParseOperation([name, word], registry, area) == None
  {
    BareMatches(name, [word], area);
    hide Match, Bare;
    assert [name, word][1..] == [word] && [Bare()][1..] == [];
    assert TryReadings(name, None, [], [name, word], registry, area) == Nothing;
    assert TryShapes(name, None, [Bare()], [word], [name, word], registry, area) == Nothing;
  }

  /** The words of a Bot that is called `list` are taken for the root operation, which is why that name is reserved. */
  lemma RootNameRefusesCanonicalText(area: AreaCodec)
    ensures Argv(Operation("status", Some("list"), map[]), REGISTRY, area) == Some(["list", "status"])
    ensures ParseOperation(["list", "status"], REGISTRY, area) == None
  {
    hide Argv, ParseOperation, IsTarget;
    BareOperations();
    BarePrints("status", "list", REGISTRY, area);
    BareTakesNoWords("list", "status", REGISTRY, area);
  }

  lemma BareTokens(name: string, p: Params, area: AreaCodec)
    ensures ShapeTokens(name, Bare(), p, area) == Some([])
  {
    var none: seq<Field> := [];
    assert none + Trailing(name, Bare()) == none;
  }

  lemma BareMatches(name: string, words: seq<string>, area: AreaCodec)
    requires words != []
    ensures Match(name, Bare(), words, area) == Some([])
  {
    assert words[0..] == words;
  }
}
