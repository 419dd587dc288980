/** Why the reader's promise needs its conditions (core/src/endbot_core/operations.py): what happens without each. */
module OperationNeeds {
  import opened Common
  import opened Operations
  import opened OperationValues
  import opened OperationText

  // -- shapes that overlap -----------------------------------------------------------------------

  function One(key: string, kind: Kind): Shape { Shape([], [Field(key, Spec(kind, None, None))], []) }

  /** Two shapes of one field `a`, and one of a field `b`. */
  function Overlapping(): Registry { map["x" := [One("a", KindInteger), One("a", KindString), One("b", KindString)]] }

  lemma OneTokens(key: string, kind: Kind, v: Value, area: AreaCodec)
    requires kind != KindArea
    ensures ShapeTokens("x", One(key, kind), map[key := v], area)
            == if Scalar(v, Spec(kind, None, None)).None? then None
               else Some([Scalar(v, Spec(kind, None, None)).value])
  {
    var shape, token, p: Params := One(key, kind), Scalar(v, Spec(kind, None, None)), map[key := v];
    hide Scalar;
    var fields := shape.positional;
    assert fields + [] == fields && fields[1..] == [];
    assert Write([], p, area) == Some([]);
    if token.Some? {
      assert [] + [token.value] == [token.value] && [token.value] + [] == [token.value];
      assert Write(fields, p, area) == Some([token.value]);
    }
  }

  lemma OneMatches(key: string, kind: Kind, word: string, area: AreaCodec)
    requires kind != KindArea
    ensures Match("x", One(key, kind), [word], area)
            == var v := ReadValue(word, Spec(kind, None, None)); if v.None? then None else Some([map[key := v.value]])
  {
    var v := ReadValue(word, Spec(kind, None, None));
    hide ReadValue;
    var fields := One(key, kind).positional;
    var words, empty: Params := [word], map[];
    assert words[0..] == words && words[1..] == [] && words[..0] == [] && fields[1..] == [];
    assert Leading("x", One(key, kind), words) == Some((empty, words));
    if v.Some? {
      assert Positionals([], [], empty[key := v.value]) == Some((empty[key := v.value], []));
      assert Positionals(fields, words, empty) == Some((empty[key := v.value], []));
      assert Options([], [], area) == [empty];
      assert empty[key := v.value] + empty == map[key := v.value];
      assert Joined(empty[key := v.value], [empty]) == [map[key := v.value]];
    }
  }

  lemma PlainWord()
    ensures SingleToken("go") && !IsIntText("go")
    ensures Scalar(Str("go"), Spec(KindString, None, None)) == Some("go")
    ensures Scalar(Str("go"), Spec(KindInteger, None, None)) == None
    ensures ReadValue("go", Spec(KindInteger, None, None)) == None
    ensures ReadValue("go", Spec(KindString, None, None)) == Some(Str("go"))
  {
    assert !IsDigit("go"[0]);
  }

  /**
   * Where shapes overlap, a reading of an earlier shape can be printed as a still earlier one and raise, so a
   * canonical text with values that read back is refused.
   */
  lemma OverlapRefusesCanonicalText(area: AreaCodec)
    ensures var op := Operation("x", Some("Al"), map["b" := Str("go")]);
      && Argv(op, Overlapping(), area) == Some(["Al", "x", "go"])
      && ParseOperation(["Al", "x", "go"], Overlapping(), area) == None
  {
    hide Argv, Match, ReadValue, Heading, GroupsComplete, Scalar, SingleToken, IsIntText, TryShapes;
    var registry, shapes, tokens := Overlapping(), Overlapping()["x"], ["Al", "x", "go"];
    var read: Params := map["a" := Str("go")];
    var reading := Operation("x", Some("Al"), read);
    OverlapPrints(area);
    PlainWord();
    OneMatches("a", KindInteger, "go", area);
    OneMatches("a", KindString, "go", area);
    OverlapHeading();
    assert TryReading(reading, tokens, registry, area) == Raises;
    assert TryReadings("x", Some("Al"), [read], tokens, registry, area) == Raises;
    OverlapTries(shapes, [read], tokens, registry, area);
  }

  lemma OverlapHeading()
    ensures Heading(["Al", "x", "go"]) == Some(("x", Some("Al"), ["go"]))
  {
    AlIsTarget();
    hide IsTarget;
    assert ["Al", "x", "go"][2..] == ["go"];
  }

  lemma OverlapTries(shapes: seq<Shape>, readings: seq<Params>, tokens: seq<string>, registry: Registry, area: AreaCodec)
    requires |shapes| >= 2 && Match("x", shapes[0], ["go"], area) == None
    requires Match("x", shapes[1], ["go"], area) == Some(readings)
    requires TryReadings("x", Some("Al"), readings, tokens, registry, area) == Raises
    ensures TryShapes("x", Some("Al"), shapes, ["go"], tokens, registry, area) == Raises
  {
    hide Match, TryReadings;
    assert shapes[1..][0] == shapes[1];
    assert TryShapes("x", Some("Al"), shapes[1..], ["go"], tokens, registry, area) == Raises;
  }

  /** The third shape takes `b` alone, and the first takes `a` alone. */
  lemma OverlapAdmits()
    ensures var shapes := Overlapping()["x"];
      && FirstAdmitting(shapes, {"b"}) == 2 && FirstAdmitting(shapes, {"a"}) == 0
  {
    var shapes := Overlapping()["x"];
    forall key: string, kind: Kind ensures Keys(One(key, kind).positional) == {key} && Keys(One(key, kind).options) == {} {
      assert One(key, kind).positional[1..] == [];
    }
    assert "a" != "b";
    assert !Admits(shapes[0], {"b"}) && !Admits(shapes[1], {"b"}) && Admits(shapes[2], {"b"}) && Admits(shapes[0], {"a"});
    FirstOf(shapes, {"b"}, 2);
    FirstOf(shapes, {"a"}, 0);
  }

  lemma OverlapPrints(area: AreaCodec)
    ensures Argv(Operation("x", Some("Al"), map["b" := Str("go")]), Overlapping(), area) == Some(["Al", "x", "go"])
    ensures Argv(Operation("x", Some("Al"), map["a" := Str("go")]), Overlapping(), area) == None
    ensures GroupsComplete(map["a" := Str("go")])
  {
    hide Scalar, ReadValue, SingleToken, IsIntText, Allowed, Admits, ShapeTokens, FirstAdmitting, IsTarget;
    OverlapAdmits();
    PlainWord();
    OneTokens("b", KindString, Str("go"), area);
    OneTokens("a", KindInteger, Str("go"), area);
    AlIsTarget();
    var given, read: Params := map["b" := Str("go")], map["a" := Str("go")];
    assert given.Keys == {"b"} && read.Keys == {"a"};
    assert ["Al", "x"] + ["go"] == ["Al", "x", "go"];
  }

  lemma AlIsTarget()
    ensures IsTarget("Al")
  {
    assert IsBotName("Al");
  }

  lemma FirstOf(shapes: seq<Shape>, keys: set<string>, i: nat)
    requires i < |shapes| && Admits(shapes[i], keys) && forall k :: 0 <= k < i ==> !Admits(shapes[k], keys)
    ensures FirstAdmitting(shapes, keys) == i
  {
    hide Admits;
    var k := FirstAdmitting(shapes, keys);
  }

  // -- words that begin with `in` -----------------------------------------------------------------

  /** A teleport of one free word, with the leading dimension of its options. */
  function FreeTeleport(): Shape
  {
    Shape([], [Field("a", Spec(KindString, None, None))], [Field("dimension", Spec(KindString, None, Some("in")))])
  }

  lemma FreeTeleportFits()
    ensures var shape := FreeTeleport();
      && WellShaped(shape) && Leads("tp", shape) && Trailing("tp", shape) == []
      && Keys(shape.positional) == {"a"} && Keys(shape.options) == {"dimension"}
  {
    var shape := FreeTeleport();
    assert shape.positional[1..] == [] && shape.options[1..] == [];
    assert shape.positional + shape.options == [shape.positional[0], shape.options[0]];
    assert (shape.positional + shape.options)[1..] == shape.options;
    assert "a" != "dimension";
  }

  /** A first word that is `in` is taken for a dimension, and the text is refused though its shapes are in order. */
  lemma LeadingInRefusesCanonicalText(area: AreaCodec)
    ensures var registry: Registry := map["tp" := [FreeTeleport()]];
      && Registered(registry)
      && Argv(Operation("tp", Some("Al"), map["a" := Str("in")]), registry, area) == Some(["Al", "tp", "in"])
      && ParseOperation(["Al", "tp", "in"], registry, area) == None
  {
    FreeTeleportFits();
    var shape, p: Params := FreeTeleport(), map["a" := Str("in")];
    assert p.Keys == {"a"} && "dimension" !in p by { assert "a" != "dimension"; }
    FirstOf([shape], p.Keys, 0);
    AlIsTarget();
    FreeTeleportPrints(area);
    assert Match("tp", shape, ["in"], area) == None by { assert Leading("tp", shape, ["in"]) == None; }
    hide Match, ShapeTokens, WellShaped, IsTarget, FirstAdmitting, Admits, Leads;
    assert ["Al", "tp"] + ["in"] == ["Al", "tp", "in"] && ["Al", "tp", "in"][2..] == ["in"];
    assert [shape][1..] == [];
  }

  lemma FreeTeleportPrints(area: AreaCodec)
    ensures ShapeTokens("tp", FreeTeleport(), map["a" := Str("in")], area) == Some(["in"])
  {
    FreeTeleportFits();
    var shape, p: Params := FreeTeleport(), map["a" := Str("in")];
    assert "dimension" !in p by { assert "a" != "dimension"; }
    assert SingleToken("in");
    var fields := shape.positional;
    assert fields + [] == fields && fields[1..] == [];
    assert Write([], p, area) == Some([]);
    assert ClauseOf(fields[0].spec) + ["in"] == ["in"] && ["in"] + [] == ["in"];
    assert Write(fields, p, area) == Some(["in"]);
  }

  // -- words that read as an area that does not print ------------------------------------------------

  /** One area on its own, or two free words. */
  function AreaOrWords(): seq<Shape>
  {
    [Shape([], [], [Field("area", Spec(KindArea, None, None))]),
     Shape([], [Field("a", Spec(KindString, None, None)), Field("b", Spec(KindString, None, None))], [])]
  }

  /** The words `within x` make an area whose own words, `within y`, make none. */
  function Shifting(words: seq<string>): Option<seq<string>>
  {
    if words == ["within", "x"] then Some(["within", "y"]) else None
  }

  lemma AreaOrWordsFits()
    ensures Registered(map["x" := AreaOrWords()])
    ensures FirstAdmitting(AreaOrWords(), {"area"}) == 0 && FirstAdmitting(AreaOrWords(), {"a", "b"}) == 1
  {
    var shapes := AreaOrWords();
    var area, words := shapes[0], shapes[1];
    assert area.options[1..] == [] && words.positional[1..] == [words.positional[1]] && words.positional[1..][1..] == [];
    assert area.positional + area.options == area.options && words.positional + words.options == words.positional;
    assert Keys(area.positional) == {} && Keys(area.options) == {"area"};
    assert Keys(words.positional) == {"a", "b"} && Keys(words.options) == {};
    assert "a" != "b" && "a" != "area" && "b" != "area" && "dimension" !in {"a", "b"};
    assert WellShaped(area) && WellShaped(words);
    assert "a" in Keys(words.positional) && "a" !in Keys(area.positional) + Keys(area.options);
    assert Admits(area, {"area"}) && !Admits(area, {"a", "b"}) && Admits(words, {"a", "b"});
    FirstOf(shapes, {"area"}, 0);
    FirstOf(shapes, {"a", "b"}, 1);
  }

  lemma WordsPrint()
    ensures ShapeTokens("x", AreaOrWords()[1], map["a" := Str("within"), "b" := Str("x")], Shifting)
            == Some(["within", "x"])
  {
    var shape, p: Params := AreaOrWords()[1], map["a" := Str("within"), "b" := Str("x")];
    assert SingleToken("within") && SingleToken("x") && "a" != "b";
    var fields := shape.positional;
    assert fields + [] == fields && fields[1..] == [fields[1]] && fields[1..][1..] == [];
    assert Write([], p, Shifting) == Some([]);
    assert [] + ["x"] == ["x"] && ["x"] + [] == ["x"] && [] + ["within"] == ["within"];
    assert Write(fields[1..], p, Shifting) == Some(["x"]);
    assert ["within"] + ["x"] == ["within", "x"] && [] + ["within", "x"] == ["within", "x"];
    assert Write(fields, p, Shifting) == Some(["within", "x"]);
  }

  lemma WordsReadAsArea()
    ensures var shape, read: Params := AreaOrWords()[0], map["area" := AreaWords(["within", "y"])];
      && Match("x", shape, ["within", "x"], Shifting) == Some([read]) && ShapeTokens("x", shape, read, Shifting) == None
  {
    var shape, words, empty: Params := AreaOrWords()[0], ["within", "x"], map[];
    var read: Params := map["area" := AreaWords(["within", "y"])];
    var fields := shape.options;
    assert fields[1..] == [] && words[0..] == words && [] + fields == fields;
    assert Options([], words, Shifting) == [];
    assert [read] + [] == [read];
    assert Options(fields, words, Shifting) == [read];
    assert Leading("x", shape, words) == Some((empty, words));
    assert empty + read == read;
    assert Joined(empty, [read])[0] == read;
    assert "y" != "x";
  }

  /** Words that read as an area which does not print make the reader raise before it comes to the shape they are of. */
  lemma UnprintableAreaRefusesCanonicalText()
    ensures var registry: Registry := map["x" := AreaOrWords()];
      && Registered(registry)
      && Argv(Operation("x", Some("Al"), map["a" := Str("within"), "b" := Str("x")]), registry, Shifting)
         == Some(["Al", "x", "within", "x"])
      && ParseOperation(["Al", "x", "within", "x"], registry, Shifting) == None
  {
    AreaOrWordsFits();
    WordsPrint();
    WordsReadAsArea();
    AlIsTarget();
    hide Match, ShapeTokens, Registered, IsTarget, FirstAdmitting;
    var registry: Registry, tokens := map["x" := AreaOrWords()], ["Al", "x", "within", "x"];
    var given, read: Params := map["a" := Str("within"), "b" := Str("x")], map["area" := AreaWords(["within", "y"])];
    assert given.Keys == {"a", "b"} && read.Keys == {"area"};
    assert ["Al", "x"] + ["within", "x"] == tokens && tokens[2..] == ["within", "x"];
    assert GroupsComplete(read) by { assert "area" !in GROUPS[0] && "area" !in GROUPS[1]; }
    hide GroupsComplete, Argv;
    assert TryReading(Operation("x", Some("Al"), read), tokens, registry, Shifting) == Raises;
    assert TryReadings("x", Some("Al"), [read], tokens, registry, Shifting) == Raises;
    assert TryShapes("x", Some("Al"), AreaOrWords(), ["within", "x"], tokens, registry, Shifting) == Raises;
  }
}
