/**
 * The application's own test scenarios, replayed against the model: each
 * method drives a fresh `Application` through the same field contents and
 * actions as the test and states the outcome the test expects.
 */
module Scenarios {
  import opened Tokenizer
  import opened Colours
  import opened Registry
  import opened Sorter
  import opened App

  /** A field holding tokens joined by spaces yields those tokens. */
  lemma FieldTokens(ts: seq<string>)
    requires forall i :: 0 <= i < |ts| ==> IsToken(ts[i])
    ensures Split(Strip(Join(ts))) == ts
  {
    SplitStrip(Join(ts));
    SplitJoin(ts);
  }

  /** The tests' helper: type each colour's tokens, joined by spaces, into
      its field and press "assign colours". */
  method AssignForTest(app: Application, green: seq<string>, blue: seq<string>, red: seq<string>)
    requires forall i :: 0 <= i < |green| ==> IsToken(green[i])
    requires forall i :: 0 <= i < |blue| ==> IsToken(blue[i])
    requires forall i :: 0 <= i < |red| ==> IsToken(red[i])
    modifies app
    ensures app.mapping == Assigned(green, blue, red) && app.shown == old(app.shown)
  {
    FieldTokens(green);
    FieldTokens(blue);
    FieldTokens(red);
    app.AssignColours(Join(green), Join(blue), Join(red));
  }

  /** Type the tokens, joined by spaces, into the objects field and press "sort". */
  method SortForTest(app: Application, objects: seq<string>) returns (outcome: SortOutcome)
    requires forall i :: 0 <= i < |objects| ==> IsToken(objects[i])
    modifies app
    ensures app.mapping == old(app.mapping)
    ensures objects == [] ==> outcome == EmptyInput && app.shown == old(app.shown)
    ensures objects != [] && !Coloured(app.mapping, objects) ==>
      && app.shown == old(app.shown)
      && outcome.Failed? && outcome.error.UncolouredObject?
      && exists i :: (0 <= i < |objects| && objects[i] == outcome.error.token && objects[i] !in app.mapping
           && forall j :: 0 <= j < i ==> objects[j] in app.mapping)
    ensures objects != [] && Coloured(app.mapping, objects) ==>
      && outcome == Displayed(app.shown)
      && app.shown == OfColour(app.mapping, objects, Green) + OfColour(app.mapping, objects, Blue)
           + OfColour(app.mapping, objects, Red)
  {
    FieldTokens(objects);
    outcome := app.SortColours(Join(objects));
  }

  /** `Assigned` equals a mapping that has the lists' tokens as keys and, for
      each, the colour of the last list naming it. */
  lemma AssignedEquals(green: seq<string>, blue: seq<string>, red: seq<string>, expected: map<string, Colour>)
    requires forall t :: t in expected <==> t in green || t in blue || t in red
    requires forall t :: t in expected ==> expected[t] == if t in red then Red else if t in blue then Blue else Green
    ensures Assigned(green, blue, red) == expected
  {
    var m := Assigned(green, blue, red);
    forall t
      ensures t in m <==> t in expected
      ensures t in m ==> m[t] == expected[t]
    {
      AssignedSpec(green, blue, red, t);
    }
  }

  /** The six objects every scenario but one sorts. */
  const Objects: seq<string> := ["A", "B", "C", "D", "E", "F"]

  lemma ObjectsAreTokens()
    ensures forall i :: 0 <= i < |Objects| ==> IsToken(Objects[i])
  {
  }

  /** The tests' setUp followed by their assign step. */
  method SetUp(green: seq<string>, blue: seq<string>, red: seq<string>) returns (app: Application)
    requires forall i :: 0 <= i < |green| ==> IsToken(green[i])
    requires forall i :: 0 <= i < |blue| ==> IsToken(blue[i])
    requires forall i :: 0 <= i < |red| ==> IsToken(red[i])
    ensures fresh(app) && app.mapping == Assigned(green, blue, red) && app.shown == []
  {
    app := new Application();
    AssignForTest(app, green, blue, red);
  }

  /** The mapping of the basic case: A B green, C D blue, E F red. */
  const Basic: map<string, Colour> := map["A" := Green, "B" := Green, "C" := Blue, "D" := Blue, "E" := Red, "F" := Red]

  lemma BasicMapping()
    ensures Assigned(["A", "B"], ["C", "D"], ["E", "F"]) == Basic
  {
    AssignedEquals(["A", "B"], ["C", "D"], ["E", "F"], Basic);
  }

  lemma BasicGreen()
    ensures OfColour(Basic, Objects, Green) == ["A", "B"]
  {
  }

  lemma BasicBlue()
    ensures OfColour(Basic, Objects, Blue) == ["C", "D"]
  {
  }

  lemma BasicRed()
    ensures OfColour(Basic, Objects, Red) == ["E", "F"]
  {
  }

  /** Under the basic mapping every object is coloured, and grouping by
      colour reproduces the objects in their order. */
  lemma BasicOrder()
    ensures Coloured(Basic, Objects)
    ensures OfColour(Basic, Objects, Green) + OfColour(Basic, Objects, Blue) + OfColour(Basic, Objects, Red) == Objects
  {
    BasicGreen();
    BasicBlue();
    BasicRed();
  }

  /** Basic case: A B green, C D blue, E F red; sorting A to F shows A to F. */
  method BasicSort() returns (outcome: SortOutcome)
    ensures outcome == Displayed(Objects)
  {
    var app := SetUp(["A", "B"], ["C", "D"], ["E", "F"]);
    BasicMapping();
    ObjectsAreTokens();
    BasicOrder();
    outcome := SortForTest(app, Objects);
  }

  /** Empty objects field: an input error, and the result area stays empty. */
  method EmptyInputSort() returns (outcome: SortOutcome, shown: seq<string>)
    ensures outcome == EmptyInput && shown == []
  {
    var app := new Application();
    outcome := SortForTest(app, []);
    shown := app.shown;
  }

  /** The first uncoloured token of `Objects` under a mapping that colours
      exactly its first `k` tokens is the `k`-th. */
  lemma FirstMissing(m: map<string, Colour>, k: nat, token: string)
    requires k < |Objects|
    requires forall j :: 0 <= j < k ==> Objects[j] in m
    requires Objects[k] !in m
    requires exists i :: (0 <= i < |Objects| && Objects[i] == token && Objects[i] !in m
      && forall j :: 0 <= j < i ==> Objects[j] in m)
    ensures token == Objects[k]
  {
    var i :| 0 <= i < |Objects| && Objects[i] == token && Objects[i] !in m
      && forall j :: 0 <= j < i ==> Objects[j] in m;
    assert i == k;
  }

  lemma NoColoursMapping(m: map<string, Colour>)
    requires m == Assigned(["A", "B"], [], [])
    ensures forall j :: 0 <= j < 2 ==> Objects[j] in m
    ensures Objects[2] !in m
  {
    AssignedEquals(["A", "B"], [], [], map["A" := Green, "B" := Green]);
  }

  /** Only A B coloured: sorting A to F fails at C, and nothing is shown. */
  method NoColoursSort() returns (outcome: SortOutcome, shown: seq<string>)
    ensures outcome == Failed(UncolouredObject("C")) && shown == []
  {
    var app := SetUp(["A", "B"], [], []);
    NoColoursMapping(app.mapping);
    ObjectsAreTokens();
    outcome := SortForTest(app, Objects);
    FirstMissing(app.mapping, 2, outcome.error.token);
    shown := app.shown;
  }

  lemma PartialMapping(m: map<string, Colour>)
    requires m == Assigned(["A", "B"], ["C", "D"], [])
    ensures forall j :: 0 <= j < 4 ==> Objects[j] in m
    ensures Objects[4] !in m
  {
    AssignedEquals(["A", "B"], ["C", "D"], [], map["A" := Green, "B" := Green, "C" := Blue, "D" := Blue]);
  }

  /** A B green, C D blue: sorting A to F fails at E. */
  method PartialSort() returns (outcome: SortOutcome)
    ensures outcome == Failed(UncolouredObject("E"))
  {
    var app := SetUp(["A", "B"], ["C", "D"], []);
    PartialMapping(app.mapping);
    ObjectsAreTokens();
    outcome := SortForTest(app, Objects);
    FirstMissing(app.mapping, 4, outcome.error.token);
  }

  lemma SameColourOrder(m: map<string, Colour>)
    requires m == Assigned(["A", "B", "C"], [], [])
    ensures Coloured(m, ["A", "B", "C"])
    ensures OfColour(m, ["A", "B", "C"], Green) + OfColour(m, ["A", "B", "C"], Blue) + OfColour(m, ["A", "B", "C"], Red)
      == ["A", "B", "C"]
  {
    var same := map["A" := Green, "B" := Green, "C" := Green];
    AssignedEquals(["A", "B", "C"], [], [], same);
    assert OfColour(same, ["A", "B", "C"], Green) == ["A", "B", "C"];
    assert OfColour(same, ["A", "B", "C"], Blue) == [];
    assert OfColour(same, ["A", "B", "C"], Red) == [];
  }

  /** All of A B C green: the order does not change. */
  method SameColourSort() returns (outcome: SortOutcome)
    ensures outcome == Displayed(["A", "B", "C"])
  {
    var app := SetUp(["A", "B", "C"], [], []);
    SameColourOrder(app.mapping);
    outcome := SortForTest(app, ["A", "B", "C"]);
  }
}
