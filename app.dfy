/**
 * The application object: it owns the colour mapping, rebuilds it on
 * "assign colours", and on "sort" validates and sorts the typed tokens and
 * shows the result.  The entry fields' texts are parameters of the actions;
 * the result area is the sequence of tokens it currently shows.
 */
module App {
  import opened Tokenizer
  import opened Colours
  import opened Registry
  import opened Sorter

  /** How the sort action ends. */
  datatype SortOutcome =
    | EmptyInput                      // blank objects field: an input-error dialog, nothing raised
    | Failed(error: SortError)        // a KeyError, shown in a dialog and raised to the caller
    | Displayed(tokens: seq<string>)  // the sorted tokens, now shown in the result area

  class Application {
    /** The colour of every assigned token. */
    var mapping: map<string, Colour>
    /** The tokens the result area shows, left to right. */
    var shown: seq<string>

    constructor ()
      ensures mapping == map[] && shown == []
    {
      mapping := map[];
      shown := [];
    }

    /**
     * "Assign colours": clear the mapping, then colour every token of the
     * green field green, of the blue field blue, of the red field red, in that
     * order, a later write replacing an earlier one.
     */
    method AssignColours(greenText: string, blueText: string, redText: string)
      modifies this`mapping
      ensures mapping == Assigned(Split(Strip(greenText)), Split(Strip(blueText)), Split(Strip(redText)))
      ensures shown == old(shown)
    {
      mapping := map[];
      var green := Split(Strip(greenText));
      var blue := Split(Strip(blueText));
      var red := Split(Strip(redText));
      PaintAll(green, Green);
      PaintAll(blue, Blue);
      PaintAll(red, Red);
    }

    /** One of the three loops of "assign colours": `for t in ts: mapping[t] = c`. */
    method PaintAll(ts: seq<string>, c: Colour)
      modifies this`mapping
      ensures mapping == Paint(old(mapping), ts, c)
    {
      for i := 0 to |ts|
        invariant mapping == Paint(old(mapping), ts[..i], c)
      {
        assert ts[..i + 1][..i] == ts[..i];
        mapping := mapping[ts[i] := c];
      }
      assert ts[..|ts|] == ts;
    }

    /**
     * "Sort": a blank objects field is an input error; a token without a
     * colour fails, naming the first such token, and leaves the result area
     * as it was; otherwise the result area shows the tokens sorted by the
     * default colour order.  The mapping is never changed.
     */
    method SortColours(objectsText: string) returns (outcome: SortOutcome)
      modifies this`shown
      ensures mapping == old(mapping)
      ensures Split(Strip(objectsText)) == [] ==> outcome == EmptyInput && shown == old(shown)
      ensures var objects := Split(Strip(objectsText));
        objects != [] && !Coloured(mapping, objects) ==>
          && shown == old(shown)
          && outcome.Failed? && outcome.error.UncolouredObject?
          && exists i :: (0 <= i < |objects| && objects[i] == outcome.error.token && objects[i] !in mapping
               && forall j :: 0 <= j < i ==> objects[j] in mapping)
      ensures var objects := Split(Strip(objectsText));
        objects != [] && Coloured(mapping, objects) ==>
          && outcome == Displayed(shown)
          && SortByColourOrder(mapping, objects, DefaultOrder) == Ok(shown)
          && shown == OfColour(mapping, objects, Green) + OfColour(mapping, objects, Blue) + OfColour(mapping, objects, Red)
    {
      var objects := Split(Strip(objectsText));
      if objects == [] {
        return EmptyInput;
      }
      var missing := FirstUncoloured(mapping, objects);
      if missing.Some? {
        return Failed(UncolouredObject(missing.value));
      }
      SortByDefaultOrder(mapping, objects);
      var sorted := SortByColourOrder(mapping, objects, DefaultOrder);
      shown := sorted.value;
      outcome := Displayed(shown);
    }
  }

  /** Assigning twice with the same fields gives the mapping of assigning once. */
  method AssignTwice(greenText: string, blueText: string, redText: string)
    returns (once: map<string, Colour>, twice: map<string, Colour>)
    ensures once == twice
  {
    var app := new Application();
    app.AssignColours(greenText, blueText, redText);
    once := app.mapping;
    app.AssignColours(greenText, blueText, redText);
    twice := app.mapping;
  }

  /** A second assignment forgets the first: the mapping is the one a fresh
      application would build from the second fields alone. */
  method Reassign(green1: string, blue1: string, red1: string, green2: string, blue2: string, red2: string)
    returns (reassigned: map<string, Colour>, direct: map<string, Colour>)
    ensures reassigned == direct
  {
    var app := new Application();
    app.AssignColours(green1, blue1, red1);
    app.AssignColours(green2, blue2, red2);
    reassigned := app.mapping;
    var other := new Application();
    other.AssignColours(green2, blue2, red2);
    direct := other.mapping;
  }
}
