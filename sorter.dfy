/**
 * The priority sorter: `sort_by_color_order`, which stably orders tokens by
 * the position of their colour in a colour order, and the validation loop of
 * `sort_colors`, which finds the first token that has no colour.  Each
 * `KeyError` of the source is an `Err` value here.
 */
module Sorter {
  import opened Colours
  import opened StableSort

  datatype Option<T> = None | Some(value: T)

  /** The reasons a sort is refused; each is a `KeyError` in the source. */
  datatype SortError =
    | UncolouredObject(token: string)  // sort_colors: names the first token without a colour
    | SomeObjectsUncoloured            // sort_by_color_order: a token without a colour, unnamed
    | UnrankedColour(tag: string)      // sort_by_color_order: a colour tag missing from the order

  datatype Result<T> = Ok(value: T) | Err(error: SortError)

  /** Every token of `objects` has a colour. */
  ghost predicate Coloured(mapping: map<string, Colour>, objects: seq<string>) {
    forall i :: 0 <= i < |objects| ==> objects[i] in mapping
  }

  /** The sort key of a token: the priority of its colour's tag in `table`.
      The `else 0` branch is never used on a sort that succeeds:
      `SortByColourOrder` refuses first when a token is uncoloured or its tag is unranked. */
  function Rank(mapping: map<string, Colour>, table: map<string, nat>): string -> nat {
    t => if t in mapping && mapping[t].Tag() in table then table[mapping[t].Tag()] else 0
  }

  /** The tag of the first token, in input order, whose colour has no priority. */
  function FirstUnranked(mapping: map<string, Colour>, table: map<string, nat>, objects: seq<string>): (r: Option<string>)
    requires Coloured(mapping, objects)
    ensures r.None? <==> forall i :: 0 <= i < |objects| ==> mapping[objects[i]].Tag() in table
    ensures r.Some? ==> r.value !in table
    ensures r.Some? ==> exists i :: (0 <= i < |objects| && mapping[objects[i]].Tag() == r.value
      && forall j :: 0 <= j < i ==> mapping[objects[j]].Tag() in table)
  {
    if objects == [] then None
    else if mapping[objects[0]].Tag() !in table then Some(mapping[objects[0]].Tag())
    else
      var r := FirstUnranked(mapping, table, objects[1..]);
      assert r.Some? ==> exists i :: (1 <= i < |objects| && mapping[objects[i]].Tag() == r.value
        && forall j :: 0 <= j < i ==> mapping[objects[j]].Tag() in table)
      by {
        if r.Some? {
          var i :| 0 <= i < |objects[1..]| && mapping[objects[1..][i]].Tag() == r.value
            && forall j :: 0 <= j < i ==> mapping[objects[1..][j]].Tag() in table;
          assert forall j :: 0 <= j < i + 1 ==> mapping[objects[j]].Tag() in table by {
            forall j | 0 <= j < i + 1
              ensures mapping[objects[j]].Tag() in table
            {
              if j > 0 {
                assert objects[j] == objects[1..][j - 1];
              }
            }
          }
        }
      }
      r
  }

  /**
   * `sort_by_color_order(objects, color_order=order)` over the colour mapping
   * `mapping`: refuse when a token has no colour, then when a token's colour
   * is not in `order`, else sort the tokens stably by their colour's priority.
   */
  function SortByColourOrder(mapping: map<string, Colour>, objects: seq<string>, order: seq<string>): Result<seq<string>> {
    var table := PriorityTable(order);
    if exists i :: 0 <= i < |objects| && objects[i] !in mapping then Err(SomeObjectsUncoloured)
    else
      match FirstUnranked(mapping, table, objects)
      case Some(tag) => Err(UnrankedColour(tag))
      case None => Ok(Sort(objects, Rank(mapping, table)))
  }

  /**
   * What the sorter promises.  It refuses exactly when a token has no colour
   * or a colour is missing from `order`; otherwise its output is a
   * permutation of the input, ascending by the index of each token's colour
   * in `order`, stable (for every priority, the tokens of that priority keep
   * their input order), and equal to the counting sort over the priorities.
   */
  lemma SortByColourOrderCorrect(mapping: map<string, Colour>, objects: seq<string>, order: seq<string>)
    ensures var r := SortByColourOrder(mapping, objects, order);
      (r == Err(SomeObjectsUncoloured) <==> !Coloured(mapping, objects))
      && (r.Ok? <==> forall i :: 0 <= i < |objects| ==> objects[i] in mapping && mapping[objects[i]].Tag() in order)
      && (r.Err? ==> r.error == SomeObjectsUncoloured || (r.error.UnrankedColour? && r.error.tag !in order))
    ensures var r := SortByColourOrder(mapping, objects, order);
      var table := PriorityTable(order);
      var key := Rank(mapping, table);
      r.Ok? ==>
        && multiset(r.value) == multiset(objects)
        && (forall i :: 0 <= i < |r.value| ==>
              r.value[i] in mapping && key(r.value[i]) < |order| && order[key(r.value[i])] == mapping[r.value[i]].Tag())
        && (forall i :: 0 <= i < |r.value| - 1 ==> key(r.value[i]) <= key(r.value[i + 1]))
        && (forall k :: Filter(r.value, key, k) == Filter(objects, key, k))
        && r.value == Buckets(objects, key, 0, |order|)
  {
    if SortByColourOrder(mapping, objects, order).Ok? {
      SortedOutput(mapping, objects, order);
    }
  }

  /** The properties of a successful sort; see `SortByColourOrderCorrect`. */
  lemma SortedOutput(mapping: map<string, Colour>, objects: seq<string>, order: seq<string>)
    requires SortByColourOrder(mapping, objects, order).Ok?
    ensures var out := SortByColourOrder(mapping, objects, order).value;
      var key := Rank(mapping, PriorityTable(order));
      && multiset(out) == multiset(objects)
      && (forall i :: 0 <= i < |out| ==>
            out[i] in mapping && key(out[i]) < |order| && order[key(out[i])] == mapping[out[i]].Tag())
      && (forall i :: 0 <= i < |out| - 1 ==> key(out[i]) <= key(out[i + 1]))
      && (forall k :: Filter(out, key, k) == Filter(objects, key, k))
      && out == Buckets(objects, key, 0, |order|)
  {
    var table := PriorityTable(order);
    var key := Rank(mapping, table);
    var out := Sort(objects, key);
    assert SortByColourOrder(mapping, objects, order).value == out;
    forall i | 0 <= i < |out|
      ensures out[i] in mapping && key(out[i]) < |order| && order[key(out[i])] == mapping[out[i]].Tag()
    {
      assert out[i] in multiset(objects);
      assert out[i] in objects;
    }
    forall k ensures Filter(out, key, k) == Filter(objects, key, k) {
      SortStable(objects, key, k);
    }
    SortIsBuckets(objects, key, |order|);
  }

  /** Sorting no tokens succeeds with no tokens, whatever the mapping and order. */
  lemma SortNothing(mapping: map<string, Colour>, order: seq<string>)
    ensures SortByColourOrder(mapping, [], order) == Ok([])
  {
  }

  /** The tokens of `objects` whose colour is `c`, in input order. */
  function OfColour(mapping: map<string, Colour>, objects: seq<string>, c: Colour): (r: seq<string>)
    ensures forall i :: 0 <= i < |r| ==> r[i] in mapping && mapping[r[i]] == c
  {
    if objects == [] then []
    else
      var head := if objects[0] in mapping && mapping[objects[0]] == c then [objects[0]] else [];
      head + OfColour(mapping, objects[1..], c)
  }

  lemma {:induction false} FilterDefaultIsOfColour(mapping: map<string, Colour>, objects: seq<string>, c: Colour)
    requires Coloured(mapping, objects)
    ensures Filter(objects, Rank(mapping, PriorityTable(DefaultOrder)), c.Ordinal()) == OfColour(mapping, objects, c)
  {
    if objects != [] {
      DefaultTable(mapping[objects[0]]);
      FilterDefaultIsOfColour(mapping, objects[1..], c);
    }
  }

  /**
   * With the default order the sort succeeds exactly when every token is
   * coloured, and then lists the green tokens, then the blue ones, then the
   * red ones, each group in input order.
   */
  lemma SortByDefaultOrder(mapping: map<string, Colour>, objects: seq<string>)
    ensures SortByColourOrder(mapping, objects, DefaultOrder).Ok? <==> Coloured(mapping, objects)
    ensures Coloured(mapping, objects) ==>
      SortByColourOrder(mapping, objects, DefaultOrder)
        == Ok(OfColour(mapping, objects, Green) + OfColour(mapping, objects, Blue) + OfColour(mapping, objects, Red))
  {
    if Coloured(mapping, objects) {
      var table := PriorityTable(DefaultOrder);
      var key := Rank(mapping, table);
      DefaultRanks(mapping, objects);
      assert FirstUnranked(mapping, table, objects) == None;
      assert SortByColourOrder(mapping, objects, DefaultOrder) == Ok(Sort(objects, key));
      SortIsBuckets(objects, key, 3);
      DefaultBuckets(mapping, objects);
    }
  }

  lemma DefaultRanks(mapping: map<string, Colour>, objects: seq<string>)
    requires Coloured(mapping, objects)
    ensures forall i :: 0 <= i < |objects| ==> mapping[objects[i]].Tag() in PriorityTable(DefaultOrder)
    ensures forall i :: 0 <= i < |objects| ==> Rank(mapping, PriorityTable(DefaultOrder))(objects[i]) < 3
  {
    forall i | 0 <= i < |objects|
      ensures mapping[objects[i]].Tag() in PriorityTable(DefaultOrder)
      ensures Rank(mapping, PriorityTable(DefaultOrder))(objects[i]) < 3
    {
      DefaultTable(mapping[objects[i]]);
    }
  }

  lemma DefaultBuckets(mapping: map<string, Colour>, objects: seq<string>)
    requires Coloured(mapping, objects)
    ensures Buckets(objects, Rank(mapping, PriorityTable(DefaultOrder)), 0, 3)
      == OfColour(mapping, objects, Green) + OfColour(mapping, objects, Blue) + OfColour(mapping, objects, Red)
  {
    var key := Rank(mapping, PriorityTable(DefaultOrder));
    assert Buckets(objects, key, 3, 3) == [];
    assert Buckets(objects, key, 0, 3)
      == Filter(objects, key, 0) + (Filter(objects, key, 1) + (Filter(objects, key, 2) + []));
    FilterDefaultIsOfColour(mapping, objects, Green);
    FilterDefaultIsOfColour(mapping, objects, Blue);
    FilterDefaultIsOfColour(mapping, objects, Red);
  }

  /**
   * The validation loop of `sort_colors`: the first token, in input order,
   * that has no colour, or `None` when every token has one.
   */
  method FirstUncoloured(mapping: map<string, Colour>, objects: seq<string>) returns (missing: Option<string>)
    ensures missing.None? <==> Coloured(mapping, objects)
    ensures missing.Some? ==> exists i :: (0 <= i < |objects| && objects[i] == missing.value
      && objects[i] !in mapping && forall j :: 0 <= j < i ==> objects[j] in mapping)
  {
    for i := 0 to |objects|
      invariant forall j :: 0 <= j < i ==> objects[j] in mapping
    {
      if objects[i] !in mapping {
        return Some(objects[i]);
      }
    }
    return None;
  }
}
