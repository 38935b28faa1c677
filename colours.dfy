/**
 * The three colours of the application and the priority table built from a
 * colour order.  The application stores a colour as a one-letter tag:
 * "З" (green), "С" (blue), "К" (red).
 */
module Colours {

  datatype Colour = Green | Blue | Red {

    /** The tag the colour mapping stores for this colour. */
    function Tag(): string {
      match this
      case Green => "З"
      case Blue => "С"
      case Red => "К"
    }

    /** Position of the colour in the default order, highest priority first. */
    function Ordinal(): nat {
      match this
      case Green => 0
      case Blue => 1
      case Red => 2
    }
  }

  /** The default `color_order` of the sorter: green, then blue, then red. */
  const DefaultOrder: seq<string> := ["З", "С", "К"]

  /** Distinct colours have distinct tags, so a tag names one colour. */
  lemma TagInjective(c: Colour, d: Colour)
    ensures c.Tag() == d.Tag() <==> c == d
  {
    if c != d {
      assert c.Tag()[0] != d.Tag()[0];
    }
  }

  /**
   * The priority table `{colour: index for index, colour in enumerate(order)}`.
   * Entries are written front to back, so a colour listed twice keeps the
   * index of its LAST occurrence.
   */
  function PriorityTable(order: seq<string>): (table: map<string, nat>)
    ensures table.Keys == set c | c in order
    ensures forall c :: c in table ==> table[c] < |order| && order[table[c]] == c
    ensures forall c, j :: c in table && table[c] < j < |order| ==> order[j] != c
  {
    if order == [] then map[]
    else PriorityTable(order[..|order| - 1])[order[|order| - 1] := |order| - 1]
  }

  /** Every colour tag is in the table of the default order, at the colour's ordinal. */
  lemma DefaultTable(c: Colour)
    ensures c.Tag() in PriorityTable(DefaultOrder)
    ensures PriorityTable(DefaultOrder)[c.Tag()] == c.Ordinal()
  {
  }
}
