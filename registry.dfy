/**
 * The colour mapping that `assign_colors` builds: cleared, then every green
 * token written as green, every blue token as blue, every red token as red,
 * each write replacing whatever the token held before.
 */
module Registry {
  import opened Colours

  /** `m` after `for t in ts: m[t] = c`. */
  function Paint(m: map<string, Colour>, ts: seq<string>, c: Colour): map<string, Colour> {
    if ts == [] then m
    else Paint(m, ts[..|ts| - 1], c)[ts[|ts| - 1] := c]
  }

  /** After the loop, the tokens of `ts` map to `c` and every other entry of
      `m` is as it was; nothing else is added. */
  lemma {:induction false} PaintEffect(m: map<string, Colour>, ts: seq<string>, c: Colour, t: string)
    ensures t in Paint(m, ts, c) <==> t in m || t in ts
    ensures t in Paint(m, ts, c) ==> Paint(m, ts, c)[t] == if t in ts then c else m[t]
  {
    if ts != [] {
      PaintEffect(m, ts[..|ts| - 1], c, t);
      assert ts == ts[..|ts| - 1] + [ts[|ts| - 1]];
    }
  }

  /** The mapping `assign_colors` leaves behind for the three token lists. */
  function Assigned(green: seq<string>, blue: seq<string>, red: seq<string>): map<string, Colour> {
    Paint(Paint(Paint(map[], green, Green), blue, Blue), red, Red)
  }

  /**
   * Clear-then-fill with last write winning: the coloured tokens are exactly
   * those of the three lists, and a token takes the colour of the last list,
   * in the order green, blue, red, that names it.  Nothing from an earlier
   * mapping survives, since `Assigned` depends on the lists alone.
   */
  lemma AssignedSpec(green: seq<string>, blue: seq<string>, red: seq<string>, t: string)
    ensures t in Assigned(green, blue, red) <==> t in green || t in blue || t in red
    ensures t in red ==> Assigned(green, blue, red)[t] == Red
    ensures t in blue && t !in red ==> Assigned(green, blue, red)[t] == Blue
    ensures t in green && t !in blue && t !in red ==> Assigned(green, blue, red)[t] == Green
  {
    var afterGreen := Paint(map[], green, Green);
    var afterBlue := Paint(afterGreen, blue, Blue);
    PaintEffect(map[], green, Green, t);
    PaintEffect(afterGreen, blue, Blue, t);
    PaintEffect(afterBlue, red, Red, t);
  }
}
