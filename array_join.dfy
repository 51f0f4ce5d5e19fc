/**
 * Ruby's `Array#join(glue)` on an array that has already been flattened and whose
 * elements are already strings: the elements in order with the glue between each
 * neighbouring pair, and the empty string for the empty array.
 */
module ArrayJoin {

  /** Sum of the lengths of the segments. */
  function TotalLength(segments: seq<string>): nat
  {
    if segments == [] then 0 else |segments[0]| + TotalLength(segments[1..])
  }

  /** `segments.join(glue)`. A joined string of n >= 1 segments holds the n segments and n - 1 glues. */
  function Join(segments: seq<string>, glue: string): (r: string)
    ensures |segments| > 0 ==> |r| == TotalLength(segments) + (|segments| - 1) * |glue|
  {
    if |segments| == 0 then ""
    else if |segments| == 1 then segments[0]
    else segments[0] + glue + Join(segments[1..], glue)
  }

  /**
   * The layout of a joined string around segment `i`: the join of the earlier segments and one
   * glue come before it (nothing when it is the first), one glue and the join of the later
   * segments come after it (nothing when it is the last). An empty segment keeps its slot.
   */
  lemma JoinAround(segments: seq<string>, glue: string, i: nat)
    requires i < |segments|
    ensures Join(segments, glue) ==
      (if i == 0 then "" else Join(segments[..i], glue) + glue)
      + segments[i]
      + (if i + 1 == |segments| then "" else glue + Join(segments[i + 1..], glue))
  {
    var later := segments[i..];
    assert later == [segments[i]] + segments[i + 1..];
    if i > 0 {
      assert segments == segments[..i] + later;
      JoinConcat(segments[..i], later, glue);
    }
    if i + 1 < |segments| {
      assert later[1..] == segments[i + 1..];
    }
  }

  /** Joining two non-empty arrays one after the other puts one glue between the two joins. */
  lemma {:induction false} JoinConcat(a: seq<string>, b: seq<string>, glue: string)
    requires a != [] && b != []
    ensures Join(a + b, glue) == Join(a, glue) + glue + Join(b, glue)
  {
    if |a| == 1 {
      assert (a + b)[1..] == b;
    } else {
      assert (a + b)[1..] == a[1..] + b;
      JoinConcat(a[1..], b, glue);
    }
  }
}
