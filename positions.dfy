/**
 * Offsets to line/column points, as `vfile-location`'s `toPosition` is used by
 * the linter. The library itself is not part of this model: this is a
 * reference mapper that reads the document up to the offset, counting line
 * feeds. Offsets outside 0..|doc| have no point (the library returns an empty
 * point for them).
 */
module Positions {
  import opened Wrappers

  /** A location in a document: 1-based line and column, and the 0-based offset. */
  datatype Point = Point(line: nat, column: nat, offset: nat)

  /**
   * `toPosition(offset)`: the point of the character at `offset`, reading the
   * document from its start. A line feed starts a new line at column 1; any
   * other character moves one column on.
   */
  function ToPoint(doc: string, offset: int): (r: Option<Point>)
    decreases offset
    ensures r.Some? <==> 0 <= offset <= |doc|
    ensures r.Some? ==> r.value.offset == offset && r.value.line >= 1 && 1 <= r.value.column <= offset + 1
  {
    if offset < 0 || offset > |doc| then None
    else if offset == 0 then Some(Point(1, 1, 0))
    else
      var q := ToPoint(doc, offset - 1).value;
      if doc[offset - 1] == '\n' then Some(Point(q.line + 1, 1, offset))
      else Some(Point(q.line, q.column + 1, offset))
  }

  /** `p` comes strictly before `q` in reading order. */
  predicate Before(p: Point, q: Point)
  {
    p.line < q.line || (p.line == q.line && p.column < q.column)
  }

  /**
   * The point of an offset means what it says: its line is one more than the
   * number of line feeds before the offset, and its line starts `column - 1`
   * characters back, just after a line feed or at the start of the document.
   */
  lemma {:induction false} PointMeaning(doc: string, offset: nat)
    requires offset <= |doc|
    ensures var p := ToPoint(doc, offset).value;
      var lineStart := offset + 1 - p.column;
      && p.line == 1 + multiset(doc[..offset])['\n']
      && 0 <= lineStart <= offset
      && '\n' !in doc[lineStart..offset]
      && (lineStart == 0 || doc[lineStart - 1] == '\n')
  {
    if offset > 0 {
      PointMeaning(doc, offset - 1);
      var q := ToPoint(doc, offset - 1).value;
      var c := doc[offset - 1];
      assert doc[..offset] == doc[..offset - 1] + [c];
      assert multiset(doc[..offset]) == multiset(doc[..offset - 1]) + multiset{c};
      if c != '\n' {
        var lineStart := offset - q.column;
        assert doc[lineStart..offset] == doc[lineStart..offset - 1] + [c];
      }
    }
  }

  /** The mapping preserves order: a later offset has a later point. */
  lemma {:induction false} PointsOrdered(doc: string, a: nat, b: nat)
    requires a < b <= |doc|
    decreases b - a
    ensures Before(ToPoint(doc, a).value, ToPoint(doc, b).value)
  {
    if a < b - 1 {
      PointsOrdered(doc, a, b - 1);
    }
  }
}
