/** The board record of components/board.go: the playable width and height. */
module Board {
  import opened Wrappers
  import opened Geometry
  import opened Components
  import opened Entities

  /** The height of the strip at the bottom of the board where the base sits. */
  const YBorderBottom: int := 45

  /**
   * The board's bounds rectangle, (0,0)-(Width,Height). board.go at this
   * revision does not define Bounds; PlaceTower calls it, and this is the
   * rectangle its name and the bullet bounds check describe.
   */
  function Bounds(b: BoardInfo): (r: Rect)
    ensures b.width >= 0 && b.height >= 0 ==> r == Rect(Point(0, 0), Point(b.width, b.height))
  {
    MakeRect(0, 0, b.width, b.height)
  }

  /** NewBoard: one new entity carrying exactly the given size; the error is always nil. */
  method NewBoard(w: World, width: int, height: int) returns (b: BoardInfo, err: Option<string>)
    requires w.Valid()
    modifies w
    ensures w.Valid() && w.nextId == old(w.nextId) + 1
    ensures b.width == width && b.height == height
    ensures err.None?
    ensures w.entities == old(w.entities) + [Blank(old(w.nextId)).(board := Some(b))]
    ensures w.entities[|w.entities| - 1].board == Some(b)
  {
    b := BoardInfo(width, height);
    var id := w.Create(Blank(0).(board := Some(b)));
    err := None;
  }

  /** Board.MustFirst: the first board in the world (the source panics when there is none). */
  function TheBoard(es: seq<Entity>): (b: BoardInfo)
    requires FirstWith(es, BoardTag).Some?
    ensures exists i :: 0 <= i < |es| && es[i].board == Some(b)
  {
    es[FirstWith(es, BoardTag).value].board.value
  }
}
