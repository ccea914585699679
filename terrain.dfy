/** Geometry of the destructible terrain: the blast disc that destroyTerrain
    carves, tested on integer pixel coordinates. */
module Terrain {

  /** Rows of terrainData: the grid covers the bottom 200 px of the screen. */
  const TerrainHeight := 200

  /** Phaser.Math.Distance.Between((cx, cy), (x, y)) <= r, written on squares:
      for a radius r >= 0 the two tests agree, and a negative radius contains nothing. */
  predicate InBlast(cx: int, cy: int, r: int, x: int, y: int) {
    0 <= r && (x - cx) * (x - cx) + (y - cy) * (y - cy) <= r * r
  }

  lemma SquareGrows(a: int, r: int)
    requires 0 <= r < a
    ensures r * r < a * a
  {
    assert r * r <= r * a;
    assert r * a < a * a;
  }

  /** Every point of the disc lies in the square [cx - r, cx + r] x [cy - r, cy + r]
      that destroyTerrain's loops scan. */
  lemma DiscInBox(cx: int, cy: int, r: int, x: int, y: int)
    requires InBlast(cx, cy, r, x, y)
    ensures cx - r <= x <= cx + r && cy - r <= y <= cy + r
  {
    var dx, dy := x - cx, y - cy;
    assert dx * dx <= r * r && dy * dy <= r * r;
    assert (-dx) * (-dx) == dx * dx && (-dy) * (-dy) == dy * dy;
    if dx > r { SquareGrows(dx, r); }
    if -dx > r { SquareGrows(-dx, r); }
    if dy > r { SquareGrows(dy, r); }
    if -dy > r { SquareGrows(-dy, r); }
  }
}
