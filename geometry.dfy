/** Placement arithmetic of the toolbar container: the vertical clamp applied when a stored offset
    is restored and when a drag ends, and the one-to-one pointer follow during a drag.
    Coordinates are whole CSS pixels. */
module Geometry {

  /** The container's bounding rectangle as the browser reports it (only the parts that are used). */
  datatype Rect = Rect(left: int, top: int, height: int)

  /** The offset from the container's top-left corner to the point where the drag handle was pressed. */
  datatype Grab = Grab(offsetX: int, offsetY: int)

  datatype Point = Point(x: int, y: int)

  function Min(a: int, b: int): int { if a <= b then a else b }

  function Max(a: int, b: int): int { if a >= b then a else b }

  /** The top offset, kept inside the viewport: at least 0 and, when the container fits, at most
      `viewportHeight - height`; an offset already in range is left as it is. */
  function ClampTop(top: int, viewportHeight: int, height: int): (r: int)
    ensures 0 <= r
    ensures 0 <= viewportHeight - height ==> r <= viewportHeight - height
    ensures 0 <= top <= viewportHeight - height ==> r == top
    ensures 0 <= viewportHeight - height < top ==> r == viewportHeight - height
    ensures top < 0 || viewportHeight - height < 0 ==> r == 0
  {
    Max(0, Min(top, viewportHeight - height))
  }

  /** Clamping a clamped offset changes nothing. */
  lemma ClampTopIdempotent(top: int, viewportHeight: int, height: int)
    ensures ClampTop(ClampTop(top, viewportHeight, height), viewportHeight, height)
         == ClampTop(top, viewportHeight, height)
  {
  }

  /** The grab offset recorded at a press at (clientX, clientY) on a container at `rect`: adding it
      to the container's corner gives back the press point. */
  function GrabAt(clientX: int, clientY: int, rect: Rect): (g: Grab)
    ensures rect.left + g.offsetX == clientX && rect.top + g.offsetY == clientY
  {
    Grab(clientX - rect.left, clientY - rect.top)
  }

  /** Where the container's corner goes when the pointer is at (clientX, clientY): the grabbed
      point stays under the pointer. */
  function Follow(g: Grab, clientX: int, clientY: int): (p: Point)
    ensures p.x + g.offsetX == clientX && p.y + g.offsetY == clientY
  {
    Point(clientX - g.offsetX, clientY - g.offsetY)
  }

  /** A pointer displacement of (dx, dy) from the press point moves the container by exactly
      (dx, dy) from the rectangle it had at the press. */
  lemma FollowTranslates(rect: Rect, clientX: int, clientY: int, dx: int, dy: int)
    ensures Follow(GrabAt(clientX, clientY, rect), clientX + dx, clientY + dy)
         == Point(rect.left + dx, rect.top + dy)
  {
  }
}
