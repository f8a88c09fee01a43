/**
 * Dragging the floating drawing toolbar (src/components/GameToolbar.tsx): a
 * press on the drag handle starts a drag and remembers where the pointer grabbed
 * the toolbar, each move while dragging places the toolbar under the pointer but
 * clamped into the viewport, and releasing the button ends the drag.
 *
 * Pixel values are reals; the viewport and toolbar sizes are parameters of the
 * calls that read them.
 */
module Toolbar {

  datatype Pos = Pos(x: real, y: real)

  function Max(a: real, b: real): real {
    if a >= b then a else b
  }

  function Min(a: real, b: real): real {
    if a <= b then a else b
  }

  /** `Math.max(0, Math.min(v, limit))`. */
  function Clamp(v: real, limit: real): (r: real)
    ensures r >= 0.0
    ensures limit >= 0.0 ==> r <= limit
    ensures 0.0 <= v <= limit ==> r == v
    ensures limit < 0.0 ==> r == 0.0
    ensures r == v || r == 0.0 || r == limit
  {
    Max(0.0, Min(v, limit))
  }

  /** Clamping a clamped value changes nothing, as long as the toolbar fits. */
  lemma ClampIdempotent(v: real, limit: real)
    requires limit >= 0.0
    ensures Clamp(Clamp(v, limit), limit) == Clamp(v, limit)
  {
  }

  /** A farther target never puts the toolbar nearer the origin. */
  lemma ClampMonotone(a: real, b: real, limit: real)
    requires a <= b
    ensures Clamp(a, limit) <= Clamp(b, limit)
  {
  }

  datatype DragState = DragState(position: Pos, isDragging: bool, dragStart: Pos)

  function Initial(): DragState {
    DragState(Pos(0.0, 0.0), false, Pos(0.0, 0.0))
  }

  /**
   * The default placement on mount and on every resize: 140 px from the right,
   * 200 px above the middle. Unlike a drag it is not clamped, so a small
   * viewport puts the toolbar partly off screen.
   */
  function Placed(s: DragState, viewportW: real, viewportH: real): (r: DragState)
    ensures viewportW - r.position.x == 140.0 && viewportH - 2.0 * r.position.y == 400.0
    ensures r.isDragging == s.isDragging && r.dragStart == s.dragStart
    ensures viewportW < 140.0 ==> r.position.x < 0.0
    ensures viewportH < 400.0 ==> r.position.y < 0.0
  {
    s.(position := Pos(viewportW - 140.0, viewportH / 2.0 - 200.0))
  }

  /** A press: only on the handle, and the grab offset is pointer minus position. */
  function MouseDown(s: DragState, onHandle: bool, clientX: real, clientY: real): (r: DragState)
    ensures !onHandle ==> r == s
    ensures onHandle ==> r.isDragging && r.position == s.position
    ensures onHandle ==> r.dragStart.x + s.position.x == clientX && r.dragStart.y + s.position.y == clientY
  {
    if onHandle then s.(isDragging := true, dragStart := Pos(clientX - s.position.x, clientY - s.position.y)) else s
  }

  /** A pointer move: ignored unless dragging, else the target clamped into the viewport on each axis. */
  function MouseMove(s: DragState, clientX: real, clientY: real, viewportW: real, viewportH: real, toolbarW: real, toolbarH: real): (r: DragState)
    ensures !s.isDragging ==> r == s
    ensures s.isDragging ==> r.isDragging && r.dragStart == s.dragStart
    ensures s.isDragging ==> r.position.x >= 0.0 && r.position.y >= 0.0
    ensures s.isDragging && toolbarW <= viewportW ==> r.position.x <= viewportW - toolbarW
    ensures s.isDragging && toolbarH <= viewportH ==> r.position.y <= viewportH - toolbarH
    ensures s.isDragging ==>
              r.position == Pos(Clamp(clientX - s.dragStart.x, viewportW - toolbarW), Clamp(clientY - s.dragStart.y, viewportH - toolbarH))
  {
    if !s.isDragging then s
    else s.(position := Pos(Clamp(clientX - s.dragStart.x, viewportW - toolbarW), Clamp(clientY - s.dragStart.y, viewportH - toolbarH)))
  }

  function MouseUp(s: DragState): (r: DragState)
    ensures !r.isDragging && r.position == s.position && r.dragStart == s.dragStart
  {
    s.(isDragging := false)
  }

  /** A press on the handle and a move that keeps the toolbar inside the viewport moves it with the pointer: the grab point stays under it. */
  lemma DragFollowsPointer(s: DragState, x0: real, y0: real, x1: real, y1: real, vw: real, vh: real, tw: real, th: real)
    requires var dx := x1 - x0 + s.position.x; var dy := y1 - y0 + s.position.y;
      0.0 <= dx <= vw - tw && 0.0 <= dy <= vh - th
    ensures var r := MouseMove(MouseDown(s, true, x0, y0), x1, y1, vw, vh, tw, th);
      r.position == Pos(s.position.x + (x1 - x0), s.position.y + (y1 - y0))
  {
  }

  /** After the button is released further moves do nothing. */
  lemma NoMoveAfterRelease(s: DragState, x: real, y: real, vw: real, vh: real, tw: real, th: real)
    ensures MouseMove(MouseUp(s), x, y, vw, vh, tw, th) == MouseUp(s)
  {
  }

  class GameToolbar {
    var position: Pos
    var isDragging: bool
    var dragStart: Pos

    function State(): DragState
      reads this
    {
      DragState(position, isDragging, dragStart)
    }

    constructor ()
      ensures State() == Initial()
    {
      position, isDragging, dragStart := Pos(0.0, 0.0), false, Pos(0.0, 0.0);
    }

    method PositionToolbar(viewportW: real, viewportH: real)
      modifies this
      ensures State() == Placed(old(State()), viewportW, viewportH)
    {
      position := Pos(viewportW - 140.0, viewportH / 2.0 - 200.0);
    }

    method HandleMouseDown(onHandle: bool, clientX: real, clientY: real)
      modifies this
      ensures State() == MouseDown(old(State()), onHandle, clientX, clientY)
    {
      if onHandle {
        isDragging := true;
        dragStart := Pos(clientX - position.x, clientY - position.y);
      }
    }

    method HandleMouseMove(clientX: real, clientY: real, viewportW: real, viewportH: real, toolbarW: real, toolbarH: real)
      modifies this
      ensures State() == MouseMove(old(State()), clientX, clientY, viewportW, viewportH, toolbarW, toolbarH)
    {
      if isDragging {
        var newX := Clamp(clientX - dragStart.x, viewportW - toolbarW);
        var newY := Clamp(clientY - dragStart.y, viewportH - toolbarH);
        position := Pos(newX, newY);
      }
    }

    method HandleMouseUp()
      modifies this
      ensures State() == MouseUp(old(State()))
    {
      isDragging := false;
    }
  }
}
