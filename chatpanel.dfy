/** The draggable chat panel of the single-page client: pressing the header starts a drag,
    moving the pointer moves the panel, and releasing it toggles the minimised state only
    when the pointer did not move in between. */
module ChatPanel {

  datatype Point = Point(x: int, y: int)

  function Sub(a: Point, b: Point): Point {
    Point(a.x - b.x, a.y - b.y)
  }

  function Add(a: Point, b: Point): Point {
    Point(a.x + b.x, a.y + b.y)
  }

  /** The panel with handlers that read the current state: the behaviour the toggle is
      meant to have. The window listeners are attached exactly while `isDragging`. */
  class Panel {
    var position: Point
    var isDragging: bool
    var dragStart: Point
    var isMinimized: bool
    var isClick: bool

    constructor (start: Point)
      ensures position == start && !isDragging && dragStart == Point(0, 0)
      ensures !isMinimized && !isClick
    {
      position := start;
      isDragging := false;
      dragStart := Point(0, 0);
      isMinimized := false;
      isClick := false;
    }

    /** `handleMouseDown`: starts a drag and remembers the pointer's offset in the panel. */
    method MouseDown(pointer: Point)
      modifies this
      ensures isDragging && isClick && dragStart == Sub(pointer, position)
      ensures position == old(position) && isMinimized == old(isMinimized)
    {
      isDragging := true;
      isClick := true;
      dragStart := Sub(pointer, position);
    }

    /** `handleMouseMove` while dragging: the move cancels the click and the panel follows
        the pointer; without a drag no listener is attached and nothing changes. */
    method MouseMove(pointer: Point)
      modifies this
      ensures old(isDragging) ==> !isClick && position == Sub(pointer, dragStart)
      ensures !old(isDragging) ==> isClick == old(isClick) && position == old(position)
      ensures isDragging == old(isDragging) && dragStart == old(dragStart) && isMinimized == old(isMinimized)
    {
      if isDragging {
        isClick := false;
        position := Sub(pointer, dragStart);
      }
    }

    /** `handleMouseUp` while dragging: ends the drag, and toggles the panel when no move
        came since the press. */
    method MouseUp()
      modifies this
      ensures !isDragging
      ensures old(isDragging) && old(isClick) ==> isMinimized == !old(isMinimized)
      ensures !(old(isDragging) && old(isClick)) ==> isMinimized == old(isMinimized)
      ensures position == old(position) && dragStart == old(dragStart) && isClick == old(isClick)
    {
      if isDragging {
        isDragging := false;
        if isClick {
          isMinimized := !isMinimized;
        }
      }
    }
  }

  /** A press and a release with no move in between toggles the panel and leaves it where it is. */
  method Click(p: Panel, pointer: Point)
    modifies p
    ensures p.isMinimized == !old(p.isMinimized) && p.position == old(p.position) && !p.isDragging
  {
    p.MouseDown(pointer);
    p.MouseUp();
  }

  /** A press, one or more moves and a release leave the panel's state as it was and move
      the panel by exactly the pointer's displacement from the press to the last move. */
  method Drag(p: Panel, down: Point, moves: seq<Point>)
    requires |moves| > 0
    modifies p
    ensures p.isMinimized == old(p.isMinimized) && !p.isDragging
    ensures p.position == Add(old(p.position), Sub(moves[|moves| - 1], down))
  {
    p.MouseDown(down);
    var i := 0;
    while i < |moves|
      invariant 0 <= i <= |moves|
      invariant p.isDragging && p.dragStart == Sub(down, old(p.position)) && p.isMinimized == old(p.isMinimized)
      invariant i == 0 ==> p.isClick && p.position == old(p.position)
      invariant i > 0 ==> !p.isClick && p.position == Sub(moves[i - 1], p.dragStart)
    {
      p.MouseMove(moves[i]);
      i := i + 1;
    }
    p.MouseUp();
  }

  /** The panel as the source wires it: the window listeners are attached by an effect that
      re-runs only when `isDragging` or `dragStart` changes, so the handlers it attaches keep
      the values of `isClick` and `isMinimized` from the render after the press. */
  class PanelAsWritten {
    var position: Point
    var isDragging: bool
    var dragStart: Point
    var isMinimized: bool
    var isClick: bool
    /** The attached listeners and the state their closures captured. */
    var attached: bool
    var capturedIsClick: bool
    var capturedIsMinimized: bool

    constructor (start: Point)
      ensures position == start && !isDragging && dragStart == Point(0, 0)
      ensures !isMinimized && !isClick && !attached
    {
      position := start;
      isDragging := false;
      dragStart := Point(0, 0);
      isMinimized := false;
      isClick := false;
      attached := false;
      capturedIsClick := false;
      capturedIsMinimized := false;
    }

    /** The press, then the effect run it triggers, which attaches handlers closing over
        the new state. */
    method MouseDown(pointer: Point)
      modifies this
      ensures isDragging && isClick && dragStart == Sub(pointer, position)
      ensures attached && capturedIsClick && capturedIsMinimized == isMinimized
      ensures position == old(position) && isMinimized == old(isMinimized)
    {
      isDragging := true;
      isClick := true;
      dragStart := Sub(pointer, position);
      attached := true;
      capturedIsClick := isClick;
      capturedIsMinimized := isMinimized;
    }

    /** A move clears `isClick`, but neither dependency of the effect changes, so the
        attached handlers, and what they captured, stay. */
    method MouseMove(pointer: Point)
      modifies this
      ensures old(attached) ==> !isClick && position == Sub(pointer, dragStart)
      ensures !old(attached) ==> isClick == old(isClick) && position == old(position)
      ensures attached == old(attached) && capturedIsClick == old(capturedIsClick)
      ensures capturedIsMinimized == old(capturedIsMinimized)
      ensures isDragging == old(isDragging) && dragStart == old(dragStart) && isMinimized == old(isMinimized)
    {
      if attached {
        isClick := false;
        position := Sub(pointer, dragStart);
      }
    }

    /** The attached release handler tests the captured `isClick`; ending the drag re-runs
        the effect, which detaches the handlers. */
    method MouseUp()
      modifies this
      ensures !attached && (old(attached) ==> !isDragging)
      ensures !old(attached) ==> isDragging == old(isDragging)
      ensures old(attached) && old(capturedIsClick) ==> isMinimized == !old(capturedIsMinimized)
      ensures !(old(attached) && old(capturedIsClick)) ==> isMinimized == old(isMinimized)
      ensures position == old(position)
    {
      if attached {
        isDragging := false;
        if capturedIsClick {
          isMinimized := !capturedIsMinimized;
        }
        attached := false;
      }
    }
  }

  /** As written, a drag toggles the panel too: the release handler still sees the
      `isClick` captured at the press. */
  method DragAsWritten(p: PanelAsWritten, down: Point, moves: seq<Point>)
    requires |moves| > 0
    modifies p
    ensures p.isMinimized == !old(p.isMinimized) && !p.isDragging
    ensures p.position == Add(old(p.position), Sub(moves[|moves| - 1], down))
  {
    p.MouseDown(down);
    var i := 0;
    while i < |moves|
      invariant 0 <= i <= |moves|
      invariant p.attached && p.capturedIsClick && p.capturedIsMinimized == old(p.isMinimized)
      invariant p.isDragging && p.dragStart == Sub(down, old(p.position)) && p.isMinimized == old(p.isMinimized)
      invariant i > 0 ==> p.position == Sub(moves[i - 1], p.dragStart)
      invariant i == 0 ==> p.position == old(p.position)
    {
      p.MouseMove(moves[i]);
      i := i + 1;
    }
    p.MouseUp();
  }
}
