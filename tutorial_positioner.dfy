/** Placement of the tutorial tooltip next to its target element: the
    requested side first, then clamping into the visible part of the window.
    The DOM reads (the target's bounding rectangle, the scroll offsets and the
    window size) are parameters; all coordinates are document coordinates. */
module TutorialPositioner {
  import opened Prelude

  datatype Placement = Top | Right | Bottom | Left

  /** The side used when a step names none. */
  const DefaultPlacement: Placement := Bottom

  /** Gap between the tooltip and its target, and between the tooltip and the
      window edges. */
  const Padding: real := 12.0

  /** `getBoundingClientRect()` of the target: viewport coordinates. */
  datatype Rect = Rect(top: real, left: real, width: real, height: real)

  datatype Size = Size(width: real, height: real)

  /** The window state the function reads: `pageXOffset`/`pageYOffset`, the
      document element's `scrollLeft`/`scrollTop`, `innerWidth`/`innerHeight`. */
  datatype Window = Window(pageXOffset: real, pageYOffset: real,
                           docScrollLeft: real, docScrollTop: real,
                           innerWidth: real, innerHeight: real)

  datatype Point = Point(top: real, left: real)

  /** The returned object: the tooltip's top-left corner, and the width and
      height of the target rectangle. */
  datatype Position = Position(top: real, left: real, width: real, height: real)

  /** `a || b` on numbers: a zero offset falls back to the document's. */
  function OrElse(a: real, b: real): (r: real)
    ensures a != 0.0 ==> r == a
    ensures a == 0.0 ==> r == b
  {
    if a != 0.0 then a else b
  }

  function ScrollTop(w: Window): real {
    OrElse(w.pageYOffset, w.docScrollTop)
  }

  function ScrollLeft(w: Window): real {
    OrElse(w.pageXOffset, w.docScrollLeft)
  }

  function Max(a: real, b: real): (r: real)
    ensures r >= a && r >= b && (r == a || r == b)
  {
    if a >= b then a else b
  }

  /** Where each side puts the tooltip before the window is taken into
      account: above or below the target with a gap of `Padding` and centred
      horizontally, or to its right or left with that gap and centred
      vertically. */
  function Anchor(rect: Rect, side: Placement, tooltip: Size, scrollTop: real, scrollLeft: real): (a: Point)
    ensures side == Top ==>
      && a.top + tooltip.height + Padding == rect.top + scrollTop
      && a.left + tooltip.width / 2.0 == rect.left + scrollLeft + rect.width / 2.0
    ensures side == Bottom ==>
      && a.top == rect.top + scrollTop + rect.height + Padding
      && a.left + tooltip.width / 2.0 == rect.left + scrollLeft + rect.width / 2.0
    ensures side == Right ==>
      && a.left == rect.left + scrollLeft + rect.width + Padding
      && a.top + tooltip.height / 2.0 == rect.top + scrollTop + rect.height / 2.0
    ensures side == Left ==>
      && a.left + tooltip.width + Padding == rect.left + scrollLeft
      && a.top + tooltip.height / 2.0 == rect.top + scrollTop + rect.height / 2.0
  {
    var top := rect.top + scrollTop;
    var left := rect.left + scrollLeft;
    match side
    case Top => Point(top - tooltip.height - Padding, left + rect.width / 2.0 - tooltip.width / 2.0)
    case Right => Point(top + rect.height / 2.0 - tooltip.height / 2.0, left + rect.width + Padding)
    case Bottom => Point(top + rect.height + Padding, left + rect.width / 2.0 - tooltip.width / 2.0)
    case Left => Point(top + rect.height / 2.0 - tooltip.height / 2.0, left - tooltip.width - Padding)
  }

  /** `calculatePosition(targetElement, position, tooltipSize)`.
      Horizontally the anchored position is kept when it fits, pulled left
      when it overflows the right edge and never left of `Padding`.
      Vertically it is kept when it fits; on overflow at the bottom it flips
      above the target when that spot is below the top margin, and is pinned
      to the bottom margin otherwise; it never rises above the top margin. */
  method CalculatePosition(rect: Rect, position: Option<Placement>, tooltip: Size, win: Window)
    returns (p: Position)
    ensures p.width == rect.width && p.height == rect.height
    ensures p.left >= Padding
    ensures tooltip.width <= win.innerWidth - 2.0 * Padding ==>
      p.left + tooltip.width <= win.innerWidth - Padding
    ensures p.top >= ScrollTop(win) + Padding
    ensures var a := Anchor(rect, position.GetOr(DefaultPlacement), tooltip, ScrollTop(win), ScrollLeft(win));
      if a.left + tooltip.width > win.innerWidth - Padding
      then p.left == Max(win.innerWidth - tooltip.width - Padding, Padding)
      else p.left == Max(a.left, Padding)
    ensures var st := ScrollTop(win);
      var a := Anchor(rect, position.GetOr(DefaultPlacement), tooltip, st, ScrollLeft(win));
      var above := Anchor(rect, Top, tooltip, st, ScrollLeft(win)).top;
      if a.top + tooltip.height <= win.innerHeight + st - Padding then p.top == Max(a.top, st + Padding)
      else if above > st + Padding then p.top == above
      else p.top == Max(win.innerHeight + st - tooltip.height - Padding, st + Padding)
  {
    var scrollTop := ScrollTop(win);
    var scrollLeft := ScrollLeft(win);
    var windowWidth := win.innerWidth;
    var windowHeight := win.innerHeight;

    var top := rect.top + scrollTop;
    var left := rect.left + scrollLeft;
    match position.GetOr(DefaultPlacement) {
      case Top =>
        top := rect.top + scrollTop - tooltip.height - Padding;
        left := rect.left + scrollLeft + rect.width / 2.0 - tooltip.width / 2.0;
      case Right =>
        left := rect.left + scrollLeft + rect.width + Padding;
        top := rect.top + scrollTop + rect.height / 2.0 - tooltip.height / 2.0;
      case Bottom =>
        top := rect.top + scrollTop + rect.height + Padding;
        left := rect.left + scrollLeft + rect.width / 2.0 - tooltip.width / 2.0;
      case Left =>
        left := rect.left + scrollLeft - tooltip.width - Padding;
        top := rect.top + scrollTop + rect.height / 2.0 - tooltip.height / 2.0;
    }

    if left + tooltip.width > windowWidth - Padding {
      left := windowWidth - tooltip.width - Padding;
    }
    if left < Padding {
      left := Padding;
    }
    if top + tooltip.height > windowHeight + scrollTop - Padding {
      var topAbove := rect.top + scrollTop - tooltip.height - Padding;
      if topAbove > scrollTop + Padding {
        top := topAbove;
      } else {
        top := windowHeight + scrollTop - tooltip.height - Padding;
      }
    }
    if top < scrollTop + Padding {
      top := scrollTop + Padding;
    }
    return Position(top, left, rect.width, rect.height);
  }
}
