/** isScrolledIntoView (js/novicell.map.js, lines 139-144): whether the target
    element is, at least in part, inside the window vertically. */
module Viewport {

  /** What `getBoundingClientRect()` reports, in CSS pixels relative to the
      top-left corner of the window. */
  datatype Rect = Rect(top: real, bottom: real, left: real, right: real)

  /** The element's bottom edge is not above the window and its top edge is
      not below it; `innerHeight` is the window's height. */
  predicate IsScrolledIntoView(rect: Rect, innerHeight: real) {
    rect.bottom >= 0.0 && rect.top <= innerHeight
  }

  /** Height `y` lies on the element and inside the window, both ends included. */
  predicate SharedRow(rect: Rect, innerHeight: real, y: real) {
    rect.top <= y <= rect.bottom && 0.0 <= y <= innerHeight
  }

  /** For a real box (top above bottom) and a window of non-negative height,
      the element is in view exactly when the closed intervals [top, bottom]
      and [0, innerHeight] meet; the horizontal extent plays no part. */
  lemma VisibleIffRowsMeet(rect: Rect, innerHeight: real)
    requires rect.top <= rect.bottom && 0.0 <= innerHeight
    ensures IsScrolledIntoView(rect, innerHeight) <==> exists y :: SharedRow(rect, innerHeight, y)
  {
    if IsScrolledIntoView(rect, innerHeight) {
      var y := if rect.top < 0.0 then 0.0 else rect.top;
      assert SharedRow(rect, innerHeight, y);
    }
  }
}
