/**
 * Document geometry: an element's bounding box relative to the document
 * (`offset`) and relative to its nearest positioned ancestor (`position`).
 *
 * The rendering surface is not modelled; what it would report is passed in:
 * the element's rectangle relative to the viewport and the document's
 * scroll offset.  Lengths are exact reals (the browser's pixel values are
 * floating point; see README).
 */
module Geometry {
  import opened Wrappers

  /** A width or height: never negative. */
  type Length = x: real | 0.0 <= x

  /** An element's rectangle relative to the current viewport, as the rendering surface reports it. */
  datatype Rect = Rect(top: real, left: real, width: Length, height: Length)

  /** The document's scroll position at query time. */
  datatype Scroll = Scroll(scrollTop: real, scrollLeft: real)

  /** A bounding box: all six edges and extents in one coordinate space. */
  datatype Box = Box(width: Length, height: Length, top: real, bottom: real, left: real, right: real)

  /** The invariant every box this engine produces keeps. */
  predicate Consistent(b: Box)
  {
    b.bottom == b.top + b.height && b.right == b.left + b.width
  }

  /**
   * What the rendering surface reports for an element laid out at `page`
   * (its rectangle relative to the document origin) while the document is
   * scrolled by `s`: the page rectangle moved up and left by the scroll.
   */
  function ClientRect(page: Rect, s: Scroll): (r: Rect)
    ensures r.width == page.width && r.height == page.height
    ensures r.top + s.scrollTop == page.top && r.left + s.scrollLeft == page.left
  {
    Rect(page.top - s.scrollTop, page.left - s.scrollLeft, page.width, page.height)
  }

  /**
   * `offset`: the document-relative box of an element whose viewport
   * rectangle is `r` while the document is scrolled by `s`.
   */
  function Offset(r: Rect, s: Scroll): (b: Box)
    ensures Consistent(b)
    ensures b.width == r.width && b.height == r.height
    ensures b.top - s.scrollTop == r.top && b.left - s.scrollLeft == r.left
  {
    var top := r.top + s.scrollTop;
    var left := r.left + s.scrollLeft;
    Box(r.width, r.height, top, top + r.height, left, left + r.width)
  }

  /**
   * `offset` is scroll invariant: for an element that stays where it is laid
   * out, any two scroll positions give the same document box, and that box
   * is the element's page rectangle.
   */
  lemma OffsetScrollInvariant(page: Rect, s1: Scroll, s2: Scroll)
    ensures Offset(ClientRect(page, s1), s1) == Offset(ClientRect(page, s2), s2)
    ensures var b := Offset(ClientRect(page, s1), s1);
      b.top == page.top && b.left == page.left &&
      b.bottom == page.top + page.height && b.right == page.left + page.width
  {
  }

  /** The border widths of a positioned ancestor, on its top and left edges. */
  datatype Borders = Borders(top: Length, left: Length)

  /**
   * The nearest positioned ancestor of an element: its viewport rectangle
   * and its border widths.
   */
  datatype Ancestor = Ancestor(rect: Rect, borders: Borders)

  /**
   * `position`: the box of an element (viewport rectangle `r`) relative to
   * the padding edge of its nearest positioned ancestor, or relative to the
   * document when there is none.  Both boxes are taken at the same scroll.
   */
  function Position(r: Rect, ancestor: Option<Ancestor>, s: Scroll): (b: Box)
    ensures Consistent(b)
    ensures b.width == r.width && b.height == r.height
    ensures ancestor.None? ==> b == Offset(r, s)
    ensures ancestor.Some? ==>
      var own, base, border := Offset(r, s), Offset(ancestor.value.rect, s), ancestor.value.borders;
      b.top + base.top + border.top == own.top && b.left + base.left + border.left == own.left
  {
    var own := Offset(r, s);
    match ancestor
    case None => own
    case Some(a) =>
      var base := Offset(a.rect, s);
      var top := own.top - base.top - a.borders.top;
      var left := own.left - base.left - a.borders.left;
      Box(own.width, own.height, top, top + own.height, left, left + own.width)
  }

  /** With no positioned ancestor, `position` is scroll invariant just as `offset` is. */
  lemma PositionScrollInvariant(page: Rect, s1: Scroll, s2: Scroll)
    ensures Position(ClientRect(page, s1), None, s1) == Position(ClientRect(page, s2), None, s2)
    ensures Position(ClientRect(page, s1), None, s1) == Offset(ClientRect(page, s1), s1)
  {
  }

  /**
   * Ancestor relativity: a child laid out with margins (mt, ml) from the
   * padding edge of its positioned ancestor has position (mt, ml), whatever
   * the ancestor's own place in the document and whatever the scroll.
   */
  lemma PositionAncestorRelative(ancestorPage: Rect, borders: Borders, mt: real, ml: real,
                                 width: Length, height: Length, s: Scroll)
    ensures var childPage := Rect(ancestorPage.top + borders.top + mt,
                                  ancestorPage.left + borders.left + ml, width, height);
      var b := Position(ClientRect(childPage, s), Some(Ancestor(ClientRect(ancestorPage, s), borders)), s);
      b.top == mt && b.left == ml && b.bottom == mt + height && b.right == ml + width
  {
  }

  /**
   * Moving an element together with its positioned ancestor (or scrolling
   * the document) leaves its position unchanged: `position` depends only on
   * where the element sits inside the ancestor.
   */
  lemma PositionTranslationInvariant(childPage: Rect, ancestorPage: Rect, borders: Borders,
                                     dy: real, dx: real, s1: Scroll, s2: Scroll)
    ensures var movedChild := Rect(childPage.top + dy, childPage.left + dx, childPage.width, childPage.height);
      var movedAncestor := Rect(ancestorPage.top + dy, ancestorPage.left + dx, ancestorPage.width, ancestorPage.height);
      Position(ClientRect(movedChild, s2), Some(Ancestor(ClientRect(movedAncestor, s2), borders)), s2)
      == Position(ClientRect(childPage, s1), Some(Ancestor(ClientRect(ancestorPage, s1), borders)), s1)
  {
  }
}
