/**
 * The test fixture's geometry and the results the test file expects of it.
 *
 * The host is a 300 x 200 box laid out at document top 100, left 150; the
 * target is 100 x 50 and sits somewhere after it (its place never matters);
 * a 150 x 100 child is laid out inside the host at margins 50 / 75 when the
 * host is made a positioned ancestor (with no border).
 */
module Fixture {
  import opened Wrappers
  import opened Geometry
  import opened Placements

  /** The host's rectangle relative to the document. */
  const HostPage: Rect := Rect(100.0, 150.0, 300.0, 200.0)

  /** The child's rectangle relative to the document: the host's corner plus its margins. */
  const ChildPage: Rect := Rect(HostPage.top + 50.0, HostPage.left + 75.0, 150.0, 100.0)

  const HostBox: Box := Box(300.0, 200.0, 100.0, 300.0, 150.0, 450.0)

  /** The host's offset, unscrolled or scrolled to any position (1000 / 1000 in the test). */
  lemma HostOffset(s: Scroll)
    ensures Offset(ClientRect(HostPage, s), s) == HostBox
  {
  }

  /** Without a positioned ancestor the host's position is its offset, at any scroll. */
  lemma HostPosition(s: Scroll)
    ensures Position(ClientRect(HostPage, s), None, s) == HostBox
  {
  }

  /** Inside the positioned host, the child's position is its margins from the host. */
  lemma ChildPosition(s: Scroll)
    ensures var b := Position(ClientRect(ChildPage, s),
                              Some(Ancestor(ClientRect(HostPage, s), Borders(0.0, 0.0))), s);
      b.top == 50.0 && b.bottom == 150.0 && b.left == 75.0 && b.right == 225.0
  {
  }

  /** The twelve placements of a 100 x 50 target against the host, wherever the target sits. */
  lemma TwelvePlacements(target: Box)
    requires target.width == 100.0 && target.height == 50.0
    ensures PositionElements(HostBox, target, "top-left") == Some(Point(50.0, 150.0))
    ensures PositionElements(HostBox, target, "top") == Some(Point(50.0, 250.0))
    ensures PositionElements(HostBox, target, "top-right") == Some(Point(50.0, 350.0))
    ensures PositionElements(HostBox, target, "bottom-left") == Some(Point(300.0, 150.0))
    ensures PositionElements(HostBox, target, "bottom") == Some(Point(300.0, 250.0))
    ensures PositionElements(HostBox, target, "bottom-right") == Some(Point(300.0, 350.0))
    ensures PositionElements(HostBox, target, "left-top") == Some(Point(100.0, 50.0))
    ensures PositionElements(HostBox, target, "left") == Some(Point(175.0, 50.0))
    ensures PositionElements(HostBox, target, "left-bottom") == Some(Point(250.0, 50.0))
    ensures PositionElements(HostBox, target, "right-top") == Some(Point(100.0, 450.0))
    ensures PositionElements(HostBox, target, "right") == Some(Point(175.0, 450.0))
    ensures PositionElements(HostBox, target, "right-bottom") == Some(Point(250.0, 450.0))
  {
    assert Name(Placement(Top, Start)) == "top-left";
    assert Name(Placement(Top, Center)) == "top";
    assert Name(Placement(Top, End)) == "top-right";
    assert Name(Placement(Bottom, Start)) == "bottom-left";
    assert Name(Placement(Bottom, Center)) == "bottom";
    assert Name(Placement(Bottom, End)) == "bottom-right";
    assert Name(Placement(Left, Start)) == "left-top";
    assert Name(Placement(Left, Center)) == "left";
    assert Name(Placement(Left, End)) == "left-bottom";
    assert Name(Placement(Right, Start)) == "right-top";
    assert Name(Placement(Right, Center)) == "right";
    assert Name(Placement(Right, End)) == "right-bottom";
  }
}
