/**
 * The placement rule: where to put a target so that it sits against the
 * chosen side of a host, aligned along the other axis.
 *
 * A placement is a pair (side, alignment).  Its name is the side word
 * ("top", "bottom", "left", "right"), followed, unless the alignment is
 * centre, by "-" and the word for the target's start or end edge on the
 * cross axis ("left"/"right" under a top or bottom side, "top"/"bottom"
 * beside a left or right side).
 */
module Placements {
  import opened Wrappers
  import opened Geometry

  datatype Side = Top | Bottom | Left | Right
  datatype Align = Start | Center | End
  datatype Placement = Placement(side: Side, align: Align)

  /** The coordinates for the target's own top-left corner. */
  datatype Point = Point(top: real, left: real)

  /** Top and bottom placements put the target above or below the host, aligned horizontally. */
  predicate Vertical(side: Side)
  {
    side == Top || side == Bottom
  }

  function SideWord(side: Side): string
  {
    match side
    case Top => "top"
    case Bottom => "bottom"
    case Left => "left"
    case Right => "right"
  }

  /** The suffix word for a start or end alignment on the cross axis of `side`. */
  function AlignWord(side: Side, align: Align): string
    requires align != Center
  {
    match (Vertical(side), align)
    case (true, Start) => "left"
    case (true, End) => "right"
    case (false, Start) => "top"
    case (false, End) => "bottom"
  }

  /** The placement's name, as callers write it. */
  function Name(p: Placement): string
  {
    if p.align == Center then SideWord(p.side)
    else SideWord(p.side) + "-" + AlignWord(p.side, p.align)
  }

  /** The index of the first '-' in `s`, or |s| when there is none. */
  function HyphenAt(s: string): (i: nat)
    ensures i <= |s|
    ensures forall k :: 0 <= k < i ==> s[k] != '-'
    ensures i < |s| ==> s[i] == '-'
  {
    if s == [] || s[0] == '-' then 0 else 1 + HyphenAt(s[1..])
  }

  function SideNamed(w: string): (r: Option<Side>)
    ensures r.Some? ==> SideWord(r.value) == w
  {
    if w == "top" then Some(Top)
    else if w == "bottom" then Some(Bottom)
    else if w == "left" then Some(Left)
    else if w == "right" then Some(Right)
    else None
  }

  function AlignNamed(side: Side, w: string): (r: Option<Align>)
    ensures r.Some? ==> r.value != Center && AlignWord(side, r.value) == w
  {
    if Vertical(side) then
      if w == "left" then Some(Start) else if w == "right" then Some(End) else None
    else
      if w == "top" then Some(Start) else if w == "bottom" then Some(End) else None
  }

  /**
   * Reads a placement name: the text before the first '-' names the side,
   * the text after it (if any) the alignment.  Anything else is refused.
   */
  function Parse(s: string): Option<Placement>
  {
    var i := HyphenAt(s);
    match SideNamed(s[..i])
    case None => None
    case Some(side) =>
      if i == |s| then Some(Placement(side, Center))
      else
        match AlignNamed(side, s[i + 1..])
        case None => None
        case Some(align) => Some(Placement(side, align))
  }

  /** No side word and no alignment word contains a '-'. */
  lemma WordsHaveNoHyphen(p: Placement)
    ensures '-' !in SideWord(p.side)
    ensures p.align != Center ==> '-' !in AlignWord(p.side, p.align)
  {
  }

  /** Every placement's name reads back as that placement. */
  lemma ParseName(p: Placement)
    ensures Parse(Name(p)) == Some(p)
  {
    var s, w := Name(p), SideWord(p.side);
    WordsHaveNoHyphen(p);
    var i := HyphenAt(s);
    assert s[..|w|] == w;
    if p.align == Center {
      assert i == |w|;
    } else {
      var a := AlignWord(p.side, p.align);
      assert s[|w|] == '-';
      assert i == |w|;
      assert s[i + 1..] == a;
    }
  }

  /** Parse accepts only the twelve names: whatever it reads back, the text was that placement's name. */
  lemma ParseSound(s: string)
    ensures Parse(s).Some? ==> Name(Parse(s).value) == s
  {
  }

  /** Names tell placements apart. */
  lemma NameInjective(p: Placement, q: Placement)
    ensures Name(p) == Name(q) <==> p == q
  {
    ParseName(p);
    ParseName(q);
  }

  lemma ParseNameAll()
    ensures forall p :: Parse(Name(p)) == Some(p)
  {
    forall p ensures Parse(Name(p)) == Some(p) {
      ParseName(p);
    }
  }

  /** The target's left edge for a top or bottom placement. */
  function CrossLeft(host: Box, target: Box, align: Align): real
  {
    match align
    case Start => host.left
    case End => host.right - target.width
    case Center => host.left + host.width / 2.0 - target.width / 2.0
  }

  /** The target's top edge for a left or right placement. */
  function CrossTop(host: Box, target: Box, align: Align): real
  {
    match align
    case Start => host.top
    case End => host.bottom - target.height
    case Center => host.top + host.height / 2.0 - target.height / 2.0
  }

  /**
   * `positionElements` for a placement: the target touches the host's chosen
   * side from outside, and on the other axis its start edges, end edges or
   * centres line up with the host's.  Only the target's size is used.
   */
  function Place(host: Box, target: Box, p: Placement): (r: Point)
    requires Consistent(host)
    ensures p.side == Top ==> r.top + target.height == host.top
    ensures p.side == Bottom ==> r.top == host.bottom
    ensures p.side == Left ==> r.left + target.width == host.left
    ensures p.side == Right ==> r.left == host.right
    ensures Vertical(p.side) && p.align == Start ==> r.left == host.left
    ensures Vertical(p.side) && p.align == End ==> r.left + target.width == host.right
    ensures Vertical(p.side) && p.align == Center ==> r.left + target.width / 2.0 == host.left + host.width / 2.0
    ensures !Vertical(p.side) && p.align == Start ==> r.top == host.top
    ensures !Vertical(p.side) && p.align == End ==> r.top + target.height == host.bottom
    ensures !Vertical(p.side) && p.align == Center ==> r.top + target.height / 2.0 == host.top + host.height / 2.0
  {
    match p.side
    case Top => Point(host.top - target.height, CrossLeft(host, target, p.align))
    case Bottom => Point(host.bottom, CrossLeft(host, target, p.align))
    case Left => Point(CrossTop(host, target, p.align), host.left - target.width)
    case Right => Point(CrossTop(host, target, p.align), host.right)
  }

  /**
   * `positionElements` with a placement name: the coordinates for the named
   * placement, or None when the name is not one of the twelve.
   */
  function PositionElements(host: Box, target: Box, placement: string): (r: Option<Point>)
    requires Consistent(host)
    ensures forall p :: Name(p) == placement ==> r == Some(Place(host, target, p))
    ensures r.Some? ==> exists p :: Name(p) == placement && r.value == Place(host, target, p)
  {
    ParseNameAll();
    match Parse(placement)
    case None => None
    case Some(p) => ParseSound(placement); Some(Place(host, target, p))
  }

  /** The coordinate along the side's own axis depends on the side alone. */
  lemma PrimaryDependsOnlyOnSide(host: Box, target: Box, side: Side, a1: Align, a2: Align)
    requires Consistent(host)
    ensures var r1, r2 := Place(host, target, Placement(side, a1)), Place(host, target, Placement(side, a2));
      if Vertical(side) then r1.top == r2.top else r1.left == r2.left
  {
  }

  /** The cross-axis coordinate depends on the alignment alone, not on which of the two opposite sides. */
  lemma CrossDependsOnlyOnAlign(host: Box, target: Box, align: Align)
    requires Consistent(host)
    ensures Place(host, target, Placement(Top, align)).left == Place(host, target, Placement(Bottom, align)).left
    ensures Place(host, target, Placement(Left, align)).top == Place(host, target, Placement(Right, align)).top
  {
  }

  /** The target's own location never matters, only its width and height. */
  lemma TargetLocationIrrelevant(host: Box, t1: Box, t2: Box, p: Placement)
    requires Consistent(host)
    requires t1.width == t2.width && t1.height == t2.height
    ensures Place(host, t1, p) == Place(host, t2, p)
  {
  }

  /**
   * The result lives in the boxes' own coordinate space: moving the host by
   * (dy, dx) moves the result by the same amount.
   */
  lemma PlaceTranslates(host: Box, target: Box, p: Placement, dy: real, dx: real)
    requires Consistent(host)
    ensures var moved := Box(host.width, host.height, host.top + dy, host.bottom + dy, host.left + dx, host.right + dx);
      var r, r' := Place(host, target, p), Place(moved, target, p);
      r'.top == r.top + dy && r'.left == r.left + dx
  {
  }
}
