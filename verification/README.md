# Positioning: a Dafny model of the overlay geometry engine

This project models the geometry engine that places an overlay (the
"target": a tooltip, popover or dropdown) next to an anchor (the "host").
The engine has three operations:

- `offset(element)`: the element's bounding box relative to the document.
  It is the element's viewport rectangle moved by the current scroll offset.
- `position(element)`: the element's bounding box relative to the padding
  edge of its nearest positioned ancestor, or `offset` when there is none.
- `positionElements(host, target, placement)`: the `{top, left}` at which
  the target's corner goes for one of twelve placement names (`top-left`,
  `top`, `top-right`, `bottom-left`, …, `right-bottom`).

The engine's own source file is not part of this model. Its behaviour is
pinned down by the assertions of `test/positioning.spec.ts`, and every one of
those assertions is proved here as a lemma (module `Fixture`).

Layout:

- `wrappers.dfy`: `Option`.
- `geometry.dfy` (module `Geometry`): `Rect`, the viewport rectangle the
  rendering surface reports; `Scroll`; `Box` with its invariant `Consistent`
  (`bottom = top + height`, `right = left + width`, sizes non-negative);
  `Offset`, `Position`, and the scroll and translation invariance lemmas.
  `ClientRect(page, scroll)` stands for the rendering surface. It gives the
  viewport rectangle of an element laid out at `page` while the document is
  scrolled, so "the element did not move" can be stated over all scrolls.
- `placement.dfy` (module `Placements`): the closed `Placement = (Side, Align)`
  type; its names, read back by `Parse`; `Place`, the placement rule on a
  `Placement`; and `PositionElements`, the same rule on a name.
- `fixture.dfy` (module `Fixture`): the test file's geometry and expected values.

Coordinates are exact `real`s, so halving a size is exact.

## Model

| member | source | states |
|---|---|---|
| Geometry.Offset | test/positioning.spec.ts:31-40 | the document box keeps the viewport rectangle's size; its top/left are the viewport top/left plus the scroll; bottom = top + height and right = left + width |
| Geometry.ClientRect | test/positioning.spec.ts:42-44 | scrolling moves what the rendering surface reports for a laid-out element by minus the scroll, size unchanged |
| Geometry.OffsetScrollInvariant | test/positioning.spec.ts:42-55 | for an element that does not move, `offset` gives the same box at every two scroll positions, namely its page rectangle with bottom/right derived |
| Geometry.Position | test/positioning.spec.ts:57-66 | with no positioned ancestor the result is exactly `offset`; with one, it is the element's offset minus the ancestor's offset and border; size kept and box consistent |
| Geometry.PositionScrollInvariant | test/positioning.spec.ts:68-81 | with no positioned ancestor, `position` is the same at every two scroll positions and equals `offset` |
| Geometry.PositionAncestorRelative | test/positioning.spec.ts:83-98 | a child laid out at margins (mt, ml) inside a positioned ancestor has position top mt, left ml, bottom mt + height, right ml + width, for any ancestor location and any scroll |
| Geometry.PositionTranslationInvariant | test/positioning.spec.ts:83-98 | moving the child together with its positioned ancestor, and scrolling, leaves the child's position unchanged |
| Placements.ParseName | test/positioning.spec.ts:100-182 | every placement's name reads back as that placement |
| Placements.ParseSound | test/positioning.spec.ts:100-182 | a string is accepted only if it is exactly the name of the placement it reads as, so exactly the twelve names are accepted |
| Placements.NameInjective | test/positioning.spec.ts:100-182 | two placements have the same name if and only if they are the same placement |
| Placements.Place | test/positioning.spec.ts:100-182 | the target touches the host's chosen side from outside (top: its bottom on host.top; bottom: its top on host.bottom; left/right likewise); on the cross axis start edges, end edges or centres coincide |
| Placements.PositionElements | test/positioning.spec.ts:100-182 | for a placement name the result is `Place` for the placement of that name; any result comes from such a name; an unknown name gives None |
| Placements.PrimaryDependsOnlyOnSide | test/positioning.spec.ts:100-182 | all placements on one side share the coordinate of the side's own axis (`top*` share top, `left*` share left, …) |
| Placements.CrossDependsOnlyOnAlign | test/positioning.spec.ts:100-182 | top and bottom placements with one alignment share their left; left and right placements share their top |
| Placements.TargetLocationIrrelevant | test/positioning.spec.ts:23-24 | two targets of equal width and height get the same result for every placement, wherever they sit |
| Placements.PlaceTranslates | test/positioning.spec.ts:100-182 | moving the host by (dy, dx) moves the result by (dy, dx), so the result is in the boxes' own coordinate space |
| Fixture.HostOffset | test/positioning.spec.ts:31-55 | the host's offset is top 100, left 150, bottom 300, right 450, width 300, height 200, unscrolled and at any scroll |
| Fixture.HostPosition | test/positioning.spec.ts:57-81 | without a positioned ancestor the host's position is that same box, at any scroll |
| Fixture.ChildPosition | test/positioning.spec.ts:83-98 | the child inside the positioned host has position top 50, bottom 150, left 75, right 225 |
| Fixture.TwelvePlacements | test/positioning.spec.ts:100-182 | the twelve expected `{top, left}` results for a 100 x 50 target against the host, for a target at any location |

## Left out

- Building the fixture in the browser is not modelled: creating elements, setting styles, appending and removing them, and restoring margins (test/positioning.spec.ts:10-29, 184-191). The resulting rectangles are constants in `Fixture`.
- Browser layout is not modelled. This covers inline-block flow and how margins produce the rectangles. The child's page rectangle is stated as the host's corner plus its margins.
- The live queries are parameters: the bounding client rectangle, the scroll offset, the nearest positioned ancestor and the ancestor's border widths. The engine's walk up the ancestor chain, and how it recognises a positioned element, are not part of this model. The ancestor is given as an `Option`.
- An element that is itself positioned is not modelled separately. The test never measures one.
- Geometry.Position: it subtracts the ancestor's border widths, but the test file only exercises a borderless ancestor, so only the zero-border case is confirmed by the test's assertions.
- Pixel values are floating-point numbers in the browser. Here they are exact reals, and rounding is not modelled.
- Placements.PositionElements: it takes the host and target boxes, not element references. The test's host has no positioned ancestor, so its offset and position coincide (Fixture.HostPosition). Which of the two the engine measures is therefore not distinguished.
- Placements.PositionElements: an unknown placement name gives None. The error the engine raises, and its message, are not modelled.
