/**
 * The circular mask of the frame view: two handle positions (the centre and
 * a point on the rim) against four form parameters, with the centre given
 * relative to the middle of the image and y pointing up.
 */
module Mask {
  import opened Wrappers
  import opened Dicts
  import opened ImageData

  /** A pixel position; the mask handles sit on whole pixels. */
  type Vec2 = (int, int)

  datatype MaskParameters = MaskParameters(centerX: int, centerY: int, minRadius: int, maxRadius: int)

  /** `Math.round`: halves round up, towards positive infinity. */
  function Round(x: real): (n: int)
    ensures n as real - 0.5 <= x < n as real + 0.5
  {
    (x + 0.5).Floor
  }

  lemma RoundWhole(n: int)
    ensures Round(n as real) == n
  {
  }

  /**
   * Handles to parameters; `distance` is the distance between the two
   * handles, whose definition is not part of this model.
   */
  function PositionsToParameters(positions: seq<Vec2>, size: ImageSize, distance: (Vec2, Vec2) -> real): (p: MaskParameters)
    requires |positions| >= 2
    ensures p.centerX + size.width / 2 == positions[0].0
    ensures size.height / 2 - p.centerY == positions[0].1
    ensures p.minRadius == 0
    ensures p.maxRadius as real - 0.5 <= distance(positions[0], positions[1]) < p.maxRadius as real + 0.5
  {
    MaskParameters(
      positions[0].0 - size.width / 2,
      size.height / 2 - positions[0].1,
      0,
      Round(distance(positions[0], positions[1])))
  }

  /** Parameters to handles: the centre, then the rim point on the centre's row. */
  function ParametersToPositions(p: MaskParameters, size: ImageSize): (positions: seq<Vec2>)
    ensures |positions| == 2
    ensures positions[0].0 - size.width / 2 == p.centerX
    ensures size.height / 2 - positions[0].1 == p.centerY
    ensures positions[1] == (positions[0].0 + p.maxRadius, positions[0].1)
  {
    var center := (p.centerX + size.width / 2, size.height / 2 - p.centerY);
    [center, (center.0 + p.maxRadius, center.1)]
  }

  /** The handles do not depend on the inner radius. */
  lemma PositionsIgnoreMinRadius(p: MaskParameters, size: ImageSize, minRadius: int)
    ensures ParametersToPositions(p.(minRadius := minRadius), size) == ParametersToPositions(p, size)
  {
  }

  /** Handles to parameters and back gives the same centre handle. */
  lemma CenterRoundTrip(positions: seq<Vec2>, size: ImageSize, distance: (Vec2, Vec2) -> real)
    requires |positions| >= 2
    ensures ParametersToPositions(PositionsToParameters(positions, size, distance), size)[0] == positions[0]
  {
    var p := PositionsToParameters(positions, size, distance);
    var back := ParametersToPositions(p, size);
    assert back[0].0 == positions[0].0 && back[0].1 == positions[0].1;
  }

  /**
   * Parameters to handles and back gives the same centre; when the distance
   * between the two handles is the radius (as for the Euclidean distance and
   * a non-negative radius), it gives the same outer radius too.
   */
  lemma ParametersRoundTrip(p: MaskParameters, size: ImageSize, distance: (Vec2, Vec2) -> real)
    ensures var q := PositionsToParameters(ParametersToPositions(p, size), size, distance);
            q.centerX == p.centerX && q.centerY == p.centerY && q.minRadius == 0
    ensures var ps := ParametersToPositions(p, size);
            distance(ps[0], ps[1]) == p.maxRadius as real ==>
              PositionsToParameters(ps, size, distance).maxRadius == p.maxRadius
  {
    RoundWhole(p.maxRadius);
  }

  /** `onFormChange`: a copy of the field values with one field replaced. */
  function OnFormChange(fieldValues: Dict<string>, name: string, value: string): (r: Dict<string>)
    ensures Get(r, name) == Some(value)
    ensures forall k :: k != name ==> Get(r, k) == Get(fieldValues, k)
  {
    Put(fieldValues, name, value)
  }
}
