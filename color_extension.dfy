/** SAM2-Demo/Common/Color+Extension.swift: choosing a new layer colour as
    far as possible from the colours already in use. Distances are compared
    squared; the square root is monotone, so every comparison comes out the
    same. */
module ColorExtension {
  import opened Models

  /** `colorDistance`, squared: the sum of the squared channel differences.
      It is never negative and is 0 between equal colours. */
  function SquaredDistance(c1: Color, c2: Color): (d: real)
    ensures d >= 0.0
    ensures c1 == c2 ==> d == 0.0
  {
    Square(c1.red - c2.red) + Square(c1.green - c2.green) + Square(c1.blue - c2.blue)
  }

  function Square(x: real): (r: real)
    ensures r >= 0.0
    ensures x == 0.0 ==> r == 0.0
  {
    x * x
  }

  /** The distance does not depend on the order of its arguments. */
  lemma DistanceSymmetric(c1: Color, c2: Color)
    ensures SquaredDistance(c1, c2) == SquaredDistance(c2, c1)
  {
    assert (c1.red - c2.red) * (c1.red - c2.red) == (c2.red - c1.red) * (c2.red - c1.red);
    assert (c1.green - c2.green) * (c1.green - c2.green) == (c2.green - c1.green) * (c2.green - c1.green);
    assert (c1.blue - c2.blue) * (c1.blue - c2.blue) == (c2.blue - c1.blue) * (c2.blue - c1.blue);
  }

  /** `existingColors.map { colorDistance(candidate, $0) }.min() ?? 0`: the
      smallest distance from `candidate` to a colour in use, or 0 when none
      is. */
  function MinDistance(candidate: Color, existing: seq<Color>): (d: real)
    ensures d >= 0.0
    ensures existing == [] ==> d == 0.0
  {
    if |existing| == 0 then 0.0
    else if |existing| == 1 then SquaredDistance(candidate, existing[0])
    else
      var first := SquaredDistance(candidate, existing[0]);
      var rest := MinDistance(candidate, existing[1..]);
      if first <= rest then first else rest
  }

  /** Over a non-empty list of colours in use, the score is the distance
      to one of them and to none is it larger. */
  lemma {:induction false} MinDistanceIsMinimum(candidate: Color, existing: seq<Color>)
    requires existing != []
    ensures exists i :: 0 <= i < |existing| && MinDistance(candidate, existing) == SquaredDistance(candidate, existing[i])
    ensures forall i :: 0 <= i < |existing| ==> MinDistance(candidate, existing) <= SquaredDistance(candidate, existing[i])
  {
    if |existing| == 1 {
      assert MinDistance(candidate, existing) == SquaredDistance(candidate, existing[0]);
    } else {
      MinDistanceIsMinimum(candidate, existing[1..]);
      var i :| 0 <= i < |existing[1..]| && MinDistance(candidate, existing[1..]) == SquaredDistance(candidate, existing[1..][i]);
      if SquaredDistance(candidate, existing[0]) > MinDistance(candidate, existing[1..]) {
        assert MinDistance(candidate, existing) == SquaredDistance(candidate, existing[i + 1]);
      } else {
        assert MinDistance(candidate, existing) == SquaredDistance(candidate, existing[0]);
      }
      forall j | 1 <= j < |existing|
        ensures MinDistance(candidate, existing) <= SquaredDistance(candidate, existing[j])
      {
        assert existing[j] == existing[1..][j - 1];
      }
    }
  }

  /** A colour already in use scores 0, so it is never chosen. */
  lemma UsedColorScoresZero(candidate: Color, existing: seq<Color>)
    requires candidate in existing
    ensures MinDistance(candidate, existing) == 0.0
  {
    var i :| 0 <= i < |existing| && existing[i] == candidate;
    MinDistanceIsMinimum(candidate, existing);
    assert SquaredDistance(candidate, existing[i]) == 0.0;
  }

  /** `furthestColor`: the first candidate with the largest positive score,
      or `fallback` (the random or default colour) when no candidate scores
      above 0. */
  method FurthestColor(existing: seq<Color>, candidates: seq<Color>, fallback: Color) returns (furthest: Color)
    ensures (forall j :: 0 <= j < |candidates| ==> MinDistance(candidates[j], existing) <= 0.0) ==> furthest == fallback
    ensures (exists j :: 0 <= j < |candidates| && MinDistance(candidates[j], existing) > 0.0) ==>
      exists i :: 0 <= i < |candidates| && furthest == candidates[i]
        && MinDistance(candidates[i], existing) > 0.0
        && (forall j :: 0 <= j < |candidates| ==> MinDistance(candidates[j], existing) <= MinDistance(candidates[i], existing))
        && (forall j :: 0 <= j < i ==> MinDistance(candidates[j], existing) < MinDistance(candidates[i], existing))
  {
    var maxMinDistance := 0.0;
    furthest := fallback;
    ghost var best := -1;
    for k := 0 to |candidates|
      invariant -1 <= best < k
      invariant best == -1 ==>
        && maxMinDistance == 0.0 && furthest == fallback
        && forall j :: 0 <= j < k ==> MinDistance(candidates[j], existing) <= 0.0
      invariant best >= 0 ==>
        && furthest == candidates[best]
        && maxMinDistance == MinDistance(candidates[best], existing) > 0.0
        && (forall j :: 0 <= j < k ==> MinDistance(candidates[j], existing) <= maxMinDistance)
        && (forall j :: 0 <= j < best ==> MinDistance(candidates[j], existing) < maxMinDistance)
    {
      var minDistance := MinDistance(candidates[k], existing);
      if minDistance > maxMinDistance {
        maxMinDistance := minDistance;
        furthest := candidates[k];
        best := k;
      }
    }
  }
}
