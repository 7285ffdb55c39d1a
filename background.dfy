/**
 * The caption's background box in gui.py: the text's bounding box
 * `[x0, y0, x1, y1]` is widened in place by the configured padding before the
 * rectangle is drawn.
 */
module Background {

  /** `bbox[0] <= x <= bbox[2]` and `bbox[1] <= y <= bbox[3]` covers `inner`. */
  predicate Encloses(outer: seq<int>, inner: seq<int>)
    requires |outer| == 4 && |inner| == 4
  {
    outer[0] <= inner[0] && outer[1] <= inner[1] && inner[2] <= outer[2] && inner[3] <= outer[3]
  }

  /**
   * The box after the four in-place updates: x0 moves left by `padding[2]`,
   * x1 right by `padding[0]`, y0 up by `padding[3]`, y1 down by `padding[1]`.
   * It encloses the text box exactly when those four entries are non-negative,
   * and grows by their sums.
   */
  function Padded(bbox: seq<int>, padding: seq<int>): (r: seq<int>)
    requires |bbox| == 4 && |padding| >= 4
    ensures |r| == 4
    ensures Encloses(r, bbox) <==> padding[0] >= 0 && padding[1] >= 0 && padding[2] >= 0 && padding[3] >= 0
    ensures r[2] - r[0] == bbox[2] - bbox[0] + padding[0] + padding[2]
    ensures r[3] - r[1] == bbox[3] - bbox[1] + padding[1] + padding[3]
  {
    [bbox[0] - padding[2], bbox[1] - padding[3], bbox[2] + padding[0], bbox[3] + padding[1]]
  }

  /** The four statements `bbox[k] -= ...` / `bbox[k] += ...`, in the source's order. */
  method PadBox(bbox: array<int>, padding: seq<int>)
    requires bbox.Length == 4 && |padding| >= 4
    modifies bbox
    ensures bbox[..] == Padded(old(bbox[..]), padding)
  {
    bbox[0] := bbox[0] - padding[2];
    bbox[2] := bbox[2] + padding[0];
    bbox[1] := bbox[1] - padding[3];
    bbox[3] := bbox[3] + padding[1];
  }
}
