/**
 * The raster data source: a row-major buffer of samples with its size, its
 * value range and the handlers to tell about `sizeChanged` and
 * `dataChanged`. `BaseImageDataSource` holds the state and the accessors;
 * the streaming source adds resizing and sparse chunk updates. Both are one
 * class here, since the base class cannot be instantiated on its own.
 */
module ImageData {
  import opened Wrappers
  import Subjects

  datatype ImageSize = ImageSize(width: nat, height: nat)

  /**
   * A bound of the range scan: a sample value, or one of the infinities the
   * scan starts from (they remain when the buffer is empty).
   */
  datatype Bound = NegativeInfinity | Finite(value: real) | PositiveInfinity

  /** `v < b` for a JavaScript number `b`. */
  predicate Below(v: real, b: Bound) {
    match b
    case NegativeInfinity => false
    case Finite(w) => v < w
    case PositiveInfinity => true
  }

  /** `v > b` for a JavaScript number `b`. */
  predicate Above(v: real, b: Bound) {
    match b
    case NegativeInfinity => true
    case Finite(w) => v > w
    case PositiveInfinity => false
  }

  datatype DataRange = DataRange(min: Bound, max: Bound)

  datatype ImageSourceEvent = SizeChanged | DataChanged

  /** `new.target` of a data-source construction. */
  datatype SourceClass = BaseImageDataSourceClass | StreamImageDataSourceClass

  /** The constructor's guard: the error it throws, if any. */
  function ConstructorCheck(newTarget: SourceClass): (error: Option<string>)
    ensures error.Some? <==> newTarget == BaseImageDataSourceClass
  {
    if newTarget == BaseImageDataSourceClass
    then Some("Cannot instantiate the abstract class BaseImageDataSource")
    else None
  }

  /** `r` is the exact range of `s`: it bounds every sample and both ends are samples. */
  ghost predicate IsRangeOf(r: DataRange, s: seq<real>) {
    if |s| == 0 then r == DataRange(PositiveInfinity, NegativeInfinity)
    else
      r.min.Finite? && r.max.Finite? &&
      (forall i :: 0 <= i < |s| ==> r.min.value <= s[i] <= r.max.value) &&
      (exists i :: 0 <= i < |s| && s[i] == r.min.value) &&
      (exists i :: 0 <= i < |s| && s[i] == r.max.value)
  }

  /** The range of a buffer is determined by the buffer. */
  lemma RangeUnique(r1: DataRange, r2: DataRange, s: seq<real>)
    requires IsRangeOf(r1, s) && IsRangeOf(r2, s)
    ensures r1 == r2
  {
    if |s| > 0 {
      var i1 :| 0 <= i1 < |s| && s[i1] == r1.min.value;
      var i2 :| 0 <= i2 < |s| && s[i2] == r2.min.value;
      var j1 :| 0 <= j1 < |s| && s[j1] == r1.max.value;
      var j2 :| 0 <= j2 < |s| && s[j2] == r2.max.value;
      assert r1.min.value <= s[i2] && r2.min.value <= s[i1];
      assert r1.max.value >= s[j2] && r2.max.value >= s[j1];
    }
  }

  /** For a non-empty buffer, `min <= max`. */
  lemma RangeOrdered(r: DataRange, s: seq<real>)
    requires IsRangeOf(r, s) && |s| > 0
    ensures r.min.Finite? && r.max.Finite? && r.min.value <= r.max.value
  {
    assert r.min.value <= s[0] <= r.max.value;
  }

  /**
   * The buffer after writing a chunk in index order: `values[i]` goes to
   * `indexes[i]` when that index is inside the buffer, and is skipped otherwise.
   */
  function ApplyChunk(d: seq<real>, indexes: seq<nat>, values: seq<real>): (r: seq<real>)
    requires |indexes| == |values|
    ensures |r| == |d|
  {
    if |indexes| == 0 then d
    else
      var n := |indexes| - 1;
      var before := ApplyChunk(d, indexes[..n], values[..n]);
      if indexes[n] < |d| then before[indexes[n] := values[n]] else before
  }

  /**
   * What a chunk does to each cell: a cell no in-bounds index names keeps its
   * value, and a named cell ends with the value paired with its last occurrence.
   */
  lemma {:induction false} ApplyChunkAt(d: seq<real>, indexes: seq<nat>, values: seq<real>, k: nat)
    requires |indexes| == |values| && k < |d|
    ensures (forall i :: 0 <= i < |indexes| ==> indexes[i] != k) ==> ApplyChunk(d, indexes, values)[k] == d[k]
    ensures forall i :: 0 <= i < |indexes| && indexes[i] == k &&
                        (forall j :: i < j < |indexes| ==> indexes[j] != k) ==>
                          ApplyChunk(d, indexes, values)[k] == values[i]
  {
    if |indexes| > 0 {
      var n := |indexes| - 1;
      ApplyChunkAt(d, indexes[..n], values[..n], k);
      forall i | 0 <= i < |indexes| && indexes[i] == k && (forall j :: i < j < |indexes| ==> indexes[j] != k)
        ensures ApplyChunk(d, indexes, values)[k] == values[i]
      {
        if i < n {
          assert indexes[..n][i] == k;
          assert forall j :: i < j < n ==> indexes[..n][j] != k;
        }
      }
      if forall i :: 0 <= i < |indexes| ==> indexes[i] != k {
        assert forall i :: 0 <= i < n ==> indexes[..n][i] != k;
      }
    }
  }

  class StreamImageDataSource<H(==)> {
    var data: array<real>
    var size: ImageSize
    var range: DataRange
    var observers: seq<H>

    /** The buffer holds exactly one sample per pixel. */
    ghost predicate Valid()
      reads this
    {
      data.Length == size.width * size.height
    }

    constructor ()
      ensures Valid() && fresh(data)
      ensures data[..] == [0.0] && size == ImageSize(1, 1)
      ensures range == DataRange(Finite(0.0), Finite(0.0)) && observers == []
    {
      data := new real[1](_ => 0.0);
      size := ImageSize(1, 1);
      range := DataRange(Finite(0.0), Finite(0.0));
      observers := [];
    }

    /**
     * The sample at `(x, y)`, with both coordinates floored. Only the flat
     * index `y * width + x` is checked: past the last row the result is 0,
     * while an `x` past the right edge reads into a following row.
     */
    function GetPixelData(x: real, y: real): (v: real)
      reads this, data
      requires Valid()
      requires x >= 0.0 && y >= 0.0
      ensures x.Floor < size.width && y.Floor < size.height ==>
                0 <= y.Floor * size.width + x.Floor < data.Length &&
                v == data[y.Floor * size.width + x.Floor]
      ensures y.Floor >= size.height ==> v == 0.0
      ensures 0 <= y.Floor * size.width + x.Floor < data.Length ==>
                v == data[y.Floor * size.width + x.Floor]
      ensures y.Floor * size.width + x.Floor >= data.Length ==> v == 0.0
    {
      var ix := x.Floor;
      var iy := y.Floor;
      var idx := iy * size.width + ix;
      var n := size.width * size.height;
      FlatIndexBounds(ix, iy, size.width, size.height);
      if idx >= n then 0.0 else data[idx]
    }

    method Subscribe(fn: H)
      modifies this
      ensures observers == old(observers) + [fn]
      ensures data == old(data) && size == old(size) && range == old(range)
    {
      observers := observers + [fn];
    }

    method Unsubscribe(fn: H)
      modifies this
      ensures observers == Subjects.Without(old(observers), fn)
      ensures data == old(data) && size == old(size) && range == old(range)
    {
      observers := Subjects.Without(observers, fn);
    }

    method Emit(event: ImageSourceEvent) returns (calls: seq<Subjects.Call<H, ImageSourceEvent>>)
      ensures calls == Subjects.Broadcast(observers, event)
    {
      calls := Subjects.Notify(observers, event);
      Subjects.BroadcastIsNotify(observers, event, calls);
    }

    /** Scans the buffer for its smallest and largest sample. */
    method UpdateRange()
      requires Valid()
      modifies this`range
      ensures IsRangeOf(range, data[..])
    {
      var min := PositiveInfinity;
      var max := NegativeInfinity;
      for i := 0 to data.Length
        invariant i == 0 ==> min == PositiveInfinity && max == NegativeInfinity
        invariant i > 0 ==> min.Finite? && max.Finite?
        invariant i > 0 ==> forall j :: 0 <= j < i ==> min.value <= data[j] <= max.value
        invariant i > 0 ==> exists j :: 0 <= j < i && data[j] == min.value
        invariant i > 0 ==> exists j :: 0 <= j < i && data[j] == max.value
      {
        var value := data[i];
        if Below(value, min) {
          min := Finite(value);
        }
        if Above(value, max) {
          max := Finite(value);
        }
      }
      range := DataRange(min, max);
    }

    /**
     * Resizing: a new buffer of zeros and one `sizeChanged`, unless the size
     * is unchanged. The range is not recomputed.
     */
    method SetImageSize(newSize: ImageSize) returns (calls: seq<Subjects.Call<H, ImageSourceEvent>>)
      requires Valid()
      modifies this
      ensures Valid() && range == old(range) && observers == old(observers)
      ensures newSize == old(size) ==> data == old(data) && size == old(size) && calls == []
      ensures newSize != old(size) ==>
                fresh(data) && size == newSize &&
                data[..] == seq(newSize.width * newSize.height, _ => 0.0) &&
                calls == Subjects.Broadcast(observers, SizeChanged)
    {
      calls := [];
      if newSize.width != size.width || newSize.height != size.height {
        data := new real[newSize.width * newSize.height](_ => 0.0);
        size := newSize;
        calls := Emit(SizeChanged);
      }
    }

    /**
     * A sparse update: a chunk whose two lists differ in length is dropped
     * whole; otherwise each in-bounds index takes its value, the range is
     * recomputed and `dataChanged` is emitted once.
     */
    method UpdateImageChunk(indexes: seq<nat>, values: seq<real>)
      returns (calls: seq<Subjects.Call<H, ImageSourceEvent>>)
      requires Valid()
      modifies this`range, data
      ensures Valid() && data == old(data) && size == old(size) && observers == old(observers)
      ensures |indexes| != |values| ==>
                data[..] == old(data[..]) && range == old(range) && calls == []
      ensures |indexes| == |values| ==>
                data[..] == ApplyChunk(old(data[..]), indexes, values) &&
                IsRangeOf(range, data[..]) &&
                calls == Subjects.Broadcast(observers, DataChanged)
    {
      var n := size.width * size.height;
      if |indexes| != |values| {
        return [];
      }
      for i := 0 to |indexes|
        invariant data[..] == ApplyChunk(old(data[..]), indexes[..i], values[..i])
      {
        assert indexes[..i + 1][..i] == indexes[..i];
        assert values[..i + 1][..i] == values[..i];
        if indexes[i] < n {
          data[indexes[i]] := values[i];
        }
      }
      assert indexes[..|indexes|] == indexes && values[..|values|] == values;
      UpdateRange();
      calls := Emit(DataChanged);
    }
  }

  /** A pixel inside the image has its flat index inside the buffer. */
  lemma FlatIndexBounds(x: int, y: int, width: nat, height: nat)
    requires x >= 0
    ensures 0 <= y * width + x || y < 0
    ensures x < width && 0 <= y < height ==> y * width + x < width * height
    ensures y >= height ==> y * width + x >= width * height
  {
    if x < width && 0 <= y < height {
      MulMonotone(y, height - 1, width);
      assert (height - 1) * width == width * height - width;
    }
    if y >= height {
      MulMonotone(height, y, width);
    }
    if y >= 0 {
      MulMonotone(0, y, width);
    }
  }

  lemma MulMonotone(a: int, b: int, c: nat)
    requires a <= b
    ensures a * c <= b * c
  {
  }
}
