/**
 * The grey-scale view of a data source: an RGBA buffer with four entries per
 * pixel, redrawn on `dataChanged` and reallocated on `sizeChanged`.
 */
module View {
  import opened ImageData
  import opened LinearScales
  import Subjects

  /** Grey level of a sample: the range's minimum maps to 0, its maximum to 255. */
  function Grey(range: DataRange, v: real): real
    requires range.min.Finite? && range.max.Finite? && range.min.value != range.max.value
  {
    LinearScale(range.min.value, range.max.value, 0.0, 255.0, v)
  }

  /** A range the grey scale can be built from. */
  predicate Drawable(range: DataRange) {
    range.min.Finite? && range.max.Finite? && range.min.value != range.max.value
  }

  /** The grey scale sends the range's ends to black and white, and keeps order. */
  lemma GreyEndpoints(range: DataRange, a: real, b: real)
    requires Drawable(range)
    ensures Grey(range, range.min.value) == 0.0 && Grey(range, range.max.value) == 255.0
    ensures range.min.value < range.max.value && a <= b ==> Grey(range, a) <= Grey(range, b)
  {
    ScaleEndpoints(range.min.value, range.max.value, 0.0, 255.0);
    if range.min.value < range.max.value && a <= b {
      ScaleMonotone(range.min.value, range.max.value, 0.0, 255.0, a, b);
    }
  }

  /**
   * `out` is `before` with the first `4 * |data|` entries drawn from `data`:
   * three equal grey channels and an opaque alpha. Writes past the end of the
   * buffer are dropped, as a typed array drops them.
   */
  ghost predicate Rendered(out: seq<real>, before: seq<real>, data: seq<real>, range: DataRange)
    requires |data| > 0 ==> Drawable(range)
  {
    |out| == |before| &&
    forall k :: 0 <= k < |out| ==>
      out[k] == if k < 4 * |data|
                then (if k % 4 == 3 then 255.0 else Grey(range, data[k / 4]))
                else before[k]
  }

  class ImageView<H(==)> {
    const source: StreamImageDataSource<H>
    /** The identity of this view's bound `onSourceModified`. */
    const handler: H
    var imageData: array<real>

    /** The view's buffer is its own, not the source's. */
    ghost predicate Valid()
      reads this, source
    {
      source.Valid() && imageData != source.data
    }

    constructor (source: StreamImageDataSource<H>, handler: H)
      requires source.Valid()
      requires source.size.width * source.size.height > 0 ==> Drawable(source.range)
      modifies source
      ensures source.data == old(source.data) && source.size == old(source.size) && source.range == old(source.range)
      ensures source.observers == old(source.observers) + [handler]
      ensures Valid() && fresh(imageData)
      ensures imageData.Length == 4 * source.size.width * source.size.height
      ensures Rendered(imageData[..], seq(imageData.Length, _ => 0.0), source.data[..], source.range)
    {
      this.source := source;
      this.handler := handler;
      imageData := new real[4](_ => 0.0);
      new;
      Resize();
      Draw();
      source.Subscribe(handler);
    }

    method Unsubscribe()
      modifies source
      ensures source.observers == Subjects.Without(old(source.observers), handler)
      ensures source.data == old(source.data) && source.size == old(source.size) && source.range == old(source.range)
    {
      source.Unsubscribe(handler);
    }

    /** Reallocates the buffer for the source's current size, all zero. */
    method Resize()
      requires source.Valid()
      modifies this`imageData
      ensures Valid() && fresh(imageData)
      ensures imageData.Length == 4 * source.size.width * source.size.height
      ensures imageData[..] == seq(imageData.Length, _ => 0.0)
    {
      var n := source.size.width * source.size.height;
      imageData := new real[4 * n](_ => 0.0);
    }

    /** Writes the grey value of every sample into its pixel. */
    method Draw()
      requires Valid()
      requires source.size.width * source.size.height > 0 ==> Drawable(source.range)
      modifies imageData
      ensures Rendered(imageData[..], old(imageData[..]), source.data[..], source.range)
    {
      var n := source.size.width * source.size.height;
      var range := source.range;
      var data := source.data;
      var len := imageData.Length;
      for i := 0 to n
        invariant forall k :: 0 <= k < len ==>
          imageData[k] == if k < 4 * i
                          then (if k % 4 == 3 then 255.0 else Grey(range, data[k / 4]))
                          else old(imageData[k])
      {
        var color := Grey(range, data[i]);
        if 4 * i < len { imageData[4 * i] := color; }
        if 4 * i + 1 < len { imageData[4 * i + 1] := color; }
        if 4 * i + 2 < len { imageData[4 * i + 2] := color; }
        if 4 * i + 3 < len { imageData[4 * i + 3] := 255.0; }
      }
    }

    /** Redraws on `dataChanged`, reallocates on `sizeChanged`. */
    method OnSourceModified(event: ImageSourceEvent)
      requires Valid()
      requires event == DataChanged && source.size.width * source.size.height > 0 ==> Drawable(source.range)
      modifies this`imageData, imageData
      ensures Valid()
      ensures event == DataChanged ==>
                imageData == old(imageData) &&
                Rendered(imageData[..], old(imageData[..]), source.data[..], source.range)
      ensures event == SizeChanged ==>
                fresh(imageData) &&
                imageData.Length == 4 * source.size.width * source.size.height &&
                imageData[..] == seq(imageData.Length, _ => 0.0)
    {
      match event
      case DataChanged => Draw();
      case SizeChanged => Resize();
    }
  }
}
