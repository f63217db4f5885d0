/**
 * The React image component's helpers (the TypeScript component and its
 * older JavaScript copy are the same code): the min/max scan and the
 * conversion of samples into RGBA bytes.
 */
module StemImage {
  import opened Wrappers
  import opened LinearScales

  /** Smallest sample of a non-empty list. */
  function SeqMin(s: seq<real>): real
    requires |s| > 0
  {
    if |s| == 1 then s[0]
    else var m := SeqMin(s[..|s| - 1]); if s[|s| - 1] < m then s[|s| - 1] else m
  }

  /** Largest sample of a non-empty list. */
  function SeqMax(s: seq<real>): real
    requires |s| > 0
  {
    if |s| == 1 then s[0]
    else var m := SeqMax(s[..|s| - 1]); if s[|s| - 1] > m then s[|s| - 1] else m
  }

  /** `SeqMin` and `SeqMax` bound every sample, are samples, and are ordered. */
  lemma {:induction false} SeqMinMaxBounds(s: seq<real>)
    requires |s| > 0
    ensures forall i :: 0 <= i < |s| ==> SeqMin(s) <= s[i] <= SeqMax(s)
    ensures SeqMin(s) in s && SeqMax(s) in s
    ensures SeqMin(s) <= SeqMax(s)
  {
    if |s| > 1 {
      var p := s[..|s| - 1];
      SeqMinMaxBounds(p);
      assert forall i :: 0 <= i < |p| ==> s[i] == p[i];
    }
  }

  /** Two samples differ. */
  predicate NotConstant(s: seq<real>) {
    exists i, j :: 0 <= i < |s| && 0 <= j < |s| && s[i] != s[j]
  }

  /** A list with two different samples has a smaller minimum than maximum. */
  lemma NotConstantSpread(s: seq<real>)
    requires NotConstant(s)
    ensures SeqMin(s) < SeqMax(s)
  {
    var i, j :| 0 <= i < |s| && 0 <= j < |s| && s[i] != s[j];
    SeqMinMaxBounds(s);
  }

  /**
   * `[min, max]` of the samples, starting from `data[0]`; on an empty list
   * both stay `undefined`.
   */
  method MinMax(data: seq<real>) returns (r: Option<(real, real)>)
    ensures r.None? <==> |data| == 0
    ensures r.Some? ==> r.value == (SeqMin(data), SeqMax(data))
    ensures r.Some? ==> r.value.0 <= r.value.1 &&
                        (forall i :: 0 <= i < |data| ==> r.value.0 <= data[i] <= r.value.1) &&
                        r.value.0 in data && r.value.1 in data
  {
    if |data| == 0 {
      return None;
    }
    var min, max := data[0], data[0];
    for i := 0 to |data|
      invariant i == 0 ==> min == data[0] && max == data[0]
      invariant i > 0 ==> min == SeqMin(data[..i]) && max == SeqMax(data[..i])
    {
      assert data[..i + 1][..i] == data[..i];
      if data[i] < min {
        min := data[i];
      }
      if data[i] > max {
        max := data[i];
      }
    }
    assert data[..|data|] == data;
    SeqMinMaxBounds(data);
    r := Some((min, max));
  }

  /** Grey level of a sample between the list's minimum and maximum. */
  function PixelGrey(data: seq<real>, v: real): real
    requires NotConstant(data)
  {
    NotConstantSpread(data);
    LinearScale(SeqMin(data), SeqMax(data), 0.0, 255.0, v)
  }

  /**
   * The RGBA bytes of the samples: four per sample, three equal grey
   * channels and alpha 255. A constant non-empty list (a zero-width scale)
   * is excluded.
   */
  method DataToPixels(data: seq<real>) returns (pixels: array<real>)
    requires |data| == 0 || NotConstant(data)
    ensures fresh(pixels) && pixels.Length == 4 * |data|
    ensures forall k :: 0 <= k < pixels.Length ==>
              pixels[k] == if k % 4 == 3 then 255.0 else PixelGrey(data, data[k / 4])
  {
    var range := MinMax(data);
    pixels := new real[4 * |data|](_ => 0.0);
    if range == None {
      return;
    }
    var min, max := range.value.0, range.value.1;
    NotConstantSpread(data);
    for i := 0 to |data|
      invariant forall k :: 0 <= k < 4 * i ==>
                  pixels[k] == if k % 4 == 3 then 255.0 else PixelGrey(data, data[k / 4])
    {
      var value := LinearScale(min, max, 0.0, 255.0, data[i]);
      pixels[i * 4 + 0] := value;
      pixels[i * 4 + 1] := value;
      pixels[i * 4 + 2] := value;
      pixels[i * 4 + 3] := 255.0;
    }
  }

  /** The darkest sample becomes 0 and the brightest 255; every grey lies in between. */
  lemma PixelGreyEndpoints(data: seq<real>, i: nat)
    requires NotConstant(data) && i < |data|
    ensures data[i] == SeqMin(data) ==> PixelGrey(data, data[i]) == 0.0
    ensures data[i] == SeqMax(data) ==> PixelGrey(data, data[i]) == 255.0
    ensures 0.0 <= PixelGrey(data, data[i]) <= 255.0
  {
    NotConstantSpread(data);
    SeqMinMaxBounds(data);
    ScaleEndpoints(SeqMin(data), SeqMax(data), 0.0, 255.0);
    ScaleInto(SeqMin(data), SeqMax(data), 0.0, 255.0, data[i]);
  }
}
