/** The data shared by the feature algorithms. */
module FeatureTypes {
  import opened Ints

  const CHANNELS := 3

  /** The product, by repeated addition. */
  function Times(a: int, b: int): int
    decreases a < 0, if a < 0 then -a else a
  {
    if a == 0 then 0 else if a > 0 then Times(a - 1, b) + b else -Times(-a, b)
  }

  lemma {:induction false} TimesIsProduct(a: int, b: int)
    ensures Times(a, b) == a * b
    decreases a < 0, if a < 0 then -a else a
  {
    if a > 0 {
      TimesIsProduct(a - 1, b);
    } else if a < 0 {
      TimesIsProduct(-a, b);
    }
  }

  lemma {:induction false} TimesSign(a: int, b: int)
    ensures b > 0 ==> (Times(a, b) > 0 <==> a > 0) && (Times(a, b) >= 0 <==> a >= 0)
    ensures b < 0 ==> (Times(a, b) > 0 <==> a < 0) && (Times(a, b) >= 0 <==> a <= 0)
    ensures b == 0 ==> Times(a, b) == 0
    decreases a < 0, if a < 0 then -a else a
  {
    if a > 0 {
      TimesSign(a - 1, b);
    } else if a < 0 {
      TimesSign(-a, b);
    }
  }

  /** Picture features over samples of type D: reals where they are computed with, opaque
      eight-byte values where they are stored. */
  datatype FeatureData<+D> = FeatureData(
    x0: int, x1: int, y0: int, y1: int,
    useYuv: bool, featureType: int, featureSize: int, features: seq<seq<D>>)
  {
    /** The product of width and height, in 32 bits, is positive. */
    predicate HasArea() {
      Int32(Times(y1 - y0, x1 - x0)) > 0
    }

    /** As long as the product fits, width and height have the same sign. */
    lemma {:induction false} AreaIsSameSign()
      requires IsInt32((y1 - y0) * (x1 - x0))
      ensures HasArea() <==> (x0 < x1 && y0 < y1) || (x1 < x0 && y1 < y0)
    {
      TimesIsProduct(y1 - y0, x1 - x0);
      TimesSign(y1 - y0, x1 - x0);
    }

    /** As left behind by Initialize: a non-empty area and a full vector for each channel. */
    ghost predicate Initialized() {
      && HasArea()
      && featureSize >= 0
      && |features| == CHANNELS
      && forall c :: 0 <= c < CHANNELS ==> |features[c]| == featureSize
    }
  }

  /** It need not fit: a square of 65536 has no area. */
  lemma {:induction false} AreaCanWrap()
    ensures var d: FeatureData<int> := FeatureData(0, 65536, 0, 65536, false, 0, 0, []);
            d.x0 < d.x1 && d.y0 < d.y1 && !d.HasArea()
  {
    TimesIsProduct(65536, 65536);
  }
}
