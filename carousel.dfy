/**
 * The image carousel of components/project-image-carousel.tsx: one index,
 * `currentImageIndex`, over a list of `n` images, moved by the previous and
 * next arrows with wrap-around and set directly by the indicator dots.
 */
module Carousel {
  import opened Options

  /** The index after the "next" arrow: the last image wraps to the first. */
  function NextIndex(i: int, n: int): int
  {
    if i == n - 1 then 0 else i + 1
  }

  /** The index after the "previous" arrow: the first image wraps to the last. */
  function PreviousIndex(i: int, n: int): int
  {
    if i == 0 then n - 1 else i - 1
  }

  /** On a valid index, "next" is the successor modulo `n` and stays in range. */
  lemma NextIsSuccessorModulo(i: int, n: int)
    requires 0 <= i < n
    ensures NextIndex(i, n) == (i + 1) % n
    ensures 0 <= NextIndex(i, n) < n
  {
    if i < n - 1 {
      assert (i + 1) % n == i + 1;
    }
  }

  /** On a valid index, "previous" is the predecessor modulo `n` and stays in range. */
  lemma PreviousIsPredecessorModulo(i: int, n: int)
    requires 0 <= i < n
    ensures PreviousIndex(i, n) == (i + n - 1) % n
    ensures 0 <= PreviousIndex(i, n) < n
  {
    if i > 0 {
      assert (i + n - 1) % n == i - 1;
    }
  }

  /** "Next" then "previous", or "previous" then "next", comes back to where it started. */
  lemma NextAndPreviousAreInverse(i: int, n: int)
    requires 0 <= i < n
    ensures PreviousIndex(NextIndex(i, n), n) == i
    ensures NextIndex(PreviousIndex(i, n), n) == i
  {
  }

  /** The index after `k` presses of the "next" arrow. */
  function Advance(i: int, n: int, k: nat): int
    decreases k
  {
    if k == 0 then i else Advance(NextIndex(i, n), n, k - 1)
  }

  /** `k` presses of "next" move `k` places forward modulo `n`. */
  lemma {:induction false} AdvanceIsModulo(i: int, n: int, k: nat)
    requires 0 <= i < n
    ensures Advance(i, n, k) == (i + k) % n
    decreases k
  {
    if k > 0 {
      NextIsSuccessorModulo(i, n);
      AdvanceIsModulo(NextIndex(i, n), n, k - 1);
      ModuloShift(i, n, k);
    }
  }

  /** One step of `AdvanceIsModulo`: moving one place and then `k - 1` places is moving `k` places. */
  lemma ModuloShift(i: int, n: int, k: nat)
    requires 0 <= i < n && k > 0
    ensures ((i + 1) % n + (k - 1)) % n == (i + k) % n
  {
    if i < n - 1 {
      assert (i + 1) % n == i + 1;
    } else {
      assert (i + 1) % n == 0;
      ModuloUnique(i + k, n, (k - 1) / n + 1, (k - 1) % n);
      ModuloUnique(k - 1, n, (k - 1) / n, (k - 1) % n);
    }
  }

  /** A remainder in [0, n) that fits `y == q * n + r` is `y % n`. */
  lemma ModuloUnique(y: int, n: int, q: int, r: int)
    requires n > 0 && 0 <= r < n && y == q * n + r
    ensures y % n == r
  {
    var d := q - y / n;
    assert d * n == y % n - r;
  }

  /** `n` presses of "next" go round the whole list and back to the start. */
  lemma FullCycle(i: int, n: int)
    requires 0 <= i < n
    ensures Advance(i, n, n) == i
  {
    AdvanceIsModulo(i, n, n);
    assert i + n == i + 1 * n;
  }

  /** One indicator dot: the index it jumps to and whether it is highlighted. */
  datatype Indicator = Indicator(target: int, active: bool)

  /** What the component renders for a list of images and the current index. */
  datatype View =
    | Placeholder
    | Gallery(src: string, altNumber: int, arrows: bool, indicators: seq<Indicator>, counter: Option<(int, int)>)

  /** The dots for indices `from` up to `n`, the one at `current` highlighted. */
  function Indicators(from: nat, n: nat, current: int): (dots: seq<Indicator>)
    requires from <= n
    ensures |dots| == n - from
    ensures forall k :: 0 <= k < |dots| ==> dots[k] == Indicator(from + k, from + k == current)
    decreases n - from
  {
    if from == n then [] else [Indicator(from, from == current)] + Indicators(from + 1, n, current)
  }

  /**
   * The rendered view: a placeholder for an empty list; otherwise the current
   * image, and, only with more than one image, the arrows, one dot per image
   * and the "index + 1 / n" counter.
   */
  function Render(images: seq<string>, index: int): (v: View)
    requires |images| == 0 || 0 <= index < |images|
    ensures v.Placeholder? <==> |images| == 0
    ensures v.Gallery? ==> v.src == images[index] && v.altNumber == index + 1
    ensures v.Gallery? ==> (v.arrows <==> |images| > 1) && (v.counter.Some? <==> |images| > 1)
    ensures v.Gallery? && v.counter.Some? ==> v.counter.value == (index + 1, |images|) && 1 <= index + 1 <= |images|
    ensures v.Gallery? ==> |v.indicators| == (if |images| > 1 then |images| else 0)
    ensures v.Gallery? ==> forall k :: 0 <= k < |v.indicators| ==>
      0 <= v.indicators[k].target < |images| && (v.indicators[k].active <==> v.indicators[k].target == index)
  {
    var n := |images|;
    if n == 0 then Placeholder
    else
      var many := n > 1;
      Gallery(images[index], index + 1, many,
              if many then Indicators(0, n, index) else [],
              if many then Some((index + 1, n)) else None)
  }

  /** Exactly one dot is highlighted when there are dots at all. */
  lemma OneActiveIndicator(images: seq<string>, index: int)
    requires 0 <= index < |images| && |images| > 1
    ensures var v := Render(images, index);
      v.Gallery? && index < |v.indicators| && v.indicators[index].active &&
      forall k :: 0 <= k < |v.indicators| && k != index ==> !v.indicators[k].active
  {
    var v := Render(images, index);
    assert v.indicators[index] == Indicator(index, true);
  }

  /** The carousel component's state. */
  class ImageCarousel {
    const imageCount: nat
    var currentImageIndex: int

    /** The index names an image, or is 0 when there are no images. */
    ghost predicate Valid()
      reads this
    {
      if imageCount == 0 then currentImageIndex == 0 else 0 <= currentImageIndex < imageCount
    }

    /** `useState(0)`: the carousel starts on the first image. */
    constructor (images: seq<string>)
      ensures imageCount == |images| && currentImageIndex == 0
      ensures Valid()
    {
      imageCount := |images|;
      currentImageIndex := 0;
    }

    /** The left arrow. */
    method GoToPrevious()
      modifies this
      ensures currentImageIndex == PreviousIndex(old(currentImageIndex), imageCount)
      ensures old(Valid()) && imageCount > 0 ==> Valid()
    {
      currentImageIndex := if currentImageIndex == 0 then imageCount - 1 else currentImageIndex - 1;
      if old(Valid()) && imageCount > 0 {
        PreviousIsPredecessorModulo(old(currentImageIndex), imageCount);
      }
    }

    /** The right arrow. */
    method GoToNext()
      modifies this
      ensures currentImageIndex == NextIndex(old(currentImageIndex), imageCount)
      ensures old(Valid()) && imageCount > 0 ==> Valid()
    {
      currentImageIndex := if currentImageIndex == imageCount - 1 then 0 else currentImageIndex + 1;
      if old(Valid()) && imageCount > 0 {
        NextIsSuccessorModulo(old(currentImageIndex), imageCount);
      }
    }

    /** An indicator dot: jump straight to `index`, which the dots only give in [0, n). */
    method GoToImage(index: int)
      modifies this
      ensures currentImageIndex == index
      ensures 0 <= index < imageCount ==> Valid()
    {
      currentImageIndex := index;
    }
  }
}
