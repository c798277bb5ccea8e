/** The product image gallery (`src/components/ProductImageGallery.tsx`): the
    active image index stepped by the arrows modulo the number of images, the
    thumbnail strip, the zoom toggle, the counter and the placeholder image. */
module ProductImageGallery {
  import opened Text

  const Placeholder := "/placeholder.jpg"

  /** The `›` arrow: `(i + 1) % n`. */
  function Next(i: int, n: int): (r: int)
    requires 0 <= i < n
    ensures 0 <= r < n
    ensures r == if i == n - 1 then 0 else i + 1
  {
    (i + 1) % n
  }

  /** The `‹` arrow: `(i - 1 + n) % n`. */
  function Prev(i: int, n: int): (r: int)
    requires 0 <= i < n
    ensures 0 <= r < n
    ensures r == if i == 0 then n - 1 else i - 1
  {
    (i - 1 + n) % n
  }

  /** The arrows undo each other. */
  lemma PrevNext(i: int, n: int)
    requires 0 <= i < n
    ensures Prev(Next(i, n), n) == i
    ensures Next(Prev(i, n), n) == i
  {
  }

  /** `k` presses of `›`. */
  function Forward(i: int, n: int, k: nat): (r: int)
    requires 0 <= i < n
    ensures 0 <= r < n
  {
    if k == 0 then i else Next(Forward(i, n, k - 1), n)
  }

  /** Before wrapping round, `k` presses advance the index by `k`. */
  lemma {:induction false} ForwardNoWrap(i: int, n: int, k: nat)
    requires 0 <= i && i + k < n
    ensures Forward(i, n, k) == i + k
  {
    if k > 0 {
      ForwardNoWrap(i, n, k - 1);
    }
  }

  /** Presses can be counted in two batches. */
  lemma {:induction false} ForwardSplit(i: int, n: int, a: nat, b: nat)
    requires 0 <= i < n
    ensures Forward(i, n, a + b) == Forward(Forward(i, n, a), n, b)
  {
    if b > 0 {
      ForwardSplit(i, n, a, b - 1);
    }
  }

  /** `n` presses of `›` come back to the starting image. */
  lemma ForwardCycle(i: int, n: int)
    requires 0 <= i < n
    ensures Forward(i, n, n) == i
  {
    // n - i presses reach the last image and wrap round to the first
    ForwardNoWrap(i, n, n - i - 1);
    assert Forward(i, n, n - i) == 0;
    ForwardSplit(i, n, n - i, i);
    if i > 0 {
      ForwardNoWrap(0, n, i);
    }
  }

  /** Thumbnails, arrows and the counter exist only with more than one image. */
  predicate HasMultiple(images: seq<string>): (r: bool)
    ensures images != [] ==> (r <==> forall i | 0 <= i < |images| :: Next(i, |images|) != i && Prev(i, |images|) != i)
  {
    assert |images| == 1 ==> Next(0, 1) == 0;
    |images| > 1
  }

  /** The main image: the active one, or the placeholder when it is missing or
      empty. */
  function MainImage(images: seq<string>, i: int): (src: string)
    ensures 0 <= i < |images| && images[i] != "" ==> src == images[i]
    ensures !(0 <= i < |images|) || images[i] == "" ==> src == Placeholder
    ensures src != ""
  {
    if 0 <= i < |images| && images[i] != "" then images[i] else Placeholder
  }

  /** The counter `activeIndex + 1 / n`, shown only with several images. */
  function Counter(images: seq<string>, i: int): (shown: string)
    requires HasMultiple(images) && 0 <= i < |images|
  {
    NatToString(i + 1) + " / " + NatToString(|images|)
  }

  /** The position read back from the counter is the active index plus one. */
  lemma CounterReadsPosition(images: seq<string>, i: int)
    requires HasMultiple(images) && 0 <= i < |images|
    ensures var shown := Counter(images, i);
      var head := shown[..|NatToString(i + 1)|];
      AllDigits(head) && DigitsValue(head) == i + 1
  {
    var shown := Counter(images, i);
    assert shown[..|NatToString(i + 1)|] == NatToString(i + 1);
    NatToStringRoundTrip(i + 1);
  }

  /** The gallery's state over a fixed list of images. */
  class Gallery {
    const images: seq<string>
    var activeIndex: int
    var zoomed: bool

    /** The active index points at an image, or is 0 when there are none. */
    predicate Valid()
      reads this
    {
      activeIndex == 0 || 0 <= activeIndex < |images|
    }

    constructor(images: seq<string>)
      ensures this.images == images && activeIndex == 0 && !zoomed
      ensures Valid()
    {
      this.images := images;
      activeIndex := 0;
      zoomed := false;
    }

    /** A thumbnail click; thumbnails exist only with several images. */
    method Select(i: int)
      requires HasMultiple(images) && 0 <= i < |images|
      modifies this
      ensures activeIndex == i && zoomed == old(zoomed) && Valid()
    {
      activeIndex := i;
    }

    /** A click on the main image. */
    method ToggleZoom()
      modifies this
      ensures zoomed == !old(zoomed) && activeIndex == old(activeIndex)
    {
      zoomed := !zoomed;
    }

    /** The `›` arrow; the click does not reach the main image, so zoom is
        unchanged. */
    method NextImage()
      requires Valid() && HasMultiple(images)
      modifies this
      ensures activeIndex == Next(old(activeIndex), |images|) && zoomed == old(zoomed) && Valid()
    {
      activeIndex := (activeIndex + 1) % |images|;
    }

    /** The `‹` arrow, likewise without zooming. */
    method PrevImage()
      requires Valid() && HasMultiple(images)
      modifies this
      ensures activeIndex == Prev(old(activeIndex), |images|) && zoomed == old(zoomed) && Valid()
    {
      activeIndex := (activeIndex - 1 + |images|) % |images|;
    }
  }
}
