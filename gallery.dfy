/** The project page's image gallery: a lightbox opened on one image, stepped
    forwards and backwards with wrap-around, and its "k / n" counter. */
module Gallery {
  import opened JsText

  /** `nextImage`: `(prev + 1) % n`. */
  function NextIndex(i: int, n: nat): (j: int)
    requires n > 0
    requires 0 <= i < n
    ensures 0 <= j < n
    ensures j == if i == n - 1 then 0 else i + 1
  {
    JsRemainder(i + 1, n)
  }

  /** `prevImage`: `(prev - 1 + n) % n`. */
  function PrevIndex(i: int, n: nat): (j: int)
    requires n > 0
    requires 0 <= i < n
    ensures 0 <= j < n
    ensures j == if i == 0 then n - 1 else i - 1
  {
    JsRemainder(i - 1 + n, n)
  }

  /** Previous undoes next, and next undoes previous. */
  lemma StepsInverse(i: int, n: nat)
    requires 0 <= i < n
    ensures PrevIndex(NextIndex(i, n), n) == i
    ensures NextIndex(PrevIndex(i, n), n) == i
  {
  }

  /** The index after `k` presses of next. */
  function NextTimes(i: int, n: nat, k: nat): (j: int)
    requires 0 <= i < n
    ensures 0 <= j < n
  {
    if k == 0 then i else NextIndex(NextTimes(i, n, k - 1), n)
  }

  /** Before the wrap, `k` presses of next move `k` places. */
  lemma {:induction false} NextTimesAdvances(i: int, n: nat, k: nat)
    requires 0 <= i && i + k < n
    ensures NextTimes(i, n, k) == i + k
  {
    if k > 0 {
      NextTimesAdvances(i, n, k - 1);
    }
  }

  /** Presses compose: `a + b` presses are `a` presses, then `b` more. */
  lemma {:induction false} NextTimesCompose(i: int, n: nat, a: nat, b: nat)
    requires 0 <= i < n
    ensures NextTimes(i, n, a + b) == NextTimes(NextTimes(i, n, a), n, b)
  {
    if b > 0 {
      NextTimesCompose(i, n, a, b - 1);
    }
  }

  /** `n` presses of next come back to the start: the last image wraps to
      the first. */
  lemma FullCircle(i: int, n: nat)
    requires 0 <= i < n
    ensures NextTimes(i, n, n) == i
  {
    NextTimesAdvances(i, n, n - 1 - i);
    NextTimesCompose(i, n, n - 1 - i, 1);
    assert NextTimes(i, n, n - i) == 0;
    NextTimesCompose(i, n, n - i, i);
    if i > 0 {
      NextTimesAdvances(0, n, i);
    }
  }

  /** The previous/next buttons exist only for more than one image. */
  predicate ShowsNavigation(n: nat) {
    n > 1
  }

  /** The buttons are shown exactly when pressing them would change the
      image: with a single image both steps stay where they are. */
  lemma NavigationMoves(i: int, n: nat)
    requires 0 <= i < n
    ensures ShowsNavigation(n) <==> NextIndex(i, n) != i
    ensures ShowsNavigation(n) <==> PrevIndex(i, n) != i
  {
  }

  /** The counter, "current + 1 / n". */
  function CounterText(i: nat, n: nat): string {
    NatToString(i + 1) + " / " + NatToString(n)
  }

  /** The counter leads with the 1-based position, which `parseInt` reads
      back, and that position lies between 1 and n. */
  lemma CounterReadsBack(i: nat, n: nat)
    requires i < n
    ensures ParseInt(CounterText(i, n)) == Int(i + 1)
    ensures 1 <= i + 1 <= n
  {
    assert CounterText(i, n) == NatToString(i + 1) + (" / " + NatToString(n));
    ParseIntOfNat(i + 1, " / " + NatToString(n));
  }

  class ProjectGallery {
    /** The project's image list length. */
    const imageCount: nat
    var selectedImage: Option<nat>
    var currentImageIndex: int

    /** While the lightbox is open the current index names an image. */
    ghost predicate Valid()
      reads this
    {
      selectedImage.Some? ==> 0 <= currentImageIndex < imageCount
    }

    constructor (imageCount: nat)
      ensures this.imageCount == imageCount
      ensures selectedImage == None && currentImageIndex == 0
      ensures Valid()
    {
      this.imageCount := imageCount;
      selectedImage := None;
      currentImageIndex := 0;
    }

    /** Clicking the thumbnail at `index` opens the lightbox there. */
    method OpenLightbox(index: nat)
      requires index < imageCount
      modifies this
      ensures selectedImage == Some(index) && currentImageIndex == index
      ensures Valid()
    {
      selectedImage := Some(index);
      currentImageIndex := index;
    }

    /** Closing keeps the current index for the next opening to overwrite. */
    method CloseLightbox()
      modifies this
      ensures selectedImage == None && currentImageIndex == old(currentImageIndex)
      ensures Valid()
    {
      selectedImage := None;
    }

    method NextImage()
      requires Valid() && selectedImage.Some?
      modifies this
      ensures selectedImage == old(selectedImage)
      ensures currentImageIndex == NextIndex(old(currentImageIndex), imageCount)
      ensures Valid()
    {
      currentImageIndex := JsRemainder(currentImageIndex + 1, imageCount);
    }

    method PrevImage()
      requires Valid() && selectedImage.Some?
      modifies this
      ensures selectedImage == old(selectedImage)
      ensures currentImageIndex == PrevIndex(old(currentImageIndex), imageCount)
      ensures Valid()
    {
      currentImageIndex := JsRemainder(currentImageIndex - 1 + imageCount, imageCount);
    }
  }

  /** Next then previous in the open lightbox shows the same image again. */
  method NextThenPrev(g: ProjectGallery)
    requires g.Valid() && g.selectedImage.Some?
    modifies g
    ensures g.Valid() && g.currentImageIndex == old(g.currentImageIndex)
  {
    g.NextImage();
    g.PrevImage();
    StepsInverse(old(g.currentImageIndex), g.imageCount);
  }
}
