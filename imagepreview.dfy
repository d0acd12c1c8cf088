/**
 * The image preview dialog: a carousel over a product's images with
 * wrap-around navigation by arrow keys, buttons and horizontal swipes.
 */
module ImagePreview {

  /** A swipe must travel further than this many pixels to navigate. */
  const SwipeThreshold: real := 50.0

  /** The images shown: the collection when it is non-empty, else the single image. */
  function ImagesOf(imageUrl: string, allImages: seq<string>): (r: seq<string>)
    ensures |r| >= 1
    ensures allImages != [] ==> r == allImages
    ensures allImages == [] ==> r == [imageUrl]
  {
    if |allImages| > 0 then allImages else [imageUrl]
  }

  /** The index after `i` in a list of `n`, wrapping from the last back to 0. */
  function NextIndex(i: int, n: nat): int {
    if i == n - 1 then 0 else i + 1
  }

  /** The index before `i` in a list of `n`, wrapping from 0 to the last. */
  function PrevIndex(i: int, n: nat): int {
    if i == 0 then n - 1 else i - 1
  }

  /** Inside the list, next and previous are addition and subtraction modulo the length, so they stay inside. */
  lemma WrapIsModular(i: int, n: nat)
    requires 0 <= i < n
    ensures NextIndex(i, n) == (i + 1) % n && PrevIndex(i, n) == (i - 1 + n) % n
    ensures 0 <= NextIndex(i, n) < n && 0 <= PrevIndex(i, n) < n
  {
    ModOfSmall(i + 1, n);
    ModOfSmall(i - 1 + n, n);
  }

  /** A value below twice the modulus leaves the remainder of at most one subtraction. */
  lemma ModOfSmall(x: nat, n: nat)
    requires 0 < n && x < 2 * n
    ensures x % n == if x < n then x else x - n
  {
    if x >= n {
      assert x == 1 * n + (x - n);
    }
  }

  /** Inside the list, next and previous undo each other. */
  lemma NextPrevInverse(i: int, n: nat)
    requires 0 <= i < n
    ensures PrevIndex(NextIndex(i, n), n) == i && NextIndex(PrevIndex(i, n), n) == i
  {
  }

  /** Stepping forward `k` times from `i`. */
  function Advance(i: int, n: nat, k: nat): int {
    if k == 0 then i else NextIndex(Advance(i, n, k - 1), n)
  }

  /** Stepping forward `k <= n` times moves `k` places, wrapping once past the end; `n` steps come back to the start. */
  lemma {:induction false} AdvanceWraps(i: int, n: nat, k: nat)
    requires 0 <= i < n && k <= n
    ensures Advance(i, n, k) == if i + k < n then i + k else i + k - n
    ensures k == n ==> Advance(i, n, k) == i
  {
    if k > 0 {
      AdvanceWraps(i, n, k - 1);
    }
  }

  /** What a finished touch gesture does. */
  datatype Swipe = NoSwipe | SwipeNext | SwipePrevious

  /**
   * The gesture between two touch positions, in CSS pixels that may be
   * fractional: nothing when either is 0 (the unset value), otherwise next for
   * a leftward move beyond the threshold and previous for a rightward one.
   */
  function SwipeOf(touchStart: real, touchEnd: real): (r: Swipe)
    ensures r != NoSwipe <==> touchStart != 0.0 && touchEnd != 0.0 &&
                              (touchStart - touchEnd > SwipeThreshold || touchEnd - touchStart > SwipeThreshold)
    ensures r == SwipeNext ==> touchStart > touchEnd
    ensures r == SwipePrevious ==> touchStart < touchEnd
  {
    if touchStart == 0.0 || touchEnd == 0.0 then NoSwipe
    else
      var distance := touchStart - touchEnd;
      var isSwipe := (if distance < 0.0 then -distance else distance) > SwipeThreshold;
      if !isSwipe then NoSwipe
      else if distance > 0.0 then SwipeNext
      else SwipePrevious
  }

  /** The dialog's state. `closeRequests` counts the calls of the `onClose` callback. */
  class Preview {
    const imageUrl: string
    const allImages: seq<string>
    const isOpen: bool
    var activeIndex: int
    var direction: int
    var touchStart: real
    var touchEnd: real
    var closeRequests: nat

    /** `images` */
    function Images(): (r: seq<string>)
      ensures |r| >= 1
    {
      ImagesOf(imageUrl, allImages)
    }

    /** The active index points at one of the images. */
    predicate InRange()
      reads this
    {
      0 <= activeIndex < |Images()|
    }

    constructor(imageUrl: string, allImages: seq<string>, isOpen: bool, currentIndex: int)
      ensures this.imageUrl == imageUrl && this.allImages == allImages && this.isOpen == isOpen
      ensures activeIndex == currentIndex && direction == 0 && touchStart == 0.0 && touchEnd == 0.0
      ensures closeRequests == 0
    {
      this.imageUrl := imageUrl;
      this.allImages := allImages;
      this.isOpen := isOpen;
      activeIndex := currentIndex;
      direction := 0;
      touchStart := 0.0;
      touchEnd := 0.0;
      closeRequests := 0;
    }

    /** The effect that follows the `currentIndex` prop. */
    method SyncIndex(currentIndex: int)
      modifies this`activeIndex
      ensures activeIndex == currentIndex
    {
      activeIndex := currentIndex;
    }

    /** `navigatePrevious` */
    method NavigatePrevious()
      modifies this`direction, this`activeIndex
      ensures |Images()| <= 1 ==> unchanged(this)
      ensures |Images()| > 1 ==> direction == -1 && activeIndex == PrevIndex(old(activeIndex), |Images()|)
      ensures old(InRange()) ==> InRange()
    {
      var n := |Images()|;
      if n <= 1 {
        return;
      }
      direction := -1;
      activeIndex := if activeIndex == 0 then n - 1 else activeIndex - 1;
    }

    /** `navigateNext` */
    method NavigateNext()
      modifies this`direction, this`activeIndex
      ensures |Images()| <= 1 ==> unchanged(this)
      ensures |Images()| > 1 ==> direction == 1 && activeIndex == NextIndex(old(activeIndex), |Images()|)
      ensures old(InRange()) ==> InRange()
    {
      var n := |Images()|;
      if n <= 1 {
        return;
      }
      direction := 1;
      activeIndex := if activeIndex == n - 1 then 0 else activeIndex + 1;
    }

    /** `handleKeyDown`: ignored while closed; Escape asks to close, the arrows navigate. */
    method KeyDown(key: string)
      modifies this`direction, this`activeIndex, this`closeRequests
      ensures !isOpen ==> unchanged(this)
      ensures isOpen && key == "Escape" ==>
                closeRequests == old(closeRequests) + 1 && unchanged(this`activeIndex, this`direction)
      ensures isOpen && key == "ArrowLeft" && |Images()| > 1 ==>
                activeIndex == PrevIndex(old(activeIndex), |Images()|) && direction == -1
      ensures isOpen && key == "ArrowRight" && |Images()| > 1 ==>
                activeIndex == NextIndex(old(activeIndex), |Images()|) && direction == 1
      ensures isOpen && key != "Escape" ==> closeRequests == old(closeRequests)
      ensures isOpen && ((key != "ArrowLeft" && key != "ArrowRight") || |Images()| <= 1) ==>
                unchanged(this`activeIndex, this`direction)
      ensures old(InRange()) ==> InRange()
    {
      if !isOpen {
        return;
      }
      if key == "Escape" {
        closeRequests := closeRequests + 1;
      } else if key == "ArrowLeft" {
        NavigatePrevious();
      } else if key == "ArrowRight" {
        NavigateNext();
      }
    }

    /** `handleTouchStart` */
    method TouchStart(clientX: real)
      modifies this`touchStart
      ensures touchStart == clientX
    {
      touchStart := clientX;
    }

    /** `handleTouchMove` */
    method TouchMove(clientX: real)
      modifies this`touchEnd
      ensures touchEnd == clientX
    {
      touchEnd := clientX;
    }

    /** `handleTouchEnd`: navigate on a long enough swipe, then clear both positions. */
    method TouchEnd()
      modifies this`direction, this`activeIndex, this`touchStart, this`touchEnd
      ensures old(touchStart) == 0.0 || old(touchEnd) == 0.0 ==> unchanged(this)
      ensures old(touchStart) != 0.0 && old(touchEnd) != 0.0 ==> touchStart == 0.0 && touchEnd == 0.0
      ensures var s := SwipeOf(old(touchStart), old(touchEnd));
              && (s == SwipeNext && |Images()| > 1 ==>
                    activeIndex == NextIndex(old(activeIndex), |Images()|) && direction == 1)
              && (s == SwipePrevious && |Images()| > 1 ==>
                    activeIndex == PrevIndex(old(activeIndex), |Images()|) && direction == -1)
              && (s == NoSwipe || |Images()| <= 1 ==> unchanged(this`activeIndex, this`direction))
      ensures old(InRange()) ==> InRange()
    {
      if touchStart == 0.0 || touchEnd == 0.0 {
        return;
      }
      var distance := touchStart - touchEnd;
      var isSwipe := (if distance < 0.0 then -distance else distance) > SwipeThreshold;
      if isSwipe {
        if distance > 0.0 {
          NavigateNext();
        } else {
          NavigatePrevious();
        }
      }
      touchStart := 0.0;
      touchEnd := 0.0;
    }
  }
}
