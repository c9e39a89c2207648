/**
 * The product page of src/components/ProductDetailPage.jsx: which images the
 * gallery shows, which one is on screen, and the swipe handlers that move the
 * selection, a small state machine over `selectedImage`, `touchStart` and `touchEnd`.
 */
module ProductDetail {
  import opened Wrappers
  import opened Api

  /** `allImages`: the product's images, else its single image when that is non-empty, else none. */
  function AllImages(images: seq<string>, image: string): (r: seq<string>)
    ensures images != [] ==> r == images
    ensures images == [] && image != "" ==> r == [image]
    ensures r == [] <==> images == [] && image == ""
    ensures forall k :: 0 <= k < |r| ==> r[k] in images || r[k] == image
  {
    if |images| > 0 then images else if image != "" then [image] else []
  }

  /** A product that came out of the catalogue transform shows exactly its own image list, none of it blank. */
  lemma {:induction false} TransformedGallery(item: RawItem, now: string)
    ensures var p := TransformItem(item, now);
      && AllImages(p.images, p.image) == p.images
      && forall k :: 0 <= k < |p.images| ==> p.images[k] != ""
  {
  }

  /** `allImages[selectedImage] || allImages[0] || ''`. */
  function CurrentImage(all: seq<string>, sel: int): (r: string)
    ensures r == "" || r in all
    ensures 0 <= sel < |all| && all[sel] != "" ==> r == all[sel]
    ensures !(0 <= sel < |all|) && all != [] ==> r == all[0]
    ensures !(0 <= sel < |all| && all[sel] != "") && all != [] ==> r == all[0]
    ensures (forall k :: 0 <= k < |all| ==> all[k] != "") ==> (r == "" <==> all == [])
  {
    if 0 <= sel < |all| && all[sel] != "" then all[sel]
    else if all != [] && all[0] != "" then all[0]
    else ""
  }

  const MinSwipeDistance := 50.0

  /** A touch coordinate the handlers act on: `!touchStart` rejects both a missing one and 0. */
  predicate Truthy(x: Option<real>) {
    x.Some? && x.value != 0.0
  }

  /** The index `onTouchEnd` selects, given the index before, the number of images and the two touches. */
  function SwipeTarget(sel: int, len: nat, start: Option<real>, end: Option<real>): (r: int)
    ensures 0 <= sel && (sel < len || sel == 0) ==> 0 <= r && (r < len || r == 0)
    ensures -1 <= r - sel <= 1
    ensures !Truthy(start) || !Truthy(end) ==> r == sel
    ensures r == sel + 1 <==> Truthy(start) && Truthy(end) && start.value - end.value > MinSwipeDistance && sel < len - 1
    ensures r == sel - 1 <==> Truthy(start) && Truthy(end) && start.value - end.value < -MinSwipeDistance && sel > 0
  {
    if !Truthy(start) || !Truthy(end) then sel
    else
      var distance := start.value - end.value;
      if distance > MinSwipeDistance && sel < len - 1 then sel + 1
      else if distance < -MinSwipeDistance && sel > 0 then sel - 1
      else sel
  }

  /** A swipe to the left followed by an equally long swipe to the right comes back to the same image. */
  lemma {:induction false} SwipeThereAndBack(sel: int, len: nat, x: real, y: real)
    requires 0 <= sel < len - 1 && x != 0.0 && y != 0.0 && x - y > MinSwipeDistance
    ensures SwipeTarget(SwipeTarget(sel, len, Some(x), Some(y)), len, Some(y), Some(x)) == sel
  {
  }

  /** The image area of the page: the images fixed when the page opened, and the touch state. */
  class Gallery {
    const allImages: seq<string>
    var selectedImage: int
    var touchStart: Option<real>
    var touchEnd: Option<real>

    /** The selection points at an image, or at 0 when there are none. */
    ghost predicate Valid()
      reads this
    {
      0 <= selectedImage && (selectedImage < |allImages| || selectedImage == 0)
    }

    /** The page opens on the first image with no touch in progress. */
    constructor (images: seq<string>, image: string)
      ensures Valid() && allImages == AllImages(images, image)
      ensures selectedImage == 0 && touchStart == None && touchEnd == None
    {
      allImages := AllImages(images, image);
      selectedImage := 0;
      touchStart := None;
      touchEnd := None;
    }

    /** The image on screen. */
    function Current(): (r: string)
      reads this
      requires Valid()
      ensures (forall k :: 0 <= k < |allImages| ==> allImages[k] != "") ==> r == (if allImages == [] then "" else allImages[selectedImage])
    {
      CurrentImage(allImages, selectedImage)
    }

    /** `onTouchStart`: a new touch begins at `x` and the previous end point is forgotten. */
    method OnTouchStart(x: real)
      requires Valid()
      modifies this
      ensures Valid() && touchStart == Some(x) && touchEnd == None && selectedImage == old(selectedImage)
    {
      touchEnd := None;
      touchStart := Some(x);
    }

    /** `onTouchMove`: the touch is now at `x`. */
    method OnTouchMove(x: real)
      requires Valid()
      modifies this
      ensures Valid() && touchEnd == Some(x) && touchStart == old(touchStart) && selectedImage == old(selectedImage)
    {
      touchEnd := Some(x);
    }

    /**
     * `onTouchEnd`: a swipe longer than 50 pixels moves one image, leftwards to the next
     * and rightwards to the previous, and never past either end.
     */
    method OnTouchEnd()
      requires Valid()
      modifies this
      ensures Valid()
      ensures selectedImage == SwipeTarget(old(selectedImage), |allImages|, touchStart, touchEnd)
      ensures touchStart == old(touchStart) && touchEnd == old(touchEnd)
    {
      if !Truthy(touchStart) || !Truthy(touchEnd) {
        return;
      }
      var sel := selectedImage;
      var distance := touchStart.value - touchEnd.value;
      var isLeftSwipe := distance > MinSwipeDistance;
      var isRightSwipe := distance < -MinSwipeDistance;
      // Both tests read the index from before the touch, as the handler's closure does.
      if isLeftSwipe && sel < |allImages| - 1 {
        selectedImage := sel + 1;
      }
      if isRightSwipe && sel > 0 {
        selectedImage := sel - 1;
      }
    }

    /** A click on an indicator or thumbnail, each of which stands for one index of `allImages`. */
    method SelectImage(index: int)
      requires Valid() && 0 <= index < |allImages|
      modifies this
      ensures Valid() && selectedImage == index && Current() == CurrentImage(allImages, index)
      ensures touchStart == old(touchStart) && touchEnd == old(touchEnd)
    {
      selectedImage := index;
    }
  }

  /**
   * The review count the page shows for a catalogue product. The transform always
   * fills `totalReviews` when the backend sent review metadata, so the count of
   * listed reviews is used only when there is no metadata at all.
   */
  lemma {:induction false} ReviewCountOfTransformed(item: RawItem, now: string)
    ensures TransformItem(item, now).TotalReviews() ==
              (if item.reviewsMetaData.Some? then item.reviewsMetaData.value.reviews.GetOr(0) else |item.reviews|)
  {
  }
}
