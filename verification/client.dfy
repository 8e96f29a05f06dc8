/**
 * The display module: it asks the helper for wallpapers in the orientation of
 * the screen, accepts the WALLPAPERS lists meant for its own source and
 * orientation, and rotates through the accepted list one slide at a time, the
 * next image taking the place of the current one once it has loaded.
 */
module Client {
  import opened Js
  import opened Helpers
  import opened Records

  /** The display module's configuration; its source may be an array of descriptors. */
  datatype Settings = Settings(source: Source, orientation: string, maximumEntries: int)

  /** The window's inner size, as `getViewport` reads it. */
  datatype Viewport = Viewport(width: int, height: int)

  /** A JavaScript number used as a list position: a natural number, or NaN once `x % 0` was taken. */
  datatype Index = At(i: nat) | NaN

  /** `image` and `nextImage`: null, undefined (an out-of-range read), or an image record. */
  datatype Slot = Null | Undefined | Present(image: Image)

  const Auto := "auto"

  /**
   * `getOrientation`: with "auto" the screen decides — "vertical" exactly when
   * it is narrower than it is tall — otherwise the configured value stands.
   * Either way the answer is never "auto".
   */
  function Orientation(configured: string, viewport: Viewport): (o: string)
    ensures configured == Auto ==> (o == "vertical" <==> viewport.width < viewport.height)
    ensures configured == Auto ==> o == "vertical" || o == "horizontal"
    ensures configured != Auto ==> o == configured
    ensures o != Auto
  {
    if configured == Auto then
      (if viewport.width < viewport.height then "vertical" else "horizontal")
    else configured
  }

  /** `index % length`: NaN stays NaN, and a zero length makes NaN. */
  function Mod(index: Index, length: nat): (r: Index)
    ensures r.NaN? <==> index.NaN? || length == 0
    ensures r.At? ==> r.i < length
    ensures index.At? && index.i < length ==> r == index
  {
    match index
    case NaN => NaN
    case At(i) => if length == 0 then NaN else At(i % length)
  }

  /** `index + 1`. */
  function Succ(index: Index): (r: Index)
    ensures r.NaN? <==> index.NaN?
  {
    match index
    case NaN => NaN
    case At(i) => At(i + 1)
  }

  /** `images[index]`: the record at an in-range position, undefined anywhere else. */
  function ElementAt(images: seq<Image>, index: Index): (r: Slot)
    ensures r.Present? <==> index.At? && index.i < |images|
    ensures r.Present? ==> r.image == images[index.i]
    ensures r != Null
  {
    if index.At? && index.i < |images| then Present(images[index.i]) else Undefined
  }

  /** The position after `ticks` slide advances over a list of `length` images. */
  function Advanced(index: Index, length: nat, ticks: nat): Index
    decreases ticks
  {
    if ticks == 0 then index else Mod(Succ(Advanced(index, length, ticks - 1)), length)
  }

  class Wallpaper {
    const config: Settings
    var images: Option<seq<Image>>     // undefined until a list is accepted
    var imageIndex: Index
    var image: Slot
    var nextImage: Slot
    var rotating: bool                 // the slide interval has been started
    var fetches: seq<Settings>         // the FETCH_WALLPAPERS notifications sent

    /**
     * The slide interval runs only over an accepted list, the position always
     * lies within the current list, and no request asks for "auto".
     */
    predicate Valid()
      reads this
    {
      && (rotating ==> images.Some?)
      && (images.Some? && imageIndex.At? ==> imageIndex.i < |images.value|)
      && (forall k :: 0 <= k < |fetches| ==> fetches[k].orientation != Auto)
    }

    /** `start`: no image yet, position 0, and the first request goes out at once. */
    constructor (settings: Settings, viewport: Viewport)
      ensures Valid()
      ensures config == settings && images.None? && imageIndex == At(0)
      ensures image == Null && nextImage == Null && !rotating
      ensures fetches == [settings.(orientation := Orientation(settings.orientation, viewport))]
    {
      config := settings;
      images := None;
      imageIndex := At(0);
      image := Null;
      nextImage := Null;
      rotating := false;
      fetches := [settings.(orientation := Orientation(settings.orientation, viewport))];
    }

    /** `getData`: a copy of the configuration with the orientation resolved. */
    method GetData(viewport: Viewport)
      requires Valid()
      modifies this`fetches
      ensures Valid()
      ensures fetches == old(fetches) + [config.(orientation := Orientation(config.orientation, viewport))]
    {
      fetches := fetches + [config.(orientation := Orientation(config.orientation, viewport))];
    }

    /** The WALLPAPERS filter: the payload's source and orientation are this module's own. */
    predicate Accepts(payload: Wallpapers, viewport: Viewport) {
      config.source.Single? && payload.source == config.source.descriptor &&
      payload.orientation == Orientation(config.orientation, viewport)
    }

    /**
     * `socketNotificationReceived`: an accepted list replaces the current one,
     * cut to maximumEntries, and the position is taken modulo its length; the
     * first accepted list also shows its image and starts the rotation. Any other
     * notification changes nothing.
     */
    method SocketNotificationReceived(notification: string, payload: Wallpapers, viewport: Viewport)
      requires Valid()
      modifies this`images, this`imageIndex, this`image, this`rotating
      ensures Valid()
      ensures !(notification == "WALLPAPERS" && Accepts(payload, viewport)) ==>
        images == old(images) && imageIndex == old(imageIndex) && image == old(image) && rotating == old(rotating)
      ensures notification == "WALLPAPERS" && Accepts(payload, viewport) ==>
        && images == Some(SliceTo(payload.images, config.maximumEntries))
        && imageIndex == Mod(old(imageIndex), |images.value|)
        && (old(image) == Null ==> image == ElementAt(images.value, imageIndex) && rotating)
        && (old(image) != Null ==> image == old(image) && rotating == old(rotating))
    {
      if notification == "WALLPAPERS" && Accepts(payload, viewport) {
        var list := SliceTo(payload.images, config.maximumEntries);
        images := Some(list);
        imageIndex := Mod(imageIndex, |list|);
        if image == Null {
          image := ElementAt(list, imageIndex);
          rotating := true;
        }
      }
    }

    /** One run of the slide interval: the position moves one step round the list and the next image is read there. */
    method SlideTick()
      requires Valid() && rotating
      modifies this`imageIndex, this`nextImage
      ensures Valid()
      ensures imageIndex == Mod(Succ(old(imageIndex)), |images.value|)
      ensures nextImage == ElementAt(images.value, imageIndex)
    {
      var list := images.value;
      imageIndex := Mod(Succ(imageIndex), |list|);
      nextImage := ElementAt(list, imageIndex);
    }

    /** The `onload` of the next image: it becomes the current one and the next slot is emptied. */
    method OnNextImageLoad()
      requires Valid()
      modifies this`image, this`nextImage
      ensures Valid()
      ensures image == old(nextImage) && nextImage == Null
    {
      image := nextImage;
      nextImage := Null;
    }
  }

  // ---------------------------------------------------------------------------
  // Properties of the rotation

  /**
   * Over a non-empty list each slide moves one position on and wraps from the
   * last image to the first: up to `length` slides from position i reach i + k,
   * less the length once they pass the end.
   */
  lemma {:induction false} AdvanceWraps(i: nat, length: nat, ticks: nat)
    requires i < length && ticks <= length
    ensures Advanced(At(i), length, ticks) == At(if i + ticks < length then i + ticks else i + ticks - length)
  {
    if ticks > 0 {
      AdvanceWraps(i, length, ticks - 1);
      if i + ticks == length {
        assert length % length == 0;
      }
    }
  }

  /** A full round of `length` slides comes back to the image it started from. */
  lemma FullRoundReturns(i: nat, length: nat)
    requires i < length
    ensures Advanced(At(i), length, length) == At(i)
  {
    AdvanceWraps(i, length, length);
  }

  /** Once the position is NaN it stays NaN, whatever lists and slides follow. */
  lemma {:induction false} NaNIsPermanent(length: nat, ticks: nat)
    ensures Advanced(NaN, length, ticks) == NaN
  {
    if ticks > 0 {
      NaNIsPermanent(length, ticks - 1);
    }
  }

  /**
   * An empty first list still counts as the first image: the image becomes
   * undefined, the rotation starts on a NaN position, and no later list can
   * bring an image back, since the image is no longer null.
   */
  lemma EmptyFirstListStalls(list: seq<Image>, index: Index, later: seq<Image>, ticks: nat)
    requires list == []
    ensures Mod(index, |list|) == NaN
    ensures ElementAt(list, Mod(index, |list|)) == Undefined
    ensures Advanced(Mod(Mod(index, |list|), |later|), |later|, ticks) == NaN
  {
    NaNIsPermanent(|later|, ticks);
  }
}
