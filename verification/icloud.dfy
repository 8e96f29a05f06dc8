/**
 * The iCloud shared-stream handshake of `processiCloudData`. The helper keeps a
 * stage, a host and the photo list of the album; each reply moves it on:
 *
 *   webstream --330--> webstream (re-POST to the host the reply names)
 *   webstream --200--> webasseturls (POST the photo guids)
 *   webasseturls --any--> webasseturls (fill in derivative URLs, emit the images)
 *
 * The transition is the function `Transition`; the nested loop that writes
 * derivative URLs in place is the method `ApplyAssetUrls`, proved against it.
 */
module ICloud {
  import opened Js
  import opened Helpers
  import opened Records
  import opened Dispatch

  /** One rendition of a photo; `url` is filled in from the asset reply. */
  datatype Derivative = Derivative(checksum: string, width: int, height: int, url: Option<string>)

  datatype Photo = Photo(photoGuid: string, mediaAssetType: Option<string>, caption: Option<string>, derivatives: seq<Derivative>)

  /** One entry of the asset reply's `items`, keyed by the derivative checksum. */
  datatype AssetItem = AssetItem(checksum: string, urlLocation: string, urlPath: string)

  datatype Location = Location(scheme: string, hosts: seq<string>)

  datatype Stage = Webstream | WebAssetUrls

  /** The parsed reply: its status and the fields each stage reads. */
  datatype Reply = Reply(
    status: int,
    mmeHost: Option<string>,
    photos: seq<Option<Photo>>,
    items: seq<AssetItem>,
    locations: map<string, Location>)

  /** `iCloudState`, `iCloudHost` and `iCloudPhotos`. */
  datatype Session = Session(stage: Stage, host: string, photos: seq<Photo>)

  /** The new session, the request to send next (if any), and the images returned. */
  datatype Step = Step(session: Session, request: Option<RequestParams>, images: seq<Image>)

  // ---------------------------------------------------------------------------
  // webstream

  const Video := "video"

  /** `p != null && p.mediaAssetType !== "video"`. */
  predicate Wanted(p: Option<Photo>) {
    p.Some? && p.value.mediaAssetType != Some(Video)
  }

  function WantedPhotos(ps: seq<Option<Photo>>): (r: seq<Photo>)
    ensures |r| <= |ps|
    ensures forall x :: x in r ==> Some(x) in ps && x.mediaAssetType != Some(Video)
    ensures forall x :: Some(x) in ps && x.mediaAssetType != Some(Video) ==> x in r
  {
    if ps == [] then []
    else if Wanted(ps[0]) then [ps[0].value] + WantedPhotos(ps[1..])
    else WantedPhotos(ps[1..])
  }

  function Guids(ps: seq<Photo>): (r: seq<string>)
    ensures |r| == |ps| && forall i :: 0 <= i < |ps| ==> r[i] == ps[i].photoGuid
  {
    seq(|ps|, i requires 0 <= i < |ps| => ps[i].photoGuid)
  }

  /** `body["X-Apple-MMe-Host"] || self.iCloudHost`: a missing or empty host keeps the old one. */
  function RedirectHost(reply: Reply, host: string): string {
    if reply.mmeHost.Some? && reply.mmeHost.value != "" then reply.mmeHost.value else host
  }

  /** The path of the request for the derivatives' asset URLs, below the album. */
  const AssetUrlsPath := "/sharedstreams/webasseturls"

  function AssetUrlsParams(host: string, album: string, photos: seq<Photo>): RequestParams {
    RequestParams(Post, HttpsPrefix + host + "/" + album + AssetUrlsPath, None, PhotoGuids(Guids(photos)))
  }

  function StreamStep(s: Session, album: string, reply: Reply, config: Config, draws: Draws): (step: Step)
    ensures step.images == []
  {
    if reply.status == 330 then
      var host := RedirectHost(reply, s.host);
      Step(Session(Webstream, host, s.photos), Some(WebstreamParams(host, album, None)), [])
    else if reply.status == 200 then
      var photos := SliceTo(WantedPhotos(PhotoOrder(config, reply.photos, draws)), config.maximumEntries);
      Step(Session(WebAssetUrls, s.host, photos), Some(AssetUrlsParams(s.host, album, photos)), [])
    else
      Step(s, None, [])
  }

  /** The reply's photos in the order they are filtered: shuffled when configured. */
  function PhotoOrder(config: Config, photos: seq<Option<Photo>>, draws: Draws): (order: seq<Option<Photo>>)
    ensures multiset(order) == multiset(photos)
    ensures forall x :: x in order <==> x in photos
    ensures !config.shuffle ==> order == photos
  {
    if config.shuffle then
      ShuffledIsPermutation(photos, draws);
      (forall x ensures x in Shuffled(photos, draws) <==> x in photos { ShuffledMembers(photos, draws, x); }
       Shuffled(photos, draws))
    else photos
  }

  // ---------------------------------------------------------------------------
  // webasseturls: derivative URLs

  /** The index of the first derivative with the given checksum: where the inner loop breaks. */
  function FirstMatch(ds: seq<Derivative>, checksum: string): (r: Option<nat>)
    ensures r.Some? ==>
      (r.value < |ds| && ds[r.value].checksum == checksum &&
       forall m :: 0 <= m < r.value ==> ds[m].checksum != checksum)
    ensures r.None? ==> forall m :: 0 <= m < |ds| ==> ds[m].checksum != checksum
  {
    if ds == [] then None
    else if ds[0].checksum == checksum then Some(0)
    else match FirstMatch(ds[1..], checksum)
      case None => None
      case Some(j) => Some(j + 1)
  }

  /** The derivatives after `m.url = …` on the first one with the checksum, if any. */
  function SetFirstMatching(ds: seq<Derivative>, checksum: string, url: string): seq<Derivative> {
    match FirstMatch(ds, checksum)
    case None => ds
    case Some(j) => ds[j := ds[j].(url := Some(url))]
  }

  function WithAssetUrl(p: Photo, checksum: string, url: string): Photo {
    p.(derivatives := SetFirstMatching(p.derivatives, checksum, url))
  }

  /** The body of the loop over `self.iCloudPhotos` for one asset item. */
  function ApplyItem(photos: seq<Photo>, checksum: string, url: string): (r: seq<Photo>)
    ensures |r| == |photos|
  {
    seq(|photos|, i requires 0 <= i < |photos| => WithAssetUrl(photos[i], checksum, url))
  }

  /** `loc.hosts[Math.floor(Math.random() * loc.hosts.length)]`, "undefined" for an empty host list. */
  function HostFor(loc: Location, draws: Draws, k: nat): string {
    if loc.hosts == [] then "undefined" else loc.hosts[Draw(draws, k, |loc.hosts|)]
  }

  function AssetUrl(loc: Location, host: string, item: AssetItem): string {
    loc.scheme + "://" + host + item.urlPath
  }

  /** The photos after the first `n` asset items, and whether an item named an unknown location (a TypeError). */
  datatype Applied = Applied(photos: seq<Photo>, crashed: bool)

  function ApplyAssets(photos: seq<Photo>, items: seq<AssetItem>, locations: map<string, Location>, draws: Draws, n: nat): Applied
    requires n <= |items|
  {
    if n == 0 then Applied(photos, false)
    else
      var prior := ApplyAssets(photos, items, locations, draws, n - 1);
      var item := items[n - 1];
      if prior.crashed then prior
      else if item.urlLocation !in locations then Applied(prior.photos, true)
      else
        var loc := locations[item.urlLocation];
        Applied(ApplyItem(prior.photos, item.checksum, AssetUrl(loc, HostFor(loc, draws, n - 1), item)), false)
  }

  /**
   * The `for (checksum in body.items)` loop: for each item, its location's host is
   * drawn and, in every photo, the first derivative with the item's checksum gets
   * the URL. The photo list is rewritten in place, item by item; an item whose
   * location is missing stops the loop with the earlier writes kept.
   */
  method ApplyAssetUrls(photos: seq<Photo>, items: seq<AssetItem>, locations: map<string, Location>, draws: Draws)
    returns (updated: seq<Photo>, crashed: bool)
    ensures Applied(updated, crashed) == ApplyAssets(photos, items, locations, draws, |items|)
  {
    updated := photos;
    crashed := false;
    var k := 0;
    while k < |items|
      invariant 0 <= k <= |items|
      invariant ApplyAssets(photos, items, locations, draws, k) == Applied(updated, false)
    {
      var item := items[k];
      if item.urlLocation !in locations {
        crashed := true;
        ApplyAfterCrash(photos, items, locations, draws, k + 1);
        return;
      }
      var loc := locations[item.urlLocation];
      var url := AssetUrl(loc, HostFor(loc, draws, k), item);
      updated := ApplyItemInPlace(updated, item.checksum, url);
      k := k + 1;
    }
  }

  /** The loop over the photos for one asset item: each photo's first matching derivative gets the URL. */
  method ApplyItemInPlace(photos: seq<Photo>, checksum: string, url: string) returns (updated: seq<Photo>)
    ensures updated == ApplyItem(photos, checksum, url)
  {
    updated := photos;
    var i := 0;
    while i < |updated|
      invariant 0 <= i <= |updated| == |photos|
      invariant forall m :: 0 <= m < i ==> updated[m] == WithAssetUrl(photos[m], checksum, url)
      invariant forall m :: i <= m < |photos| ==> updated[m] == photos[m]
    {
      var ds := updated[i].derivatives;
      var j := FindChecksum(ds, checksum);
      if j < |ds| {
        ds := ds[j := ds[j].(url := Some(url))];
      }
      updated := updated[i := updated[i].(derivatives := ds)];
      i := i + 1;
    }
  }

  /** The inner loop over a photo's derivatives: the index where it breaks on the checksum, or the length. */
  method FindChecksum(ds: seq<Derivative>, checksum: string) returns (j: nat)
    ensures j <= |ds|
    ensures j < |ds| ==> FirstMatch(ds, checksum) == Some(j)
    ensures j == |ds| ==> FirstMatch(ds, checksum).None?
  {
    j := 0;
    while j < |ds| && ds[j].checksum != checksum
      invariant 0 <= j <= |ds|
      invariant forall m :: 0 <= m < j ==> ds[m].checksum != checksum
    {
      j := j + 1;
    }
  }

  /** Once an item has crashed the loop, later items change nothing. */
  lemma {:induction false} ApplyAfterCrash(photos: seq<Photo>, items: seq<AssetItem>, locations: map<string, Location>, draws: Draws, n: nat)
    requires 1 <= n <= |items|
    requires !ApplyAssets(photos, items, locations, draws, n - 1).crashed
    requires items[n - 1].urlLocation !in locations
    ensures forall m :: n <= m <= |items| ==>
      ApplyAssets(photos, items, locations, draws, m) == Applied(ApplyAssets(photos, items, locations, draws, n - 1).photos, true)
  {
    var crashedAt := Applied(ApplyAssets(photos, items, locations, draws, n - 1).photos, true);
    var m := n;
    while m < |items|
      invariant n <= m <= |items|
      invariant forall m' :: n <= m' <= m ==> ApplyAssets(photos, items, locations, draws, m') == crashedAt
    {
      m := m + 1;
    }
  }

  // ---------------------------------------------------------------------------
  // webasseturls: images

  /** The derivatives with `+d.width > 0`, as variants, in order. */
  function PositiveVariants(ds: seq<Derivative>): (vs: seq<Variant>)
    ensures forall v :: v in vs ==> v.width > 0 && exists d :: d in ds && v == Variant(d.url, d.width, d.height)
    ensures forall d :: d in ds && d.width > 0 ==> Variant(d.url, d.width, d.height) in vs
  {
    if ds == [] then []
    else if ds[0].width > 0 then [Variant(ds[0].url, ds[0].width, ds[0].height)] + PositiveVariants(ds[1..])
    else PositiveVariants(ds[1..])
  }

  /**
   * The record of one photo: its positive-width derivatives sorted by area, the
   * URL of the last (largest). None where there is no such derivative and
   * `variants[-1].url` throws.
   */
  function PhotoImage(p: Photo): Option<Image> {
    var vs := SortByArea(PositiveVariants(p.derivatives));
    if vs == [] then None else Some(Image(vs[|vs| - 1].url, p.caption, vs))
  }

  /** `self.iCloudPhotos.map(…)`: None if any photo's record throws. */
  function AssetImages(photos: seq<Photo>): (r: Option<seq<Image>>)
    ensures r.Some? ==>
      (|r.value| == |photos| && forall i :: 0 <= i < |photos| ==> PhotoImage(photos[i]) == Some(r.value[i]))
  {
    if photos == [] then Some([])
    else match (PhotoImage(photos[0]), AssetImages(photos[1..]))
      case (Some(x), Some(rest)) => Some([x] + rest)
      case _ => None
  }

  function AssetStep(s: Session, reply: Reply, draws: Draws): (step: Step)
    ensures step.request.None?
    ensures step.session == Session(WebAssetUrls, s.host, ApplyAssets(s.photos, reply.items, reply.locations, draws, |reply.items|).photos)
  {
    var applied := ApplyAssets(s.photos, reply.items, reply.locations, draws, |reply.items|);
    var session := Session(WebAssetUrls, s.host, applied.photos);
    if applied.crashed then Step(session, None, [])
    else match AssetImages(applied.photos)
      case None => Step(session, None, [])
      case Some(images) => Step(session, None, images)
  }

  /** `processiCloudData` as a transition of the session. */
  function Transition(s: Session, album: string, reply: Reply, config: Config, draws: Draws): Step {
    match s.stage
    case Webstream => StreamStep(s, album, reply, config, draws)
    case WebAssetUrls => AssetStep(s, reply, draws)
  }

  // ---------------------------------------------------------------------------
  // Properties

  /**
   * A 330 reply keeps the stage, moves to the host the reply names (or keeps the
   * old one when it names none) and re-POSTs the webstream query there with only
   * the default headers; nothing is returned.
   */
  lemma RedirectStaysInWebstream(s: Session, album: string, reply: Reply, config: Config, draws: Draws)
    requires s.stage == Webstream && reply.status == 330
    ensures var step := Transition(s, album, reply, config, draws);
      && step.session.stage == Webstream
      && step.session.photos == s.photos
      && (reply.mmeHost.Some? && reply.mmeHost.value != "" ==> step.session.host == reply.mmeHost.value)
      && (reply.mmeHost.None? || reply.mmeHost.value == "" ==> step.session.host == s.host)
      && step.request.Some?
      && step.request.value.verb == Post
      && step.request.value.url == HttpsPrefix + step.session.host + "/" + album + WebstreamPath
      && WithDefaultHeaders(step.request.value).headers == map[CacheControl := "no-cache"]
      && step.images == []
  {
  }

  /**
   * A 200 reply moves to webasseturls keeping the first `maximumEntries` of the
   * non-null, non-video photos in (optionally shuffled) reply order, and POSTs
   * exactly their guids. With shuffling off they are the first wanted photos of
   * the reply itself, and every photo kept is a non-null, non-video photo of it.
   */
  lemma AcceptedStreamAsksForAssets(s: Session, album: string, reply: Reply, config: Config, draws: Draws)
    requires s.stage == Webstream && reply.status == 200
    ensures var step := Transition(s, album, reply, config, draws);
      var wanted := WantedPhotos(PhotoOrder(config, reply.photos, draws));
      && step.session.stage == WebAssetUrls
      && step.session.host == s.host
      && |step.session.photos| <= |wanted| && step.session.photos == wanted[..|step.session.photos|]
      && (config.maximumEntries >= 0 ==> |step.session.photos| == Min(config.maximumEntries, |wanted|))
      && (!config.shuffle ==> wanted == WantedPhotos(reply.photos))
      && (forall p :: p in step.session.photos ==> Some(p) in reply.photos && p.mediaAssetType != Some(Video))
      && step.request == Some(RequestParams(Post, HttpsPrefix + s.host + "/" + album + AssetUrlsPath,
                                            None, PhotoGuids(Guids(step.session.photos))))
      && step.images == []
  {
    var wanted := WantedPhotos(PhotoOrder(config, reply.photos, draws));
    var photos := SliceTo(wanted, config.maximumEntries);
    forall p | p in photos ensures Some(p) in reply.photos {
      assert p in wanted by { assert photos == wanted[..|photos|]; }
    }
  }

  /** Any other status in the webstream stage changes nothing and sends nothing. */
  lemma OtherStatusIgnored(s: Session, album: string, reply: Reply, config: Config, draws: Draws)
    requires s.stage == Webstream && reply.status != 330 && reply.status != 200
    ensures Transition(s, album, reply, config, draws) == Step(s, None, [])
  {
  }

  /**
   * Writing one asset URL changes only the `url` of the first derivative with the
   * checksum in each photo: the photos, their guids, captions and derivative
   * sizes stay as they were.
   */
  lemma ApplyItemKeepsShape(photos: seq<Photo>, checksum: string, url: string)
    ensures var r := ApplyItem(photos, checksum, url);
      forall i :: 0 <= i < |photos| ==>
        && r[i].photoGuid == photos[i].photoGuid
        && r[i].caption == photos[i].caption
        && |r[i].derivatives| == |photos[i].derivatives|
        && (forall j :: 0 <= j < |photos[i].derivatives| ==>
              r[i].derivatives[j] == photos[i].derivatives[j].(url := r[i].derivatives[j].url))
        && (forall j :: 0 <= j < |photos[i].derivatives| && r[i].derivatives[j] != photos[i].derivatives[j] ==>
              r[i].derivatives[j].url == Some(url) && photos[i].derivatives[j].checksum == checksum &&
              forall m :: 0 <= m < j ==> photos[i].derivatives[m].checksum != checksum)
        && (forall j :: 0 <= j < |photos[i].derivatives| ==>
              (photos[i].derivatives[j].checksum == checksum &&
               (forall m :: 0 <= m < j ==> photos[i].derivatives[m].checksum != checksum)) ==>
              r[i].derivatives[j].url == Some(url))
  {
  }

  /**
   * The asset stage keeps the photos' count, guids and captions, and their
   * derivatives' count and widths, whether or not it crashes.
   */
  lemma {:induction false} ApplyAssetsKeepsPhotos(photos: seq<Photo>, items: seq<AssetItem>, locations: map<string, Location>, draws: Draws, n: nat)
    requires n <= |items|
    ensures var r := ApplyAssets(photos, items, locations, draws, n).photos;
      |r| == |photos| && forall i :: 0 <= i < |photos| ==>
        r[i].photoGuid == photos[i].photoGuid && r[i].caption == photos[i].caption &&
        SameWidths(r[i], photos[i])
  {
    if n > 0 {
      ApplyAssetsKeepsPhotos(photos, items, locations, draws, n - 1);
      var prior := ApplyAssets(photos, items, locations, draws, n - 1);
      if !prior.crashed && items[n - 1].urlLocation in locations {
        var loc := locations[items[n - 1].urlLocation];
        ApplyItemKeepsShape(prior.photos, items[n - 1].checksum, AssetUrl(loc, HostFor(loc, draws, n - 1), items[n - 1]));
      }
    }
  }

  /** `a` and `b` have as many derivatives, of the same widths position by position. */
  predicate SameWidths(a: Photo, b: Photo) {
    |a.derivatives| == |b.derivatives| &&
    forall j :: 0 <= j < |a.derivatives| ==> a.derivatives[j].width == b.derivatives[j].width
  }

  /** A photo with a derivative of positive width: the ones `variants[-1]` does not throw on. */
  predicate HasPositiveWidth(p: Photo) {
    exists d :: d in p.derivatives && d.width > 0
  }

  lemma SameWidthsPositive(a: Photo, b: Photo)
    requires SameWidths(a, b)
    ensures HasPositiveWidth(a) <==> HasPositiveWidth(b)
  {
    if HasPositiveWidth(a) {
      var d :| d in a.derivatives && d.width > 0;
      var j :| 0 <= j < |a.derivatives| && a.derivatives[j] == d;
      assert b.derivatives[j] in b.derivatives;
    }
    if HasPositiveWidth(b) {
      var d :| d in b.derivatives && d.width > 0;
      var j :| 0 <= j < |b.derivatives| && b.derivatives[j] == d;
      assert a.derivatives[j] in a.derivatives;
    }
  }

  /** A photo has a record exactly when it has a positive-width derivative. */
  lemma PhotoImageDefined(p: Photo)
    ensures PhotoImage(p).Some? <==> HasPositiveWidth(p)
  {
    var raw := PositiveVariants(p.derivatives);
    if HasPositiveWidth(p) {
      var d :| d in p.derivatives && d.width > 0;
      assert Variant(d.url, d.width, d.height) in raw;
    }
  }

  /** The map over the photos succeeds exactly when every photo has a record. */
  lemma {:induction false} AssetImagesDefined(photos: seq<Photo>)
    ensures AssetImages(photos).Some? <==> forall i :: 0 <= i < |photos| ==> PhotoImage(photos[i]).Some?
  {
    if photos != [] {
      AssetImagesDefined(photos[1..]);
      if PhotoImage(photos[0]).Some? && AssetImages(photos[1..]).Some? {
        forall i | 0 <= i < |photos| ensures PhotoImage(photos[i]).Some? {
          if i > 0 { assert photos[i] == photos[1..][i - 1]; }
        }
      } else if PhotoImage(photos[0]).Some? {
        var i :| 0 <= i < |photos[1..]| && PhotoImage(photos[1..][i]).None?;
        assert photos[i + 1] == photos[1..][i];
      }
    }
  }

  /** The asset loop crashes exactly when some item names a location the reply does not have. */
  lemma {:induction false} ApplyAssetsCrash(photos: seq<Photo>, items: seq<AssetItem>, locations: map<string, Location>, draws: Draws, n: nat)
    requires n <= |items|
    ensures ApplyAssets(photos, items, locations, draws, n).crashed <==>
      exists k :: 0 <= k < n && items[k].urlLocation !in locations
  {
    if n > 0 {
      ApplyAssetsCrash(photos, items, locations, draws, n - 1);
    }
  }

  /** `url` is that of a positive-width derivative whose area no other positive-width derivative exceeds. */
  predicate LargestUrl(ds: seq<Derivative>, url: Option<string>) {
    exists d :: d in ds && d.width > 0 && url == d.url
      && forall e :: e in ds && e.width > 0 ==> e.width * e.height <= d.width * d.height
  }

  /** The record of a photo keeps its caption, has sorted non-empty variants and the URL of a largest derivative. */
  predicate TakesLargest(p: Photo, img: Image) {
    img.caption == p.caption && img.variants != [] && SortedByArea(img.variants) && LargestUrl(p.derivatives, img.url)
  }

  /**
   * In the asset stage records come back exactly when there are photos, every
   * item's location is in the reply and every kept photo has a positive-width
   * derivative; then there is one per photo. Each keeps its photo's caption, its
   * variants are the photo's positive-width derivatives sorted by area, and its
   * URL is that of a derivative of the largest area.
   */
  lemma AssetImagesTakeLargest(s: Session, album: string, reply: Reply, config: Config, draws: Draws)
    requires s.stage == WebAssetUrls
    ensures var step := Transition(s, album, reply, config, draws);
      && step.session.stage == WebAssetUrls
      && step.request.None?
      && |step.session.photos| == |s.photos|
      && (step.images != [] <==>
            && s.photos != []
            && (forall k :: 0 <= k < |reply.items| ==> reply.items[k].urlLocation in reply.locations)
            && (forall i :: 0 <= i < |s.photos| ==> HasPositiveWidth(s.photos[i])))
      && (step.images != [] ==> |step.images| == |step.session.photos|)
      && forall i :: 0 <= i < |step.images| ==>
           && step.images[i].variants == SortByArea(PositiveVariants(step.session.photos[i].derivatives))
           && TakesLargest(step.session.photos[i], step.images[i])
  {
    var step := Transition(s, album, reply, config, draws);
    AssetImagesLocated(s, reply, draws);
    forall i | 0 <= i < |step.images|
      ensures step.images[i].variants == SortByArea(PositiveVariants(step.session.photos[i].derivatives))
      ensures TakesLargest(step.session.photos[i], step.images[i])
    {
      PhotoImageIsLargest(step.session.photos[i]);
    }
  }

  /** When the asset step returns records: the located, fully sized case. */
  lemma AssetImagesLocated(s: Session, reply: Reply, draws: Draws)
    ensures var step := AssetStep(s, reply, draws);
      && |step.session.photos| == |s.photos|
      && (step.images != [] <==>
            && s.photos != []
            && (forall k :: 0 <= k < |reply.items| ==> reply.items[k].urlLocation in reply.locations)
            && (forall i :: 0 <= i < |s.photos| ==> HasPositiveWidth(s.photos[i])))
      && (step.images != [] ==> AssetImages(step.session.photos) == Some(step.images))
  {
    var applied := ApplyAssets(s.photos, reply.items, reply.locations, draws, |reply.items|);
    ApplyAssetsKeepsPhotos(s.photos, reply.items, reply.locations, draws, |reply.items|);
    ApplyAssetsCrash(s.photos, reply.items, reply.locations, draws, |reply.items|);
    AssetImagesDefined(applied.photos);
    forall i | 0 <= i < |s.photos|
      ensures PhotoImage(applied.photos[i]).Some? <==> HasPositiveWidth(s.photos[i])
    {
      PhotoImageDefined(applied.photos[i]);
      SameWidthsPositive(applied.photos[i], s.photos[i]);
    }
  }

  /** A positive variant of no smaller area than any other carries the URL of a largest derivative. */
  lemma LargestVariantUrl(ds: seq<Derivative>, last: Variant)
    requires last in PositiveVariants(ds)
    requires forall v :: v in PositiveVariants(ds) ==> Area(v) <= Area(last)
    ensures LargestUrl(ds, last.url)
  {
    var raw := PositiveVariants(ds);
    var d :| d in ds && last == Variant(d.url, d.width, d.height);
    forall e | e in ds && e.width > 0 ensures e.width * e.height <= d.width * d.height {
      var v := Variant(e.url, e.width, e.height);
      assert v in raw;
      assert Area(v) <= Area(last);
    }
  }

  /** A photo's record, where it has one, takes the largest derivative. */
  lemma PhotoImageIsLargest(p: Photo)
    ensures PhotoImage(p).Some? ==> TakesLargest(p, PhotoImage(p).value)
  {
    var raw := PositiveVariants(p.derivatives);
    var vs := SortByArea(raw);
    if vs != [] {
      var last := vs[|vs| - 1];
      SortedLastIsLargest(raw);
      LargestVariantUrl(p.derivatives, last);
      assert PhotoImage(p) == Some(Image(last.url, p.caption, vs));
    }
  }
}
