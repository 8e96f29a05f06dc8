/**
 * The Flickr API source: a `flickr-api:` descriptor is split at `;` into
 * sub-sources, each resolves to a list of photos (`fetchOneFlickrSource`), the
 * lists are joined in sub-source order, and `processFlickrPhotos` looks up a
 * size for each photo through a per-photo cache, counting the outstanding
 * lookups down to a single resolution.
 */
module Flickr {
  import opened Js
  import opened Helpers
  import opened Records
  import opened Normalize

  // ---------------------------------------------------------------------------
  // Sub-sources

  /** What one sub-source asks the Flickr service for. */
  datatype Query =
    | PublicFeed
    | TagFeed(tags: string, tagMode: string)
    | Gallery(galleryId: string)
    | UserPhotos(username: string)
    | Favorites(username: string)
    | AlbumPhotos(username: string, photosetId: string)
    | GroupPool(groupUrl: string)
    | Stalled(username: string)   // the user is looked up but no branch resolves the promise
    | Unrecognised                // resolves with no photos at once

  /** `source.split('/').filter(s => s.length > 0)`. */
  function Args(source: string): seq<string> { NonEmpty(Split(source, '/')) }

  /** `fetchOneFlickrSource`'s branch for one sub-source; the first test that holds wins. */
  function ClassifySubSource(source: string): Query {
    var args := Args(source);
    if |args| >= 1 && args[0] == "publicPhotos" then PublicFeed
    else if |args| > 1 && args[0] == "tags" then TagFeed(args[1], if |args| > 2 then args[2] else "all")
    else if |args| > 1 && args[0] == "photos" then
      if |args| == 4 && args[2] == "galleries" then Gallery(args[3])
      else if |args| == 2 then UserPhotos(args[1])
      else if |args| == 3 && args[2] == "favorites" then Favorites(args[1])
      else if |args| == 4 && args[2] == "albums" then AlbumPhotos(args[1], args[3])
      else Stalled(args[1])
    else if |args| > 1 && args[0] == "groups" then GroupPool("https://www.flickr.com/groups/" + args[1] + "/")
    else Unrecognised
  }

  /** A tag feed without a mode asks for photos carrying all the tags. */
  lemma TagFeedDefaultsToAll(x: string)
    requires x != "" && '/' !in x
    ensures ClassifySubSource("tags/" + x) == TagFeed(x, "all")
  {
    SegmentsOf("tags", [x]);
    assert Path("tags", [x]) == "tags/" + x by { assert Path(x, []) == x; }
  }

  /** A user path whose third segment is "favorites" lists the user's favourites. */
  lemma UserFavorites(user: string)
    requires user != "" && '/' !in user
    ensures ClassifySubSource("photos/" + user + "/favorites") == Favorites(user)
  {
    SegmentsOf("photos", [user, "favorites"]);
    PathOfTwo("photos", user, "favorites");
    assert "photos/" + user + "/favorites" == "photos" + ['/'] + user + ['/'] + "favorites";
  }

  /** A user path `albums/<id>` lists that album. */
  lemma UserAlbum(user: string, x: string)
    requires user != "" && '/' !in user && x != "" && '/' !in x
    ensures ClassifySubSource("photos/" + user + "/albums/" + x) == AlbumPhotos(user, x)
  {
    UserPathArgs(user, "albums", x);
    assert "photos/" + user + "/albums/" + x == "photos/" + user + "/" + "albums" + "/" + x;
  }

  /** The arguments of `photos/<user>/<kind>/<id>`. */
  lemma UserPathArgs(user: string, kind: string, x: string)
    requires user != "" && '/' !in user && kind != "" && '/' !in kind && x != "" && '/' !in x
    ensures Args("photos/" + user + "/" + kind + "/" + x) == ["photos", user, kind, x]
  {
    SegmentsOf("photos", [user, kind, x]);
    PathOfThree("photos", user, kind, x);
    assert "photos/" + user + "/" + kind + "/" + x == "photos" + ['/'] + user + ['/'] + kind + ['/'] + x;
  }

  /** A user path `galleries/<id>` lists that gallery, whoever the user is. */
  lemma UserGallery(user: string, x: string)
    requires user != "" && '/' !in user && x != "" && '/' !in x
    ensures ClassifySubSource("photos/" + user + "/galleries/" + x) == Gallery(x)
  {
    UserPathArgs(user, "galleries", x);
    assert "photos/" + user + "/galleries/" + x == "photos/" + user + "/" + "galleries" + "/" + x;
  }

  /** Any other single third segment is looked up but never resolves. */
  lemma UserOtherStalls(user: string, x: string)
    requires user != "" && '/' !in user && x != "" && '/' !in x && x != "favorites"
    ensures ClassifySubSource("photos/" + user + "/" + x) == Stalled(user)
  {
    SegmentsOf("photos", [user, x]);
    PathOfTwo("photos", user, x);
    assert "photos/" + user + "/" + x == "photos" + ['/'] + user + ['/'] + x;
  }

  lemma PathOfTwo(a: string, b: string, c: string)
    ensures Path(a, [b, c]) == a + ['/'] + b + ['/'] + c
  {
    assert [b, c][1..] == [c];
    assert Path(b, [c]) == b + ['/'] + c;
    assert Path(a, [b, c]) == a + ['/'] + (b + ['/'] + c);
  }

  lemma PathOfThree(a: string, b: string, c: string, d: string)
    ensures Path(a, [b, c, d]) == a + ['/'] + b + ['/'] + c + ['/'] + d
  {
    assert [b, c, d][1..] == [c, d];
    PathOfTwo(b, c, d);
    assert Path(a, [b, c, d]) == a + ['/'] + (b + ['/'] + c + ['/'] + d);
  }

  /** Empty segments are dropped: a leading or trailing slash does not change a sub-source. */
  lemma SlashesAreIgnored(s: string)
    ensures Args("/" + s) == Args(s) && Args(s + "/") == Args(s)
  {
    SplitAround("", '/', s);
    assert "" + ['/'] + s == "/" + s;
    NonEmptyAppend([""], Split(s, '/'));
    SplitAround(s, '/', "");
    assert s + ['/'] + "" == s + "/";
    NonEmptyAppend(Split(s, '/'), [""]);
    assert NonEmpty([""]) == [];
  }

  /** An empty sub-source (as from a trailing `;`) is unrecognised and contributes nothing. */
  lemma EmptySubSourceIsUnrecognised()
    ensures ClassifySubSource("") == Unrecognised
    ensures SubSourcePhotos(ClassifySubSource(""), NoAnswer) == Some([])
  {
    assert Split("", '/') == [""];
    assert NonEmpty([""]) == [];
  }

  /** The segments of `first/s1/…/sn` for slash-free, non-empty segments. */
  lemma {:induction false} SegmentsOf(first: string, rest: seq<string>)
    requires first != "" && '/' !in first
    requires forall i :: 0 <= i < |rest| ==> rest[i] != "" && '/' !in rest[i]
    ensures Args(Path(first, rest)) == [first] + rest
    decreases |rest|
  {
    SplitWithout(first, '/');
    if rest == [] {
      assert Path(first, rest) == first;
    } else {
      SegmentsOf(rest[0], rest[1..]);
      assert Path(first, rest) == first + ['/'] + Path(rest[0], rest[1..]);
      SplitAround(first, '/', Path(rest[0], rest[1..]));
      NonEmptyAppend([first], Split(Path(rest[0], rest[1..]), '/'));
      assert [rest[0]] + rest[1..] == rest;
    }
  }

  function Path(first: string, rest: seq<string>): string
    decreases |rest|
  {
    if rest == [] then first else first + ['/'] + Path(rest[0], rest[1..])
  }

  /** One photo as the Flickr API lists it. */
  datatype ApiPhoto = ApiPhoto(id: string, title: string, ownername: Option<string>)

  /** What the service answered for a sub-source, if anything settled. */
  datatype Answer = FeedAnswer(items: seq<FeedItem>) | ApiAnswer(photos: seq<ApiPhoto>) | NoAnswer

  /** `fetchFlickrApiPhotos`: `{id, title, owner: ownername}` for each listed photo. */
  function FromApi(photos: seq<ApiPhoto>): (r: seq<FlickrPhoto>)
    ensures |r| == |photos|
  {
    seq(|photos|, i requires 0 <= i < |photos| => FlickrPhoto(Some(photos[i].id), photos[i].title, photos[i].ownername))
  }

  /** The list a sub-source resolves with; None when its promise never resolves. */
  function SubSourcePhotos(query: Query, answer: Answer): Option<seq<FlickrPhoto>> {
    match query
    case Unrecognised => Some([])
    case Stalled(_) => None
    case PublicFeed => (match answer case FeedAnswer(items) => Some(ProcessFlickrFeedPhotos(items)) case _ => None)
    case TagFeed(_, _) => (match answer case FeedAnswer(items) => Some(ProcessFlickrFeedPhotos(items)) case _ => None)
    case _ => (match answer case ApiAnswer(ps) => Some(FromApi(ps)) case _ => None)
  }

  /** `Promise.all(promises)` then `images.push(...result)` in sub-source order; None while any is pending. */
  function FanIn(results: seq<Option<seq<FlickrPhoto>>>): Option<seq<FlickrPhoto>> {
    if results == [] then Some([])
    else
      var rest := FanIn(results[1..]);
      if results[0].None? || rest.None? then None else Some(results[0].value + rest.value)
  }

  /** The join resolves exactly when every sub-source resolves. */
  lemma {:induction false} FanInWaitsForAll(results: seq<Option<seq<FlickrPhoto>>>)
    ensures FanIn(results).None? <==> exists i :: 0 <= i < |results| && results[i].None?
  {
    if results != [] {
      FanInWaitsForAll(results[1..]);
      if FanIn(results[1..]).None? {
        var i :| 0 <= i < |results[1..]| && results[1..][i].None?;
        assert results[i + 1].None?;
      }
      if exists i :: 0 <= i < |results| && results[i].None? {
        var i :| 0 <= i < |results| && results[i].None?;
        if i > 0 {
          assert results[1..][i - 1].None?;
        }
      }
    }
  }

  function TotalLength(results: seq<Option<seq<FlickrPhoto>>>): nat {
    if results == [] then 0 else (match results[0] case Some(x) => |x| case None => 0) + TotalLength(results[1..])
  }

  /** The joined list is as long as all the sub-source lists together. */
  lemma {:induction false} FanInLength(results: seq<Option<seq<FlickrPhoto>>>)
    requires FanIn(results).Some?
    ensures |FanIn(results).value| == TotalLength(results)
  {
    if results != [] {
      FanInLength(results[1..]);
    }
  }

  /**
   * Each sub-source's photos sit in the joined list, unchanged and in order, at
   * the offset of the lists of the sub-sources before it.
   */
  lemma {:induction false} FanInPlacesInOrder(results: seq<Option<seq<FlickrPhoto>>>, i: nat)
    requires FanIn(results).Some? && i < |results|
    ensures results[i].Some?
    ensures var off := TotalLength(results[..i]);
      off + |results[i].value| <= |FanIn(results).value| &&
      FanIn(results).value[off..off + |results[i].value|] == results[i].value
  {
    var all := FanIn(results).value;
    var first := results[0].value;
    var rest := FanIn(results[1..]).value;
    assert all == first + rest;
    if i == 0 {
      assert results[..0] == [];
      assert all[..|first|] == first;
    } else {
      FanInPlacesInOrder(results[1..], i - 1);
      var off' := TotalLength(results[1..][..i - 1]);
      assert results[..i] == [results[0]] + results[1..][..i - 1];
      assert results[..i][1..] == results[1..][..i - 1];
      assert TotalLength(results[..i]) == |first| + off';
      assert results[1..][i - 1] == results[i];
      assert all[|first| + off'..|first| + off' + |results[i].value|] == rest[off'..off' + |results[i].value|];
    }
  }

  // ---------------------------------------------------------------------------
  // Size selection

  /** One entry of `sizes.size`; width and height already converted to numbers. */
  datatype Size = Size(media: string, source: string, width: int, height: int)

  /** The sizes whose media is "photo", as variants, in API order. */
  function PhotoVariants(sizes: seq<Size>): (vs: seq<Variant>)
    ensures |vs| <= |sizes|
  {
    if sizes == [] then []
    else if sizes[0].media == "photo" then [Variant(Some(sizes[0].source), sizes[0].width, sizes[0].height)] + PhotoVariants(sizes[1..])
    else PhotoVariants(sizes[1..])
  }

  /**
   * `width <= config.maxWidth && height <= config.maxHeight`: a comparison with an
   * unset (undefined) bound is false, so nothing fits until both bounds are set.
   */
  predicate Fits(v: Variant, maxWidth: Option<int>, maxHeight: Option<int>) {
    && maxWidth.Some? && maxHeight.Some?
    && v.width <= maxWidth.value && v.height <= maxHeight.value
  }

  /** `variants.reduce((prev, v) => fits(v) ? v : prev, prev0)`. */
  function ReduceFitting(vs: seq<Variant>, maxWidth: Option<int>, maxHeight: Option<int>, prev: Option<Variant>): Option<Variant> {
    if vs == [] then prev
    else ReduceFitting(vs[1..], maxWidth, maxHeight, if Fits(vs[0], maxWidth, maxHeight) then Some(vs[0]) else prev)
  }

  /**
   * The reduction picks the LAST fitting variant in order: it fits, nothing after
   * it fits, and when nothing fits the starting value comes back.
   */
  lemma {:induction false} ReduceFittingIsLast(vs: seq<Variant>, maxWidth: Option<int>, maxHeight: Option<int>, prev: Option<Variant>)
    ensures var r := ReduceFitting(vs, maxWidth, maxHeight, prev);
      && ((forall j :: 0 <= j < |vs| ==> !Fits(vs[j], maxWidth, maxHeight)) ==> r == prev)
      && ((exists j :: 0 <= j < |vs| && Fits(vs[j], maxWidth, maxHeight)) ==>
            exists j :: 0 <= j < |vs| && r == Some(vs[j]) && Fits(vs[j], maxWidth, maxHeight) &&
              forall k :: j < k < |vs| ==> !Fits(vs[k], maxWidth, maxHeight))
  {
    if vs != [] {
      var next := if Fits(vs[0], maxWidth, maxHeight) then Some(vs[0]) else prev;
      ReduceFittingIsLast(vs[1..], maxWidth, maxHeight, next);
      var r := ReduceFitting(vs, maxWidth, maxHeight, prev);
      if exists j :: 0 <= j < |vs[1..]| && Fits(vs[1..][j], maxWidth, maxHeight) {
        var j :| 0 <= j < |vs[1..]| && r == Some(vs[1..][j]) && Fits(vs[1..][j], maxWidth, maxHeight) &&
          forall k :: j < k < |vs[1..]| ==> !Fits(vs[1..][k], maxWidth, maxHeight);
        assert r == Some(vs[j + 1]);
        forall k | j + 1 < k < |vs| ensures !Fits(vs[k], maxWidth, maxHeight) {
          assert vs[k] == vs[1..][k - 1];
        }
      } else {
        forall k | 1 <= k < |vs| ensures !Fits(vs[k], maxWidth, maxHeight) {
          assert vs[k] == vs[1..][k - 1];
        }
      }
    }
  }

  /** The record of a photo whose size lookup succeeded; None when no photo size fits. */
  function SizesRecord(config: Config, p: FlickrPhoto, sizes: seq<Size>): Option<Image> {
    var vs := PhotoVariants(sizes);
    if vs == [] then None
    else match ReduceFitting(vs, config.maxWidth, config.maxHeight, None)
      case None => None
      case Some(sel) => Some(Image(sel.url, Some(p.title + " (by " + Js.Text(p.owner) + ")"), vs))
  }

  /**
   * A looked-up photo is kept exactly when one of its photo sizes fits within
   * maxWidth x maxHeight; its URL is then the last fitting size in API order.
   */
  lemma SizesRecordPicksLastFitting(config: Config, p: FlickrPhoto, sizes: seq<Size>)
    ensures var vs := PhotoVariants(sizes);
      && (SizesRecord(config, p, sizes).Some? <==> exists j :: 0 <= j < |vs| && Fits(vs[j], config.maxWidth, config.maxHeight))
      && (SizesRecord(config, p, sizes).Some? ==>
            var img := SizesRecord(config, p, sizes).value;
            img.variants == vs &&
            exists j :: 0 <= j < |vs| && img.url == vs[j].url && Fits(vs[j], config.maxWidth, config.maxHeight) &&
              forall k :: j < k < |vs| ==> !Fits(vs[k], config.maxWidth, config.maxHeight))
  {
    ReduceFittingIsLast(PhotoVariants(sizes), config.maxWidth, config.maxHeight, None);
  }

  /**
   * With maxWidth or maxHeight left unset, as the module defaults leave them, no
   * size fits and every looked-up photo is dropped.
   */
  lemma UnsetBoundKeepsNoSize(config: Config, p: FlickrPhoto, sizes: seq<Size>)
    requires config.maxWidth.None? || config.maxHeight.None?
    ensures SizesRecord(config, p, sizes).None?
  {
    SizesRecordPicksLastFitting(config, p, sizes);
  }

  // ---------------------------------------------------------------------------
  // processFlickrPhotos

  /** `flickrDataCache`, keyed by photo id. */
  type DataCache = map<Option<string>, Image>

  /** The answer to the i-th lookup; None for a lookup that failed. */
  function SizesReply(replies: seq<Option<seq<Size>>>, i: nat): Option<seq<Size>> {
    if i < |replies| then replies[i] else None
  }

  /** The cached records of the photos in `ps` that hit the cache, in order. */
  function HitImages(ps: seq<FlickrPhoto>, cache: DataCache): (r: seq<Image>)
    ensures |r| <= |ps|
  {
    if ps == [] then []
    else
      var p := ps[|ps| - 1];
      HitImages(ps[..|ps| - 1], cache) + (if p.id in cache then [cache[p.id]] else [])
  }

  /** The positions of the photos in `ps` that miss the cache, in order. */
  function MissIndices(ps: seq<FlickrPhoto>, cache: DataCache): (r: seq<nat>)
    ensures forall i :: 0 <= i < |r| ==> r[i] < |ps| && ps[r[i]].id !in cache
    ensures |HitImages(ps, cache)| + |r| == |ps|
  {
    if ps == [] then []
    else
      var p := ps[|ps| - 1];
      var prior := MissIndices(ps[..|ps| - 1], cache);
      var r := prior + (if p.id !in cache then [|ps| - 1] else []);
      assert forall i :: 0 <= i < |prior| ==> r[i] == prior[i] && ps[prior[i]] == ps[..|ps| - 1][prior[i]];
      assert |HitImages(ps, cache)| == |HitImages(ps[..|ps| - 1], cache)| + (if p.id in cache then 1 else 0);
      r
  }

  /** One more photo scanned: the hits and misses of the longer prefix. */
  lemma ScanStep(batch: seq<FlickrPhoto>, cache: DataCache, i: nat)
    requires i < |batch|
    ensures HitImages(batch[..i + 1], cache) ==
      HitImages(batch[..i], cache) + (if batch[i].id in cache then [cache[batch[i].id]] else [])
    ensures MissIndices(batch[..i + 1], cache) ==
      MissIndices(batch[..i], cache) + (if batch[i].id !in cache then [i] else [])
  {
    assert batch[..i + 1][..i] == batch[..i];
  }

  /** The order in which the lookups of the misses settle: a permutation of their positions. */
  function SettleOrder(batch: seq<FlickrPhoto>, cache: DataCache, settleDraws: Draws): (order: seq<nat>)
    ensures |order| == |MissIndices(batch, cache)|
    ensures forall k :: 0 <= k < |order| ==> order[k] < |batch| && batch[order[k]].id !in cache
  {
    var misses := MissIndices(batch, cache);
    PermutedPositions(misses, settleDraws, batch, cache);
    Shuffled<nat>(misses, settleDraws)
  }

  lemma PermutedPositions(misses: seq<nat>, settleDraws: Draws, batch: seq<FlickrPhoto>, cache: DataCache)
    requires forall i :: 0 <= i < |misses| ==> misses[i] < |batch| && batch[misses[i]].id !in cache
    ensures var order := Shuffled<nat>(misses, settleDraws);
      |order| == |misses| && forall k :: 0 <= k < |order| ==> order[k] < |batch| && batch[order[k]].id !in cache
  {
    var order := Shuffled<nat>(misses, settleDraws);
    ShuffledIsPermutation<nat>(misses, settleDraws);
    forall k | 0 <= k < |order| ensures order[k] < |batch| && batch[order[k]].id !in cache {
      ShuffledMembers<nat>(misses, settleDraws, order[k]);
      var i :| 0 <= i < |misses| && misses[i] == order[k];
    }
  }

  /** The record pushed for the miss at position i of `photos`, once its lookup settles. */
  function MissRecord(config: Config, photos: seq<FlickrPhoto>, replies: seq<Option<seq<Size>>>, i: nat): Option<Image>
    requires i < |photos|
  {
    match SizesReply(replies, i)
    case None => None
    case Some(sizes) => SizesRecord(config, photos[i], sizes)
  }

  /** The records pushed by the first n settlements, in settlement order. */
  function SettledImages(config: Config, photos: seq<FlickrPhoto>, replies: seq<Option<seq<Size>>>, order: seq<nat>, n: nat): (r: seq<Image>)
    requires n <= |order| && forall k :: 0 <= k < |order| ==> order[k] < |photos|
    ensures |r| <= n
  {
    if n == 0 then []
    else
      var rec := MissRecord(config, photos, replies, order[n - 1]);
      SettledImages(config, photos, replies, order, n - 1) + (match rec case Some(x) => [x] case None => [])
  }

  /** The data cache after the first n settlements: each kept record is stored under its photo's id. */
  function SettledCache(config: Config, photos: seq<FlickrPhoto>, replies: seq<Option<seq<Size>>>, order: seq<nat>, n: nat, cache: DataCache): DataCache
    requires n <= |order| && forall k :: 0 <= k < |order| ==> order[k] < |photos|
  {
    if n == 0 then cache
    else
      var prior := SettledCache(config, photos, replies, order, n - 1, cache);
      match MissRecord(config, photos, replies, order[n - 1])
      case Some(x) => prior[photos[order[n - 1]].id := x]
      case None => prior
  }

  /**
   * `processFlickrPhotos`: the batch is cut to maximumEntries; cache hits are
   * pushed at once, in order, and the lookups of the misses settle afterwards in
   * the order `settleDraws` gives; each settlement decrements the counter of
   * outstanding photos and the call resolves when it reaches zero. `resolutions`
   * counts the calls of `resolve`.
   */
  method ProcessFlickrPhotos(config: Config, photos: seq<FlickrPhoto>, cache: DataCache,
                             replies: seq<Option<seq<Size>>>, settleDraws: Draws)
    returns (images: seq<Image>, resolutions: nat, newCache: DataCache)
    ensures var batch := SliceTo(photos, config.maximumEntries);
      var order := SettleOrder(batch, cache, settleDraws);
      && images == HitImages(batch, cache) + SettledImages(config, batch, replies, order, |order|)
      && newCache == SettledCache(config, batch, replies, order, |order|, cache)
    ensures resolutions == if SliceTo(photos, config.maximumEntries) == [] then 0 else 1
  {
    var batch := SliceTo(photos, config.maximumEntries);
    var hits, outstanding, early := ScanCache(batch, cache);
    var order := Shuffle(outstanding, settleDraws);
    assert order == SettleOrder(batch, cache, settleDraws);
    var settled, late;
    settled, newCache, late := SettleLookups(config, batch, replies, order, cache);
    images := hits + settled;
    resolutions := early + late;
  }

  /**
   * The synchronous pass of `processFlickrPhotos`: hits are pushed in order and
   * decrement the outstanding counter (which starts at the batch length); the
   * misses are collected for lookup. The pass resolves only when every photo hit.
   */
  method ScanCache(batch: seq<FlickrPhoto>, cache: DataCache)
    returns (hits: seq<Image>, outstanding: seq<nat>, resolutions: nat)
    ensures hits == HitImages(batch, cache) && outstanding == MissIndices(batch, cache)
    ensures resolutions == if |batch| > 0 && outstanding == [] then 1 else 0
  {
    hits := [];
    outstanding := [];
    resolutions := 0;
    var pending := |batch|;
    var i := 0;
    while i < |batch|
      invariant 0 <= i <= |batch|
      invariant hits == HitImages(batch[..i], cache)
      invariant outstanding == MissIndices(batch[..i], cache)
      invariant pending == |batch| - i + |outstanding|
      invariant resolutions == if pending == 0 && |batch| > 0 then 1 else 0
    {
      var p := batch[i];
      ScanStep(batch, cache, i);
      if p.id in cache {
        hits := hits + [cache[p.id]];
        pending := pending - 1;
        if pending == 0 {
          resolutions := resolutions + 1;
        }
      } else {
        outstanding := outstanding + [i];
      }
      i := i + 1;
    }
    assert batch[..i] == batch;
  }

  /**
   * The asynchronous part of `processFlickrPhotos`: the lookups settle in `order`;
   * each kept record is pushed and stored in the data cache, each settlement
   * decrements the counter, and the last one resolves.
   */
  method SettleLookups(config: Config, batch: seq<FlickrPhoto>, replies: seq<Option<seq<Size>>>,
                       order: seq<nat>, cache: DataCache)
    returns (settled: seq<Image>, newCache: DataCache, resolutions: nat)
    requires forall m :: 0 <= m < |order| ==> order[m] < |batch|
    ensures settled == SettledImages(config, batch, replies, order, |order|)
    ensures newCache == SettledCache(config, batch, replies, order, |order|, cache)
    ensures resolutions == if order == [] then 0 else 1
  {
    settled := [];
    newCache := cache;
    resolutions := 0;
    var pending := |order|;
    var k := 0;
    while k < |order|
      invariant 0 <= k <= |order|
      invariant pending == |order| - k
      invariant settled == SettledImages(config, batch, replies, order, k)
      invariant newCache == SettledCache(config, batch, replies, order, k, cache)
      invariant resolutions == if pending == 0 && |order| > 0 then 1 else 0
    {
      var j := order[k];
      var rec := MissRecord(config, batch, replies, j);
      if rec.Some? {
        newCache := newCache[batch[j].id := rec.value];
        settled := settled + [rec.value];
      }
      pending := pending - 1;
      if pending == 0 {
        resolutions := resolutions + 1;
      }
      k := k + 1;
    }
  }

  /** The settlement order as a value: a permutation of the outstanding positions. */
  method Shuffle(outstanding: seq<nat>, settleDraws: Draws) returns (order: seq<nat>)
    ensures order == Shuffled(outstanding, settleDraws)
  {
    var a := new nat[|outstanding|](m requires 0 <= m < |outstanding| => outstanding[m]);
    assert a[..] == outstanding;
    order := Helpers.Shuffle(a, settleDraws);
  }

  /**
   * Every image `processFlickrPhotos` resolves with is a cached record of a batch
   * photo or the record of a batch photo whose lookup succeeded, and there are at
   * most as many images as photos in the batch (at most maximumEntries).
   */
  lemma FlickrImagesComeFromBatch(config: Config, batch: seq<FlickrPhoto>, cache: DataCache,
                                   replies: seq<Option<seq<Size>>>, order: seq<nat>)
    requires forall k :: 0 <= k < |order| ==> order[k] < |batch|
    requires |order| == |MissIndices(batch, cache)|
    ensures var images := HitImages(batch, cache) + SettledImages(config, batch, replies, order, |order|);
      && |images| <= |batch|
      && forall img :: img in images ==>
           (exists p :: p in batch && p.id in cache && img == cache[p.id]) ||
           (exists j :: 0 <= j < |batch| && MissRecord(config, batch, replies, j) == Some(img))
  {
    HitsFromBatch(batch, cache);
    SettledFromBatch(config, batch, replies, order, |order|);
  }

  lemma {:induction false} HitsFromBatch(ps: seq<FlickrPhoto>, cache: DataCache)
    ensures forall img :: img in HitImages(ps, cache) ==> exists p :: p in ps && p.id in cache && img == cache[p.id]
  {
    if ps != [] {
      HitsFromBatch(ps[..|ps| - 1], cache);
      forall img | img in HitImages(ps, cache)
        ensures exists p :: p in ps && p.id in cache && img == cache[p.id]
      {
        if img in HitImages(ps[..|ps| - 1], cache) {
          var p :| p in ps[..|ps| - 1] && p.id in cache && img == cache[p.id];
          assert p in ps;
        } else {
          assert ps[|ps| - 1] in ps;
        }
      }
    }
  }

  lemma {:induction false} SettledFromBatch(config: Config, photos: seq<FlickrPhoto>, replies: seq<Option<seq<Size>>>, order: seq<nat>, n: nat)
    requires n <= |order| && forall k :: 0 <= k < |order| ==> order[k] < |photos|
    ensures forall img :: img in SettledImages(config, photos, replies, order, n) ==>
      exists j :: 0 <= j < |photos| && MissRecord(config, photos, replies, j) == Some(img)
  {
    if n > 0 {
      SettledFromBatch(config, photos, replies, order, n - 1);
    }
  }
}
