/**
 * The node helper object: a cache of image lists keyed by source and
 * orientation, the providers' handshake state, and the operations that fetch,
 * normalise, cache and send wallpaper lists. What the helper does to the
 * outside world is recorded on the object: the WALLPAPERS notifications it
 * sends, the requests it makes through `request`, and the keys it mounts
 * handlers for. The Met Museum object lookups and the Flickr service calls are
 * answers given with the world, not recorded requests.
 */
module Engine {
  import opened Js
  import opened Helpers
  import opened Records
  import opened Dispatch
  import Normalize
  import ICloud
  import Synology
  import Flickr
  import LocalFiles
  import MetMuseum

  /** One `self.cache` entry; `aux` holds Synology's `image_map` and `session_cookie` once created. */
  datatype Entry = Entry(key: string, expires: real, images: seq<Image>, aux: Option<Synology.Aux>)

  /** A request handed to `fetch`, with the configuration its response will be processed under. */
  datatype Outgoing = Outgoing(config: Config, request: Request)

  /**
   * What the helper cannot compute itself: the clock, the random draws, the
   * bundled lists, the local directory tree, and how the Flickr service answers.
   */
  datatype World = World(
    now: int,
    pickDraws: Draws,
    draws: Draws,
    apodDate: CalendarDate,
    firetvJson: seq<Image>,
    chromecastJson: seq<Image>,
    tree: Option<seq<LocalFiles.Dirent>>,
    flickrAnswers: seq<Flickr.Answer>,
    sizeReplies: seq<Option<seq<Flickr.Size>>>,
    settleDraws: Draws)

  /** A parsed response body, as the normaliser for its provider reads it. */
  datatype Payload =
    | RedditPayload(posts: seq<Normalize.RedditPost>)
    | ICloudPayload(stream: ICloud.Reply)
    | PexelsPayload(photos: seq<Normalize.PexelsPhoto>)
    | LightroomPayload(body: string)
    | SynologyPayload(shareUrl: Synology.ShareUrl, answer: Synology.Reply)
    | MetPayload(objectIds: Option<seq<int>>, lookups: seq<MetMuseum.Lookup>)
    | NasaPayload(items: Option<seq<Normalize.NasaItem>>)
    | ApodPayload(entries: seq<Normalize.ApodEntry>)
    | BingPayload(images: seq<Normalize.BingImage>)

  /** The text the SHA-1 cache key is taken of; the hash itself is left as the identity. */
  function CacheKey(config: Config): string { config.source + "::" + config.orientation }

  /** The entry `getCacheEntry` finds under `key`, or the one it creates there. */
  function Existing(cache: map<string, Entry>, key: string, now: int): (e: Entry)
    ensures key in cache ==> e == cache[key]
    ensures key !in cache ==> e.key == key && e.images == [] && e.expires == now as real && e.aux.None?
  {
    if key in cache then cache[key] else Entry(key, now as real, [], None)
  }

  /** `Date.now() + config.updateInterval * 0.9`. */
  function Expiry(config: Config, now: int): real {
    now as real + config.updateInterval as real * 0.9
  }

  /** The short-circuit of `fetchWallpapers`: enough images, not yet expired. */
  predicate Fresh(cache: map<string, Entry>, config: Config, now: int) {
    var key := CacheKey(config);
    key in cache && config.maximumEntries <= |cache[key].images| && (now as real) < cache[key].expires
  }

  /** `config.source = pick(config.source)`; an empty array of sources picks undefined. */
  function Picked(request: Config, choice: Source, world: World): Config {
    request.(source := Js.Text(Pick(choice, world.pickDraws)))
  }

  /** The list the stateless normalisers make of a payload; [] when it is not the payload the source's normaliser reads. */
  function Normalised(config: Config, payload: Payload, draws: Draws): seq<Image> {
    match (ProcessorFor(ToLower(config.source)), payload)
    case (RedditData, RedditPayload(posts)) => Normalize.ProcessRedditData(config, posts)
    case (PexelsData, PexelsPayload(photos)) => Normalize.ProcessPexelsData(config.orientation, photos)
    case (LightroomData, LightroomPayload(body)) => Normalize.ProcessLightroomData(config, body, draws)
    case (NasaData, NasaPayload(items)) => Normalize.ProcessNasaData(items)
    case (ApodData, ApodPayload(entries)) => Normalize.ProcessApodData(config, entries)
    case (BingData, BingPayload(images)) => Normalize.ProcessBingData(config.orientation, images)
    case _ => []
  }

  /** The URL prefix a directory or proxy handler is mounted at. */
  function MountPoint(key: string): string { Synology.MountPath(key) + "/" }

  /**
   * The list `readdir` caches: the tree's listing under the mount point, shuffled
   * when asked; None when `getFiles` rejects.
   */
  function LocalImages(config: Config, path: string, key: string, world: World): Option<seq<Image>> {
    match LocalFiles.GetFiles(path, "/", MountPoint(key), world.tree, config.recurseLocalDirectories)
    case None => None
    case Some(listing) => Some(if config.shuffle then Shuffled(listing, world.draws) else listing)
  }

  /** What the i-th Flickr sub-source resolves with; None while it is pending. */
  function FlickrResults(subSources: seq<string>, answers: seq<Flickr.Answer>): (r: seq<Option<seq<Normalize.FlickrPhoto>>>)
    ensures |r| == |subSources|
  {
    seq(|subSources|, i requires 0 <= i < |subSources| =>
      Flickr.SubSourcePhotos(Flickr.ClassifySubSource(subSources[i]), if i < |answers| then answers[i] else Flickr.NoAnswer))
  }

  /** The photos handed to `processFlickrPhotos`: all sub-source lists joined, then shuffled when asked. */
  function FlickrJoined(config: Config, subSources: seq<string>, world: World): Option<seq<Normalize.FlickrPhoto>> {
    match Flickr.FanIn(FlickrResults(subSources, world.flickrAnswers))
    case None => None
    case Some(photos) => Some(if config.shuffle then Shuffled(photos, world.draws) else photos)
  }

  /** The iCloud session a fetch starts: the partition host, the webstream stage, the photos of any earlier session. */
  function StartedSession(old_: Option<ICloud.Session>, host: string): ICloud.Session {
    ICloud.Session(ICloud.Webstream, host, match old_ case Some(s) => s.photos case None => [])
  }

  /** `synologyMomentsState`: an unset state reads the listing like browse_item. */
  function SynologyStageOf(state: Option<Synology.Stage>): Synology.Stage {
    if state == Some(Synology.CreateSession) then Synology.CreateSession else Synology.BrowseItem
  }

  /** The request list after `request` was called with the step's next request, if any. */
  function Sent(requests: seq<Outgoing>, config: Config, next: Option<RequestParams>): seq<Outgoing> {
    match next
    case Some(params) => requests + [Outgoing(config, WithDefaultHeaders(params))]
    case None => requests
  }

  /** Every entry of `before` is still there, with the same images and expiry. */
  predicate KeepsLists(before: map<string, Entry>, after: map<string, Entry>) {
    forall k :: k in before ==> k in after && after[k].images == before[k].images && after[k].expires == before[k].expires
  }

  // ---------------------------------------------------------------------------
  // The helper's state as a value, and what each operation makes of it

  /** Everything the helper object holds, as one value: what its operations are specified against. */
  datatype HelperState = HelperState(
    cache: map<string, Entry>,
    handlers: set<string>,
    sent: seq<Wallpapers>,
    requests: seq<Outgoing>,
    firetv: Option<seq<Image>>,
    chromecast: Option<seq<Image>>,
    iCloud: Option<ICloud.Session>,
    synologyStage: Option<Synology.Stage>,
    flickrDataCache: Flickr.DataCache)

  /** The state after a response, and the list the response's normaliser returned. */
  datatype Outcome = Outcome(state: HelperState, images: seq<Image>)

  /** The WALLPAPERS notification for a list: its first maximumEntries images. */
  function Notice(config: Config, images: seq<Image>): Wallpapers {
    Wallpapers(config.source, config.orientation, SliceTo(images, config.maximumEntries))
  }

  /** `getCacheEntry`: the configuration's entry, created when missing. */
  function Looked(s: HelperState, config: Config, now: int): HelperState {
    s.(cache := s.cache[CacheKey(config) := Existing(s.cache, CacheKey(config), now)])
  }

  /** `cacheResult`: the entry takes the list and a new expiry, and the list is sent. */
  function Cached(s: HelperState, config: Config, images: seq<Image>, now: int): HelperState {
    var key := CacheKey(config);
    s.(cache := s.cache[key := Existing(s.cache, key, now).(expires := Expiry(config, now), images := images)],
       sent := s.sent + [Notice(config, images)])
  }

  /** `request`: one more request goes out, with the default headers. */
  function Requested(s: HelperState, config: Config, params: RequestParams): HelperState {
    s.(requests := s.requests + [Outgoing(config, WithDefaultHeaders(params))])
  }

  /** A bundled list: the one read earlier, or the file's contents on first use. */
  function Kept(loaded: Option<seq<Image>>, json: seq<Image>): seq<Image> {
    if loaded.Some? then loaded.value else json
  }

  /**
   * `fetchFlickrApi` once every sub-source has settled: the data cache gains the
   * looked-up records, and the list is cached when the batch is not empty.
   */
  function FlickrFetched(config: Config, subSources: seq<string>, world: World, s: HelperState): HelperState {
    match FlickrJoined(config, subSources, world)
    case None => s
    case Some(photos) =>
      var batch := SliceTo(photos, config.maximumEntries);
      var order := Flickr.SettleOrder(batch, s.flickrDataCache, world.settleDraws);
      var images := Flickr.HitImages(batch, s.flickrDataCache) +
                    Flickr.SettledImages(config, batch, world.sizeReplies, order, |order|);
      var s1 := s.(flickrDataCache := Flickr.SettledCache(config, batch, world.sizeReplies, order, |order|, s.flickrDataCache));
      if batch == [] then s1 else Cached(s1, config, images, world.now)
  }

  /** What running a plan makes of the state, once the entry is stale and the source picked. */
  function AfterPlan(config: Config, plan: Plan, world: World, s: HelperState): HelperState {
    match plan
    case LoadBundled(isFiretv) =>
      var list := if isFiretv then Kept(s.firetv, world.firetvJson) else Kept(s.chromecast, world.chromecastJson);
      var s1 := if isFiretv then s.(firetv := Some(list)) else s.(chromecast := Some(list));
      Cached(s1, config, Shuffled(list, world.draws), world.now)
    case ListDirectory(path) =>
      var s1 := s.(handlers := s.handlers + {CacheKey(config)});
      var listed := LocalImages(config, path, CacheKey(config), world);
      if listed.None? then Looked(s1, config, world.now) else Cached(s1, config, listed.value, world.now)
    case CacheDirect(image) => Cached(s, config, [image], world.now)
    case Send(params) => Requested(s, config, params)
    case StartICloud(host, params) => Requested(s.(iCloud := Some(StartedSession(s.iCloud, host))), config, params)
    case StartSynology(params) => Requested(s.(synologyStage := Some(Synology.CreateSession)), config, params)
    case FanOutFlickr(subSources) => FlickrFetched(config, subSources, world, s)
    case Abort => s
  }

  /**
   * `fetchWallpapers`: the entry is looked up (and created); a fresh one is sent
   * again; an undefined pick throws at `toLowerCase`; otherwise the plan runs.
   */
  function AfterFetch(request: Config, choice: Source, world: World, s: HelperState): HelperState {
    var config := Picked(request, choice, world);
    var s1 := Looked(s, config, world.now);
    if Fresh(s.cache, config, world.now) then s1.(sent := s1.sent + [Notice(config, s1.cache[CacheKey(config)].images)])
    else if Pick(choice, world.pickDraws).None? then s1
    else AfterPlan(config, PlanFetch(config, world.now, world.apodDate), world, s1)
  }

  /** `processiCloudData`: one step of the handshake from the current session; nothing before any iCloud fetch. */
  function ICloudOutcome(config: Config, reply: ICloud.Reply, world: World, s: HelperState): Outcome {
    if s.iCloud.None? then Outcome(s, [])
    else
      var step := ICloud.Transition(s.iCloud.value, ICloudAlbum(config.source), reply, config, world.draws);
      Outcome(s.(iCloud := Some(step.session), requests := Sent(s.requests, config, step.request)), step.images)
  }

  /**
   * `processSynologyMomentsData`: the entry gets its handshake fields and a proxy
   * handler, and the session takes one step from the current stage.
   */
  function SynologyOutcome(config: Config, url: Synology.ShareUrl, reply: Synology.Reply, world: World, s: HelperState): Outcome {
    var key := CacheKey(config);
    var entry := Existing(s.cache, key, world.now);
    var stage := SynologyStageOf(s.synologyStage);
    var step := Synology.Transition(stage, entry.aux, url, key, config, reply);
    Outcome(s.(cache := s.cache[key := entry.(aux := Some(step.aux))],
               handlers := s.handlers + {key},
               requests := Sent(s.requests, config, step.request),
               synologyStage := if step.stage == stage then s.synologyStage else Some(step.stage)),
            step.images)
  }

  /** The Met Museum join: the settled records are cached when any id was selected. */
  function MetOutcome(config: Config, objectIds: Option<seq<int>>, lookups: seq<MetMuseum.Lookup>, world: World, s: HelperState): HelperState {
    var ids := Normalize.MetMuseumObjectIds(config, objectIds, world.draws);
    if ids == [] then s
    else Cached(s, config, MetMuseum.Pushed(lookups, MetMuseum.SettleOrder(|ids|, world.settleDraws), |ids|), world.now)
  }

  /** The normaliser of every source but the Met Museum: the stateful handshakes, or a stateless list. */
  function Normalisation(config: Config, payload: Payload, world: World, s: HelperState): Outcome {
    match (ProcessorFor(ToLower(config.source)), payload)
    case (ICloudData, ICloudPayload(reply)) => ICloudOutcome(config, reply, world, s)
    case (SynologyData, SynologyPayload(url, answer)) => SynologyOutcome(config, url, answer, world, s)
    case _ => Outcome(s, Normalised(config, payload, world.draws))
  }

  /** `processResponse`: normalise, then cache and send a non-empty list. */
  function AfterResponse(config: Config, payload: Payload, world: World, s: HelperState): Outcome {
    if ProcessorFor(ToLower(config.source)) == MetMuseumData then
      Outcome(if payload.MetPayload? then MetOutcome(config, payload.objectIds, payload.lookups, world, s) else s, [])
    else
      var o := Normalisation(config, payload, world, s);
      if o.images == [] then o else Outcome(Cached(o.state, config, o.images, world.now), o.images)
  }

  class NodeHelper {
    var cache: map<string, Entry>
    var handlers: set<string>
    var sent: seq<Wallpapers>
    var requests: seq<Outgoing>
    var firetv: Option<seq<Image>>
    var chromecast: Option<seq<Image>>
    var iCloud: Option<ICloud.Session>
    var synologyStage: Option<Synology.Stage>
    var flickrDataCache: Flickr.DataCache

    /** The object's fields as one value. */
    function State(): HelperState
      reads this
    {
      HelperState(cache, handlers, sent, requests, firetv, chromecast, iCloud, synologyStage, flickrDataCache)
    }

    /** Every entry is stored under its own key, and handlers are mounted only for keys with an entry. */
    predicate Valid()
      reads this
    {
      && (forall k :: k in cache ==> cache[k].key == k)
      && handlers <= cache.Keys
    }

    /** `start`: an empty cache and no handlers. */
    constructor ()
      ensures Valid()
      ensures cache == map[] && handlers == {} && sent == [] && requests == []
      ensures firetv.None? && chromecast.None? && iCloud.None? && synologyStage.None? && flickrDataCache == map[]
    {
      cache := map[];
      handlers := {};
      sent := [];
      requests := [];
      firetv := None;
      chromecast := None;
      iCloud := None;
      synologyStage := None;
      flickrDataCache := map[];
    }

    /**
     * `getCacheEntry`: the entry for the configuration's key, created with no
     * images and expiring now when missing; no other entry changes.
     */
    method GetCacheEntry(config: Config, now: int) returns (entry: Entry)
      requires Valid()
      modifies this`cache
      ensures Valid()
      ensures cache == old(cache)[CacheKey(config) := Existing(old(cache), CacheKey(config), now)]
      ensures entry == cache[CacheKey(config)] && entry.key == CacheKey(config)
    {
      var key := CacheKey(config);
      if key !in cache {
        cache := cache[key := Entry(key, now as real, [], None)];
      } else {
        assert cache == cache[key := cache[key]];
      }
      entry := cache[key];
    }

    /** `sendResult`: notifies the first `maximumEntries` images of the entry. */
    method SendResult(config: Config, now: int)
      requires Valid()
      modifies this`cache, this`sent
      ensures Valid()
      ensures cache == old(cache)[CacheKey(config) := Existing(old(cache), CacheKey(config), now)]
      ensures sent == old(sent) + [Wallpapers(config.source, config.orientation,
                                                SliceTo(cache[CacheKey(config)].images, config.maximumEntries))]
    {
      var entry := GetCacheEntry(config, now);
      sent := sent + [Wallpapers(config.source, config.orientation, SliceTo(entry.images, config.maximumEntries))];
    }

    /** `cacheResult`: replaces the entry's images, moves its expiry 0.9 update intervals ahead, and sends. */
    method CacheResult(config: Config, images: seq<Image>, now: int)
      requires Valid()
      modifies this`cache, this`sent
      ensures Valid()
      ensures cache == old(cache)[CacheKey(config) :=
        Existing(old(cache), CacheKey(config), now).(expires := Expiry(config, now), images := images)]
      ensures sent == old(sent) + [Wallpapers(config.source, config.orientation, SliceTo(images, config.maximumEntries))]
    {
      var entry := GetCacheEntry(config, now);
      cache := cache[CacheKey(config) := entry.(expires := Expiry(config, now), images := images)];
      SendResult(config, now);
    }

    /** `request`: the parameters with the default headers go out to `fetch`. */
    method Request(config: Config, params: RequestParams)
      modifies this`requests
      ensures requests == old(requests) + [Outgoing(config, WithDefaultHeaders(params))]
    {
      requests := requests + [Outgoing(config, WithDefaultHeaders(params))];
    }

    /**
     * `fetchWallpapers`: the entry is looked up (and created when missing); a
     * fresh entry is only sent again; otherwise the source's plan runs — a
     * bundled or local list or a plain URL is cached at once, a provider gets its
     * first request, Flickr fans out, and an undefined or unusable source does
     * nothing more.
     */
    method FetchWallpapers(request: Config, choice: Source, world: World)
      requires Valid()
      modifies this
      ensures Valid()
      ensures State() == AfterFetch(request, choice, world, old(State()))
    {
      var config := Picked(request, choice, world);
      var now := world.now;
      var entry := GetCacheEntry(config, now);
      if config.maximumEntries <= |entry.images| && (now as real) < entry.expires {
        LookupIsStable(old(cache), CacheKey(config), now, now);
        SendResult(config, now);
        return;
      }
      if Pick(choice, world.pickDraws).None? {
        // `undefined.toLowerCase()` throws
        return;
      }
      RunPlan(config, PlanFetch(config, now, world.apodDate), world);
    }

    /**
     * The second half of `fetchWallpapers`, once the entry is stale and the source
     * picked: each kind of plan caches, lists, requests or does nothing.
     */
    method RunPlan(config: Config, plan: Plan, world: World)
      requires Valid()
      modifies this
      ensures Valid()
      ensures State() == AfterPlan(config, plan, world, old(State()))
    {
      if plan.LoadBundled? || plan.ListDirectory? || plan.CacheDirect? {
        CachePlan(config, plan, world);
      } else if plan.Send? || plan.StartICloud? || plan.StartSynology? {
        RequestPlan(config, plan);
      } else if plan.FanOutFlickr? {
        FetchFlickrApi(config, plan.subSources, world);
      }
    }

    /** The plans that cache a list at once: a bundled list, a local directory or a plain URL. */
    method CachePlan(config: Config, plan: Plan, world: World)
      requires Valid()
      requires plan.LoadBundled? || plan.ListDirectory? || plan.CacheDirect?
      modifies this
      ensures Valid()
      ensures State() == AfterPlan(config, plan, world, old(State()))
    {
      match plan {
        case LoadBundled(isFiretv) =>
          var images := LoadBundled(isFiretv, world);
          CacheResult(config, images, world.now);
        case ListDirectory(path) =>
          ReadDir(config, path, world);
        case CacheDirect(image) =>
          CacheResult(config, [image], world.now);
      }
    }

    /** The plans that send a provider its first request, starting a handshake where it has one. */
    method RequestPlan(config: Config, plan: Plan)
      requires plan.Send? || plan.StartICloud? || plan.StartSynology?
      modifies this`requests, this`iCloud, this`synologyStage
      ensures forall world :: State() == AfterPlan(config, plan, world, old(State()))
    {
      match plan {
        case Send(params) =>
          Request(config, params);
        case StartICloud(host, params) =>
          iCloud := Some(StartedSession(iCloud, host));
          Request(config, params);
        case StartSynology(params) =>
          synologyStage := Some(Synology.CreateSession);
          Request(config, params);
      }
    }

    /** The bundled FireTV or Chromecast list, read once and kept, shuffled for every fetch. */
    method LoadBundled(isFiretv: bool, world: World) returns (images: seq<Image>)
      modifies this`firetv, this`chromecast
      ensures isFiretv ==> firetv == Some(if old(firetv).Some? then old(firetv).value else world.firetvJson)
      ensures isFiretv ==> chromecast == old(chromecast) && images == Shuffled(firetv.value, world.draws)
      ensures !isFiretv ==> chromecast == Some(if old(chromecast).Some? then old(chromecast).value else world.chromecastJson)
      ensures !isFiretv ==> firetv == old(firetv) && images == Shuffled(chromecast.value, world.draws)
    {
      if isFiretv {
        if firetv.None? {
          firetv := Some(world.firetvJson);
        }
        var list := firetv.value;
        var a := new Image[|list|](i requires 0 <= i < |list| => list[i]);
        assert a[..] == list;
        images := Shuffle(a, world.draws);
      } else {
        if chromecast.None? {
          chromecast := Some(world.chromecastJson);
        }
        var list := chromecast.value;
        var a := new Image[|list|](i requires 0 <= i < |list| => list[i]);
        assert a[..] == list;
        images := Shuffle(a, world.draws);
      }
    }

    /**
     * `readdir`: mounts a handler for the entry's key once, then caches the
     * tree's listing (shuffled when asked) — an empty listing included. When
     * `getFiles` rejects, nothing handles the rejection: the entry stays as
     * `getCacheEntry` left it and nothing is sent.
     */
    method ReadDir(config: Config, path: string, world: World)
      requires Valid()
      modifies this`cache, this`handlers, this`sent
      ensures Valid()
      ensures handlers == old(handlers) + {CacheKey(config)}
      ensures LocalImages(config, path, CacheKey(config), world).None? ==>
        cache == old(cache)[CacheKey(config) := Existing(old(cache), CacheKey(config), world.now)] && sent == old(sent)
      ensures LocalImages(config, path, CacheKey(config), world).Some? ==>
        var images := LocalImages(config, path, CacheKey(config), world).value;
        && cache == old(cache)[CacheKey(config) :=
             Existing(old(cache), CacheKey(config), world.now).(expires := Expiry(config, world.now), images := images)]
        && sent == old(sent) + [Wallpapers(config.source, config.orientation, SliceTo(images, config.maximumEntries))]
    {
      var entry := MountHandler(config, world.now);
      var listed := LocalFiles.GetFiles(path, "/", MountPoint(entry.key), world.tree, config.recurseLocalDirectories);
      if listed.None? {
        // the rejected promise has no handler
        return;
      }
      CacheListing(config, listed.value, world);
    }

    /** The `.then` of `readdir`: the listing, shuffled when asked, is cached and sent. */
    method CacheListing(config: Config, listing: seq<Image>, world: World)
      requires Valid()
      modifies this`cache, this`sent
      ensures Valid()
      ensures var images := if config.shuffle then Shuffled(listing, world.draws) else listing;
        && cache == old(cache)[CacheKey(config) :=
             Existing(old(cache), CacheKey(config), world.now).(expires := Expiry(config, world.now), images := images)]
        && sent == old(sent) + [Wallpapers(config.source, config.orientation, SliceTo(images, config.maximumEntries))]
    {
      var images := listing;
      if config.shuffle {
        var a := new Image[|images|](i requires 0 <= i < |images| => images[i]);
        assert a[..] == images;
        images := Shuffle(a, world.draws);
      }
      CacheResult(config, images, world.now);
    }

    /**
     * `fetchFlickrApi` once every sub-source has settled: the joined photos go
     * through `processFlickrPhotos`, whose data cache is kept, and the list is
     * cached when the join resolves. A pending sub-source or an empty batch
     * leaves the entry and the notifications as they were.
     */
    method FetchFlickrApi(config: Config, subSources: seq<string>, world: World)
      requires Valid()
      modifies this`cache, this`sent, this`flickrDataCache
      ensures Valid()
      ensures State() == FlickrFetched(config, subSources, world, old(State()))
      ensures FlickrJoined(config, subSources, world).None? ==>
        cache == old(cache) && sent == old(sent) && flickrDataCache == old(flickrDataCache)
      ensures FlickrJoined(config, subSources, world).Some? ==>
        var batch := SliceTo(FlickrJoined(config, subSources, world).value, config.maximumEntries);
        var order := Flickr.SettleOrder(batch, old(flickrDataCache), world.settleDraws);
        var images := Flickr.HitImages(batch, old(flickrDataCache)) +
                      Flickr.SettledImages(config, batch, world.sizeReplies, order, |order|);
        && flickrDataCache == Flickr.SettledCache(config, batch, world.sizeReplies, order, |order|, old(flickrDataCache))
        && (batch == [] ==> cache == old(cache) && sent == old(sent))
        && (batch != [] ==>
              cache == old(cache)[CacheKey(config) :=
                Existing(old(cache), CacheKey(config), world.now).(expires := Expiry(config, world.now), images := images)] &&
              sent == old(sent) + [Wallpapers(config.source, config.orientation, SliceTo(images, config.maximumEntries))])
    {
      var joined := FlickrJoined(config, subSources, world);
      if joined.None? {
        return;
      }
      var images, resolutions, newCache :=
        Flickr.ProcessFlickrPhotos(config, joined.value, flickrDataCache, world.sizeReplies, world.settleDraws);
      flickrDataCache := newCache;
      if resolutions == 1 {
        CacheResult(config, images, world.now);
      }
    }

    /**
     * `processiCloudData`: one step of the shared-stream handshake from the
     * current session. Before any iCloud fetch the state is unset and nothing
     * happens.
     */
    method ProcessICloudData(config: Config, reply: ICloud.Reply, world: World) returns (images: seq<Image>)
      modifies this`iCloud, this`requests
      ensures old(iCloud).None? ==> iCloud == old(iCloud) && requests == old(requests) && images == []
      ensures old(iCloud).Some? ==>
        var step := ICloud.Transition(old(iCloud).value, ICloudAlbum(config.source), reply, config, world.draws);
        && iCloud == Some(step.session)
        && images == step.images
        && requests == Sent(old(requests), config, step.request)
    {
      images := [];
      if iCloud.None? {
        return;
      }
      var s := iCloud.value;
      if s.stage == ICloud.Webstream {
        var step := ICloud.StreamStep(s, ICloudAlbum(config.source), reply, config, world.draws);
        ApplyICloudStep(config, step);
      } else {
        images := ICloudAssets(s, reply, world);
      }
    }

    /** `processiCloudData` as `processResponse` calls it: only its own state and the requests change. */
    method ICloudResponse(config: Config, reply: ICloud.Reply, world: World) returns (images: seq<Image>)
      modifies this`iCloud, this`requests
      ensures old(iCloud).None? ==> iCloud == old(iCloud) && requests == old(requests) && images == []
      ensures Outcome(State(), images) == ICloudOutcome(config, reply, world, old(State()))
    {
      images := ProcessICloudData(config, reply, world);
    }

    /** The webstream stage's effect: the session moves on and its next request, if any, is sent. */
    method ApplyICloudStep(config: Config, step: ICloud.Step)
      modifies this`iCloud, this`requests
      ensures iCloud == Some(step.session) && requests == Sent(old(requests), config, step.request)
    {
      iCloud := Some(step.session);
      if step.request.Some? {
        Request(config, step.request.value);
      }
    }

    /** The webasseturls stage: derivative URLs are written into the kept photos, then the records are built. */
    method ICloudAssets(s: ICloud.Session, reply: ICloud.Reply, world: World) returns (images: seq<Image>)
      requires s.stage == ICloud.WebAssetUrls
      modifies this`iCloud
      ensures var step := ICloud.AssetStep(s, reply, world.draws);
        iCloud == Some(step.session) && images == step.images && step.request.None?
    {
      images := [];
      var updated, crashed := ICloud.ApplyAssetUrls(s.photos, reply.items, reply.locations, world.draws);
      iCloud := Some(s.(photos := updated));
      if !crashed {
        var records := ICloud.AssetImages(updated);
        if records.Some? {
          images := records.value;
        }
      }
    }

    /**
     * `processSynologyMomentsData`: creates the entry's handshake fields and
     * mounts the proxy once, then takes one step of the session from the current
     * stage; a listing is registered in the entry's image map photo by photo.
     */
    method ProcessSynologyMomentsData(config: Config, url: Synology.ShareUrl, reply: Synology.Reply, world: World)
      returns (images: seq<Image>)
      requires Valid()
      modifies this`cache, this`handlers, this`synologyStage, this`requests
      ensures Valid()
      ensures var key := CacheKey(config);
        var entry := Existing(old(cache), key, world.now);
        var step := Synology.Transition(SynologyStageOf(old(synologyStage)), entry.aux, url, key, config, reply);
        && cache == old(cache)[key := entry.(aux := Some(step.aux))]
        && handlers == old(handlers) + {key}
        && images == step.images
        && requests == Sent(old(requests), config, step.request)
        && synologyStage == (if step.stage == SynologyStageOf(old(synologyStage)) then old(synologyStage) else Some(step.stage))
      ensures KeepsLists(old(cache), cache)
    {
      var key := CacheKey(config);
      var stage := SynologyStageOf(synologyStage);
      var entry := MountHandler(config, world.now);
      var step := Synology.TakeStep(stage, entry.aux, url, key, config, reply);
      ApplySynologyStep(config, entry, stage, step);
      UpdateTwice(old(cache), key, entry, entry.(aux := Some(step.aux)));
      AuxUpdateKeepsLists(old(cache), key, world.now, Some(step.aux));
      images := step.images;
    }

    /** `processSynologyMomentsData` as `processResponse` calls it. */
    method SynologyResponse(config: Config, url: Synology.ShareUrl, reply: Synology.Reply, world: World)
      returns (images: seq<Image>)
      requires Valid()
      modifies this`cache, this`handlers, this`synologyStage, this`requests
      ensures Valid()
      ensures Outcome(State(), images) == SynologyOutcome(config, url, reply, world, old(State()))
    {
      images := ProcessSynologyMomentsData(config, url, reply, world);
    }

    /** Stores the step's handshake fields in the entry, moves to its stage when it changed, and sends its request. */
    method ApplySynologyStep(config: Config, entry: Entry, stage: Synology.Stage, step: Synology.Step)
      requires Valid() && entry.key == CacheKey(config) && entry.key in cache
      modifies this`cache, this`synologyStage, this`requests
      ensures Valid()
      ensures cache == old(cache)[entry.key := entry.(aux := Some(step.aux))]
      ensures requests == Sent(old(requests), config, step.request)
      ensures synologyStage == (if step.stage == stage then old(synologyStage) else Some(step.stage))
    {
      cache := cache[entry.key := entry.(aux := Some(step.aux))];
      if step.stage != stage {
        synologyStage := Some(step.stage);
      }
      if step.request.Some? {
        Request(config, step.request.value);
      }
    }

    /** The entry for the configuration's key, with a handler (a directory or a proxy) mounted for the key once. */
    method MountHandler(config: Config, now: int) returns (entry: Entry)
      requires Valid()
      modifies this`cache, this`handlers
      ensures Valid()
      ensures cache == old(cache)[CacheKey(config) := Existing(old(cache), CacheKey(config), now)]
      ensures handlers == old(handlers) + {CacheKey(config)}
      ensures entry == Existing(old(cache), CacheKey(config), now) && entry.key == CacheKey(config)
    {
      entry := GetCacheEntry(config, now);
      if entry.key !in handlers {
        handlers := handlers + {entry.key};
      }
    }

    /**
     * The Met Museum branch of `processResponse`: the normaliser selects the
     * object ids and returns no list itself; its join caches the records once
     * every lookup has settled, and an empty selection caches nothing.
     */
    method ProcessMetMuseumData(config: Config, objectIds: Option<seq<int>>, lookups: seq<MetMuseum.Lookup>, world: World)
      requires Valid()
      modifies this`cache, this`sent
      ensures Valid()
      ensures var ids := Normalize.MetMuseumObjectIds(config, objectIds, world.draws);
        && (ids == [] ==> cache == old(cache) && sent == old(sent))
        && (ids != [] ==>
              var pushed := MetMuseum.Pushed(lookups, MetMuseum.SettleOrder(|ids|, world.settleDraws), |ids|);
              cache == old(cache)[CacheKey(config) :=
                Existing(old(cache), CacheKey(config), world.now).(expires := Expiry(config, world.now), images := pushed)] &&
              sent == old(sent) + [Wallpapers(config.source, config.orientation, SliceTo(pushed, config.maximumEntries))])
      ensures State() == MetOutcome(config, objectIds, lookups, world, old(State()))
    {
      var ids := Normalize.MetMuseumObjectIds(config, objectIds, world.draws);
      var cached, resolutions := MetMuseum.MetJoin(ids, lookups, world.settleDraws);
      if cached.Some? {
        CacheResult(config, cached.value, world.now);
      }
    }

    /**
     * The normaliser of every other source: the stateful iCloud and Synology
     * steps, or the stateless normaliser of the payload. No entry loses its
     * images or its expiry here, and nothing is sent.
     */
    method NormaliseResponse(config: Config, payload: Payload, world: World) returns (images: seq<Image>)
      requires Valid()
      modifies this`cache, this`handlers, this`synologyStage, this`requests, this`iCloud
      ensures Valid()
      ensures var p := ProcessorFor(ToLower(config.source));
        p != ICloudData && p != SynologyData ==> images == Normalised(config, payload, world.draws)
      ensures KeepsLists(old(cache), cache)
      ensures Outcome(State(), images) == Normalisation(config, payload, world, old(State()))
    {
      NormalisationKeepsLists(config, payload, world, State());
      var p := ProcessorFor(ToLower(config.source));
      images := [];
      if p == ICloudData {
        if payload.ICloudPayload? {
          images := ICloudResponse(config, payload.stream, world);
        }
      } else if p == SynologyData {
        if payload.SynologyPayload? {
          images := SynologyResponse(config, payload.shareUrl, payload.answer, world);
        }
      } else {
        images := Normalised(config, payload, world.draws);
      }
    }

    /**
     * `processResponse`: the source's normaliser turns the payload into a list;
     * an empty list changes no entry's images or expiry and sends nothing, any
     * other list is cached and sent. Met Museum responses go to their join.
     */
    method ProcessResponse(config: Config, payload: Payload, world: World) returns (images: seq<Image>)
      requires Valid()
      modifies this
      ensures Valid()
      ensures var p := ProcessorFor(ToLower(config.source));
        p != ICloudData && p != SynologyData && p != MetMuseumData ==> images == Normalised(config, payload, world.draws)
      ensures images == [] && ProcessorFor(ToLower(config.source)) != MetMuseumData ==>
        sent == old(sent) && KeepsLists(old(cache), cache)
      ensures images != [] ==>
        && CacheKey(config) in cache
        && cache[CacheKey(config)].images == images
        && cache[CacheKey(config)].expires == Expiry(config, world.now)
        && sent == old(sent) + [Wallpapers(config.source, config.orientation, SliceTo(images, config.maximumEntries))]
      ensures ProcessorFor(ToLower(config.source)) == MetMuseumData ==> images == []
      ensures Outcome(State(), images) == AfterResponse(config, payload, world, old(State()))
    {
      ghost var s0 := State();
      images := RespondTo(config, payload, world);
      ResponseCachesWhatItReturns(config, payload, world, s0);
      EmptyResponseSendsNothing(config, payload, world, s0);
      var p := ProcessorFor(ToLower(config.source));
      if p != ICloudData && p != SynologyData && p != MetMuseumData {
        StatelessResponseKeepsHandshake(config, payload, world, s0);
      }
    }

    /** The steps of `processResponse`: the Met Museum join, or normalise and cache a non-empty list. */
    method RespondTo(config: Config, payload: Payload, world: World) returns (images: seq<Image>)
      requires Valid()
      modifies this
      ensures Valid()
      ensures Outcome(State(), images) == AfterResponse(config, payload, world, old(State()))
    {
      if ProcessorFor(ToLower(config.source)) == MetMuseumData {
        images := [];
        if payload.MetPayload? {
          ProcessMetMuseumData(config, payload.objectIds, payload.lookups, world);
        }
        return;
      }
      images := NormaliseResponse(config, payload, world);
      if |images| == 0 {
        return;
      }
      CacheResult(config, images, world.now);
    }
  }

  // ---------------------------------------------------------------------------
  // Properties of the cache

  /** A second update of the same key overrides the first. */
  lemma UpdateTwice(cache: map<string, Entry>, key: string, first: Entry, second: Entry)
    ensures cache[key := first][key := second] == cache[key := second]
  {
  }

  /** Storing handshake fields in an entry keeps every entry's images and expiry. */
  lemma AuxUpdateKeepsLists(cache: map<string, Entry>, key: string, now: int, aux: Option<Synology.Aux>)
    ensures KeepsLists(cache, cache[key := Existing(cache, key, now).(aux := aux)])
  {
  }

  /**
   * Looking an entry up again, at any later time, finds the same entry and
   * changes nothing: one entry per `source::orientation`.
   */
  lemma LookupIsStable(cache: map<string, Entry>, key: string, now: int, later: int)
    ensures var c := cache[key := Existing(cache, key, now)];
      Existing(c, key, later) == Existing(cache, key, now) && c[key := Existing(c, key, later)] == c
  {
  }

  /**
   * A newly created entry is never fresh, so the first fetch for a source and
   * orientation always runs the source's plan.
   */
  lemma NewEntryIsNotFresh(cache: map<string, Entry>, config: Config, now: int)
    requires CacheKey(config) !in cache
    ensures !Fresh(cache[CacheKey(config) := Existing(cache, CacheKey(config), now)], config, now)
  {
  }

  /**
   * A fresh entry holds at least maximumEntries images, so the list sent again
   * is exactly its first maximumEntries images.
   */
  lemma FreshResendIsFull(cache: map<string, Entry>, config: Config, now: int)
    requires Fresh(cache, config, now) && config.maximumEntries >= 0
    ensures var sentImages := SliceTo(cache[CacheKey(config)].images, config.maximumEntries);
      |sentImages| == config.maximumEntries &&
      forall i :: 0 <= i < |sentImages| ==> sentImages[i] == cache[CacheKey(config)].images[i]
  {
  }

  /**
   * A cached list stays fresh until 0.9 update intervals have passed, provided
   * it holds at least maximumEntries images.
   */
  lemma CachedListIsFreshUntilExpiry(cache: map<string, Entry>, config: Config, images: seq<Image>, now: int, later: int)
    requires config.maximumEntries <= |images| && config.updateInterval > 0
    requires now <= later && (later as real) < Expiry(config, now)
    ensures Fresh(cache[CacheKey(config) := Existing(cache, CacheKey(config), now).(expires := Expiry(config, now), images := images)],
                  config, later)
  {
  }

  // ---------------------------------------------------------------------------
  // Properties of a fetch

  /** A fresh entry is sent again, and nothing else changes: no request, no entry, no handshake. */
  lemma FreshFetchOnlyResends(request: Config, choice: Source, world: World, s: HelperState)
    requires Fresh(s.cache, Picked(request, choice, world), world.now)
    ensures var config := Picked(request, choice, world);
      AfterFetch(request, choice, world, s) == s.(sent := s.sent + [Notice(config, s.cache[CacheKey(config)].images)])
  {
    var key := CacheKey(Picked(request, choice, world));
    assert s.cache[key := s.cache[key]] == s.cache;
  }

  /**
   * An empty list of alternatives picks undefined: the entry `undefined::<orientation>`
   * is created, and then `toLowerCase` throws before anything is requested or sent.
   */
  lemma UndefinedPickOnlyCreatesEntry(request: Config, choice: Source, world: World, s: HelperState)
    requires Pick(choice, world.pickDraws).None?
    ensures var key := "undefined::" + request.orientation;
      && CacheKey(Picked(request, choice, world)) == key
      && (!Fresh(s.cache, Picked(request, choice, world), world.now) ==>
            AfterFetch(request, choice, world, s) == s.(cache := s.cache[key := Existing(s.cache, key, world.now)]))
  {
  }

  /**
   * A provider's plan sends one request (an unusable source none) and leaves every
   * list, the notifications, the handlers, the bundles and the Flickr data as
   * `getCacheEntry` left them.
   */
  lemma RequestingFetchKeepsLists(request: Config, choice: Source, world: World, s: HelperState)
    requires var config := Picked(request, choice, world);
      var plan := PlanFetch(config, world.now, world.apodDate);
      && !Fresh(s.cache, config, world.now) && Pick(choice, world.pickDraws).Some?
      && (plan.Send? || plan.StartICloud? || plan.StartSynology? || plan.Abort?)
    ensures var config := Picked(request, choice, world);
      var plan := PlanFetch(config, world.now, world.apodDate);
      var after := AfterFetch(request, choice, world, s);
      && after.cache == s.cache[CacheKey(config) := Existing(s.cache, CacheKey(config), world.now)]
      && after.sent == s.sent && after.handlers == s.handlers
      && after.firetv == s.firetv && after.chromecast == s.chromecast && after.flickrDataCache == s.flickrDataCache
      && after.requests == (if plan.Abort? then s.requests else s.requests + [Outgoing(config, WithDefaultHeaders(plan.params))])
  {
  }

  /**
   * A bundle, a directory or a plain URL is cached at once: the entry's list
   * expires 0.9 update intervals from now and is sent, and no request goes out.
   * A plain URL is one record; a bundle is a permutation of the bundled list; a
   * directory mounts its handler and caches its listing, or, when the walk
   * rejects, leaves the entry as it was looked up and sends nothing.
   */
  lemma CachingFetchRefreshesEntry(request: Config, choice: Source, world: World, s: HelperState)
    requires var config := Picked(request, choice, world);
      var plan := PlanFetch(config, world.now, world.apodDate);
      && !Fresh(s.cache, config, world.now) && Pick(choice, world.pickDraws).Some?
      && (plan.LoadBundled? || plan.ListDirectory? || plan.CacheDirect?)
    ensures var config := Picked(request, choice, world);
      var plan := PlanFetch(config, world.now, world.apodDate);
      var key := CacheKey(config);
      var after := AfterFetch(request, choice, world, s);
      var read := !plan.ListDirectory? || LocalImages(config, plan.path, key, world).Some?;
      && key in after.cache
      && after.requests == s.requests
      && (read ==>
            && after.cache[key].expires == Expiry(config, world.now)
            && after.sent == s.sent + [Notice(config, after.cache[key].images)])
      && (!read ==> after == Looked(s, config, world.now).(handlers := s.handlers + {key}))
      && (plan.CacheDirect? ==> after.cache[key].images == [plan.image])
      && (plan.ListDirectory? ==> key in after.handlers)
      && (plan.ListDirectory? && read ==> after.cache[key].images == LocalImages(config, plan.path, key, world).value)
      && (plan.LoadBundled? ==>
            multiset(after.cache[key].images) ==
            multiset(if plan.firetv then Kept(s.firetv, world.firetvJson) else Kept(s.chromecast, world.chromecastJson)))
  {
    var config := Picked(request, choice, world);
    var plan := PlanFetch(config, world.now, world.apodDate);
    if plan.LoadBundled? {
      var list := if plan.firetv then Kept(s.firetv, world.firetvJson) else Kept(s.chromecast, world.chromecastJson);
      ShuffledIsPermutation(list, world.draws);
    }
  }

  /** `after` differs from `before` at most in the entry under `key`, which it may add. */
  predicate OnlyEntry(before: map<string, Entry>, after: map<string, Entry>, key: string) {
    && before.Keys <= after.Keys <= before.Keys + {key}
    && forall k :: k in before && k != key ==> after[k] == before[k]
  }

  lemma OnlyEntryTrans(a: map<string, Entry>, b: map<string, Entry>, c: map<string, Entry>, key: string)
    requires OnlyEntry(a, b, key) && OnlyEntry(b, c, key)
    ensures OnlyEntry(a, c, key)
  {
  }

  /** `cacheResult` writes only the configuration's entry. */
  lemma CachedTouchesOnlyItsEntry(s: HelperState, config: Config, images: seq<Image>, now: int)
    ensures OnlyEntry(s.cache, Cached(s, config, images, now).cache, CacheKey(config))
  {
  }

  /** Running a plan writes only the configuration's entry. */
  lemma PlanTouchesOnlyItsEntry(config: Config, plan: Plan, world: World, s: HelperState)
    ensures OnlyEntry(s.cache, AfterPlan(config, plan, world, s).cache, CacheKey(config))
  {
    match plan
    case LoadBundled(isFiretv) =>
      var list := if isFiretv then Kept(s.firetv, world.firetvJson) else Kept(s.chromecast, world.chromecastJson);
      var s1 := if isFiretv then s.(firetv := Some(list)) else s.(chromecast := Some(list));
      CachedTouchesOnlyItsEntry(s1, config, Shuffled(list, world.draws), world.now);
    case ListDirectory(path) =>
      var images := LocalImages(config, path, CacheKey(config), world);
      if images.Some? {
        CachedTouchesOnlyItsEntry(s.(handlers := s.handlers + {CacheKey(config)}), config, images.value, world.now);
      }
    case CacheDirect(image) =>
      CachedTouchesOnlyItsEntry(s, config, [image], world.now);
    case FanOutFlickr(subSources) =>
      FlickrTouchesOnlyItsEntry(config, subSources, world, s);
    case _ =>
  }

  /** A fetch creates or rewrites the entry for its own source and orientation and no other. */
  lemma FetchTouchesOnlyItsEntry(request: Config, choice: Source, world: World, s: HelperState)
    ensures var key := CacheKey(Picked(request, choice, world));
      var after := AfterFetch(request, choice, world, s).cache;
      && after.Keys == s.cache.Keys + {key}
      && forall k :: k in s.cache && k != key ==> after[k] == s.cache[k]
  {
    var config := Picked(request, choice, world);
    var key := CacheKey(config);
    var s1 := Looked(s, config, world.now);
    assert OnlyEntry(s.cache, s1.cache, key) && key in s1.cache;
    var after := AfterFetch(request, choice, world, s);
    if Fresh(s.cache, config, world.now) || Pick(choice, world.pickDraws).None? {
      assert after.cache == s1.cache;
    } else {
      PlanTouchesOnlyItsEntry(config, PlanFetch(config, world.now, world.apodDate), world, s1);
      OnlyEntryTrans(s.cache, s1.cache, after.cache, key);
    }
  }

  /** Flickr's join writes at most the configuration's entry. */
  lemma FlickrTouchesOnlyItsEntry(config: Config, subSources: seq<string>, world: World, s: HelperState)
    ensures OnlyEntry(s.cache, FlickrFetched(config, subSources, world, s).cache, CacheKey(config))
  {
    match FlickrJoined(config, subSources, world)
    case None =>
    case Some(photos) =>
      var batch := SliceTo(photos, config.maximumEntries);
      var order := Flickr.SettleOrder(batch, s.flickrDataCache, world.settleDraws);
      var images := Flickr.HitImages(batch, s.flickrDataCache) +
                    Flickr.SettledImages(config, batch, world.sizeReplies, order, |order|);
      var s1 := s.(flickrDataCache := Flickr.SettledCache(config, batch, world.sizeReplies, order, |order|, s.flickrDataCache));
      CachedTouchesOnlyItsEntry(s1, config, images, world.now);
  }

  /**
   * A fetch sends at most one thing: a notification or a request, never both,
   * and both histories only grow.
   */
  lemma FetchSendsAtMostOnce(request: Config, choice: Source, world: World, s: HelperState)
    ensures var after := AfterFetch(request, choice, world, s);
      && |s.sent| <= |after.sent| && after.sent[..|s.sent|] == s.sent
      && |s.requests| <= |after.requests| && after.requests[..|s.requests|] == s.requests
      && |after.sent| + |after.requests| <= |s.sent| + |s.requests| + 1
  {
    var config := Picked(request, choice, world);
    var s1 := Looked(s, config, world.now);
    if !Fresh(s.cache, config, world.now) && Pick(choice, world.pickDraws).Some? {
      PlanSendsAtMostOnce(config, PlanFetch(config, world.now, world.apodDate), world, s1);
    }
  }

  /** A plan sends one notification, or one request, or nothing. */
  lemma PlanSendsAtMostOnce(config: Config, plan: Plan, world: World, s: HelperState)
    ensures var after := AfterPlan(config, plan, world, s);
      && |s.sent| <= |after.sent| && after.sent[..|s.sent|] == s.sent
      && |s.requests| <= |after.requests| && after.requests[..|s.requests|] == s.requests
      && |after.sent| + |after.requests| <= |s.sent| + |s.requests| + 1
  {
    var after := AfterPlan(config, plan, world, s);
    match plan
    case LoadBundled(isFiretv) =>
      var list := if isFiretv then Kept(s.firetv, world.firetvJson) else Kept(s.chromecast, world.chromecastJson);
      var s1 := if isFiretv then s.(firetv := Some(list)) else s.(chromecast := Some(list));
      CachedSendsOne(s1, config, Shuffled(list, world.draws), world.now);
    case ListDirectory(path) =>
      var s1 := s.(handlers := s.handlers + {CacheKey(config)});
      var listed := LocalImages(config, path, CacheKey(config), world);
      if listed.Some? {
        CachedSendsOne(s1, config, listed.value, world.now);
      }
    case CacheDirect(image) => CachedSendsOne(s, config, [image], world.now);
    case FanOutFlickr(subSources) => FlickrSendsAtMostOne(config, subSources, world, s);
    case Send(_) => assert after.sent == s.sent;
    case StartICloud(_, _) => assert after.sent == s.sent;
    case StartSynology(_) => assert after.sent == s.sent;
    case Abort =>
  }

  /** The Flickr join sends no request and at most one notification. */
  lemma FlickrSendsAtMostOne(config: Config, subSources: seq<string>, world: World, s: HelperState)
    ensures var after := FlickrFetched(config, subSources, world, s);
      && after.requests == s.requests
      && (after.sent == s.sent || exists n :: after.sent == s.sent + [n])
  {
    match FlickrJoined(config, subSources, world)
    case None =>
    case Some(photos) =>
      var batch := SliceTo(photos, config.maximumEntries);
      var order := Flickr.SettleOrder(batch, s.flickrDataCache, world.settleDraws);
      var images := Flickr.HitImages(batch, s.flickrDataCache) +
                    Flickr.SettledImages(config, batch, world.sizeReplies, order, |order|);
      var s1 := s.(flickrDataCache := Flickr.SettledCache(config, batch, world.sizeReplies, order, |order|, s.flickrDataCache));
      if batch != [] {
        CachedSendsOne(s1, config, images, world.now);
      }
  }

  /** `cacheResult` sends one notification and no request. */
  lemma CachedSendsOne(s: HelperState, config: Config, images: seq<Image>, now: int)
    ensures var after := Cached(s, config, images, now);
      after.sent == s.sent + [Notice(config, images)] && after.requests == s.requests
  {
  }

  // ---------------------------------------------------------------------------
  // Properties of a response

  /**
   * The normalisers keep every entry's images and expiry and send nothing; a
   * stateless one changes no state at all and returns its list.
   */
  lemma NormalisationKeepsLists(config: Config, payload: Payload, world: World, s: HelperState)
    ensures var o := Normalisation(config, payload, world, s);
      && KeepsLists(s.cache, o.state.cache)
      && o.state.sent == s.sent
      && (var p := ProcessorFor(ToLower(config.source));
          p != ICloudData && p != SynologyData ==> o == Outcome(s, Normalised(config, payload, world.draws)))
  {
    var p := ProcessorFor(ToLower(config.source));
    if p == SynologyData && payload.SynologyPayload? {
      var key := CacheKey(config);
      var entry := Existing(s.cache, key, world.now);
      var step := Synology.Transition(SynologyStageOf(s.synologyStage), entry.aux, payload.shareUrl, key, config, payload.answer);
      AuxUpdateKeepsLists(s.cache, key, world.now, Some(step.aux));
    }
  }

  /**
   * A non-empty list is what the entry holds afterwards, with a new expiry,
   * and it is sent; the Met Museum branch returns no list itself.
   */
  lemma ResponseCachesWhatItReturns(config: Config, payload: Payload, world: World, s: HelperState)
    ensures var o := AfterResponse(config, payload, world, s);
      && (ProcessorFor(ToLower(config.source)) == MetMuseumData ==> o.images == [])
      && (o.images != [] ==>
            && CacheKey(config) in o.state.cache
            && o.state.cache[CacheKey(config)].images == o.images
            && o.state.cache[CacheKey(config)].expires == Expiry(config, world.now)
            && o.state.sent == s.sent + [Notice(config, o.images)])
  {
    NormalisationKeepsLists(config, payload, world, s);
  }

  /** An empty list, outside the Met Museum join, changes no entry's images or expiry and sends nothing. */
  lemma EmptyResponseSendsNothing(config: Config, payload: Payload, world: World, s: HelperState)
    ensures var o := AfterResponse(config, payload, world, s);
      o.images == [] && ProcessorFor(ToLower(config.source)) != MetMuseumData ==>
        o.state.sent == s.sent && KeepsLists(s.cache, o.state.cache)
  {
    NormalisationKeepsLists(config, payload, world, s);
  }

  /**
   * A stateless source's response returns its normaliser's list and touches no
   * handshake: the requests, the handlers and the iCloud and Synology state
   * stay as they were.
   */
  lemma StatelessResponseKeepsHandshake(config: Config, payload: Payload, world: World, s: HelperState)
    requires var p := ProcessorFor(ToLower(config.source));
      p != ICloudData && p != SynologyData && p != MetMuseumData
    ensures var o := AfterResponse(config, payload, world, s);
      && o.images == Normalised(config, payload, world.draws)
      && o.state.requests == s.requests && o.state.handlers == s.handlers
      && o.state.iCloud == s.iCloud && o.state.synologyStage == s.synologyStage
      && o.state.flickrDataCache == s.flickrDataCache
  {
    NormalisationKeepsLists(config, payload, world, s);
  }

  /** A response writes at most the configuration's entry. */
  lemma ResponseTouchesOnlyItsEntry(config: Config, payload: Payload, world: World, s: HelperState)
    ensures OnlyEntry(s.cache, AfterResponse(config, payload, world, s).state.cache, CacheKey(config))
  {
    var key := CacheKey(config);
    var p := ProcessorFor(ToLower(config.source));
    if p == MetMuseumData {
      if payload.MetPayload? {
        var ids := Normalize.MetMuseumObjectIds(config, payload.objectIds, world.draws);
        if ids != [] {
          CachedTouchesOnlyItsEntry(s, config,
            MetMuseum.Pushed(payload.lookups, MetMuseum.SettleOrder(|ids|, world.settleDraws), |ids|), world.now);
        }
      }
    } else {
      var o := Normalisation(config, payload, world, s);
      NormalisationTouchesOnlyItsEntry(config, payload, world, s);
      if o.images != [] {
        CachedTouchesOnlyItsEntry(o.state, config, o.images, world.now);
        OnlyEntryTrans(s.cache, o.state.cache, Cached(o.state, config, o.images, world.now).cache, key);
      }
    }
  }

  /** The normalisers write at most the configuration's entry: Synology's handshake fields. */
  lemma NormalisationTouchesOnlyItsEntry(config: Config, payload: Payload, world: World, s: HelperState)
    ensures OnlyEntry(s.cache, Normalisation(config, payload, world, s).state.cache, CacheKey(config))
  {
    var p := ProcessorFor(ToLower(config.source));
    var o := Normalisation(config, payload, world, s);
    if p == SynologyData && payload.SynologyPayload? {
      assert o == SynologyOutcome(config, payload.shareUrl, payload.answer, world, s);
      SynologyTouchesOnlyItsEntry(config, payload.shareUrl, payload.answer, world, s);
    } else if p == ICloudData && payload.ICloudPayload? {
      assert o == ICloudOutcome(config, payload.stream, world, s);
      ICloudKeepsCache(config, payload.stream, world, s);
      OnlyEntryRefl(s.cache, CacheKey(config));
    } else {
      assert o.state == s;
      OnlyEntryRefl(s.cache, CacheKey(config));
    }
  }

  lemma OnlyEntryRefl(cache: map<string, Entry>, key: string)
    ensures OnlyEntry(cache, cache, key)
  {
  }

  /** An iCloud step changes the session and the requests and no entry. */
  lemma ICloudKeepsCache(config: Config, reply: ICloud.Reply, world: World, s: HelperState)
    ensures ICloudOutcome(config, reply, world, s).state.cache == s.cache
  {
  }

  /** A Synology step writes only the handshake fields of the configuration's entry. */
  lemma SynologyTouchesOnlyItsEntry(config: Config, url: Synology.ShareUrl, reply: Synology.Reply, world: World, s: HelperState)
    ensures OnlyEntry(s.cache, SynologyOutcome(config, url, reply, world, s).state.cache, CacheKey(config))
  {
    var key := CacheKey(config);
    var after := SynologyOutcome(config, url, reply, world, s).state.cache;
    assert after == s.cache[key := Existing(s.cache, key, world.now).(aux := after[key].aux)];
  }
}
