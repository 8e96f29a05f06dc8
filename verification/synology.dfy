/**
 * The Synology Moments handshake of `processSynologyMomentsData`: the first
 * reply hands out a session cookie (create_session → browse_item), the second
 * lists the album, and every listed photo gets an `image_map` entry from its
 * proxied path `/<id>` to the thumbnail query on the Synology server.
 */
module Synology {
  import opened Js
  import opened Records

  const ModuleName := "MMM-Wallpaper"

  datatype Stage = CreateSession | BrowseItem

  /** The fields the handshake adds to the cache entry: `image_map` and `session_cookie`. */
  datatype Aux = Aux(imageMap: map<string, string>, sessionCookie: Option<string>)

  /** The parts of `new URL(source)` the handshake reads. */
  datatype ShareUrl = ShareUrl(protocol: string, host: string, pathname: string)

  datatype Item = Item(id: string, thumbnailCacheKey: string)

  /** The reply: its status, the `set-cookie` header if present, and `data.list` of a listing. */
  datatype Reply = Reply(status: int, setCookie: Option<seq<string>>, list: seq<Item>)

  datatype Step = Step(stage: Stage, aux: Aux, request: Option<RequestParams>, images: seq<Image>)

  // ---------------------------------------------------------------------------
  // The share URL

  /** `s.lastIndexOf(c)`: the last position of `c`, or -1. */
  function LastIndexOf(s: string, c: char): (r: int)
    ensures -1 <= r < |s|
    ensures r >= 0 ==> s[r] == c
    ensures forall i :: r < i < |s| ==> s[i] != c
  {
    if s == [] then -1
    else if s[|s| - 1] == c then |s| - 1
    else LastIndexOf(s[..|s| - 1], c)
  }

  /** `${pathname.substring(0, last_slash)}/webapi/entry.cgi`. */
  function ApiPath(url: ShareUrl): string {
    Substring(url.pathname, 0, LastIndexOf(url.pathname, '/')) + "/webapi/entry.cgi"
  }

  function ApiUrl(url: ShareUrl): string {
    url.protocol + "//" + url.host + ApiPath(url)
  }

  /** `pathname.substring(last_slash + 1)`: the sharing passphrase. */
  function Album(url: ShareUrl): string {
    SubstringFrom(url.pathname, LastIndexOf(url.pathname, '/') + 1)
  }

  /**
   * The share path splits at its last slash: the album is the part after it and
   * holds no slash, and the API sits under the part before it.
   */
  lemma AlbumSplitsAtLastSlash(url: ShareUrl)
    requires '/' in url.pathname
    ensures '/' !in Album(url)
    ensures var base := url.pathname[..LastIndexOf(url.pathname, '/')];
      url.pathname == base + "/" + Album(url) && ApiPath(url) == base + "/webapi/entry.cgi"
  {
    var last := LastIndexOf(url.pathname, '/');
    var i :| 0 <= i < |url.pathname| && url.pathname[i] == '/';
    assert last >= 0;
    var album := Album(url);
    assert album == url.pathname[last + 1..];
    forall k | 0 <= k < |album| ensures album[k] != '/' {
      assert album[k] == url.pathname[last + 1 + k];
    }
    assert url.pathname == url.pathname[..last] + [url.pathname[last]] + url.pathname[last + 1..];
  }

  // ---------------------------------------------------------------------------
  // The session

  /** `headers["set-cookie"][0].split(";")[0]`: the first cookie's name=value pair. */
  function SessionCookie(header: string): (r: string)
    ensures ';' !in r
    ensures |r| <= |header| && r == header[..|r|]
    ensures |r| < |header| ==> header[|r|] == ';'
  {
    var parts := Split(header, ';');
    CookieIsPrefix(header);
    parts[0]
  }

  lemma {:induction false} CookieIsPrefix(s: string)
    ensures var p := Split(s, ';')[0];
      |p| <= |s| && p == s[..|p|] && (|p| < |s| ==> s[|p|] == ';')
  {
    if s != [] && s[0] != ';' {
      CookieIsPrefix(s[1..]);
      var q := Split(s[1..], ';')[0];
      assert Split(s, ';')[0] == [s[0]] + q;
      assert s[1..][..|q|] == s[1..|q| + 1];
    }
  }

  const BrowseFields := "additional=[\"thumbnail\",\"resolution\",\"orientation\",\"video_convert\",\"video_meta\"]&offset=0&limit="
  const BrowseCall := "\"&api=\"SYNO.Photo.Browse.Item\"&method=\"list\"&version=3"

  /** The form-encoded listing query for `limit` photos of an album. */
  function BrowseBody(limit: int, album: string): string {
    BrowseFields + IntToString(limit) + "&passphrase=\"" + album + BrowseCall
  }

  function BrowseParams(url: ShareUrl, config: Config, cookie: string): RequestParams {
    RequestParams(Post, ApiUrl(url), Some(map["cookie" := cookie, "x-syno-sharing" := Album(url)]),
                  Text(BrowseBody(config.maximumEntries, Album(url))))
  }

  // ---------------------------------------------------------------------------
  // The listing

  /** The query parameters after the cache key, up to the opening quote of `_sharing_id`. */
  const ThumbnailQuery := "&type=\"unit\"&size=\"xl\"&api=\"SYNO.Photo.Thumbnail\"&method=\"get\"&version=1&_sharing_id=\""

  /** The thumbnail query the proxy forwards for one listed photo. */
  function ThumbnailPath(apiPath: string, album: string, item: Item): string {
    apiPath + "?id=" + item.id + "&cache_key=" + item.thumbnailCacheKey + ThumbnailQuery + album + "\"&passphrase=\"" + album + "\""
  }

  /** Where the entry's proxy is mounted: `/${name}/images/${key}`. */
  function MountPath(key: string): string { "/" + ModuleName + "/images/" + key }

  /** The map after the updates `m[keys[i]] := values[i]` for i < n, in order. */
  function Updated<K(==), V>(m: map<K, V>, keys: seq<K>, values: seq<V>, n: nat): map<K, V>
    requires n <= |keys| == |values|
  {
    if n == 0 then m else Updated(m, keys, values, n - 1)[keys[n - 1] := values[n - 1]]
  }

  /** Every updated key is present afterwards and no key is lost. */
  lemma {:induction false} UpdatedKeys<K, V>(m: map<K, V>, keys: seq<K>, values: seq<V>, n: nat)
    requires n <= |keys| == |values|
    ensures var r := Updated(m, keys, values, n);
      m.Keys <= r.Keys && forall i :: 0 <= i < n ==> keys[i] in r
  {
    if n > 0 {
      UpdatedKeys(m, keys, values, n - 1);
    }
  }

  /** A key that is not updated again later keeps the value of its own update. */
  lemma {:induction false} UpdatedLastWins<K, V>(m: map<K, V>, keys: seq<K>, values: seq<V>, n: nat, i: nat)
    requires i < n <= |keys| == |values|
    requires forall j :: i < j < n ==> keys[j] != keys[i]
    ensures var r := Updated(m, keys, values, n);
      keys[i] in r && r[keys[i]] == values[i]
  {
    if i < n - 1 {
      UpdatedLastWins(m, keys, values, n - 1, i);
    }
  }

  /** `/${i.id}` for each listed photo: the path the proxy sees. */
  function ProxiedPaths(list: seq<Item>): (r: seq<string>)
    ensures |r| == |list| && forall i :: 0 <= i < |list| ==> r[i] == "/" + list[i].id
  {
    seq(|list|, i requires 0 <= i < |list| => "/" + list[i].id)
  }

  function ThumbnailPaths(apiPath: string, album: string, list: seq<Item>): (r: seq<string>)
    ensures |r| == |list| && forall i :: 0 <= i < |list| ==> r[i] == ThumbnailPath(apiPath, album, list[i])
  {
    seq(|list|, i requires 0 <= i < |list| => ThumbnailPath(apiPath, album, list[i]))
  }

  /** The image_map after the first `n` listed photos have been registered, later ids overwriting earlier ones. */
  function Registered(imageMap: map<string, string>, apiPath: string, album: string, list: seq<Item>, n: nat): map<string, string>
    requires n <= |list|
  {
    Updated(imageMap, ProxiedPaths(list), ThumbnailPaths(apiPath, album, list), n)
  }

  /** The images of the first `n` listed photos: only a proxied URL each. */
  function ListedImages(key: string, list: seq<Item>, n: nat): (r: seq<Image>)
    requires n <= |list|
    ensures |r| == n
  {
    if n == 0 then [] else ListedImages(key, list, n - 1) + [ProxiedImage(key, list[n - 1])]
  }

  /** `{url: `/${name}/images/${key}/${i.id}`}`. */
  function ProxiedImage(key: string, item: Item): Image {
    Image(Some(MountPath(key) + "/" + item.id), None, [])
  }

  /**
   * `body.data.list.map(…)`: each photo's thumbnail path is recorded under
   * `/<id>` in the image map (written in place, one photo at a time) and the
   * photo's proxied URL is returned.
   */
  method RegisterListing(imageMap: map<string, string>, apiPath: string, album: string, key: string, list: seq<Item>)
    returns (newMap: map<string, string>, images: seq<Image>)
    ensures newMap == Registered(imageMap, apiPath, album, list, |list|)
    ensures images == ListedImages(key, list, |list|)
  {
    newMap := imageMap;
    images := [];
    var n := 0;
    while n < |list|
      invariant 0 <= n <= |list|
      invariant newMap == Registered(imageMap, apiPath, album, list, n)
      invariant images == ListedImages(key, list, n)
    {
      var item := list[n];
      RegisteredStep(imageMap, apiPath, album, list, n);
      newMap := newMap["/" + item.id := ThumbnailPath(apiPath, album, item)];
      images := images + [ProxiedImage(key, item)];
      n := n + 1;
    }
  }

  /** Registering one more photo writes its thumbnail path under its proxied path. */
  lemma RegisteredStep(imageMap: map<string, string>, apiPath: string, album: string, list: seq<Item>, n: nat)
    requires n < |list|
    ensures Registered(imageMap, apiPath, album, list, n + 1)
      == Registered(imageMap, apiPath, album, list, n)["/" + list[n].id := ThumbnailPath(apiPath, album, list[n])]
  {
  }

  /** Distinct ids give distinct proxied paths. */
  lemma ProxiedPathsDistinct(a: string, b: string)
    requires a != b
    ensures "/" + a != "/" + b
  {
    assert ("/" + a)[1..] == a && ("/" + b)[1..] == b;
  }

  /** The i-th returned image is the proxied URL of the i-th listed photo. */
  lemma {:induction false} ListedImagesUrls(key: string, list: seq<Item>, n: nat)
    requires n <= |list|
    ensures forall i :: 0 <= i < n ==>
      ListedImages(key, list, n)[i] == Image(Some(MountPath(key) + "/" + list[i].id), None, [])
  {
    if n > 0 {
      ListedImagesUrls(key, list, n - 1);
    }
  }

  // ---------------------------------------------------------------------------
  // The transition

  /** The entry's handshake fields, created empty on first use. */
  function InitAux(aux: Option<Aux>): Aux {
    match aux
    case Some(a) => a
    case None => Aux(map[], None)
  }

  /**
   * `processSynologyMomentsData` from the given stage: a failed status changes
   * nothing beyond creating the entry's fields; in create_session a `set-cookie`
   * header moves to browse_item and POSTs the listing query (an empty header list
   * throws and changes nothing more); any other stage reads the listing.
   */
  function Transition(stage: Stage, aux: Option<Aux>, url: ShareUrl, key: string, config: Config, reply: Reply): Step {
    var a := InitAux(aux);
    if reply.status != 200 then Step(stage, a, None, [])
    else if stage == CreateSession then
      match reply.setCookie
      case None => Step(stage, a, None, [])
      case Some(cookies) =>
        if cookies == [] then Step(stage, a, None, [])
        else
          var cookie := SessionCookie(cookies[0]);
          Step(BrowseItem, a.(sessionCookie := Some(cookie)), Some(BrowseParams(url, config, cookie)), [])
    else
      Step(stage, a.(imageMap := Registered(a.imageMap, ApiPath(url), Album(url), reply.list, |reply.list|)), None,
           ListedImages(key, reply.list, |reply.list|))
  }

  /**
   * One step of the session as `processSynologyMomentsData` takes it: the image
   * map of a listing is filled in place, photo by photo.
   */
  method TakeStep(stage: Stage, fields: Option<Aux>, url: ShareUrl, key: string, config: Config, reply: Reply) returns (step: Step)
    ensures step == Transition(stage, fields, url, key, config, reply)
  {
    var aux := InitAux(fields);
    step := Step(stage, aux, None, []);
    if reply.status != 200 {
      return;
    }
    if stage == CreateSession {
      if reply.setCookie.Some? && reply.setCookie.value != [] {
        var cookie := SessionCookie(reply.setCookie.value[0]);
        step := Step(BrowseItem, aux.(sessionCookie := Some(cookie)), Some(BrowseParams(url, config, cookie)), []);
      }
    } else {
      var newMap, images := RegisterListing(aux.imageMap, ApiPath(url), Album(url), key, reply.list);
      step := Step(stage, aux.(imageMap := newMap), None, images);
    }
  }

  /**
   * A successful first reply with a cookie starts browsing: the session cookie is
   * the first cookie's name=value pair and the listing POST carries it together
   * with the album as the sharing header.
   */
  lemma CookieStartsBrowsing(aux: Option<Aux>, url: ShareUrl, key: string, config: Config, reply: Reply)
    requires reply.status == 200 && reply.setCookie.Some? && reply.setCookie.value != []
    ensures var step := Transition(CreateSession, aux, url, key, config, reply);
      && step.stage == BrowseItem
      && step.aux.sessionCookie.Some?
      && StartsWith(reply.setCookie.value[0], step.aux.sessionCookie.value)
      && ';' !in step.aux.sessionCookie.value
      && step.aux.imageMap == InitAux(aux).imageMap
      && step.request.Some?
      && step.request.value.verb == Post
      && step.request.value.url == ApiUrl(url)
      && step.request.value.headers == Some(map["cookie" := step.aux.sessionCookie.value, "x-syno-sharing" := Album(url)])
      && step.request.value.body == Text(BrowseBody(config.maximumEntries, Album(url)))
      && step.images == []
  {
  }

  /** A failed reply leaves the stage and any existing handshake fields as they were. */
  lemma FailedReplyChangesNothing(stage: Stage, aux: Aux, url: ShareUrl, key: string, config: Config, reply: Reply)
    requires reply.status != 200
    ensures Transition(stage, Some(aux), url, key, config, reply) == Step(stage, aux, None, [])
  {
  }

  /**
   * In browse_item the stage stays, the cookie is kept, one image per listed photo
   * is returned and every returned URL resolves through the image map.
   */
  lemma BrowseFillsImageMap(aux: Option<Aux>, url: ShareUrl, key: string, config: Config, reply: Reply)
    requires reply.status == 200
    ensures var step := Transition(BrowseItem, aux, url, key, config, reply);
      && step.stage == BrowseItem
      && step.aux.sessionCookie == InitAux(aux).sessionCookie
      && step.request.None?
      && Fills(InitAux(aux).imageMap, step.aux.imageMap, ApiPath(url), Album(url), key, reply.list, step.images)
  {
    ListingFillsMap(InitAux(aux).imageMap, ApiPath(url), Album(url), key, reply.list);
  }

  /**
   * A listing of photos: one image per photo, the earlier paths kept, every
   * image's URL resolving through the map, and a photo listed once mapped to its
   * thumbnail.
   */
  predicate Fills(before: map<string, string>, after: map<string, string>, apiPath: string, album: string,
                  key: string, list: seq<Item>, images: seq<Image>) {
    && |images| == |list|
    && before.Keys <= after.Keys
    && (forall i :: 0 <= i < |list| ==>
         images[i].url == Some(MountPath(key) + "/" + list[i].id) && "/" + list[i].id in after)
    && forall i :: 0 <= i < |list| && (forall j :: i < j < |list| ==> list[j].id != list[i].id) ==>
         after["/" + list[i].id] == ThumbnailPath(apiPath, album, list[i])
  }

  lemma ListingFillsMap(imageMap: map<string, string>, apiPath: string, album: string, key: string, list: seq<Item>)
    ensures Fills(imageMap, Registered(imageMap, apiPath, album, list, |list|), apiPath, album, key, list,
                  ListedImages(key, list, |list|))
  {
    var keys := ProxiedPaths(list);
    var values := ThumbnailPaths(apiPath, album, list);
    UpdatedKeys(imageMap, keys, values, |list|);
    ListedImagesUrls(key, list, |list|);
    forall i | 0 <= i < |list| && (forall j :: i < j < |list| ==> list[j].id != list[i].id)
      ensures Updated(imageMap, keys, values, |list|)[keys[i]] == values[i]
    {
      forall j | i < j < |list| ensures keys[j] != keys[i] {
        ProxiedPathsDistinct(list[j].id, list[i].id);
      }
      UpdatedLastWins(imageMap, keys, values, |list|, i);
    }
  }
}
