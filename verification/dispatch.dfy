/**
 * Source dispatch in `fetchWallpapers` and `processResponse`: an ordered chain of
 * exact and prefix tests on the lower-cased source descriptor picks the provider,
 * and the provider's first request is built from the descriptor as written.
 */
module Dispatch {
  import opened Js
  import opened Helpers
  import opened Records

  datatype Provider =
    | FireTv | Chromecast | LocalDirectory | DirectUrl | Subreddit | RedditUser | Pexels
    | ICloud | FlickrApi | Lightroom | SynologyMoments | MetMuseum | Nasa | Apod | Bing

  /** The prefixes of the source descriptors, as the dispatch chains test them. */
  const LocalPrefix := "local:"
  const HttpPrefix := "http://"
  const HttpsPrefix := "https://"
  const SubredditPrefix := "/r/"
  const UserPrefix := "/user/"
  const ICloudPrefix := "icloud:"
  const FlickrPrefix := "flickr-api:"
  const LightroomPrefix := "lightroom:"
  const SynologyPrefix := "synology-moments:"
  const MetMuseumPrefix := "metmuseum:"
  const NasaPrefix := "nasa:"

  /** The provider `fetchWallpapers` picks for a lower-cased source; the first test that holds wins. */
  function Classify(source: string): Provider {
    if source == "firetv" then FireTv
    else if source == "chromecast" then Chromecast
    else if StartsWith(source, LocalPrefix) then LocalDirectory
    else if StartsWith(source, HttpPrefix) || StartsWith(source, HttpsPrefix) then DirectUrl
    else if StartsWith(source, SubredditPrefix) then Subreddit
    else if StartsWith(source, UserPrefix) then RedditUser
    else if source == "pexels" then Pexels
    else if StartsWith(source, ICloudPrefix) then ICloud
    else if StartsWith(source, FlickrPrefix) then FlickrApi
    else if StartsWith(source, LightroomPrefix) then Lightroom
    else if StartsWith(source, SynologyPrefix) then SynologyMoments
    else if StartsWith(source, MetMuseumPrefix) then MetMuseum
    else if StartsWith(source, NasaPrefix) then Nasa
    else if source == "apod" || source == "apodhd" then Apod
    else Bing
  }

  datatype Processor =
    | RedditData | ICloudData | PexelsData | LightroomData | SynologyData
    | MetMuseumData | NasaData | ApodData | BingData

  /** The normaliser `processResponse` picks for a lower-cased source, in its own test order. */
  function ProcessorFor(source: string): Processor {
    if StartsWith(source, SubredditPrefix) || StartsWith(source, UserPrefix) then RedditData
    else if StartsWith(source, ICloudPrefix) then ICloudData
    else if source == "pexels" then PexelsData
    else if StartsWith(source, LightroomPrefix) then LightroomData
    else if StartsWith(source, SynologyPrefix) then SynologyData
    else if StartsWith(source, MetMuseumPrefix) then MetMuseumData
    else if StartsWith(source, NasaPrefix) then NasaData
    else if source == "apod" || source == "apodhd" then ApodData
    else BingData
  }

  /** The normaliser a provider's responses are meant for; None for providers that send no request. */
  function ExpectedProcessor(p: Provider): Option<Processor> {
    match p
    case Subreddit => Some(RedditData)
    case RedditUser => Some(RedditData)
    case Pexels => Some(PexelsData)
    case ICloud => Some(ICloudData)
    case Lightroom => Some(LightroomData)
    case SynologyMoments => Some(SynologyData)
    case MetMuseum => Some(MetMuseumData)
    case Nasa => Some(NasaData)
    case Apod => Some(ApodData)
    case Bing => Some(BingData)
    case _ => None
  }

  /**
   * The two dispatch chains agree: whenever `fetchWallpapers` sends a request for
   * a provider, `processResponse` hands the response to that provider's normaliser,
   * although the two chains test in different orders.
   */
  lemma DispatchAgreesWithProcessing(source: string)
    requires ExpectedProcessor(Classify(source)).Some?
    ensures ProcessorFor(source) == ExpectedProcessor(Classify(source)).value
  {
    var p := Classify(source);
    if p == Pexels || p == Apod {
      assert !StartsWith(source, SubredditPrefix) && !StartsWith(source, UserPrefix);
      assert !StartsWith(source, ICloudPrefix) && !StartsWith(source, LightroomPrefix);
      assert !StartsWith(source, SynologyPrefix) && !StartsWith(source, MetMuseumPrefix);
      assert !StartsWith(source, NasaPrefix);
    }
  }

  // ---------------------------------------------------------------------------
  // Cache buster

  const BusterParam := "mmm-wallpaper-ts="

  /** `${url}${url.indexOf("?") != -1 ? "&" : "?"}mmm-wallpaper-ts=${Date.now()}`. */
  function AddCacheBuster(url: string, now: int): string {
    url + (if '?' in url then "&" else "?") + BusterParam + IntToString(now)
  }

  /**
   * The buster keeps the URL as a prefix, opens a query with `?` only when the URL
   * has none yet (otherwise joins it with `&`), and the timestamp reads back.
   */
  lemma CacheBusterShape(url: string, now: nat)
    ensures var r := AddCacheBuster(url, now);
      && StartsWith(r, url)
      && r[|url|] == (if '?' in url then '&' else '?')
      && '?' in r
      && r[|url| + 1 + |BusterParam|..] == NatToString(now)
      && DecimalValue(r[|url| + 1 + |BusterParam|..]) == now
  {
    var r := AddCacheBuster(url, now);
    assert r[..|url|] == url;
    assert r[|url|] in r;
    assert r[|url| + 1 + |BusterParam|..] == NatToString(now);
    DecimalOfNatToString(now);
  }

  // ---------------------------------------------------------------------------
  // Provider requests

  const UserAgent := "MagicMirror:MMM-Wallpaper:v1.0 (by /u/kolbyhack)"
  const StreamCtagBody := "{\"streamCtag\":null}"

  /** `album[0] === "A" ? album[1] : album.substring(1, 3)`; None where `album[1]` is undefined and b62decode throws. */
  function PartitionFragment(album: string): Option<string> {
    if album != [] && album[0] == 'A' then
      (if |album| >= 2 then Some([album[1]]) else None)
    else Some(Substring(album, 1, 3))
  }

  function ICloudAlbum(source: string): string { Trim(SubstringFrom(source, 7)) }

  /** `p${partition}-sharedstreams.icloud.com` for the partition decoded from the album token. */
  function PartitionHost(fragment: string): string {
    "p" + IntToString(B62Decode(fragment)) + "-sharedstreams.icloud.com"
  }

  /**
   * An album token `A<digit>...` names partition `<digit>`: its host is
   * `p<digit>-sharedstreams.icloud.com`, with no zero padding, since the padding
   * branch of `b62decode` tests `length` on a number.
   */
  lemma SingleDigitPartitionHost(album: string)
    requires |album| >= 2 && album[0] == 'A' && '0' <= album[1] <= '9'
    ensures PartitionFragment(album) == Some([album[1]])
    ensures PartitionHost([album[1]]) == "p" + [album[1]] + "-sharedstreams.icloud.com"
  {
    var c := album[1];
    assert [c][..0] == [];
    assert B62Decode([c]) == c as int - '0' as int;
    assert DigitChar(c as int - '0' as int) == c;
  }

  /** The path of the shared-stream handshake's first request, below the album. */
  const WebstreamPath := "/sharedstreams/webstream"

  /** The POST that starts (or, after a redirect, restarts) the shared-stream handshake. */
  function WebstreamParams(host: string, album: string, headers: Option<map<string, string>>): RequestParams {
    RequestParams(Post, HttpsPrefix + host + "/" + album + WebstreamPath, headers, Text(StreamCtagBody))
  }

  /** The start date of the APOD query, already moved back by maximumEntries days. */
  datatype CalendarDate = CalendarDate(year: int, month: int, day: int)

  /** `${getFullYear()}-${z(getMonth() + 1)}-${z(getDate())}` with `month` counted from 0. */
  function ApodStartDate(d: CalendarDate): string {
    IntToString(d.year) + "-" + Z(d.month + 1) + "-" + Z(d.day)
  }

  /** `args[i]` of the comma-split Met Museum arguments, "undefined" past the end. */
  function Arg(args: seq<string>, i: nat): string {
    if i < |args| then args[i] else "undefined"
  }

  /** `config.source.split(":")[1]`. */
  function NasaSearchTerm(source: string): Option<string> {
    var parts := Split(source, ':');
    if |parts| > 1 then Some(parts[1]) else None
  }

  /** The provider endpoints the first requests go to. */
  const RedditBase := "https://www.reddit.com"
  const PexelsSearch := "https://api.pexels.com/v1/search?query="
  const MetSearch := "https://collectionapi.metmuseum.org/public/collection/v1/search?hasImages=true&departmentId="
  const NasaSearch := "https://images-api.nasa.gov/search?q="
  const ApodQuery := "https://api.nasa.gov/planetary/apod?api_key="
  const BingArchive := "https://www.bing.com/HPImageArchive.aspx?format=js&idx=0&n="

  /** What `fetchWallpapers` does once the cache could not answer. */
  datatype Plan =
    | LoadBundled(firetv: bool)                 // firetv.json / chromecast.json, shuffled
    | ListDirectory(path: string)               // readdir over the local tree
    | CacheDirect(image: Image)                 // a plain URL is cached as it is
    | Send(params: RequestParams)               // one request, answered through processResponse
    | StartICloud(host: string, params: RequestParams)
    | StartSynology(params: RequestParams)
    | FanOutFlickr(subSources: seq<string>)
    | Abort                                     // nothing is requested (an error was logged or thrown)

  /** The plan for a configuration whose source is not fresh in the cache. */
  function PlanFetch(config: Config, now: int, apodDate: CalendarDate): Plan {
    var src := config.source;
    match Classify(ToLower(src))
    case FireTv => LoadBundled(true)
    case Chromecast => LoadBundled(false)
    case LocalDirectory => ListDirectory(Trim(SubstringFrom(src, 6)))
    case DirectUrl =>
      var url := if config.addCacheBuster then AddCacheBuster(src, now) else src;
      CacheDirect(Image(Some(url), Some(src), []))
    case Subreddit =>
      Send(RequestParams(Get, RedditBase + src + "/hot.json", Some(map["user-agent" := UserAgent]), NoBody))
    case RedditUser =>
      Send(RequestParams(Get, RedditBase + src + ".json", Some(map["user-agent" := UserAgent]), NoBody))
    case Pexels =>
      Send(RequestParams(Get, PexelsSearch + config.pexelsSearch,
                         Some(map["Authorization" := config.pexelsKey]), NoBody))
    case ICloud =>
      var album := ICloudAlbum(src);
      (match PartitionFragment(album)
       case None => Abort
       case Some(fragment) =>
         var host := PartitionHost(fragment);
         StartICloud(host, WebstreamParams(host, album,
           Some(map["Content-Type" := "text/plain", "User-Agent" := UserAgent]))))
    case FlickrApi => FanOutFlickr(Split(SubstringFrom(src, 11), ';'))
    case Lightroom => Send(RequestParams(Get, "https://" + Trim(SubstringFrom(src, 10)), None, NoBody))
    case SynologyMoments => StartSynology(RequestParams(Get, Trim(SubstringFrom(src, 17)), None, NoBody))
    case MetMuseum =>
      var args := Split(SubstringFrom(src, 10), ',');
      Send(RequestParams(Get,
        MetSearch
          + Arg(args, 0) + "&isHighlight=" + Arg(args, 1) + "&q=" + Arg(args, 2), None, NoBody))
    case Nasa =>
      (match NasaSearchTerm(src)
       case Some(term) =>
         if term == "" then Abort
         else Send(RequestParams(Get, NasaSearch + term, None, NoBody))
       case None => Abort)
    case Apod =>
      Send(RequestParams(Get, ApodQuery + config.nasaApiKey
        + "&start_date=" + ApodStartDate(apodDate), None, NoBody))
    case Bing =>
      Send(RequestParams(Get, BingArchive
        + IntToString(config.maximumEntries), None, NoBody))
  }

  /**
   * A NASA source sends a request exactly when its descriptor has a non-empty
   * second colon-separated field; the query is that field.
   */
  lemma NasaNeedsSearchTerm(config: Config, now: int, apodDate: CalendarDate)
    requires Classify(ToLower(config.source)) == Nasa
    ensures var plan := PlanFetch(config, now, apodDate);
      && (plan.Send? <==> NasaSearchTerm(config.source).Some? && NasaSearchTerm(config.source).value != "")
      && (!plan.Send? ==> plan.Abort?)
      && (plan.Send? ==> plan.params.url == NasaSearch + NasaSearchTerm(config.source).value)
  {
  }

  /**
   * Every request plan for a source that is not direct is answered by the matching
   * normaliser; the plan for a direct URL is one record captioned with the source.
   */
  lemma PlanMatchesProvider(config: Config, now: int, apodDate: CalendarDate)
    ensures var plan := PlanFetch(config, now, apodDate);
      var p := Classify(ToLower(config.source));
      && (plan.Send? || plan.StartICloud? || plan.StartSynology? ==> ExpectedProcessor(p).Some?)
      && (plan.CacheDirect? <==> p == DirectUrl)
      && (plan.CacheDirect? ==>
            plan.image.caption == Some(config.source) && StartsWith(plan.image.url.value, config.source))
  {
    var plan := PlanFetch(config, now, apodDate);
    if Classify(ToLower(config.source)) == DirectUrl {
      if config.addCacheBuster {
        var r := AddCacheBuster(config.source, now);
        assert r[..|config.source|] == config.source;
      }
    } else {
      assert !plan.CacheDirect?;
    }
  }
}
