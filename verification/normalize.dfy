/**
 * The stateless response normalisers of node_helper.js: each turns an already
 * parsed provider payload into a list of `{url, caption, variants}` records.
 */
module Normalize {
  import opened Js
  import opened Helpers
  import opened Records

  // ---------------------------------------------------------------------------
  // Bing

  datatype BingImage = BingImage(urlbase: string, copyright: Option<string>)

  /** `_${width}x${height}.jpg`: 1080x1920 for a vertical display, 1920x1080 otherwise. */
  function BingSuffix(orientation: string): string {
    if orientation == "vertical" then "_1080x1920.jpg" else "_1920x1080.jpg"
  }

  function BingRecord(image: BingImage, suffix: string): Image {
    Image(Some("https://www.bing.com" + image.urlbase + suffix), image.copyright, [])
  }

  /** `processBingData`: one record per archive entry, in order. */
  function ProcessBingData(orientation: string, images: seq<BingImage>): (r: seq<Image>)
    ensures |r| == |images|
  {
    seq(|images|, i requires 0 <= i < |images| => BingRecord(images[i], BingSuffix(orientation)))
  }

  /**
   * Every Bing record is the archive entry's base path on www.bing.com with the
   * orientation's fixed resolution suffix, and keeps the entry's copyright as caption.
   */
  lemma BingUrlsCarrySuffix(orientation: string, images: seq<BingImage>)
    ensures var r := ProcessBingData(orientation, images);
      forall i :: 0 <= i < |r| ==>
        && r[i].url == Some("https://www.bing.com" + images[i].urlbase + BingSuffix(orientation))
        && StartsWith(r[i].url.value, "https://www.bing.com" + images[i].urlbase)
        && EndsWith(r[i].url.value, if orientation == "vertical" then "_1080x1920.jpg" else "_1920x1080.jpg")
        && r[i].caption == images[i].copyright
  {
    var r := ProcessBingData(orientation, images);
    forall i | 0 <= i < |r|
      ensures StartsWith(r[i].url.value, "https://www.bing.com" + images[i].urlbase)
      ensures EndsWith(r[i].url.value, BingSuffix(orientation))
    {
      var u := "https://www.bing.com" + images[i].urlbase + BingSuffix(orientation);
      assert r[i].url.value == u;
      assert u[..|"https://www.bing.com" + images[i].urlbase|] == "https://www.bing.com" + images[i].urlbase;
      assert u[|u| - |BingSuffix(orientation)|..] == BingSuffix(orientation);
    }
  }

  // ---------------------------------------------------------------------------
  // Pexels

  datatype PexelsPhoto = PexelsPhoto(portrait: string, landscape: string, photographer: string)

  /** `processPexelsData`: the portrait rendition for a vertical display, the landscape one otherwise. */
  function ProcessPexelsData(orientation: string, photos: seq<PexelsPhoto>): (r: seq<Image>)
    ensures |r| == |photos|
    ensures forall i :: 0 <= i < |r| ==>
      r[i].caption == Some("Photographer: " + photos[i].photographer) && r[i].variants == []
    ensures forall i :: 0 <= i < |r| ==>
      (r[i].url == Some(photos[i].portrait) <== orientation == "vertical") &&
      (r[i].url == Some(photos[i].landscape) <== orientation != "vertical")
  {
    seq(|photos|, i requires 0 <= i < |photos| =>
      Image(Some(if orientation == "vertical" then photos[i].portrait else photos[i].landscape),
            Some("Photographer: " + photos[i].photographer), []))
  }

  // ---------------------------------------------------------------------------
  // Reddit

  datatype Resolution = Resolution(url: string, width: int, height: int)

  datatype RedditPost = RedditPost(
    kind: string, pinned: bool, stickied: bool, postHint: Option<string>, over18: bool,
    url: string, title: string, resolutions: seq<Resolution>, source: Resolution)

  /** The filter of `processRedditData`: an image link post, not pinned or stickied, and safe for work unless `nsfw` is set. */
  predicate KeepPost(post: RedditPost, nsfw: bool) {
    && post.kind == "t3"
    && !post.pinned
    && !post.stickied
    && post.postHint == Some("image")
    && (nsfw || !post.over18)
  }

  /** A preview rendition with `&amp;` replaced throughout its URL (`split("&amp;").join("&")`). */
  function Unescaped(r: Resolution): Variant {
    Variant(Some(ReplaceAll(r.url, Amp, "&")), r.width, r.height)
  }

  function UnescapedAll(rs: seq<Resolution>): (vs: seq<Variant>)
    ensures |vs| == |rs| && forall i :: 0 <= i < |rs| ==> vs[i] == Unescaped(rs[i])
  {
    seq(|rs|, i requires 0 <= i < |rs| => Unescaped(rs[i]))
  }

  /** The record of a kept post: the post URL with its first `&amp;` replaced, and the sorted renditions. */
  function RedditRecord(post: RedditPost): Image {
    Image(Some(ReplaceFirst(post.url, Amp, "&")), Some(post.title),
          SortByArea(UnescapedAll(post.resolutions + [post.source])))
  }

  /** The loop of `processRedditData`; `count` records were pushed already and it stops when the count reaches `max`. */
  function RedditLoop(posts: seq<RedditPost>, nsfw: bool, max: int, count: nat): (r: seq<Image>)
    ensures |r| <= |posts|
    ensures 1 <= max && count < max ==> |r| <= max - count
  {
    if posts == [] then []
    else if KeepPost(posts[0], nsfw) then
      if count + 1 == max then [RedditRecord(posts[0])]
      else [RedditRecord(posts[0])] + RedditLoop(posts[1..], nsfw, max, count + 1)
    else RedditLoop(posts[1..], nsfw, max, count)
  }

  function ProcessRedditData(config: Config, posts: seq<RedditPost>): seq<Image> {
    RedditLoop(posts, config.nsfw, config.maximumEntries, 0)
  }

  /** The kept posts, in listing order: the reference definition of the filter. */
  function KeptPosts(posts: seq<RedditPost>, nsfw: bool): (r: seq<RedditPost>)
    ensures forall p :: p in r ==> p in posts && KeepPost(p, nsfw)
  {
    if posts == [] then []
    else if KeepPost(posts[0], nsfw) then [posts[0]] + KeptPosts(posts[1..], nsfw)
    else KeptPosts(posts[1..], nsfw)
  }

  /** The record of each post, in order. */
  function RedditRecords(posts: seq<RedditPost>): (r: seq<Image>)
    ensures |r| == |posts|
  {
    if posts == [] then [] else [RedditRecord(posts[0])] + RedditRecords(posts[1..])
  }

  lemma RedditRecordsOfKept(posts: seq<RedditPost>, nsfw: bool)
    requires posts != []
    ensures RedditRecords(KeptPosts(posts, nsfw)) ==
      if KeepPost(posts[0], nsfw) then [RedditRecord(posts[0])] + RedditRecords(KeptPosts(posts[1..], nsfw))
      else RedditRecords(KeptPosts(posts[1..], nsfw))
  {
    if KeepPost(posts[0], nsfw) {
      var kept := [posts[0]] + KeptPosts(posts[1..], nsfw);
      assert kept[1..] == KeptPosts(posts[1..], nsfw);
    }
  }

  lemma TakeCons<T>(x: T, tail: seq<T>, k: int)
    requires k >= 1
    ensures ([x] + tail)[..Min(k, |tail| + 1)] == [x] + tail[..Min(k - 1, |tail|)]
  {
  }

  /** One kept element before a loop that has not reached `max`: the cut moves one place on. */
  lemma TakeStep<T>(x: T, tail: seq<T>, rest: seq<T>, max: int, count: nat)
    requires count + 1 != max
    requires rest == if count + 1 < max then tail[..Min(max - (count + 1), |tail|)] else tail
    ensures [x] + rest == if count < max then ([x] + tail)[..Min(max - count, |[x] + tail|)] else [x] + tail
  {
    if count < max {
      TakeCons(x, tail, max - count);
    }
  }

  lemma {:induction false} RedditLoopTakes(posts: seq<RedditPost>, nsfw: bool, max: int, count: nat)
    ensures var all := RedditRecords(KeptPosts(posts, nsfw));
      RedditLoop(posts, nsfw, max, count) ==
        if count < max then all[..Min(max - count, |all|)] else all
    decreases |posts|
  {
    if posts != [] {
      RedditRecordsOfKept(posts, nsfw);
      var tail := RedditRecords(KeptPosts(posts[1..], nsfw));
      if KeepPost(posts[0], nsfw) {
        var x := RedditRecord(posts[0]);
        if count + 1 != max {
          RedditLoopTakes(posts[1..], nsfw, max, count + 1);
          if count < max {
            TakeCons(x, tail, max - count);
          }
        }
      } else {
        RedditLoopTakes(posts[1..], nsfw, max, count);
      }
    }
  }

  /**
   * `processRedditData` returns the records of the kept posts in listing order,
   * cut at `maximumEntries` when that is at least 1 (for 0 or less the loop never
   * breaks and keeps them all).
   */
  lemma RedditKeepsFirstQualifying(config: Config, posts: seq<RedditPost>)
    ensures var all := RedditRecords(KeptPosts(posts, config.nsfw));
      ProcessRedditData(config, posts) ==
        if config.maximumEntries >= 1 then all[..Min(config.maximumEntries, |all|)] else all
  {
    RedditLoopTakes(posts, config.nsfw, config.maximumEntries, 0);
  }

  /** A rendition URL escaped by Reddit comes back with its ampersands restored. */
  lemma RedditVariantUnescapes(post: RedditPost, raw: string, width: int, height: int)
    requires Resolution(EscapeAmp(raw), width, height) in post.resolutions + [post.source]
    ensures Variant(Some(raw), width, height) in RedditRecord(post).variants
  {
    var rs := post.resolutions + [post.source];
    var k :| 0 <= k < |rs| && rs[k] == Resolution(EscapeAmp(raw), width, height);
    UnescapeEscaped(raw);
    var vs := UnescapedAll(rs);
    assert vs[k] == Variant(Some(raw), width, height);
    assert vs[k] in vs;
    SortByAreaMembers(vs);
  }

  // ---------------------------------------------------------------------------
  // Lightroom

  const SrcsetAttr := "data-srcset=\""

  /** Length of the longest prefix without a double quote. */
  function QuoteFreeRun(s: string): (n: nat)
    ensures n <= |s|
    ensures forall i :: 0 <= i < n ==> s[i] != '"'
    ensures n < |s| ==> s[n] == '"'
  {
    if s != [] && s[0] != '"' then 1 + QuoteFreeRun(s[1..]) else 0
  }

  /** The matches of the global regular expression `/data-srcset="[^"]+/g`, left to right. */
  function SrcsetMatches(s: string): (ms: seq<string>)
    ensures forall i :: 0 <= i < |ms| ==>
      StartsWith(ms[i], SrcsetAttr) && |ms[i]| > |SrcsetAttr| && '"' !in ms[i][|SrcsetAttr|..]
    decreases |s|
  {
    if s == [] then []
    else if StartsWith(s, SrcsetAttr) && QuoteFreeRun(s[|SrcsetAttr|..]) > 0 then
      var m := s[..|SrcsetAttr| + QuoteFreeRun(s[|SrcsetAttr|..])];
      assert m[..|SrcsetAttr|] == SrcsetAttr;
      assert forall i :: 0 <= i < |m[|SrcsetAttr|..]| ==> m[|SrcsetAttr|..][i] == s[|SrcsetAttr|..][i];
      [m] + SrcsetMatches(s[|m|..])
    else SrcsetMatches(s[1..])
  }

  /** One `url width` entry of a srcset: `d = v.split(" ")`, width `parseInt(d[1])`, kept when positive. */
  function SrcsetVariant(entry: string): Option<Variant> {
    var d := Split(entry, ' ');
    var width := if |d| > 1 then ParseInt(d[1]) else None;
    match width
    case Some(w) => if w > 0 then Some(Variant(Some(d[0]), w, 1)) else None
    case None => None
  }

  /**
   * An entry `url width` with a space-free URL and a positive width written in
   * decimal, followed by a unit such as `w`, gives the variant `width x 1` at that URL.
   */
  lemma SrcsetEntryParses(u: string, w: nat, unit: string)
    requires ' ' !in u && ' ' !in unit && w > 0
    requires unit == [] || !IsDigit(unit[0])
    ensures SrcsetVariant(u + " " + NatToString(w) + unit) == Some(Variant(Some(u), w, 1))
  {
    var n := NatToString(w) + unit;
    assert ' ' !in NatToString(w);
    assert ' ' !in n;
    assert u + " " + NatToString(w) + unit == u + [' '] + n;
    SplitAround(u, ' ', n);
    SplitWithout(u, ' ');
    SplitWithout(n, ' ');
    ParseIntReadsNumber(w, unit);
  }

  /** An entry without a space has no width and is dropped. */
  lemma SrcsetEntryNeedsWidth(entry: string)
    requires ' ' !in entry
    ensures SrcsetVariant(entry) == None
  {
    SplitWithout(entry, ' ');
  }

  function SrcsetVariants(entries: seq<string>): (vs: seq<Variant>)
    ensures forall v :: v in vs ==> v.width > 0 && v.height == 1 && v.url.Some?
  {
    if entries == [] then []
    else match SrcsetVariant(entries[0])
      case Some(v) => [v] + SrcsetVariants(entries[1..])
      case None => SrcsetVariants(entries[1..])
  }

  /** The record of one srcset attribute, or None when none of its entries has a positive width. */
  function LightroomRecord(srcset: string): Option<Image> {
    var vs := SortByArea(SrcsetVariants(Split(SubstringFrom(srcset, 13), ',')));
    if vs == [] then None else Some(Image(vs[|vs| - 1].url, None, vs))
  }

  /** `img` is the record of one of the srcset attributes in `data`. */
  predicate RecordOfSome(data: seq<string>, img: Image) {
    exists s :: s in data && LightroomRecord(s) == Some(img)
  }

  function LightroomLoop(data: seq<string>, max: int, count: nat): (r: seq<Image>)
    ensures 1 <= max && count < max ==> |r| <= max - count
    ensures forall i :: 0 <= i < |r| ==> RecordOfSome(data, r[i])
  {
    if data == [] then []
    else match LightroomRecord(data[0])
      case None => LightroomLoop(data[1..], max, count)
      case Some(image) =>
        if count + 1 == max then [image] else [image] + LightroomLoop(data[1..], max, count + 1)
  }

  /**
   * `processLightroomData`: the srcset attributes of the album page (optionally
   * shuffled), one record per attribute with a usable entry, up to `maximumEntries`.
   * A page without any attribute makes `match` return null and the code throw:
   * no records.
   */
  function ProcessLightroomData(config: Config, body: string, draws: Draws): seq<Image> {
    var matches := SrcsetMatches(body);
    if matches == [] then [] else LightroomLoop(LightroomData(config, matches, draws), config.maximumEntries, 0)
  }

  /** The srcset attributes in the order they are visited: shuffled when configured. */
  function LightroomData(config: Config, matches: seq<string>, draws: Draws): seq<string> {
    if config.shuffle then Shuffled(matches, draws) else matches
  }

  /** The reference definition: the record of every attribute that has one, in order. */
  function LightroomRecords(data: seq<string>): seq<Image> {
    if data == [] then []
    else match LightroomRecord(data[0])
      case None => LightroomRecords(data[1..])
      case Some(image) => [image] + LightroomRecords(data[1..])
  }

  lemma {:induction false} LightroomLoopTakes(data: seq<string>, max: int, count: nat)
    ensures var all := LightroomRecords(data);
      LightroomLoop(data, max, count) == if count < max then all[..Min(max - count, |all|)] else all
    decreases |data|
  {
    if data != [] {
      var tail := LightroomRecords(data[1..]);
      if LightroomRecord(data[0]).None? {
        LightroomSkips(data, max, count);
        LightroomLoopTakes(data[1..], max, count);
      } else {
        var x := LightroomRecord(data[0]).value;
        LightroomKeeps(data, max, count, x);
        var all := [x] + tail;
        var r := LightroomLoop(data, max, count);
        if count + 1 == max {
          assert r == [x];
          assert all[..1] == [x];
          assert r == all[..Min(max - count, |all|)];
        } else {
          var rest := LightroomLoop(data[1..], max, count + 1);
          LightroomLoopTakes(data[1..], max, count + 1);
          assert r == [x] + rest;
          TakeStep(x, tail, rest, max, count);
          assert r == if count < max then all[..Min(max - count, |all|)] else all;
        }
      }
    }
  }

  /** An attribute without a record is passed over by both the loop and the reference. */
  lemma LightroomSkips(data: seq<string>, max: int, count: nat)
    requires data != [] && LightroomRecord(data[0]).None?
    ensures LightroomRecords(data) == LightroomRecords(data[1..])
    ensures LightroomLoop(data, max, count) == LightroomLoop(data[1..], max, count)
  {
  }

  /** An attribute with record x puts x first in both, and the loop stops once the count reaches max. */
  lemma LightroomKeeps(data: seq<string>, max: int, count: nat, x: Image)
    requires data != [] && LightroomRecord(data[0]) == Some(x)
    ensures LightroomRecords(data) == [x] + LightroomRecords(data[1..])
    ensures LightroomLoop(data, max, count) ==
      if count + 1 == max then [x] else [x] + LightroomLoop(data[1..], max, count + 1)
  {
  }

  /** A record whose URL is that of its widest variant, every variant `width x 1` with a positive width. */
  predicate WidestFirst(img: Image) {
    && img.variants != []
    && SortedByArea(img.variants)
    && img.url == img.variants[|img.variants| - 1].url
    && forall v :: v in img.variants ==>
         v.width > 0 && v.height == 1 && v.width <= img.variants[|img.variants| - 1].width
  }

  /** Sorting unit-height variants puts the widest last, so the record built from them takes the widest one's URL. */
  lemma WidestRecord(raw: seq<Variant>)
    requires forall v :: v in raw ==> v.width > 0 && v.height == 1
    ensures var vs := SortByArea(raw);
      vs != [] ==> WidestFirst(Image(vs[|vs| - 1].url, None, vs))
  {
    var vs := SortByArea(raw);
    if vs != [] {
      SortByAreaMembers(raw);
      SortedLastIsLargest(raw);
      WidestOfSorted(raw, vs);
    }
  }

  /** The same, for any sorted arrangement `vs` of the unit-height variants `raw`. */
  lemma WidestOfSorted(raw: seq<Variant>, vs: seq<Variant>)
    requires forall v :: v in raw ==> v.width > 0 && v.height == 1
    requires vs != [] && SortedByArea(vs)
    requires forall v :: v in vs <==> v in raw
    requires forall v :: v in raw ==> Area(v) <= Area(vs[|vs| - 1])
    ensures WidestFirst(Image(vs[|vs| - 1].url, None, vs))
  {
    var last := vs[|vs| - 1];
    assert last in vs;
    forall v | v in vs ensures v.width > 0 && v.height == 1 && v.width <= last.width {
      UnitBelow(v, last);
    }
    WidestOf(vs);
  }

  /** Between variants of height 1, a smaller area is a smaller width. */
  lemma UnitBelow(v: Variant, last: Variant)
    requires v.height == 1 && last.height == 1 && Area(v) <= Area(last)
    ensures v.width <= last.width
  {
  }

  lemma WidestOf(vs: seq<Variant>)
    requires vs != [] && SortedByArea(vs)
    requires forall v :: v in vs ==> v.width > 0 && v.height == 1 && v.width <= vs[|vs| - 1].width
    ensures WidestFirst(Image(vs[|vs| - 1].url, None, vs))
  {
  }

  /**
   * An attribute gives a record exactly when one of its comma-separated entries
   * has a positive width; the record holds all such entries sorted by width and
   * takes the widest one's URL.
   */
  lemma LightroomRecordWidest(srcset: string)
    ensures var raw := SrcsetVariants(Split(SubstringFrom(srcset, 13), ','));
      && (LightroomRecord(srcset).Some? <==> raw != [])
      && (LightroomRecord(srcset).Some? ==>
            LightroomRecord(srcset).value.variants == SortByArea(raw) && WidestFirst(LightroomRecord(srcset).value))
  {
    var raw := SrcsetVariants(Split(SubstringFrom(srcset, 13), ','));
    var vs := SortByArea(raw);
    assert LightroomRecord(srcset) == if vs == [] then None else Some(Image(vs[|vs| - 1].url, None, vs));
    assert vs == [] <==> raw == [] by { assert |vs| == |raw|; }
    WidestRecord(raw);
  }

  /**
   * `processLightroomData` returns the records of the attributes that have a
   * usable entry, in visiting order, cut at `maximumEntries` when that is at least
   * 1 (for 0 or less the loop never breaks). Each record's URL is that of its
   * widest entry, its variants are sorted ascending and all have a positive width
   * and height 1.
   */
  lemma LightroomPicksWidest(config: Config, body: string, draws: Draws)
    ensures var r := ProcessLightroomData(config, body, draws);
      && (var matches := SrcsetMatches(body);
          var all := LightroomRecords(LightroomData(config, matches, draws));
          r == if matches == [] then []
               else if config.maximumEntries >= 1 then all[..Min(config.maximumEntries, |all|)]
               else all)
      && (config.maximumEntries >= 1 ==> |r| <= config.maximumEntries)
      && forall i :: 0 <= i < |r| ==> WidestFirst(r[i])
  {
    var matches := SrcsetMatches(body);
    if matches != [] {
      LightroomLoopTakes(LightroomData(config, matches, draws), config.maximumEntries, 0);
    }
    var r := ProcessLightroomData(config, body, draws);
    forall i | 0 <= i < |r| ensures WidestFirst(r[i]) {
      var data := LightroomData(config, matches, draws);
      assert r == LightroomLoop(data, config.maximumEntries, 0);
      assert RecordOfSome(data, r[i]);
      var s :| s in data && LightroomRecord(s) == Some(r[i]);
      LightroomRecordWidest(s);
    }
  }

  // ---------------------------------------------------------------------------
  // NASA image library

  datatype NasaItem = NasaItem(mediaType: string, description508: Option<string>, title: Option<string>, links: seq<string>)

  /** `description_508` when it is a non-empty string, the title otherwise. */
  function NasaCaption(item: NasaItem): Option<string> {
    if item.description508.Some? && item.description508.value != "" then item.description508 else item.title
  }

  /** `items.filter(item => item.data[0].media_type === 'image')`. */
  function NasaImagesOnly(items: seq<NasaItem>): (r: seq<NasaItem>)
    ensures forall x :: x in r ==> x in items && x.mediaType == "image"
    ensures forall x :: x in items && x.mediaType == "image" ==> x in r
  {
    if items == [] then []
    else if items[0].mediaType == "image" then [items[0]] + NasaImagesOnly(items[1..])
    else NasaImagesOnly(items[1..])
  }

  /** The record of an item with a link: its first link, captioned by NasaCaption. */
  function NasaRecord(x: NasaItem): Image
    requires x.links != []
  {
    Image(Some(x.links[0]), NasaCaption(x), [])
  }

  /** The loop over the filtered items: a record for each one with a link. */
  function NasaRecords(images: seq<NasaItem>): (r: seq<Image>)
    ensures |r| <= |images|
    ensures forall img :: img in r ==> (exists x :: x in images && x.links != [] && img == NasaRecord(x))
  {
    if images == [] then []
    else if images[0].links != [] then [NasaRecord(images[0])] + NasaRecords(images[1..])
    else NasaRecords(images[1..])
  }

  /** `processNasaData`: nothing when the collection has no items, else the linked image items. */
  function ProcessNasaData(items: Option<seq<NasaItem>>): seq<Image> {
    match items
    case None => []
    case Some(xs) => NasaRecords(NasaImagesOnly(xs))
  }

  /** An item the feed turns into a record: an image with at least one link. */
  predicate LinkedImage(x: NasaItem) { x.mediaType == "image" && x.links != [] }

  /** The reference selection: the linked image items, in feed order, in one filter. */
  function LinkedImages(items: seq<NasaItem>): (r: seq<NasaItem>)
    ensures forall x :: x in r ==> LinkedImage(x)
  {
    if items == [] then []
    else if LinkedImage(items[0]) then [items[0]] + LinkedImages(items[1..])
    else LinkedImages(items[1..])
  }

  /** The record of each item, in order. */
  function RecordsOf(xs: seq<NasaItem>): (r: seq<Image>)
    requires forall x :: x in xs ==> x.links != []
    ensures |r| == |xs| && forall i :: 0 <= i < |xs| ==> r[i] == NasaRecord(xs[i])
  {
    if xs == [] then [] else [NasaRecord(xs[0])] + RecordsOf(xs[1..])
  }

  lemma {:induction false} NasaFilterThenMap(items: seq<NasaItem>)
    ensures NasaRecords(NasaImagesOnly(items)) == RecordsOf(LinkedImages(items))
  {
    if items != [] {
      NasaFilterThenMap(items[1..]);
      if items[0].mediaType == "image" {
        assert ([items[0]] + NasaImagesOnly(items[1..]))[1..] == NasaImagesOnly(items[1..]);
        if items[0].links != [] {
          assert ([items[0]] + LinkedImages(items[1..]))[1..] == LinkedImages(items[1..]);
        }
      }
    }
  }

  /**
   * The NASA records are exactly the linked image items of the feed, in feed
   * order, each giving its first link and a caption from its non-empty
   * `description_508` or else its title; videos and unlinked items never appear.
   */
  lemma NasaKeepsLinkedImages(items: seq<NasaItem>)
    ensures ProcessNasaData(Some(items)) == RecordsOf(LinkedImages(items))
    ensures forall img :: img in ProcessNasaData(Some(items)) ==>
      (exists x :: x in items && x.mediaType == "image" && x.links != [] &&
         img.url == Some(x.links[0]) && img.caption == NasaCaption(x))
  {
    NasaFilterThenMap(items);
  }

  // ---------------------------------------------------------------------------
  // Astronomy Picture of the Day

  /** A JSON member that may be missing, present as `null`, or a string. */
  datatype JsonField = Absent | Null | Str(text: string)

  /** The value read from a present or missing member: a string, or None for null and undefined. */
  function FieldValue(f: JsonField): Option<string> {
    if f.Str? then Some(f.text) else None
  }

  datatype ApodEntry = ApodEntry(mediaType: string, url: JsonField, hdurl: JsonField, title: Option<string>)

  /** The field the record takes: `url` when the source is exactly "apod", else `hdurl`. */
  function ApodField(source: string, e: ApodEntry): JsonField {
    if source == "apod" then e.url else e.hdurl
  }

  /** `key in image` holds for a member present with any value, `null` included. */
  predicate ApodKeep(source: string, e: ApodEntry) {
    e.mediaType == "image" && !ApodField(source, e).Absent?
  }

  function ApodRecord(source: string, e: ApodEntry): Image
    requires ApodKeep(source, e)
  {
    Image(FieldValue(ApodField(source, e)), e.title, [])
  }

  /** The loop of `processApodData`: each kept entry is `unshift`ed to the front of `acc`. */
  function ApodLoop(source: string, data: seq<ApodEntry>, acc: seq<Image>): seq<Image> {
    if data == [] then acc
    else if ApodKeep(source, data[0]) then ApodLoop(source, data[1..], [ApodRecord(source, data[0])] + acc)
    else ApodLoop(source, data[1..], acc)
  }

  function ProcessApodData(config: Config, data: seq<ApodEntry>): seq<Image> {
    ApodLoop(config.source, data, [])
  }

  /** The kept entries' records in feed order: the reference definition. */
  function ApodRecords(source: string, data: seq<ApodEntry>): seq<Image> {
    if data == [] then []
    else if ApodKeep(source, data[0]) then [ApodRecord(source, data[0])] + ApodRecords(source, data[1..])
    else ApodRecords(source, data[1..])
  }

  function Reverse<T>(s: seq<T>): (r: seq<T>)
    ensures |r| == |s|
  {
    if s == [] then [] else Reverse(s[1..]) + [s[0]]
  }

  lemma {:induction false} ReverseAppend<T>(a: seq<T>, b: seq<T>)
    ensures Reverse(a + b) == Reverse(b) + Reverse(a)
  {
    if a == [] {
      assert a + b == b;
    } else {
      assert (a + b)[1..] == a[1..] + b;
      ReverseAppend(a[1..], b);
    }
  }

  lemma {:induction false} ApodLoopReverses(source: string, data: seq<ApodEntry>, acc: seq<Image>)
    ensures ApodLoop(source, data, acc) == Reverse(ApodRecords(source, data)) + acc
  {
    if data != [] {
      if ApodKeep(source, data[0]) {
        var x := ApodRecord(source, data[0]);
        ApodLoopReverses(source, data[1..], [x] + acc);
        ReverseAppend([x], ApodRecords(source, data[1..]));
        assert Reverse([x]) == [x];
      } else {
        ApodLoopReverses(source, data[1..], acc);
      }
    }
  }

  /**
   * `processApodData` returns the image entries that have the chosen field, newest
   * last in the feed and first in the result: the kept records in reverse order.
   */
  lemma ApodIsReversedFeed(config: Config, data: seq<ApodEntry>)
    ensures ProcessApodData(config, data) == Reverse(ApodRecords(config.source, data))
  {
    ApodLoopReverses(config.source, data, []);
  }

  /**
   * An image entry whose chosen member is present but `null` is kept, with no URL:
   * the `in` test looks for the member, not for a value.
   */
  lemma ApodKeepsNullMember(config: Config, e: ApodEntry)
    requires e.mediaType == "image" && ApodField(config.source, e) == Null
    ensures ProcessApodData(config, [e]) == [Image(None, e.title, [])]
  {
    assert ApodKeep(config.source, e) && [e][1..] == [];
    assert ApodRecord(config.source, e) == Image(None, e.title, []);
    assert ApodLoop(config.source, [e], []) == ApodLoop(config.source, [], [ApodRecord(config.source, e)] + []);
  }

  /** For a source written "APOD" the high-resolution field is used: the key test is case-sensitive. */
  lemma ApodKeyIsCaseSensitive(e: ApodEntry)
    ensures ApodField("APOD", e) == e.hdurl && ApodField("apod", e) == e.url
  {
  }

  // ---------------------------------------------------------------------------
  // Met Museum search

  /**
   * The object ids `processMetMuseumData` looks up: none when `objectIDs` is null,
   * else the (optionally shuffled) ids cut with `slice(0, Math.min(60, maximumEntries))`.
   */
  function MetMuseumObjectIds(config: Config, objectIds: Option<seq<int>>, draws: Draws): (r: seq<int>)
    ensures objectIds.None? ==> r == []
    ensures objectIds.Some? ==> |r| <= |objectIds.value| && r == MetOrder(config, objectIds.value, draws)[..|r|]
    ensures objectIds.Some? && config.maximumEntries >= 0 ==>
      |r| == Min(Min(60, config.maximumEntries), |objectIds.value|)
    ensures objectIds.Some? && config.maximumEntries < 0 ==>
      |r| == (if |objectIds.value| + config.maximumEntries > 0 then |objectIds.value| + config.maximumEntries else 0)
    ensures objectIds.Some? ==> multiset(r) <= multiset(objectIds.value)
  {
    match objectIds
    case None => []
    case Some(ids) =>
      var order := MetOrder(config, ids, draws);
      var r := SliceTo(order, Min(60, config.maximumEntries));
      assert order == r + order[|r|..];
      r
  }

  /** The ids in the order they are taken: shuffled when configured, else as returned by the search. */
  function MetOrder(config: Config, ids: seq<int>, draws: Draws): (order: seq<int>)
    ensures |order| == |ids| && multiset(order) == multiset(ids)
    ensures !config.shuffle ==> order == ids
  {
    ShuffledIsPermutation(ids, draws);
    if config.shuffle then Shuffled(ids, draws) else ids
  }

  // ---------------------------------------------------------------------------
  // Flickr public feed

  datatype FeedItem = FeedItem(link: string, title: string, author: string)

  /** A photo to look up: id, title and owner name (undefined where the feed text has none). */
  datatype FlickrPhoto = FlickrPhoto(id: Option<string>, title: string, owner: Option<string>)

  /** `link.split("/").filter(s => s.length > 0).slice(-1)[0]`: the last non-empty path segment. */
  function FeedPhotoId(link: string): (r: Option<string>)
    ensures r.Some? ==> r.value != "" && '/' !in r.value
  {
    var parts := NonEmpty(Split(link, '/'));
    if parts == [] then None else Some(parts[|parts| - 1])
  }

  /** `author.split('"').filter(s => s.length > 0).slice(-2)[0]`: the last quoted name of `nobody@flickr.com ("name")`. */
  function FeedOwner(author: string): (r: Option<string>)
    ensures r.Some? ==> r.value != "" && '"' !in r.value
  {
    var parts := NonEmpty(Split(author, '"'));
    if |parts| >= 2 then Some(parts[|parts| - 2])
    else if |parts| == 1 then Some(parts[0])
    else None
  }

  /** `processFlickrFeedPhotos`: one photo per feed item, in order. */
  function ProcessFlickrFeedPhotos(items: seq<FeedItem>): (r: seq<FlickrPhoto>)
    ensures |r| == |items|
    ensures forall i :: 0 <= i < |r| ==>
      r[i].title == items[i].title && r[i].id == FeedPhotoId(items[i].link) && r[i].owner == FeedOwner(items[i].author)
  {
    seq(|items|, i requires 0 <= i < |items| =>
      FlickrPhoto(FeedPhotoId(items[i].link), items[i].title, FeedOwner(items[i].author)))
  }

  /** A photo page link `…/<id>` or `…/<id>/` yields the id: the last non-empty segment. */
  lemma FeedIdIsLastSegment(prefix: string, id: string, trailing: bool)
    requires id != [] && '/' !in id
    ensures FeedPhotoId(prefix + "/" + id + (if trailing then "/" else "")) == Some(id)
  {
    var tail: string := if trailing then "/" else "";
    SplitAround(prefix, '/', id + tail);
    assert prefix + "/" + id + tail == prefix + ['/'] + (id + tail);
    SplitWithout(id, '/');
    if trailing {
      SplitAround(id, '/', "");
      assert id + ['/'] + "" == id + tail;
      assert Split(id + tail, '/') == [id] + [""];
    } else {
      assert id + tail == id;
    }
    var parts := Split(prefix, '/') + Split(id + tail, '/');
    NonEmptyAppend(Split(prefix, '/'), Split(id + tail, '/'));
    assert NonEmpty(Split(id + tail, '/')) == [id] by {
      if trailing {
        assert ([id] + [""])[1..] == [""];
        assert NonEmpty([""]) == NonEmpty([""][1..]);
      }
    }
  }

  /**
   * A feed author `<p>"<n>"<s>`, such as `nobody@flickr.com ("name")`, yields the quoted
   * name as owner: the second-to-last of its three non-empty segments.
   */
  lemma FeedOwnerReadsQuotedName(p: string, n: string, s: string)
    requires p != [] && n != [] && s != []
    requires '"' !in p && '"' !in n && '"' !in s
    ensures NonEmpty(Split(p + ['"'] + n + ['"'] + s, '"')) == [p, n, s]
    ensures FeedOwner(p + ['"'] + n + ['"'] + s) == Some(n)
  {
    SplitThree(p, n, s, '"');
    NonEmptyThree(p, n, s);
  }

  /** `a<sep>b<sep>c` with no separator inside its parts splits into exactly them. */
  lemma SplitThree(a: string, b: string, c: string, sep: char)
    requires sep !in a && sep !in b && sep !in c
    ensures Split(a + [sep] + b + [sep] + c, sep) == [a, b, c]
  {
    assert a + [sep] + b + [sep] + c == a + [sep] + (b + [sep] + c);
    SplitAround(a, sep, b + [sep] + c);
    SplitAround(b, sep, c);
    SplitWithout(a, sep);
    SplitWithout(b, sep);
    SplitWithout(c, sep);
    assert [a] + ([b] + [c]) == [a, b, c];
  }

  /** Three non-empty strings all survive the empty-string filter. */
  lemma NonEmptyThree(a: string, b: string, c: string)
    requires a != [] && b != [] && c != []
    ensures NonEmpty([a, b, c]) == [a, b, c]
  {
    assert [a, b, c] == [a] + ([b] + [c]);
    NonEmptyAppend([a], [b] + [c]);
    NonEmptyAppend([b], [c]);
    OneNonEmpty(a);
    OneNonEmpty(b);
    OneNonEmpty(c);
  }

  lemma OneNonEmpty(x: string)
    requires x != []
    ensures NonEmpty([x]) == [x]
  {
    assert [x][1..] == [];
  }

  /** Splitting `a + sep + b` splits `a` and `b` separately. */
  lemma {:induction false} SplitAround(a: string, sep: char, b: string)
    ensures Split(a + [sep] + b, sep) == Split(a, sep) + Split(b, sep)
  {
    if a == [] {
      assert a + [sep] + b == [sep] + b;
      SplitCons(sep, b, sep);
      SplitCons(sep, [], sep);
      assert Split([], sep) == [""];
    } else {
      var t := a[1..] + [sep] + b;
      assert a + [sep] + b == [a[0]] + t;
      assert a == [a[0]] + a[1..];
      SplitAround(a[1..], sep, b);
      SplitCons(a[0], t, sep);
      SplitCons(a[0], a[1..], sep);
      ConsFirstPart(a[0] == sep, [a[0]], Split(a[1..], sep), Split(b, sep));
    }
  }

  /** One step of `Split`: a leading character opens an empty part when it is the separator and joins the first part otherwise. */
  lemma SplitCons(c: char, t: string, sep: char)
    ensures var rest := Split(t, sep);
      Split([c] + t, sep) == if c == sep then [""] + rest else [[c] + rest[0]] + rest[1..]
  {
    assert ([c] + t)[0] == c && ([c] + t)[1..] == t;
  }

  /** Opening or extending the first part commutes with appending further parts. */
  lemma ConsFirstPart(atSep: bool, h: string, ra: seq<string>, rb: seq<string>)
    requires ra != []
    ensures (if atSep then [""] + (ra + rb) else [h + (ra + rb)[0]] + (ra + rb)[1..])
         == (if atSep then [""] + ra else [h + ra[0]] + ra[1..]) + rb
  {
    if !atSep {
      assert (ra + rb)[0] == ra[0] && (ra + rb)[1..] == ra[1..] + rb;
    }
  }

  /** A string without the separator splits into itself. */
  lemma {:induction false} SplitWithout(s: string, sep: char)
    requires sep !in s
    ensures Split(s, sep) == [s]
  {
    if s != [] {
      assert sep !in s[1..];
      SplitWithout(s[1..], sep);
      assert s == [s[0]] + s[1..];
    }
  }

  lemma {:induction false} NonEmptyAppend(a: seq<string>, b: seq<string>)
    ensures NonEmpty(a + b) == NonEmpty(a) + NonEmpty(b)
  {
    if a == [] {
      assert a + b == b;
    } else {
      assert (a + b)[1..] == a[1..] + b;
      NonEmptyAppend(a[1..], b);
    }
  }
}
