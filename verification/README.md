# MMM-Wallpaper, modelled in Dafny

MMM-Wallpaper is a MagicMirror² module that shows a rotating wallpaper. It has
two halves.

- **The node helper** (`node_helper.js`) receives FETCH_WALLPAPERS requests. It keeps
  a cache of image lists keyed by source and orientation, and sends a cached list
  back while it is fresh. Otherwise it looks at the lower-cased source descriptor
  and picks a provider: FireTV or Chromecast bundles, a local directory, a plain
  URL, Reddit, Pexels, iCloud shared streams, Flickr, Lightroom, Synology Moments,
  the Met Museum, NASA, APOD or Bing. It then sends the provider's first request.
  Each response is normalised into `{url, caption, variants}` records. A non-empty
  list is cached and sent back as a WALLPAPERS notification.
- **The display module** (`MMM-Wallpaper.js`) asks for the orientation of the
  screen and accepts only the lists meant for its own source and orientation. It
  rotates through the accepted list one slide at a time.

The project has one Dafny module per component:

| file | module | what it holds |
|---|---|---|
| `js.dfy` | `Js` | the JavaScript string and array primitives the code relies on (`substring`, `slice`, `trim`, `split`, `toLowerCase`, `parseInt`, number-to-string) |
| `helpers.dfy` | `Helpers` | `shuffle` (as a function and as an array method), `pick`, `z`, `b62decode` |
| `records.dfy` | `Records` | image records, variants, the configuration, requests with their default headers, the sort by area |
| `dispatch.dfy` | `Dispatch` | the two source-dispatch chains, the cache buster and the first request of every provider |
| `normalize.dfy` | `Normalize` | the stateless normalisers: Bing, Pexels, Reddit, Lightroom, NASA, APOD, Met object ids and Flickr feeds |
| `icloud.dfy` | `ICloud` | the shared-stream handshake (webstream, then webasseturls) |
| `synology.dfy` | `Synology` | the Moments handshake (create_session, then browse_item) and the proxy's image map |
| `flickr.dfy` | `Flickr` | sub-source classification, the fan-in of sub-sources, size selection, and the photo join with its data cache |
| `local.dfy` | `LocalFiles` | the directory walk of `readdir` over a tree value |
| `met.dfy` | `MetMuseum` | the join of the Met Museum object lookups |
| `engine.dfy` | `Engine` | the node helper as a class: cache, handlers, handshake state, and every operation that changes them |
| `client.dfy` | `Client` | the display module as a class: accepted list, position, current and next image |

The model uses these conventions:

- **Randomness** (`Math.random`) is a sequence of draws. Step k of a shuffle uses `draws[k] mod i`.
- **Settlement order.** The order in which outstanding lookups settle is a shuffle of their positions under a second sequence of draws, so every order can happen.
- **The clock** is an integer `now`. Expiry times are reals, because `updateInterval * 0.9` need not be whole.
- **Errors.** A JavaScript exception in a callback ends that callback. What it had already changed stays changed.
- **undefined and null** are modelled explicitly where the code tells them apart.

## Model

| member | source | states |
|---|---|---|
| Helpers.Shuffle | node_helper.js:16-28 | the swap-remove loop over a copy yields exactly the draw-determined permutation `Shuffled(a)`, of the same length and multiset, and leaves the input array unchanged |
| Helpers.ShuffledIsPermutation | node_helper.js:16-28 | a shuffle has the input's length and multiset |
| Helpers.ShuffledMembers | node_helper.js:16-28 | an element is in the shuffle exactly when it is in the input |
| Helpers.Pick | node_helper.js:35-41 | a single source is returned as it is; for an array the result is one of its elements, and undefined exactly when the array is empty |
| Helpers.ZTwoDigits | node_helper.js:43-45 | `z(n)` for 0 ≤ n < 100 is two decimal digits whose value is n |
| Helpers.B62RoundTrip | node_helper.js:47-49 | decoding the base-62 spelling of any n gives n back |
| Helpers.B62DecodeBounds | node_helper.js:47-49 | a k-character string over the alphabet decodes to a value in [0, 62^k) |
| Js.ParseIntOfHex | node_helper.js:450 | `parseInt` without a radix reads a `0x` prefix as hexadecimal, and gives NaN when no hex digit follows |
| Js.ParseIntReadsNumber | node_helper.js:450 | `parseInt` of a decimal numeral followed by a non-digit reads the numeral |
| Records.SortByArea | node_helper.js:342 | the variants come out sorted ascending by width·height, as many as went in |
| Records.SortByAreaPermutes | node_helper.js:342 | the sort is a permutation of its input: the multiset of variants is unchanged |
| Records.InsertByAreaPermutes | node_helper.js:342 | one insertion step of the sort adds exactly the inserted variant |
| Records.SortedPairwise | node_helper.js:342 | in a list sorted by area, every earlier variant's area is at most every later one's |
| Records.SortedLastIsLargest | node_helper.js:422-423 | after sorting, the last variant is one of the input's and has the largest area |
| Records.SortByAreaMembers | node_helper.js:342 | sorting keeps exactly the variants it is given |
| Records.WithDefaultHeaders | node_helper.js:224-233 | verb, URL and body are kept; missing headers become `{cache-control: no-cache}`; given headers keep their keys and values and gain cache-control only when it is absent |
| Records.DefaultHeadersIdempotent | node_helper.js:227-233 | applying the defaults twice changes nothing more |
| Dispatch.DispatchAgreesWithProcessing | node_helper.js:268-287 | whenever fetchWallpapers sends a request for a provider, processResponse hands the answer to that provider's normaliser, although the two chains test in different orders |
| Dispatch.CacheBusterShape | node_helper.js:100-102 | the buster is appended with `&` when the URL already has a `?`, else with `?`, and ends in `mmm-wallpaper-ts=<now>` |
| Dispatch.NasaNeedsSearchTerm | node_helper.js:158-166 | a NASA source sends a request exactly when its second colon field is non-empty, and the query is that field; otherwise nothing is sent |
| Dispatch.SingleDigitPartitionHost | node_helper.js:128-131 | an album starting with `A` and a digit has that digit as its partition, so the host is `p<digit>-sharedstreams.icloud.com` |
| Dispatch.PlanMatchesProvider | node_helper.js:85-178 | every request plan belongs to a provider with a normaliser; a plain URL, and only a plain URL, is cached as one record captioned with the source, its URL starting with the source |
| Normalize.BingUrlsCarrySuffix | node_helper.js:311-326 | one record per image, its URL exactly `https://www.bing.com` + urlbase + `_1080x1920.jpg` for vertical and `_1920x1080.jpg` otherwise, captioned with the copyright |
| Normalize.ProcessPexelsData | node_helper.js:296-309 | one record per photo: the portrait source for vertical, the landscape one otherwise, captioned with the photographer |
| Normalize.RedditKeepsFirstQualifying | node_helper.js:328-357 | the result is the records of the qualifying posts (t3, not pinned, not stickied, image hint, SFW unless nsfw is set), in feed order, cut to maximumEntries when that is at least 1 |
| Normalize.RedditVariantUnescapes | node_helper.js:338-342 | every resolution and the source appear among the variants with `&amp;` turned back into `&` |
| Normalize.LightroomPicksWidest | node_helper.js:432-475 | the result is exactly the records of the (possibly shuffled) srcset matches, cut to maximumEntries when that is at least 1 and none when there are no matches; every record's URL is its widest variant's |
| Normalize.LightroomLoopTakes | node_helper.js:440-471 | the loop that breaks when the count reaches maximumEntries keeps the first maximumEntries records when the count starts below it, and all of them otherwise |
| Normalize.SrcsetEntryParses | node_helper.js:448-458 | an entry `url width<unit>` with a space-free URL and a positive decimal width becomes the variant `width x 1` at that URL |
| Normalize.SrcsetEntryNeedsWidth | node_helper.js:449-452 | an entry without a space has no width (`parseInt(undefined)` is NaN) and is dropped |
| Normalize.WidestRecord | node_helper.js:441-466 | unit-height variants of positive width, once sorted, give a record whose URL is that of the widest variant |
| Normalize.LightroomRecordWidest | node_helper.js:441-466 | a srcset gives a record exactly when some entry has a positive width; the record's variants are those entries sorted by area, and its URL is the widest one's |
| Normalize.NasaKeepsLinkedImages | node_helper.js:601-618 | the records are exactly one per image item with a link, in item order: its first link, captioned with description_508 when non-empty and with the title otherwise |
| Normalize.NasaFilterThenMap | node_helper.js:606-617 | filtering the image items and then mapping those with a link equals mapping the linked image items |
| Normalize.NasaImagesOnly | node_helper.js:606 | the filter keeps exactly the image items |
| Normalize.ApodIsReversedFeed | node_helper.js:620-634 | the unshift loop yields the kept entries' records in reverse feed order |
| Normalize.ApodKeyIsCaseSensitive | node_helper.js:622 | only the source spelled exactly "apod" reads `url`; every other spelling reads `hdurl` |
| Normalize.ApodKeepsNullMember | node_helper.js:625-629 | a member present as `null` passes the `in` test and gives a record whose URL is null, unlike a missing member |
| Normalize.MetMuseumObjectIds | node_helper.js:562-570 | null ids select nothing; otherwise the selection is a prefix of the (possibly shuffled) id list, of length min(60, maximumEntries, count) for a non-negative maximum and count + maximumEntries (at least 0) for a negative one |
| Normalize.MetOrder | node_helper.js:565-567 | the list the selection is taken from is a permutation of the ids, and the ids themselves when shuffle is off |
| Normalize.ProcessFlickrFeedPhotos | node_helper.js:752-761 | one photo per feed item, with its title; the id is the last non-empty `/`-segment of link, the owner the second-to-last non-empty `"`-segment of author (the quoted name), or the only one when there is one |
| Normalize.FeedIdIsLastSegment | node_helper.js:756 | for a link `…/<id>` or `…/<id>/`, the id read is `<id>` |
| Normalize.FeedOwnerReadsQuotedName | node_helper.js:758 | an author `<p>"<n>"<s>` with non-empty quote-free parts splits into the three non-empty segments p, n, s, and the owner read is the quoted name n |
| ICloud.RedirectStaysInWebstream | node_helper.js:365-371 | a 330 reply keeps the webstream stage and the photos, moves to the X-Apple-MMe-Host when one is given, and re-POSTs the stream request to the current host |
| ICloud.AcceptedStreamAsksForAssets | node_helper.js:372-384 | a 200 reply keeps exactly the first maximumEntries non-null non-video photos of the (possibly shuffled) reply, the reply's own order when shuffle is off, moves to webasseturls on the same host and POSTs their guids |
| ICloud.WantedPhotos | node_helper.js:376 | a photo is kept exactly when it is non-null and not a video |
| ICloud.PhotoOrder | node_helper.js:373-375 | the photos are shuffled when asked and kept in order otherwise; either way a permutation of the reply's photos (same multiset) |
| ICloud.OtherStatusIgnored | node_helper.js:364-386 | any other status in the webstream stage changes nothing and sends nothing |
| ICloud.ApplyAssetUrls | node_helper.js:387-401 | the nested loops rewrite the kept photos exactly as the reference fold `ApplyAssets` does, including stopping at an item whose location is missing |
| ICloud.ApplyItemInPlace | node_helper.js:392-400 | the loop over the kept photos for one asset item gives every photo its first matching derivative's new URL, as the reference `ApplyItem` does |
| ICloud.FindChecksum | node_helper.js:393-399 | the derivative loop breaks at the first derivative with the item's checksum, and runs to the end when there is none |
| ICloud.ApplyItemKeepsShape | node_helper.js:392-399 | an item rewrites only the first derivative with a matching checksum in each photo, and keeps guids, captions and derivative counts |
| ICloud.ApplyAfterCrash | node_helper.js:387-390 | once an item's location is missing, no later item changes anything |
| ICloud.ApplyAssetsKeepsPhotos | node_helper.js:387-401 | applying asset URLs keeps the number of photos, their guids and captions, and every derivative's width |
| ICloud.ApplyAssetsCrash | node_helper.js:389-390 | the loop throws exactly when some item's location is missing from the reply |
| ICloud.AssetImagesTakeLargest | node_helper.js:403-426 | in webasseturls, records exist exactly when there are photos, every item's location is present and every photo has a positive-width derivative; then one record per photo, whose variants are its positive-width derivatives sorted by area and whose URL is that of one of largest area |
| ICloud.AssetImagesLocated | node_helper.js:386-427 | the webasseturls step returns records exactly under the conditions above, and they are the records of the rewritten photos |
| ICloud.PhotoImageDefined | node_helper.js:410-421 | a photo yields a record exactly when one of its derivatives has a positive width |
| ICloud.AssetImagesDefined | node_helper.js:403-426 | the list of records exists exactly when every photo yields one |
| ICloud.SameWidthsPositive | node_helper.js:393-399 | rewriting derivative URLs does not change whether a photo has a positive-width derivative |
| ICloud.LargestVariantUrl | node_helper.js:410-423 | a positive-width variant whose area no other positive variant exceeds carries the URL of a derivative of largest area |
| ICloud.PhotoImageIsLargest | node_helper.js:410-423 | a photo's record takes the URL of a positive-width derivative whose area no other positive-width derivative exceeds |
| Synology.AlbumSplitsAtLastSlash | node_helper.js:480-483 | the album is the path after its last slash, and the API path is the part before it followed by `/webapi/entry.cgi` |
| Synology.CookieIsPrefix | node_helper.js:533 | the session cookie is the part of the first set-cookie header before its first `;` |
| Synology.TakeStep | node_helper.js:529-553 | one handshake step taken in place, listing included, equals the reference step `Transition` |
| Synology.RegisterListing | node_helper.js:547-552 | the map loop writes each photo's thumbnail path under `/<id>` and returns its proxied URL, as the reference `Registered` and `ListedImages` describe |
| Synology.CookieStartsBrowsing | node_helper.js:531-544 | in create_session, a 200 reply with a cookie moves to browse_item and POSTs the listing query with the cookie and the sharing header |
| Synology.FailedReplyChangesNothing | node_helper.js:529-530 | a status other than 200 leaves the stage and the handshake fields as they were |
| Synology.BrowseFillsImageMap | node_helper.js:545-553 | in browse_item, one image per listed photo; every URL resolves through the image map; a photo listed once maps to its thumbnail path |
| Synology.ListingFillsMap | node_helper.js:547-552 | registering a listing keeps the earlier paths and maps each photo listed once to its own thumbnail |
| Synology.UpdatedLastWins | node_helper.js:548 | when a key is written several times, the last write wins |
| Flickr.TagFeedDefaultsToAll | node_helper.js:678-685 | `tags/<x>` reads the public feed for tag x in tag mode "all" |
| Flickr.UserFavorites | node_helper.js:701-705 | `photos/<user>/favorites` reads the user's favourites |
| Flickr.UserAlbum | node_helper.js:706-713 | `photos/<user>/albums/<x>` reads photoset x of the user |
| Flickr.UserGallery | node_helper.js:687-691 | `photos/<user>/galleries/<x>` reads gallery x without looking the user up |
| Flickr.UserOtherStalls | node_helper.js:693-715 | `photos/<user>/<x>` for any other x never resolves, so the fan-in never completes |
| Flickr.SlashesAreIgnored | node_helper.js:671 | leading and trailing slashes do not change the arguments |
| Flickr.EmptySubSourceIsUnrecognised | node_helper.js:726-729 | an empty sub-source is unrecognised and resolves at once with no photos |
| Flickr.SegmentsOf | node_helper.js:671 | a path of non-empty slash-free segments splits back into those segments |
| Flickr.FanInWaitsForAll | node_helper.js:649-657 | the joined list exists exactly when every sub-source has resolved |
| Flickr.FanInLength | node_helper.js:653-657 | the joined list is as long as all resolved lists together |
| Flickr.FanInPlacesInOrder | node_helper.js:655-657 | each sub-source's photos sit in the joined list in sub-source order, at the offset of the lists before it |
| Flickr.ReduceFittingIsLast | node_helper.js:800-802 | the reduce picks the last variant within maxWidth×maxHeight, and keeps the initial value when none fits |
| Flickr.SizesRecordPicksLastFitting | node_helper.js:783-808 | a sizes reply yields a record exactly when some photo-media size fits, and its URL is the last fitting one's |
| Flickr.UnsetBoundKeepsNoSize | node_helper.js:800-803 | without a configured maxWidth or maxHeight every comparison with undefined is false, so no size is picked |
| Flickr.ProcessFlickrPhotos | node_helper.js:763-819 | the batch is cut to maximumEntries; the result is the cached hits in batch order followed by the settled lookups in settlement order; the data cache gains every record found; the promise resolves once for a non-empty batch and never for an empty one |
| Flickr.ScanCache | node_helper.js:770-778 | the synchronous pass collects the cache hits and the positions still outstanding, and resolves when nothing is outstanding |
| Flickr.SettleLookups | node_helper.js:780-817 | settling the lookups in order pushes each found record, caches it, and resolves at the last settlement |
| Flickr.FlickrImagesComeFromBatch | node_helper.js:763-819 | at most one image per batch photo, and each one is a cache hit or a fitting record of a batch photo |
| LocalFiles.ListingPaths | node_helper.js:195-212 | every listed image, at any depth, has an image-extension name, and its URL below the mount point and its caption below the directory name the same relative path |
| LocalFiles.FlatListing | node_helper.js:199-209 | without recursion, the listing holds exactly the top-level files with an image name |
| LocalFiles.FlatWalkFailsOnlyAtTop | node_helper.js:195-203 | without recursion no sub-directory is read, so the walk rejects exactly when the top directory cannot be read |
| LocalFiles.UnreadableSubdirectoryRejects | node_helper.js:196-202 | with recursion, one unreadable sub-directory in the listing makes the whole walk reject |
| LocalFiles.ImageNameSuffix | node_helper.js:186 | an image extension at the end of a name is still at the end behind any directory prefix |
| MetMuseum.MetRecord | node_helper.js:579-584 | a settled lookup pushes a record exactly when the object is public domain, with the small primary image as URL |
| MetMuseum.MetJoin | node_helper.js:570-591 | the counter reaches zero exactly once for a non-empty selection and never for an empty one; the cached list is the public-domain records in settlement order |
| MetMuseum.PushedFromLookups | node_helper.js:578-589 | every cached record is one lookup's record |
| MetMuseum.PushedAll | node_helper.js:578-589 | when every lookup brings back a public-domain object, all of them are cached |
| MetMuseum.SettleOrderIsPermutation | node_helper.js:573-591 | every selected id settles exactly once |
| Engine.NodeHelper.constructor | node_helper.js:57-65 | the helper starts with an empty cache, no handlers and no bundled lists |
| Engine.NodeHelper.GetCacheEntry | node_helper.js:821-834 | the entry for `source::orientation`, created with no images and expiring now when missing; no other entry changes |
| Engine.NodeHelper.SendResult | node_helper.js:253-262 | one WALLPAPERS notification with the entry's first maximumEntries images |
| Engine.NodeHelper.CacheResult | node_helper.js:243-251 | replaces the entry's images, sets its expiry to now + 0.9·updateInterval, and sends |
| Engine.NodeHelper.Request | node_helper.js:224-241 | the request goes out with the default headers |
| Engine.NodeHelper.FetchWallpapers | node_helper.js:75-179 | the new state is `AfterFetch` of the old one; the lemmas below state what that is for each branch |
| Engine.NodeHelper.RunPlan | node_helper.js:85-178 | the new state is `AfterPlan` of the old one: a cached list, a first request or the Flickr join |
| Engine.NodeHelper.CachePlan | node_helper.js:86-98 | a bundle, a directory or a plain URL is cached and sent as `AfterPlan` says |
| Engine.NodeHelper.RequestPlan | node_helper.js:99-172 | a provider's first request goes out, starting the iCloud session or the Synology stage where it has one, as `AfterPlan` says |
| Engine.NodeHelper.LoadBundled | node_helper.js:86-95 | a bundled list is read once and kept; every fetch caches a shuffle of it |
| Engine.NodeHelper.ReadDir | node_helper.js:181-222 | mounts the handler for the key once; when the walk settles, caches and sends the tree's listing, shuffled when asked, even when empty; when it rejects, the entry stays as looked up and nothing is sent |
| Engine.NodeHelper.CacheListing | node_helper.js:215-221 | the settled listing, shuffled when asked, becomes the entry's list with a new expiry and is sent |
| Engine.NodeHelper.MountHandler | node_helper.js:188-193 | the entry is created when missing and its key joins the handlers |
| Engine.NodeHelper.FetchFlickrApi | node_helper.js:636-667 | nothing happens while a sub-source is pending; otherwise the joined, possibly shuffled photos go through the photo join, the data cache is kept, and the list is cached when the join resolves |
| Engine.NodeHelper.ProcessICloudData | node_helper.js:359-430 | one handshake step from the current session; before any iCloud fetch nothing happens |
| Engine.NodeHelper.ICloudResponse | node_helper.js:264-288 | the session, the requests and the list are those of `ICloudOutcome`: one handshake step, or nothing before any iCloud fetch |
| Engine.NodeHelper.ApplyICloudStep | node_helper.js:364-385 | the webstream stage stores the reference step's session and sends its request, if it has one |
| Engine.NodeHelper.ICloudAssets | node_helper.js:386-427 | the webasseturls stage rewrites the kept photos and returns their records |
| Engine.NodeHelper.ProcessSynologyMomentsData | node_helper.js:477-556 | creates the handshake fields and mounts the proxy once, then takes the reference step from the current stage and records its fields, stage and request; every entry keeps its images and expiry |
| Engine.NodeHelper.SynologyResponse | node_helper.js:264-288 | the state and the list are those of `SynologyOutcome` |
| Engine.NodeHelper.ApplySynologyStep | node_helper.js:529-544 | the step's fields go into the entry, the stage moves only when it changed, and the step's request is sent |
| Engine.NodeHelper.ProcessMetMuseumData | node_helper.js:558-594 | an empty selection caches nothing; otherwise the join's list is cached and sent once; the new state is `MetOutcome` of the old one |
| Engine.NodeHelper.NormaliseResponse | node_helper.js:264-288 | the state and the list are those of `Normalisation`; the stateless normalisers return `Normalised(payload)`; no normaliser changes an entry's images or expiry |
| Engine.NodeHelper.ProcessResponse | node_helper.js:264-294 | the state and the list are those of `AfterResponse`; an empty list changes no entry's images or expiry and sends nothing; a non-empty list is cached with a new expiry and sent; the Met Museum returns no list itself |
| Engine.NodeHelper.RespondTo | node_helper.js:264-294 | the steps of `processResponse` give the state and list of `AfterResponse` |
| Engine.AuxUpdateKeepsLists | node_helper.js:487-490 | storing handshake fields in an entry keeps every entry's images and expiry |
| Engine.LookupIsStable | node_helper.js:821-834 | looking an entry up again, at any later time, finds the same entry and changes nothing |
| Engine.NewEntryIsNotFresh | node_helper.js:80 | a newly created entry is never fresh, so the first fetch always runs the plan |
| Engine.FreshResendIsFull | node_helper.js:80-83 | a re-sent fresh list is exactly the first maximumEntries cached images |
| Engine.CachedListIsFreshUntilExpiry | node_helper.js:247 | a list of at least maximumEntries images stays fresh for 0.9 update intervals |
| Engine.FreshFetchOnlyResends | node_helper.js:78-83 | a fetch of a fresh entry only sends its list again: no request, no entry, no handshake changes |
| Engine.UndefinedPickOnlyCreatesEntry | node_helper.js:76-84 | an empty source array picks undefined: the entry `undefined::<orientation>` is created, and then `toLowerCase` throws before anything is requested or sent |
| Engine.RequestingFetchKeepsLists | node_helper.js:99-178 | a provider's plan sends one request (an unusable source none) and changes no list, notification, handler, bundle or Flickr data |
| Engine.CachingFetchRefreshesEntry | node_helper.js:86-98 | a bundle, a directory or a plain URL is cached at once with a new expiry and sent; a plain URL is one record, a directory its listing, a bundle a permutation of the kept list; a directory whose walk rejects only gets its handler and its looked-up entry |
| Engine.FetchTouchesOnlyItsEntry | node_helper.js:75-179 | a fetch creates or rewrites the entry for its own source and orientation, and no other |
| Engine.PlanTouchesOnlyItsEntry | node_helper.js:85-178 | running a plan writes at most the configuration's entry |
| Engine.FlickrTouchesOnlyItsEntry | node_helper.js:636-667 | the Flickr join writes at most the configuration's entry |
| Engine.CachedTouchesOnlyItsEntry | node_helper.js:243-251 | `cacheResult` writes only the configuration's entry |
| Engine.FetchSendsAtMostOnce | node_helper.js:75-179 | a fetch sends one notification or one request or nothing, never both, and the histories only grow |
| Engine.PlanSendsAtMostOnce | node_helper.js:85-178 | a plan sends one notification or one request or nothing |
| Engine.NormalisationKeepsLists | node_helper.js:264-288 | the normalisers keep every entry's images and expiry and send nothing; a stateless one changes no state and returns its list |
| Engine.ResponseCachesWhatItReturns | node_helper.js:289-293 | a non-empty list is what the entry holds afterwards, with a new expiry, and it is sent; the Met Museum returns no list itself |
| Engine.EmptyResponseSendsNothing | node_helper.js:289-293 | an empty list, outside the Met Museum join, changes no entry's images or expiry and sends nothing |
| Engine.StatelessResponseKeepsHandshake | node_helper.js:264-294 | a stateless source's response returns its normaliser's list and leaves the requests, handlers, iCloud and Synology state and Flickr data as they were |
| Engine.ResponseTouchesOnlyItsEntry | node_helper.js:264-294 | a response writes at most the configuration's entry |
| Engine.NormalisationTouchesOnlyItsEntry | node_helper.js:264-288 | the normalisers write at most the configuration's entry |
| Engine.SynologyTouchesOnlyItsEntry | node_helper.js:485-491 | a Synology step writes only the handshake fields of the configuration's entry |
| Client.Orientation | MMM-Wallpaper.js:57-66 | with "auto" the answer is "vertical" exactly when the viewport is narrower than it is tall, and "horizontal" otherwise; any other setting is returned unchanged; the answer is never "auto" |
| Client.Wallpaper.constructor | MMM-Wallpaper.js:14-25 | no image, position 0, and one request already sent |
| Client.Wallpaper.GetData | MMM-Wallpaper.js:49-55 | sends a copy of the configuration whose orientation is resolved, so no request ever asks for "auto" |
| Client.Wallpaper.SocketNotificationReceived | MMM-Wallpaper.js:27-47 | a WALLPAPERS payload for the module's own source (never an array) and orientation replaces the list, cut to maximumEntries, and takes the position modulo its length so that it stays in range; only the first accepted list sets the image and starts the rotation; anything else changes nothing |
| Client.Wallpaper.SlideTick | MMM-Wallpaper.js:39-43 | the position moves to (i+1) mod length, staying in range, and the next image is read there |
| Client.Wallpaper.OnNextImageLoad | MMM-Wallpaper.js:98-103 | the next image becomes the current one and the next slot becomes null; the rotation invariant is kept |
| Client.Mod | MMM-Wallpaper.js:33 | the position becomes NaN exactly when it was NaN or the list is empty; otherwise it lies in range, and a position already in range is kept |
| Client.ElementAt | MMM-Wallpaper.js:36 | reading the list gives a record exactly at an in-range position and undefined elsewhere, never null |
| Client.AdvanceWraps | MMM-Wallpaper.js:40 | up to `length` slides from position i reach i + k, wrapping once past the end |
| Client.FullRoundReturns | MMM-Wallpaper.js:40 | a full round of `length` slides returns to the starting image |
| Client.NaNIsPermanent | MMM-Wallpaper.js:33 | once the position is NaN it stays NaN through every later slide |
| Client.EmptyFirstListStalls | MMM-Wallpaper.js:33-37 | an empty first list makes the image undefined and the position NaN, and no later list or slide brings a position back |

## Left out

- HTTP plumbing is not modelled: the Express static handler, the Synology reverse proxy and its stream piping (node_helper.js:188-193, 492-527). Only the `handlers` set and the `image_map` table they read are kept.
- Network transport is not modelled: `fetch`, `response.text()` and `JSON.parse`. Every response arrives as an already-parsed payload value. Response headers are read as a plain dictionary, so `"set-cookie" in response.headers` sees the header; a WHATWG `Headers` object, which the global `fetch` returns, has no such property, and under it Synology's create_session step would never move on.
- The flickr-sdk calls and `Flickr.Feeds` are not modelled. What each sub-source query brings back is given as an answer value.
- A payload whose shape does not match the provider's normaliser is not modelled as a crash. It yields an empty list.
- `NodeCache` is a plain map. The `flickrDataCacheTime` expiry of its entries is not modelled.
- File-system reads are inputs: the bundled `firetv.json` and `chromecast.json` lists, and the directory tree, in which a directory whose `readdir` rejects is a value of its own. `path.resolve` is modelled as `dir + "/" + name`, which assumes an absolute, normalised directory.
- The SHA-1 cache key is the identity on `source::orientation`. It is injective here, whereas the real hash only makes collisions unlikely.
- `Math.random` and the settlement order of concurrent requests are draw sequences, as described above. Concurrency itself is not modelled: each join settles all its lookups in one call.
- The APOD start date is given as a calendar date, so the `Date` arithmetic before `z` is not modelled.
- `parseBool` is not modelled, since it is never called.
- `scaleImageToViewport` (floating-point scaling), DOM construction, CSS transitions, the timers and `window.onresize` are not modelled. The viewport is a parameter.
- Synology's `new URL(...)` parsing is not modelled. The share URL's protocol, host and pathname are given as a value.
- Client.Wallpaper.SlideTick: the timer is modelled as a method that runs only once rotation has started. A tick over an empty list is modelled (the position becomes NaN and the next image undefined), but `getDom` throwing on that undefined image is not.
- Engine.NodeHelper.ProcessResponse: for the Met Museum, the `images.length` test sees the `[]` that `processMetMuseumData` returns. The join's later `cacheResult` is folded into the same call.
- Js.ToLower: only ASCII letters are lowered, because Unicode case mapping tables are not modelled. `toLowerCase` also maps other letters, such as U+212A KELVIN SIGN to `k`, so a descriptor `flic\u212Ar-api:x` reaches Flickr in the module and Bing in the model.
- The configuration's `maxWidth` and `maxHeight` have no default in the module; they are `None` (undefined) unless configured, and then Flickr picks no size.
- Engine.NodeHelper.FetchFlickrApi: a sub-source that never resolves is a pending answer. The model says nothing is cached, but it does not model the promise staying open.
