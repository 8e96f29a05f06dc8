/**
 * The values the engine passes around: the normalised image record with its
 * resolution variants, the fetch configuration, outgoing HTTP requests and the
 * WALLPAPERS notification, plus the two pieces of logic every adapter shares:
 * sorting variants by area and the request header defaults of `request`.
 */
module Records {
  import opened Js

  /** One resolution of an image. `url` is None where the source leaves it undefined. */
  datatype Variant = Variant(url: Option<string>, width: int, height: int)

  /** A normalised image: `{url, caption, variants}`; a missing field is None / []. */
  datatype Image = Image(url: Option<string>, caption: Option<string>, variants: seq<Variant>)

  /**
   * The FETCH_WALLPAPERS configuration after `pick` has chosen one source.
   * `maxWidth` and `maxHeight` have no default and are None unless configured.
   */
  datatype Config = Config(
    source: string,
    orientation: string,
    maximumEntries: int,
    updateInterval: int,
    shuffle: bool,
    addCacheBuster: bool,
    nsfw: bool,
    recurseLocalDirectories: bool,
    maxWidth: Option<int>,
    maxHeight: Option<int>,
    pexelsSearch: string,
    pexelsKey: string,
    nasaApiKey: string)

  /** The WALLPAPERS notification sent back to the display module. */
  datatype Wallpapers = Wallpapers(source: string, orientation: string, images: seq<Image>)

  // ---------------------------------------------------------------------------
  // Sorting variants by area, as `variants.sort((a, b) => a.w * a.h - b.w * b.h)`

  function Area(v: Variant): int { v.width * v.height }

  /** Each variant's area is at most the next one's. */
  predicate SortedByArea(vs: seq<Variant>) {
    |vs| <= 1 || (Area(vs[0]) <= Area(vs[1]) && SortedByArea(vs[1..]))
  }

  /** A list sorted by area has every earlier area at most every later one. */
  lemma {:induction false} SortedPairwise(vs: seq<Variant>)
    requires SortedByArea(vs)
    ensures forall i, j :: 0 <= i < j < |vs| ==> Area(vs[i]) <= Area(vs[j])
  {
    if |vs| > 1 {
      SortedPairwise(vs[1..]);
      forall i, j | 0 <= i < j < |vs| ensures Area(vs[i]) <= Area(vs[j]) {
        if i > 0 {
          assert vs[i] == vs[1..][i - 1] && vs[j] == vs[1..][j - 1];
        } else if j > 1 {
          assert vs[1] == vs[1..][0] && vs[j] == vs[1..][j - 1];
        }
      }
    }
  }

  /** Inserts `v` before the first element whose area is not smaller, keeping earlier equals first. */
  function InsertByArea(v: Variant, sorted: seq<Variant>): (r: seq<Variant>)
    requires SortedByArea(sorted)
    ensures SortedByArea(r)
    ensures |r| == |sorted| + 1
    ensures r[0] == v || (sorted != [] && r[0] == sorted[0])
  {
    if sorted == [] || Area(v) <= Area(sorted[0]) then
      assert ([v] + sorted)[1..] == sorted;
      [v] + sorted
    else
      var rest := InsertByArea(v, sorted[1..]);
      assert ([sorted[0]] + rest)[1..] == rest;
      [sorted[0]] + rest
  }

  /** The stable ascending sort of the variants by width times height. */
  function SortByArea(vs: seq<Variant>): (r: seq<Variant>)
    ensures SortedByArea(r)
    ensures |r| == |vs|
  {
    if vs == [] then [] else InsertByArea(vs[0], SortByArea(vs[1..]))
  }

  /** Inserting adds exactly the one variant. */
  lemma {:induction false} InsertByAreaPermutes(v: Variant, sorted: seq<Variant>)
    requires SortedByArea(sorted)
    ensures multiset(InsertByArea(v, sorted)) == multiset(sorted) + multiset{v}
  {
    if !(sorted == [] || Area(v) <= Area(sorted[0])) {
      InsertByAreaPermutes(v, sorted[1..]);
      assert sorted == [sorted[0]] + sorted[1..];
    }
  }

  /** The sort is a permutation of its input. */
  lemma {:induction false} SortByAreaPermutes(vs: seq<Variant>)
    ensures multiset(SortByArea(vs)) == multiset(vs)
  {
    if vs != [] {
      var rest := SortByArea(vs[1..]);
      SortByAreaPermutes(vs[1..]);
      InsertByAreaPermutes(vs[0], rest);
      assert vs == [vs[0]] + vs[1..];
    }
  }

  /** The last variant of a list sorted by area is one of largest area. */
  lemma LastIsLargest(vs: seq<Variant>)
    requires SortedByArea(vs) && vs != []
    ensures forall v :: v in vs ==> Area(v) <= Area(vs[|vs| - 1])
  {
    SortedPairwise(vs);
  }

  /** Sorting keeps exactly the variants it was given. */
  lemma SortByAreaMembers(vs: seq<Variant>)
    ensures forall v :: v in SortByArea(vs) <==> v in vs
  {
    var s := SortByArea(vs);
    SortByAreaPermutes(vs);
    forall v ensures v in s <==> v in vs {
      assert v in s <==> v in multiset(s);
      assert v in vs <==> v in multiset(vs);
    }
  }

  /** After sorting, the last variant has the largest area of all the input variants. */
  lemma SortedLastIsLargest(vs: seq<Variant>)
    requires vs != []
    ensures var s := SortByArea(vs);
      s[|s| - 1] in vs && forall v :: v in vs ==> Area(v) <= Area(s[|s| - 1])
  {
    var s := SortByArea(vs);
    SortByAreaMembers(vs);
    LastIsLargest(s);
    assert s[|s| - 1] in s;
  }

  // ---------------------------------------------------------------------------
  // Requests

  datatype Verb = Get | Post
  /** A request body: none, a text, or `JSON.stringify({"photoGuids": […]})`. */
  datatype Body = NoBody | Text(text: string) | PhotoGuids(guids: seq<string>)

  /** The `params` object handed to `request`; `headers` may be absent. */
  datatype RequestParams = RequestParams(verb: Verb, url: string, headers: Option<map<string, string>>, body: Body)

  /** A request as it is passed to `fetch`. */
  datatype Request = Request(verb: Verb, url: string, headers: map<string, string>, body: Body)

  const CacheControl := "cache-control"

  /**
   * `request`'s header defaults: a missing header object becomes `{}`, and a
   * missing `cache-control` header becomes `no-cache`; every given header is kept.
   */
  function WithDefaultHeaders(params: RequestParams): (r: Request)
    ensures r.verb == params.verb && r.url == params.url && r.body == params.body
    ensures params.headers.None? ==> r.headers == map[CacheControl := "no-cache"]
    ensures params.headers.Some? ==> r.headers.Keys == params.headers.value.Keys + {CacheControl}
    ensures params.headers.Some? ==>
      forall h :: h in params.headers.value ==> r.headers[h] == params.headers.value[h]
    ensures params.headers.Some? && CacheControl !in params.headers.value ==>
      r.headers[CacheControl] == "no-cache"
  {
    var given := match params.headers case Some(h) => h case None => map[];
    var headers := if CacheControl in given then given else given[CacheControl := "no-cache"];
    Request(params.verb, params.url, headers, params.body)
  }

  /** Applying the defaults to a request that already went through them changes nothing. */
  lemma DefaultHeadersIdempotent(params: RequestParams)
    ensures var r := WithDefaultHeaders(params);
      WithDefaultHeaders(RequestParams(r.verb, r.url, Some(r.headers), r.body)) == r
  {
  }
}
