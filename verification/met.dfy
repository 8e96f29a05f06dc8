/**
 * The Met Museum join in `processMetMuseumData`: one object lookup per selected
 * id, all outstanding at once; each settlement that brings back a public-domain
 * object pushes its record, every settlement (failed ones included) decrements
 * the counter of pending lookups, and the settlement that brings it to zero
 * caches the list.
 */
module MetMuseum {
  import opened Js
  import opened Helpers
  import opened Records

  /** The fields of a collection object the join reads. */
  datatype MetObject = MetObject(
    isPublicDomain: bool,
    primaryImageSmall: Option<string>,
    title: Option<string>,
    artistDisplayName: Option<string>)

  /** `objects/${id}` as it settled: None when the fetch or its JSON failed. */
  type Lookup = Option<MetObject>

  /** Between the title and the artist in a caption. */
  const Separator := " - "

  /** The record pushed for a settled lookup; None when nothing is pushed. */
  function MetRecord(lookup: Lookup): (r: Option<Image>)
    ensures r.Some? <==> lookup.Some? && lookup.value.isPublicDomain
    ensures r.Some? ==> r.value.url == lookup.value.primaryImageSmall && r.value.variants == []
  {
    match lookup
    case Some(obj) =>
      if obj.isPublicDomain then
        Some(Image(obj.primaryImageSmall, Some(Js.Text(obj.title) + Separator + Js.Text(obj.artistDisplayName)), []))
      else None
    case None => None
  }

  /** The positions 0 … n-1, one per outstanding lookup. */
  function Positions(n: nat): (r: seq<nat>)
    ensures |r| == n && forall i :: 0 <= i < n ==> r[i] == i
  {
    seq(n, i requires 0 <= i < n => i)
  }

  /** The lookup of the i-th selected id; None past the end of what came back. */
  function LookupAt(lookups: seq<Lookup>, i: nat): Lookup {
    if i < |lookups| then lookups[i] else None
  }

  /** The records pushed by the first n settlements, in settlement order. */
  function Pushed(lookups: seq<Lookup>, order: seq<nat>, n: nat): (r: seq<Image>)
    requires n <= |order|
    ensures |r| <= n
  {
    if n == 0 then []
    else
      Pushed(lookups, order, n - 1) + (match MetRecord(LookupAt(lookups, order[n - 1])) case Some(x) => [x] case None => [])
  }

  /** A settlement order of the lookups: a permutation of the positions. */
  function SettleOrder(count: nat, settleDraws: Draws): (order: seq<nat>)
    ensures |order| == count
  {
    ShuffledIsPermutation<nat>(Positions(count), settleDraws);
    Shuffled<nat>(Positions(count), settleDraws)
  }

  /**
   * The join: `ids` are the selected object ids, `lookups[i]` how the lookup of
   * `ids[i]` settled and `settleDraws` the order of settlement. `cached` is the
   * list handed to `cacheResult` (None when it is never called) and
   * `resolutions` the number of calls: exactly one for a non-empty selection,
   * none for an empty one.
   */
  method MetJoin(ids: seq<int>, lookups: seq<Lookup>, settleDraws: Draws)
    returns (cached: Option<seq<Image>>, resolutions: nat)
    ensures resolutions == if ids == [] then 0 else 1
    ensures ids == [] <==> cached.None?
    ensures cached.Some? ==> cached.value == Pushed(lookups, SettleOrder(|ids|, settleDraws), |ids|)
  {
    var images: seq<Image> := [];
    cached := None;
    resolutions := 0;
    var pending := |ids|;
    var a := new nat[|ids|](i requires 0 <= i < |ids| => i);
    assert a[..] == Positions(|ids|);
    var order := Helpers.Shuffle(a, settleDraws);
    var k := 0;
    while k < |order|
      invariant 0 <= k <= |order| == |ids|
      invariant pending == |ids| - k
      invariant images == Pushed(lookups, order, k)
      invariant cached == if pending == 0 && k > 0 then Some(images) else None
      invariant resolutions == if pending == 0 && k > 0 then 1 else 0
    {
      var rec := MetRecord(LookupAt(lookups, order[k]));
      if rec.Some? {
        images := images + [rec.value];
      }
      pending := pending - 1;
      k := k + 1;
      if pending == 0 {
        cached := Some(images);
        resolutions := resolutions + 1;
      }
    }
  }

  /** Each settlement is seen once: every cached record is the record of one of the lookups. */
  lemma {:induction false} PushedFromLookups(lookups: seq<Lookup>, order: seq<nat>, n: nat)
    requires n <= |order|
    ensures forall img :: img in Pushed(lookups, order, n) ==>
      exists k :: 0 <= k < n && MetRecord(LookupAt(lookups, order[k])) == Some(img)
  {
    if n > 0 {
      PushedFromLookups(lookups, order, n - 1);
      var prev := Pushed(lookups, order, n - 1);
      var rec := MetRecord(LookupAt(lookups, order[n - 1]));
      forall img | img in Pushed(lookups, order, n)
        ensures exists k :: 0 <= k < n && MetRecord(LookupAt(lookups, order[k])) == Some(img)
      {
        if img !in prev {
          assert rec == Some(img);
        }
      }
    }
  }

  /** When every lookup brings back a public-domain object, every one of them is cached. */
  lemma {:induction false} PushedAll(lookups: seq<Lookup>, order: seq<nat>, n: nat)
    requires n <= |order|
    requires forall k :: 0 <= k < n ==> MetRecord(LookupAt(lookups, order[k])).Some?
    ensures |Pushed(lookups, order, n)| == n
  {
    if n > 0 {
      PushedAll(lookups, order, n - 1);
      assert MetRecord(LookupAt(lookups, order[n - 1])).Some?;
    }
  }

  /** Every selected id is settled exactly once, in some order. */
  lemma SettleOrderIsPermutation(count: nat, settleDraws: Draws)
    ensures var order := SettleOrder(count, settleDraws);
      |order| == count && multiset(order) == multiset(Positions(count))
      && forall k :: 0 <= k < count ==> order[k] < count
  {
    var order := SettleOrder(count, settleDraws);
    ShuffledIsPermutation<nat>(Positions(count), settleDraws);
    forall k | 0 <= k < count ensures order[k] < count {
      ShuffledMembers<nat>(Positions(count), settleDraws, order[k]);
      var i :| 0 <= i < count && Positions(count)[i] == order[k];
    }
  }
}
