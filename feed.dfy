/** The volunteer feed: the live query over the `donations` collection and
    the `nearbyDonations` filter that keeps what lies within 5 km of the
    volunteer. */
module Feed {
  import opened Types

  /** The feed's radius, `RADIUS_KM`. */
  const RadiusKm: real := 5.0

  /** A donation as the live query delivers it: its id spread into its data. */
  datatype FeedItem = FeedItem(id: Id, donation: Donation)

  /** A feed entry with its distance from the volunteer attached. */
  datatype Nearby = Nearby(item: FeedItem, distance: real)

  /** The query's `where('status', 'in', ['open', 'claimed', 'picked_up'])`. */
  predicate Listed(s: Status)
  {
    s == Open || s == Claimed || s == PickedUp
  }

  /** The documents the live query delivers, in the order the store lists them. */
  function LiveQuery(docs: seq<FeedItem>): (r: seq<FeedItem>)
    ensures |r| <= |docs|
    ensures forall i :: 0 <= i < |r| ==> r[i] in docs && Listed(r[i].donation.status)
    ensures forall x :: x in docs && Listed(x.donation.status) ==> x in r
    decreases |docs|
  {
    if docs == [] then []
    else if Listed(docs[0].donation.status) then [docs[0]] + LiveQuery(docs[1..])
    else LiveQuery(docs[1..])
  }

  /** A donation the volunteer at `here` would see: it has coordinates and
      lies at most 5 km away. A donation without coordinates gets distance
      Infinity in the source, which never passes. */
  predicate InRadius(here: LatLng, d: Donation, dist: DistanceFn)
  {
    d.coords.Some? && dist(here, d.coords.value) <= RadiusKm
  }

  /** `nearbyDonations`: nothing without a location, otherwise each donation
      with its distance, keeping those within the radius, in input order. */
  function NearbyDonations(here: Option<LatLng>, items: seq<FeedItem>, dist: DistanceFn): (r: seq<Nearby>)
    ensures here.None? ==> r == []
    ensures |r| <= |items|
    ensures forall i :: 0 <= i < |r| ==>
      && r[i].item in items
      && here.Some?
      && InRadius(here.value, r[i].item.donation, dist)
      && r[i].distance == dist(here.value, r[i].item.donation.coords.value)
    decreases |items|
  {
    if here.None? || items == [] then []
    else
      var d := items[0].donation;
      var rest := NearbyDonations(here, items[1..], dist);
      if InRadius(here.value, d, dist) then [Nearby(items[0], dist(here.value, d.coords.value))] + rest
      else rest
  }

  /** Every donation within the radius is shown: the filter drops nothing it
      should keep. */
  lemma {:induction false} NearbyComplete(here: LatLng, items: seq<FeedItem>, dist: DistanceFn, x: FeedItem)
    requires x in items && InRadius(here, x.donation, dist)
    ensures exists i :: 0 <= i < |NearbyDonations(Some(here), items, dist)|
                        && NearbyDonations(Some(here), items, dist)[i].item == x
    decreases |items|
  {
    var r := NearbyDonations(Some(here), items, dist);
    if items[0] == x {
      assert r[0].item == x;
    } else {
      NearbyComplete(here, items[1..], dist, x);
      var rest := NearbyDonations(Some(here), items[1..], dist);
      var i :| 0 <= i < |rest| && rest[i].item == x;
      if InRadius(here, items[0].donation, dist) {
        assert r[i + 1].item == x;
      } else {
        assert r[i].item == x;
      }
    }
  }

  /** The filter works item by item, so it keeps the input order: filtering a
      concatenation is the concatenation of the filtered parts. */
  lemma {:induction false} NearbyAppend(here: Option<LatLng>, a: seq<FeedItem>, b: seq<FeedItem>, dist: DistanceFn)
    ensures NearbyDonations(here, a + b, dist) == NearbyDonations(here, a, dist) + NearbyDonations(here, b, dist)
    decreases |a|
  {
    if here.Some? && a != [] {
      assert (a + b)[1..] == a[1..] + b;
      NearbyAppend(here, a[1..], b, dist);
    } else if a == [] {
      assert a + b == b;
    }
  }

  /** The feed never shows a completed donation. */
  lemma FeedNeverCompleted(here: Option<LatLng>, docs: seq<FeedItem>, dist: DistanceFn)
    ensures forall n :: n in NearbyDonations(here, LiveQuery(docs), dist) ==>
      n.item.donation.status != Completed
  {
  }
}
