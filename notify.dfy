/** The `POST /api/notify` handler: request validation, selection of the
    target device tokens around a new donation, and the single batched send. */
module Notify {
  import opened Types
  import Feed

  /** `MAX_DISTANCE_KM` and the tolerance added at the comparison. */
  const MaxDistanceKm: real := 5.0
  const ToleranceKm: real := 0.3

  /** What reading the donation document returned. */
  datatype Snapshot = Missing | NoData | Exists(data: Donation)

  /** The payload's structured data block; the title and body text are not modelled. */
  datatype Multicast = Multicast(tokens: seq<string>, donationId: Id, itemName: string, quantityKg: real)

  datatype Body =
    | ErrorBody(error: string)
    | DeliveredBody(delivered: nat, message: Option<string>)

  /** The response, and the one send call the handler made, if any. */
  datatype Result = Result(status: nat, body: Body, send: Option<Multicast>)

  const MissingIdError: string := "donationId is required"
  const NotFoundError: string := "Donation not found"
  const NoPayloadError: string := "Donation payload missing"
  const DispatchError: string := "FCM not configured"
  const NoTokensMessage: string := "No volunteer tokens stored yet."

  /** The geofence at dispatch: unknown coordinates on either side never
      exclude; otherwise the token must lie within 5 + 0.3 km. */
  predicate WithinDispatch(donationCoords: Option<LatLng>, t: TokenDoc, dist: DistanceFn)
  {
    donationCoords.None? || t.coords.None?
    || dist(donationCoords.value, t.coords.value) <= MaxDistanceKm + ToleranceKm
  }

  /** A token that is sent to: it has a token value and passes the geofence. */
  predicate Targeted(donationCoords: Option<LatLng>, t: TokenDoc, dist: DistanceFn)
  {
    Truthy(t.token) && WithinDispatch(donationCoords, t, dist)
  }

  /** The `filter`/`filter` pipeline over the stored tokens. */
  function Targets(donationCoords: Option<LatLng>, tokens: seq<TokenDoc>, dist: DistanceFn): (r: seq<TokenDoc>)
    ensures |r| <= |tokens|
    ensures forall i :: 0 <= i < |r| ==> r[i] in tokens && Targeted(donationCoords, r[i], dist)
    decreases |tokens|
  {
    if tokens == [] then []
    else
      var rest := Targets(donationCoords, tokens[1..], dist);
      if Targeted(donationCoords, tokens[0], dist) then [tokens[0]] + rest else rest
  }

  /** `targets.map((token) => token.token)`. */
  function TokenValues(targets: seq<TokenDoc>): (r: seq<string>)
    requires forall i :: 0 <= i < |targets| ==> Truthy(targets[i].token)
    ensures |r| == |targets|
    ensures forall i :: 0 <= i < |r| ==> Some(r[i]) == targets[i].token && r[i] != ""
    decreases |targets|
  {
    if targets == [] then []
    else
      assert Truthy(targets[0].token);
      [targets[0].token.value] + TokenValues(targets[1..])
  }

  /** The handler. `body` is the parsed request (its `donationId`), `snap` the
      read of the donation, `tokens` the read of the token collection, and
      `sendOk` whether the push provider accepted the batch. Every throw is
      caught and answered with 500. */
  function Post(body: Read<Option<Id>>, snap: Read<Snapshot>, tokens: Read<seq<TokenDoc>>,
                sendOk: bool, dist: DistanceFn): (r: Result)
    ensures r.status in {200, 400, 404, 422, 500}
    ensures r.status == 400 <==> body.Ok? && !Truthy(body.value)
    ensures r.status == 404 <==> body.Ok? && Truthy(body.value) && snap == Ok(Missing)
    ensures r.status == 422 <==> body.Ok? && Truthy(body.value) && snap == Ok(NoData)
    ensures r.status != 200 ==> r.body.ErrorBody?
    ensures r.status == 200 ==> r.body.DeliveredBody? && (r.body.delivered > 0 <==> r.send.Some?)
    ensures r.send.Some? ==> r.send.value.tokens != []
    // A throw while parsing the body, reading the donation or reading the
    // tokens is caught and answered with 500, before any send.
    ensures || body.Thrown?
            || (body.Ok? && Truthy(body.value) && snap.Thrown?)
            || (body.Ok? && Truthy(body.value) && snap.Ok? && snap.value.Exists? && tokens.Thrown?)
            ==> r == Result(500, ErrorBody(DispatchError), None)
  {
    match body
    case Thrown => Result(500, ErrorBody(DispatchError), None)
    case Ok(donationId) =>
      if !Truthy(donationId) then Result(400, ErrorBody(MissingIdError), None)
      else
        match snap
        case Thrown => Result(500, ErrorBody(DispatchError), None)
        case Ok(Missing) => Result(404, ErrorBody(NotFoundError), None)
        case Ok(NoData) => Result(422, ErrorBody(NoPayloadError), None)
        case Ok(Exists(donation)) =>
          match tokens
          case Thrown => Result(500, ErrorBody(DispatchError), None)
          case Ok(all) =>
            var targets := Targets(donation.coords, all, dist);
            if |targets| == 0 then Result(200, DeliveredBody(0, Some(NoTokensMessage)), None)
            else
              var batch := Multicast(TokenValues(targets), donationId.value, donation.itemName, donation.quantityKg);
              if sendOk then Result(200, DeliveredBody(|targets|, None), Some(batch))
              else Result(500, ErrorBody(DispatchError), Some(batch))
  }

  // ---------------------------------------------------------------------------

  /** A token is targeted exactly when it has a token value and passes the
      geofence: the filter drops nothing it should keep. */
  lemma {:induction false} TargetsComplete(donationCoords: Option<LatLng>, tokens: seq<TokenDoc>, dist: DistanceFn, t: TokenDoc)
    requires t in tokens
    ensures t in Targets(donationCoords, tokens, dist) <==> Targeted(donationCoords, t, dist)
    decreases |tokens|
  {
    if tokens[0] != t {
      TargetsComplete(donationCoords, tokens[1..], dist, t);
    }
  }

  /** The filters keep the stored order: selecting from a concatenation is the
      concatenation of the selections. */
  lemma {:induction false} TargetsAppend(donationCoords: Option<LatLng>, a: seq<TokenDoc>, b: seq<TokenDoc>, dist: DistanceFn)
    ensures Targets(donationCoords, a + b, dist) == Targets(donationCoords, a, dist) + Targets(donationCoords, b, dist)
    decreases |a|
  {
    if a == [] {
      assert a + b == b;
    } else {
      assert (a + b)[1..] == a[1..] + b;
      TargetsAppend(donationCoords, a[1..], b, dist);
    }
  }

  /** Validation comes before any token is read: for a missing id, an absent
      document or one without data, the answer does not depend on the token
      read or the push provider (nor, for a missing id, on the document read). */
  lemma ValidationBeforeTokens(body: Read<Option<Id>>, snap: Read<Snapshot>, snap': Read<Snapshot>,
                               tokens: Read<seq<TokenDoc>>, tokens': Read<seq<TokenDoc>>,
                               sendOk: bool, sendOk': bool, dist: DistanceFn)
    requires Post(body, snap, tokens, sendOk, dist).status in {400, 404, 422}
    ensures Post(body, snap, tokens, sendOk, dist).send.None?
    ensures Post(body, snap, tokens, sendOk, dist) == Post(body, snap, tokens', sendOk', dist)
    ensures Post(body, snap, tokens, sendOk, dist).status == 400 ==>
      Post(body, snap, tokens, sendOk, dist) == Post(body, snap', tokens', sendOk', dist)
  {
  }

  /** With no targets, the answer is `delivered: 0` and no send is made; with
      targets, exactly one batch goes to their token values in stored order,
      and on success `delivered` counts them. */
  lemma DispatchOutcome(donationId: Id, donation: Donation, all: seq<TokenDoc>, sendOk: bool, dist: DistanceFn)
    requires donationId != ""
    ensures var r := Post(Ok(Some(donationId)), Ok(Exists(donation)), Ok(all), sendOk, dist);
      var targets := Targets(donation.coords, all, dist);
      && (targets == [] ==> r == Result(200, DeliveredBody(0, Some(NoTokensMessage)), None))
      && (targets != [] ==>
            && r.send == Some(Multicast(TokenValues(targets), donationId, donation.itemName, donation.quantityKg))
            && (sendOk ==> r.status == 200 && r.body.delivered == |targets|)
            && (!sendOk ==> r.status == 500))
  {
  }

  /** A token registered without a location is targeted whatever the
      distance function says. */
  lemma UnknownLocationAlwaysTargeted(donationCoords: Option<LatLng>, tokens: seq<TokenDoc>, t: TokenDoc, dist: DistanceFn)
    requires t in tokens && Truthy(t.token) && t.coords.None?
    ensures t in Targets(donationCoords, tokens, dist)
  {
    TargetsComplete(donationCoords, tokens, dist, t);
  }

  /** The dispatch radius is wider than the feed's: a volunteer who would see
      the donation in the feed from the token's recorded location is also
      alerted. The feed measures from volunteer to donation and dispatch from
      donation to token, so this needs the distance to be symmetric on that pair. */
  lemma FeedWithinDispatch(donation: Donation, tokens: seq<TokenDoc>, t: TokenDoc, dist: DistanceFn)
    requires t in tokens && Truthy(t.token) && t.coords.Some?
    requires Feed.InRadius(t.coords.value, donation, dist)
    requires dist(donation.coords.value, t.coords.value) == dist(t.coords.value, donation.coords.value)
    ensures t in Targets(donation.coords, tokens, dist)
  {
    TargetsComplete(donation.coords, tokens, dist, t);
  }
}
