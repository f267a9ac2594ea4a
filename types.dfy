/** Shared data model of the donation lifecycle: the two persisted document
    kinds (donations and notification tokens), the signed-in principal, and
    small wrappers for optional values and operations that may throw. */
module Types {

  datatype Option<+T> = None | Some(value: T)

  /** The outcome of an awaited call that may throw (a JSON body, a
      document read, an upload). */
  datatype Read<+T> = Ok(value: T) | Thrown

  /** Document ids, user ids, URLs and OTP codes are opaque strings. */
  type Id = string

  /** A server timestamp: opaque, but ordered. */
  type Time = nat

  datatype LatLng = LatLng(lat: real, lng: real)

  /** The great-circle distance in km. The haversine formula is floating-point
      trigonometry, so the model takes the distance as a parameter about which
      nothing is assumed. */
  type DistanceFn = (LatLng, LatLng) -> real

  /** The authenticated principal as the identity provider hands it over. */
  datatype User = User(uid: Id, displayName: Option<string>, email: Option<string>)

  /** `user.displayName ?? user.email`: only a missing display name falls back,
      an empty one is kept. */
  function NameOf(u: User): (r: Option<string>)
    ensures u.displayName.Some? ==> r == u.displayName
    ensures u.displayName.None? ==> r == u.email
  {
    match u.displayName
    case Some(_) => u.displayName
    case None => u.email
  }

  datatype Status = Open | Claimed | PickedUp | Completed

  /** Position of a status in the intended order open < claimed < picked_up < completed. */
  function Rank(s: Status): nat
  {
    match s
    case Open => 0
    case Claimed => 1
    case PickedUp => 2
    case Completed => 3
  }

  /** A document of the `donations` collection. Fields the source leaves
      unset until a later step are `None`. */
  datatype Donation = Donation(
    donorId: Id,
    donorName: Option<string>,
    itemName: string,
    quantityKg: real,
    meals: real,
    bestBefore: Option<string>,
    address: string,
    coords: Option<LatLng>,
    photoUrl: string,
    status: Status,
    otpCode: string,
    createdAt: Time,
    claimedBy: Option<Id>,
    claimedByName: Option<string>,
    claimTimestamp: Option<Time>,
    pickupVerifiedAt: Option<Time>,
    pickupProofUrl: Option<string>,
    distributionProofUrl: Option<string>,
    lastProofAt: Option<Time>)

  /** The fields written once at creation and never touched by any handler. */
  datatype Payload = Payload(
    donorId: Id, donorName: Option<string>, itemName: string, quantityKg: real,
    meals: real, bestBefore: Option<string>, address: string,
    coords: Option<LatLng>, photoUrl: string, otpCode: string, createdAt: Time)

  function PayloadOf(d: Donation): Payload
  {
    Payload(d.donorId, d.donorName, d.itemName, d.quantityKg, d.meals, d.bestBefore,
            d.address, d.coords, d.photoUrl, d.otpCode, d.createdAt)
  }

  /** A document of the `notificationTokens` collection, keyed by user id. */
  datatype TokenDoc = TokenDoc(
    token: Option<string>,
    userId: Id,
    role: string,
    coords: Option<LatLng>,
    updatedAt: Time)

  /** JavaScript truthiness of an optional string: present and non-empty. */
  predicate Truthy(s: Option<string>)
  {
    s.Some? && s.value != ""
  }
}
