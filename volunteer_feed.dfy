/** The volunteer's feed component: its local state (location, the live
    list of donations, typed OTP codes, upload flags, push status) and the
    handlers that write to the store. */
module VolunteerFeed {
  import opened Types
  import opened Lifecycle
  import Feed
  import Store

  datatype PushStatus = Idle | Unsupported | Granted | Denied

  /** How far the push opt-in gets before a token is requested: no
      Notification API, no messaging support, permission not granted, no
      VAPID key configured, or a token (possibly empty) handed back. */
  datatype PushEnv =
    | NoNotificationApi
    | NoMessaging
    | PermissionNotGranted
    | NoVapidKey
    | TokenIssued(token: Option<string>)

  datatype UploadOutcome = UploadNotSignedIn | UploadThrew | ProofNotSaved | ProofSaved

  const VolunteerRole: string := "volunteer"

  /** The merge-write of a volunteer's token document under their user id:
      one record per user, the latest registration replacing the earlier one. */
  function RegisterToken(tokens: map<Id, TokenDoc>, u: User, token: string,
                         coords: Option<LatLng>, now: Time): (r: map<Id, TokenDoc>)
    ensures r.Keys == tokens.Keys + {u.uid}
    ensures r[u.uid].token == Some(token) && r[u.uid].userId == u.uid
    ensures r[u.uid].role == VolunteerRole && r[u.uid].coords == coords && r[u.uid].updatedAt == now
    ensures forall k :: k in tokens && k != u.uid ==> r[k] == tokens[k]
  {
    tokens[u.uid := TokenDoc(Some(token), u.uid, VolunteerRole, coords, now)]
  }

  /** A later registration by the same user wins; the earlier one leaves no trace. */
  lemma LastRegistrationWins(tokens: map<Id, TokenDoc>, u: User, t1: string, c1: Option<LatLng>, n1: Time,
                             t2: string, c2: Option<LatLng>, n2: Time)
    ensures RegisterToken(RegisterToken(tokens, u, t1, c1, n1), u, t2, c2, n2)
         == RegisterToken(tokens, u, t2, c2, n2)
  {
  }

  class VolunteerFeed {
    const db: Store.Db
    const dist: DistanceFn
    var coords: Option<LatLng>
    var donations: seq<Feed.FeedItem>
    var otpInputs: map<Id, string>
    var uploading: map<Id, bool>
    var pushStatus: PushStatus

    /** The local list only ever holds what the live query delivers. */
    ghost predicate Valid()
      reads this
    {
      forall i :: 0 <= i < |donations| ==> Feed.Listed(donations[i].donation.status)
    }

    constructor (db: Store.Db, dist: DistanceFn)
      ensures Valid()
      ensures this.db == db && this.dist == dist
      ensures coords.None? && donations == [] && otpInputs == map[] && uploading == map[]
      ensures pushStatus == Idle
    {
      this.db := db;
      this.dist := dist;
      coords := None;
      donations := [];
      otpInputs := map[];
      uploading := map[];
      pushStatus := Idle;
    }

    /** The geolocation callback stores the volunteer's position. */
    method LocationFound(here: LatLng)
      requires Valid()
      modifies this
      ensures Valid()
      ensures coords == Some(here)
      ensures donations == old(donations) && otpInputs == old(otpInputs)
      ensures uploading == old(uploading) && pushStatus == old(pushStatus)
    {
      coords := Some(here);
    }

    /** The live query's callback replaces the local list with the open,
        claimed and picked-up donations of the store's listing. */
    method ReceiveSnapshot(listing: seq<Feed.FeedItem>)
      modifies this
      ensures Valid()
      ensures donations == Feed.LiveQuery(listing)
      ensures coords == old(coords) && otpInputs == old(otpInputs)
      ensures uploading == old(uploading) && pushStatus == old(pushStatus)
    {
      donations := Feed.LiveQuery(listing);
    }

    /** What the feed shows: never a completed donation, each one within the
        radius of the volunteer's location. */
    function Nearby(): (r: seq<Feed.Nearby>)
      reads this
      requires Valid()
      ensures coords.None? ==> r == []
      ensures forall i :: 0 <= i < |r| ==>
        && r[i].item in donations
        && r[i].item.donation.status != Completed
        && Feed.InRadius(coords.value, r[i].item.donation, dist)
    {
      Feed.NearbyDonations(coords, donations, dist)
    }

    /** `handleClaim`: without a user nothing happens; otherwise the claim
        transaction runs as one atomic step. */
    method Claim(id: Id, user: Option<User>, now: Time) returns (r: Option<ClaimOutcome>)
      requires Valid()
      modifies db
      ensures Valid()
      ensures user.None? ==> r.None? && db.donations == old(db.donations)
      ensures user.Some? ==>
        && r == Some(ClaimTx(old(db.donations), id, user.value, now).outcome)
        && db.donations == ClaimTx(old(db.donations), id, user.value, now).docs
      ensures db.notificationTokens == old(db.notificationTokens)
    {
      if user.None? {
        return None;
      }
      var u := user.value;
      if id !in db.donations || db.donations[id].status != Open {
        return Some(AlreadyClaimed);
      }
      var d := db.donations[id];
      db.donations := db.donations[id := d.(status := Claimed, claimedBy := Some(u.uid),
                                            claimedByName := NameOf(u), claimTimestamp := Some(now))];
      r := Some(ClaimCommitted);
    }

    /** The OTP input's change handler. */
    method EnterOtp(id: Id, value: string)
      requires Valid()
      modifies this
      ensures Valid()
      ensures otpInputs == old(otpInputs)[id := value]
      ensures coords == old(coords) && donations == old(donations)
      ensures uploading == old(uploading) && pushStatus == old(pushStatus)
    {
      otpInputs := otpInputs[id := value];
    }

    /** `handleOtpVerify`: compares the typed code with the stored one; on a
        match marks the donation picked up and clears the typed code, otherwise
        leaves both the store and the typed code as they were. */
    method VerifyOtp(id: Id, now: Time) returns (r: OtpOutcome)
      requires Valid()
      modifies this, db
      ensures Valid()
      ensures var typed := if id in old(otpInputs) then old(otpInputs)[id] else "";
        && r == OtpVerify(old(db.donations), id, typed, now).outcome
        && db.donations == OtpVerify(old(db.donations), id, typed, now).docs
      ensures otpInputs == if r == OtpVerified then old(otpInputs)[id := ""] else old(otpInputs)
      ensures db.notificationTokens == old(db.notificationTokens)
      ensures coords == old(coords) && donations == old(donations)
      ensures uploading == old(uploading) && pushStatus == old(pushStatus)
    {
      var typed := if id in otpInputs then otpInputs[id] else "";
      if typed == "" {
        return NoInput;
      }
      if id !in db.donations {
        return OtpNotFound;
      }
      var d := db.donations[id];
      if d.otpCode == typed {
        db.donations := db.donations[id := d.(status := PickedUp, pickupVerifiedAt := Some(now))];
        otpInputs := otpInputs[id := ""];
        r := OtpVerified;
      } else {
        r := OtpMismatch;
      }
    }

    /** `handleProofUpload`: raises the uploading flag, uploads the file
        (`upload` is the download URL, or the upload threw), writes the proof
        and lowers the flag. A throw leaves the flag raised and writes nothing. */
    method UploadProof(id: Id, kind: ProofKind, user: Option<User>, upload: Read<string>, now: Time)
      returns (r: UploadOutcome)
      requires Valid()
      modifies this, db
      ensures Valid()
      ensures user.None? ==> r == UploadNotSignedIn && uploading == old(uploading)
      ensures user.Some? && upload.Thrown? ==> r == UploadThrew && uploading == old(uploading)[id := true]
      ensures user.Some? && upload.Ok? ==>
        && var s := AttachProof(old(db.donations), id, kind, upload.value, now);
        && db.donations == s.docs
        && (s.outcome == ProofAttached ==> r == ProofSaved && uploading == old(uploading)[id := false])
        && (s.outcome == ProofNotFound ==> r == ProofNotSaved && uploading == old(uploading)[id := true])
      ensures !(user.Some? && upload.Ok?) ==> db.donations == old(db.donations)
      ensures db.notificationTokens == old(db.notificationTokens)
      ensures coords == old(coords) && donations == old(donations)
      ensures otpInputs == old(otpInputs) && pushStatus == old(pushStatus)
    {
      if user.None? {
        return UploadNotSignedIn;
      }
      uploading := uploading[id := true];
      if upload.Thrown? {
        return UploadThrew;
      }
      var url := upload.value;
      if id !in db.donations {
        return ProofNotSaved;
      }
      var d := db.donations[id];
      var updated := match kind
        case PickupProof => d.(pickupProofUrl := Some(url), lastProofAt := Some(now))
        case DistributionProof =>
          d.(distributionProofUrl := Some(url), lastProofAt := Some(now), status := Completed);
      db.donations := db.donations[id := updated];
      uploading := uploading[id := false];
      r := ProofSaved;
    }

    /** `requestPush`: the opt-in ends early with a status when the browser,
        the permission or the configuration does not allow push; with a
        non-empty token and a signed-in user the token document is upserted
        with the volunteer's current location. */
    method RequestPush(env: PushEnv, user: Option<User>, now: Time)
      requires Valid()
      modifies this, db
      ensures Valid()
      ensures env.NoNotificationApi? || env.NoMessaging? || env.NoVapidKey? ==> pushStatus == Unsupported
      ensures env.PermissionNotGranted? ==> pushStatus == Denied
      ensures env.TokenIssued? && Truthy(env.token) && user.Some? ==>
        && db.notificationTokens == RegisterToken(old(db.notificationTokens), user.value, env.token.value, old(coords), now)
        && pushStatus == Granted
      ensures !(env.TokenIssued? && Truthy(env.token) && user.Some?) ==>
        db.notificationTokens == old(db.notificationTokens)
      ensures env.TokenIssued? && !(Truthy(env.token) && user.Some?) ==> pushStatus == old(pushStatus)
      ensures db.donations == old(db.donations)
      ensures coords == old(coords) && donations == old(donations)
      ensures otpInputs == old(otpInputs) && uploading == old(uploading)
    {
      match env
      case NoNotificationApi =>
        pushStatus := Unsupported;
      case NoMessaging =>
        pushStatus := Unsupported;
      case PermissionNotGranted =>
        pushStatus := Denied;
      case NoVapidKey =>
        pushStatus := Unsupported;
      case TokenIssued(token) =>
        if Truthy(token) && user.Some? {
          var u := user.value;
          db.notificationTokens := db.notificationTokens[u.uid := TokenDoc(token, u.uid, VolunteerRole, coords, now)];
          pushStatus := Granted;
        }
    }
  }
}
