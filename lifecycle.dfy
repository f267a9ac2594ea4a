/** The writes each handler performs on the `donations` collection, as pure
    transitions on a map from document id to document, and what follows
    from them over any sequence of handler calls. */
module Lifecycle {
  import opened Types

  type Docs = map<Id, Donation>

  /** The result of one handler together with the collection it leaves. */
  datatype Step<+O> = Step(outcome: O, docs: Docs)

  /** Every document other than `id` is kept as it was. */
  ghost predicate OthersKept(before: Docs, after: Docs, id: Id)
  {
    && before.Keys == after.Keys
    && forall k :: k in before && k != id ==> after[k] == before[k]
  }

  // ---------------------------------------------------------------------------
  // Claim: a transaction that reads the document and writes the claim fields
  // only when it exists and is still open.

  datatype ClaimOutcome = AlreadyClaimed | ClaimCommitted

  /** The message the transaction throws when its check fails. */
  const AlreadyClaimedMessage: string := "Already claimed"

  function ClaimTx(docs: Docs, id: Id, u: User, now: Time): (r: Step<ClaimOutcome>)
    ensures r.outcome == ClaimCommitted <==> id in docs && docs[id].status == Open
    ensures r.outcome == AlreadyClaimed ==> r.docs == docs
    ensures OthersKept(docs, r.docs, id)
    ensures r.outcome == ClaimCommitted ==>
      && r.docs[id].status == Claimed
      && r.docs[id].claimedBy == Some(u.uid)
      && r.docs[id].claimedByName == NameOf(u)
      && r.docs[id].claimTimestamp == Some(now)
      && PayloadOf(r.docs[id]) == PayloadOf(docs[id])
      && r.docs[id].pickupVerifiedAt == docs[id].pickupVerifiedAt
      && r.docs[id].pickupProofUrl == docs[id].pickupProofUrl
      && r.docs[id].distributionProofUrl == docs[id].distributionProofUrl
      && r.docs[id].lastProofAt == docs[id].lastProofAt
  {
    if id !in docs || docs[id].status != Open then Step(AlreadyClaimed, docs)
    else
      var d := docs[id];
      Step(ClaimCommitted, docs[id := d.(status := Claimed, claimedBy := Some(u.uid),
                                         claimedByName := NameOf(u), claimTimestamp := Some(now))])
  }

  // ---------------------------------------------------------------------------
  // OTP verification: an exact comparison of the typed code with the stored one.

  datatype OtpOutcome = NoInput | OtpNotFound | OtpMismatch | OtpVerified

  function OtpVerify(docs: Docs, id: Id, typed: string, now: Time): (r: Step<OtpOutcome>)
    ensures r.outcome == OtpVerified <==> typed != "" && id in docs && docs[id].otpCode == typed
    ensures r.outcome == NoInput <==> typed == ""
    ensures r.outcome == OtpNotFound <==> typed != "" && id !in docs
    ensures r.outcome != OtpVerified ==> r.docs == docs
    ensures OthersKept(docs, r.docs, id)
    ensures r.outcome == OtpVerified ==>
      && r.docs[id].status == PickedUp
      && r.docs[id].pickupVerifiedAt == Some(now)
      && r.docs[id] == docs[id].(status := PickedUp, pickupVerifiedAt := Some(now))
  {
    if typed == "" then Step(NoInput, docs)
    else if id !in docs then Step(OtpNotFound, docs)
    else if docs[id].otpCode == typed then
      Step(OtpVerified, docs[id := docs[id].(status := PickedUp, pickupVerifiedAt := Some(now))])
    else Step(OtpMismatch, docs)
  }

  // ---------------------------------------------------------------------------
  // Proof attachment: `updateDoc` with the proof field and `lastProofAt`, and
  // `status: 'completed'` for a distribution proof. `updateDoc` on a missing
  // document throws and writes nothing.

  datatype ProofKind = PickupProof | DistributionProof

  datatype ProofOutcome = ProofNotFound | ProofAttached

  function AttachProof(docs: Docs, id: Id, kind: ProofKind, url: string, now: Time): (r: Step<ProofOutcome>)
    ensures r.outcome == ProofAttached <==> id in docs
    ensures r.outcome == ProofNotFound ==> r.docs == docs
    ensures OthersKept(docs, r.docs, id)
    ensures r.outcome == ProofAttached ==>
      && r.docs[id].lastProofAt == Some(now)
      && (kind == PickupProof ==>
            r.docs[id].pickupProofUrl == Some(url)
            && r.docs[id].distributionProofUrl == docs[id].distributionProofUrl
            && r.docs[id].status == docs[id].status)
      && (kind == DistributionProof ==>
            r.docs[id].distributionProofUrl == Some(url)
            && r.docs[id].pickupProofUrl == docs[id].pickupProofUrl
            && r.docs[id].status == Completed)
      && PayloadOf(r.docs[id]) == PayloadOf(docs[id])
      && r.docs[id].claimedBy == docs[id].claimedBy
      && r.docs[id].claimedByName == docs[id].claimedByName
      && r.docs[id].claimTimestamp == docs[id].claimTimestamp
      && r.docs[id].pickupVerifiedAt == docs[id].pickupVerifiedAt
  {
    if id !in docs then Step(ProofNotFound, docs)
    else
      var d := docs[id];
      var d' := match kind
        case PickupProof => d.(pickupProofUrl := Some(url), lastProofAt := Some(now))
        case DistributionProof =>
          d.(distributionProofUrl := Some(url), lastProofAt := Some(now), status := Completed);
      Step(ProofAttached, docs[id := d'])
  }

  // ---------------------------------------------------------------------------
  // Creation: the record `handleSubmit` passes to `addDoc`.

  const MealsPerKg: real := 4.0

  function NewDonation(u: User, itemName: string, quantityKg: real, bestBefore: Option<string>,
                       address: string, coords: LatLng, photoUrl: string, otp: string,
                       now: Time): (d: Donation)
    ensures d.status == Open
    ensures d.meals == quantityKg * 4.0
    ensures d.donorId == u.uid && d.donorName == NameOf(u)
    ensures d.otpCode == otp && d.coords == Some(coords) && d.createdAt == now
    ensures d.itemName == itemName && d.quantityKg == quantityKg && d.bestBefore == bestBefore
    ensures d.address == address && d.photoUrl == photoUrl
    ensures d.claimedBy.None? && d.claimedByName.None? && d.claimTimestamp.None?
    ensures d.pickupVerifiedAt.None?
    ensures d.pickupProofUrl.None? && d.distributionProofUrl.None? && d.lastProofAt.None?
  {
    Donation(u.uid, NameOf(u), itemName, quantityKg, quantityKg * MealsPerKg, bestBefore,
             address, Some(coords), photoUrl, Open, otp, now,
             None, None, None, None, None, None, None)
  }

  /** `addDoc` stores the record under a freshly generated id. */
  function Create(docs: Docs, id: Id, d: Donation): (r: Docs)
    requires id !in docs
    ensures r.Keys == docs.Keys + {id} && r[id] == d
    ensures forall k :: k in docs ==> r[k] == docs[k]
  {
    docs[id := d]
  }

  // ---------------------------------------------------------------------------
  // Any sequence of handler calls on the collection.

  datatype Op =
    | ClaimOp(id: Id, u: User, now: Time)
    | OtpOp(id: Id, typed: string, now: Time)
    | ProofOp(id: Id, kind: ProofKind, url: string, now: Time)
    | CreateOp(id: Id, d: Donation)

  /** One handler call. Auto-generated ids never collide, so a creation under
      an id already in use is not a possible call and leaves the collection as it is. */
  function Apply(docs: Docs, op: Op): Docs
  {
    match op
    case ClaimOp(id, u, now) => ClaimTx(docs, id, u, now).docs
    case OtpOp(id, typed, now) => OtpVerify(docs, id, typed, now).docs
    case ProofOp(id, kind, url, now) => AttachProof(docs, id, kind, url, now).docs
    case CreateOp(id, d) => if id in docs then docs else Create(docs, id, d)
  }

  function Run(docs: Docs, ops: seq<Op>): Docs
    decreases |ops|
  {
    if ops == [] then docs else Run(Apply(docs, ops[0]), ops[1..])
  }

  /** A claimed document: not open, with its claimant recorded. */
  ghost predicate ClaimedAs(docs: Docs, id: Id, uid: Id, name: Option<string>, at: Time)
  {
    && id in docs
    && docs[id].status != Open
    && docs[id].claimedBy == Some(uid)
    && docs[id].claimedByName == name
    && docs[id].claimTimestamp == Some(at)
  }

  /** No handler reopens a document or rewrites its claim. */
  lemma ApplyKeepsClaim(docs: Docs, op: Op, id: Id, uid: Id, name: Option<string>, at: Time)
    requires ClaimedAs(docs, id, uid, name, at)
    ensures ClaimedAs(Apply(docs, op), id, uid, name, at)
  {
  }

  /** Once claimed, a document stays claimed by the same volunteer whatever
      handler calls follow. */
  lemma {:induction false} ClaimIsFinal(docs: Docs, ops: seq<Op>, id: Id, uid: Id, name: Option<string>, at: Time)
    requires ClaimedAs(docs, id, uid, name, at)
    ensures ClaimedAs(Run(docs, ops), id, uid, name, at)
    decreases |ops|
  {
    if ops != [] {
      ApplyKeepsClaim(docs, ops[0], id, uid, name, at);
      ClaimIsFinal(Apply(docs, ops[0]), ops[1..], id, uid, name, at);
    }
  }

  /** After a successful claim, every later claim on that id fails and writes
      nothing, and the recorded claimant is still the first one. */
  lemma ClaimOnlyOnce(docs: Docs, id: Id, u: User, now: Time, ops: seq<Op>, v: User, later: Time)
    requires ClaimTx(docs, id, u, now).outcome == ClaimCommitted
    ensures var after := Run(ClaimTx(docs, id, u, now).docs, ops);
      && id in after
      && ClaimTx(after, id, v, later).outcome == AlreadyClaimed
      && ClaimTx(after, id, v, later).docs == after
      && after[id].claimedBy == Some(u.uid)
  {
    ClaimIsFinal(ClaimTx(docs, id, u, now).docs, ops, id, u.uid, NameOf(u), now);
  }

  /** Claim attempts on one id applied one after another (each transaction is atomic). */
  function ClaimRace(docs: Docs, id: Id, attempts: seq<(User, Time)>): (r: seq<ClaimOutcome>)
    ensures |r| == |attempts|
    ensures |r| > 0 ==> (r[0] == ClaimCommitted <==> id in docs && docs[id].status == Open)
    ensures id !in docs || docs[id].status != Open ==> forall i :: 0 <= i < |r| ==> r[i] == AlreadyClaimed
    ensures forall i :: 0 < i < |r| ==> r[i] == AlreadyClaimed
    decreases |attempts|
  {
    if attempts == [] then []
    else
      var s := ClaimTx(docs, id, attempts[0].0, attempts[0].1);
      [s.outcome] + ClaimRace(s.docs, id, attempts[1..])
  }

  function Winners(outcomes: seq<ClaimOutcome>): nat
  {
    if outcomes == [] then 0
    else (if outcomes[0] == ClaimCommitted then 1 else 0) + Winners(outcomes[1..])
  }

  lemma {:induction false} NoWinnerOnceClaimed(docs: Docs, id: Id, attempts: seq<(User, Time)>)
    requires id !in docs || docs[id].status != Open
    ensures Winners(ClaimRace(docs, id, attempts)) == 0
    decreases |attempts|
  {
    if attempts != [] {
      NoWinnerOnceClaimed(docs, id, attempts[1..]);
    }
  }

  /** Any number of claims on an open donation: exactly one wins, the first;
      on a donation that is missing or not open, none wins. */
  lemma {:induction false} ExactlyOneWinner(docs: Docs, id: Id, attempts: seq<(User, Time)>)
    ensures var r := ClaimRace(docs, id, attempts);
      Winners(r) == (if |attempts| > 0 && id in docs && docs[id].status == Open then 1 else 0)
    ensures |attempts| > 0 && id in docs && docs[id].status == Open ==>
      ClaimRace(docs, id, attempts)[0] == ClaimCommitted
  {
    if |attempts| > 0 && id in docs && docs[id].status == Open {
      var s := ClaimTx(docs, id, attempts[0].0, attempts[0].1);
      NoWinnerOnceClaimed(s.docs, id, attempts[1..]);
    } else if |attempts| > 0 {
      NoWinnerOnceClaimed(docs, id, attempts);
    }
  }

  // ---------------------------------------------------------------------------
  // The rendered UI offers OTP entry only to the claimant of a claimed
  // donation and proof upload only to the claimant of a picked-up one. The
  // handlers themselves do not check this; it is the callers' obligation.

  ghost predicate OtpGate(docs: Docs, id: Id, uid: Id)
  {
    id in docs && docs[id].status == Claimed && docs[id].claimedBy == Some(uid)
  }

  ghost predicate ProofGate(docs: Docs, id: Id, uid: Id)
  {
    id in docs && docs[id].status == PickedUp && docs[id].claimedBy == Some(uid)
  }

  /** A status change that stays put or moves one step forward. */
  predicate Advances(before: Status, after: Status)
  {
    Rank(after) == Rank(before) || Rank(after) == Rank(before) + 1
  }

  /** Under the UI gates every handler moves a donation's status forward by
      at most one step, and every other document is untouched. */
  lemma GatedHandlersAdvance(docs: Docs, id: Id, uid: Id, typed: string, kind: ProofKind, url: string, u: User, now: Time)
    requires id in docs
    ensures Advances(docs[id].status, ClaimTx(docs, id, u, now).docs[id].status)
    ensures OtpGate(docs, id, uid) ==> Advances(docs[id].status, OtpVerify(docs, id, typed, now).docs[id].status)
    ensures ProofGate(docs, id, uid) ==> Advances(docs[id].status, AttachProof(docs, id, kind, url, now).docs[id].status)
  {
  }

  /** As written, OTP verification does not look at the status: typing the
      right code on a completed donation moves it back to picked_up. */
  lemma UngatedOtpMovesBack(docs: Docs, id: Id, now: Time)
    requires id in docs && docs[id].status == Completed && docs[id].otpCode != ""
    ensures OtpVerify(docs, id, docs[id].otpCode, now).docs[id].status == PickedUp
    ensures !Advances(docs[id].status, OtpVerify(docs, id, docs[id].otpCode, now).docs[id].status)
  {
  }

  /** As written, a distribution proof completes a donation from any status,
      skipping the pickup steps when the caller ignores the gate. */
  lemma UngatedProofSkips(docs: Docs, id: Id, url: string, now: Time)
    requires id in docs && docs[id].status == Open
    ensures AttachProof(docs, id, DistributionProof, url, now).docs[id].status == Completed
    ensures !Advances(docs[id].status, AttachProof(docs, id, DistributionProof, url, now).docs[id].status)
  {
  }

  /** A distribution proof completes a picked-up donation even when no pickup
      proof was ever attached. */
  lemma DistributionCompletesWithoutPickupProof(docs: Docs, id: Id, uid: Id, url: string, now: Time)
    requires ProofGate(docs, id, uid) && docs[id].pickupProofUrl.None?
    ensures var after := AttachProof(docs, id, DistributionProof, url, now).docs;
      after[id].status == Completed && after[id].pickupProofUrl.None?
  {
  }

  /** Replaying a verification after it succeeded under the gate no longer
      passes the gate: the donation is picked_up, not claimed. */
  lemma VerifiedLeavesOtpGate(docs: Docs, id: Id, uid: Id, typed: string, now: Time)
    requires OtpGate(docs, id, uid)
    requires OtpVerify(docs, id, typed, now).outcome == OtpVerified
    ensures !OtpGate(OtpVerify(docs, id, typed, now).docs, id, uid)
    ensures ProofGate(OtpVerify(docs, id, typed, now).docs, id, uid)
  {
  }

  /** A new donation is open, so the first claim on it succeeds. */
  lemma NewDonationIsClaimable(docs: Docs, id: Id, d: Donation, u: User, now: Time)
    requires id !in docs && d.status == Open
    ensures ClaimTx(Create(docs, id, d), id, u, now).outcome == ClaimCommitted
  {
  }
}
