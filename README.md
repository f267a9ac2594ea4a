# Donation lifecycle of the food-donation pickup coordinator

This project models the core of a food-donation coordination app. Donors post surplus
food. Volunteers nearby claim a donation, prove the pickup with a one-time code (OTP)
and upload proofs. Each new donation alerts volunteers within a radius.

The model has these parts:

- **Types** (`types.dfy`): the donation document, the notification-token document, the
  signed-in user and the status order `open < claimed < picked_up < completed`.
- **Lifecycle** (`lifecycle.dfy`): the write each handler makes to the `donations`
  collection, as a pure transition on a map from id to document. Claim is the transaction's
  compare-and-set. OTP verification is an exact comparison. A proof upload sets a URL and,
  for a distribution proof, completes the donation. Creation builds the record with
  `status = open` and `meals = quantityKg * 4`. `Run` replays any sequence of handler
  calls, so properties can be proved over every later history.
- **Feed** (`feed.dfy`): the live query (status in open, claimed, picked_up) and the
  `nearbyDonations` filter. The filter is strict at 5 km and drops donations without
  coordinates.
- **Notify** (`notify.dfy`): the `POST /api/notify` handler as a function. It gives the
  status code (400, 404, 422, 200 or 500), the body and the one batched send, if any. A
  token is targeted unless both sides have coordinates and the distance exceeds 5 + 0.3 km.
  The 5.3 km dispatch radius against the 5 km feed radius is kept as written.
- **Store** (`store.dfy`), **VolunteerFeed** (`volunteer_feed.dfy`) and **DonationForm**
  (`donation_form.dfy`): the two React components as classes over a shared store. Each
  handler is a method whose postcondition ties the new store to the Lifecycle transition.
  It also states the component's own state: typed OTP codes, upload flags, push status,
  form fields, the error shown and the OTP shown.

Distance is a parameter `dist: (LatLng, LatLng) -> real` about which nothing is assumed.
Server timestamps are naturals. Uploaded files are their URLs. The OTP generator's output
is an arbitrary string. Push delivery is the recorded batch (`Multicast`).

The handlers are modelled as written. OTP verification and proof upload check neither
the status nor the claimant. Only the rendered UI does that (VolunteerFeed.tsx lines 242
and 265). The model states it as the caller's obligation (`OtpGate`, `ProofGate`). Under
those gates every transition moves forward by one step at most. Without them,
`UngatedOtpMovesBack` and `UngatedProofSkips` show the backward and skipping moves the
handlers allow.

Three behaviours of the handlers are worth stating outright:

- `handleOtpVerify` compares the typed code with the stored one and nothing else. It
  checks neither the status nor the claimant, and has no wrong-claimant or wrong-state result.
- `handleProofUpload` writes a proof to any existing document, whatever its status.
- The notify handler's `delivered` counts the targeted tokens, not the deliveries that
  succeeded.

## Model

| member | source | states |
|---|---|---|
| Lifecycle.ClaimTx | src/components/volunteer/VolunteerFeed.tsx:86-98 | commits iff the document exists and is open; otherwise nothing is written; a commit sets status claimed, claimedBy = uid, claimedByName = displayName ?? email, claimTimestamp, and changes no other field or document |
| Lifecycle.OtpVerify | src/components/volunteer/VolunteerFeed.tsx:101-113 | empty input or missing document writes nothing; verifies iff the stored otpCode equals the input exactly, then only status = picked_up and pickupVerifiedAt change; a mismatch writes nothing |
| Lifecycle.AttachProof | src/components/volunteer/VolunteerFeed.tsx:128-135 | on an existing document sets the named proof URL and lastProofAt; status becomes completed exactly for a distribution proof and is untouched for a pickup proof; the claim and payload fields are kept; a missing document is not written |
| Lifecycle.NewDonation | src/components/donor/DonationForm.tsx:58-71 | the created record is open, meals = quantityKg * 4, donorId = uid, donorName = displayName ?? email, carries the entered item name, quantity, best-before date, address, photo URL, the generated otpCode and the pin, and has no claimant, claimant name, claim time, pickup or proof fields |
| Lifecycle.Create | src/components/donor/DonationForm.tsx:58 | addDoc adds the record under a fresh id and keeps every other document |
| Lifecycle.ClaimRace | src/components/volunteer/VolunteerFeed.tsx:86-98 | claim transactions on one id applied one after another give one outcome per attempt; the first commits iff the document exists and is open, and every later attempt (every attempt, when the document is missing or not open) fails with already-claimed |
| Lifecycle.ApplyKeepsClaim | src/components/volunteer/VolunteerFeed.tsx:83-137 | no handler reopens a claimed document or rewrites its claimant, name or claim time |
| Lifecycle.ClaimIsFinal | src/components/volunteer/VolunteerFeed.tsx:83-137 | after any sequence of handler calls a claimed document is still not open and still records the same claimant |
| Lifecycle.ClaimOnlyOnce | src/components/volunteer/VolunteerFeed.tsx:86-98 | after a successful claim, every later claim on that id, after any history, fails with no write, and the first claimant stays recorded |
| Lifecycle.NoWinnerOnceClaimed | src/components/volunteer/VolunteerFeed.tsx:89-91 | on a missing or non-open document no claim attempt wins |
| Lifecycle.ExactlyOneWinner | src/components/volunteer/VolunteerFeed.tsx:86-98 | any number of claims on an open donation has exactly one winner, the first; on a missing or non-open one, none |
| Lifecycle.GatedHandlersAdvance | src/components/volunteer/VolunteerFeed.tsx:242-265 | with the UI gates (claimed and own claim for OTP, picked_up and own claim for proofs), claim, OTP and proof each keep the status or move it one step forward |
| Lifecycle.UngatedOtpMovesBack | src/components/volunteer/VolunteerFeed.tsx:106-110 | the handler alone lets the right code move a completed donation back to picked_up |
| Lifecycle.UngatedProofSkips | src/components/volunteer/VolunteerFeed.tsx:132-134 | the handler alone lets a distribution proof complete an open donation |
| Lifecycle.DistributionCompletesWithoutPickupProof | src/components/volunteer/VolunteerFeed.tsx:132-134 | a distribution proof completes a picked-up donation that never got a pickup proof, and leaves the pickup proof absent |
| Lifecycle.VerifiedLeavesOtpGate | src/components/volunteer/VolunteerFeed.tsx:242-265 | after a gated verification succeeds the OTP form is no longer offered and the proof form is |
| Lifecycle.NewDonationIsClaimable | src/components/donor/DonationForm.tsx:68 | a freshly created donation is open, so the first claim on it commits |
| Feed.LiveQuery | src/components/volunteer/VolunteerFeed.tsx:44-48 | keeps exactly the open, claimed and picked-up documents of the listing |
| Feed.NearbyDonations | src/components/volunteer/VolunteerFeed.tsx:73-81 | empty without a location; every entry comes from the input, has coordinates, lies at most 5 km away and carries that distance |
| Feed.NearbyComplete | src/components/volunteer/VolunteerFeed.tsx:75-80 | every donation with coordinates within 5 km appears in the result |
| Feed.NearbyAppend | src/components/volunteer/VolunteerFeed.tsx:75-80 | the filter keeps input order: filtering a concatenation concatenates the filtered parts |
| Feed.FeedNeverCompleted | src/components/volunteer/VolunteerFeed.tsx:46 | a completed donation is never in the feed |
| Notify.Targets | src/app/api/notify/route.ts:25-31 | every target comes from the stored tokens, has a non-empty token value and passes the geofence |
| Notify.TokenValues | src/app/api/notify/route.ts:38 | one non-empty token string per target, in target order |
| Notify.Post | src/app/api/notify/route.ts:7-55 | the status is one of 200/400/404/422/500; 400 iff the id is missing or empty, 404 iff the document is absent, 422 iff it has no data; errors carry an error body; a 200 answer sends iff it delivered more than zero; a send is never empty; a throw while parsing the body, reading the donation or reading the tokens answers 500 with the error body and sends nothing |
| Notify.TargetsComplete | src/app/api/notify/route.ts:27-30 | a stored token is targeted iff it has a token value and either side lacks coordinates or the distance is at most 5 + 0.3 km |
| Notify.TargetsAppend | src/app/api/notify/route.ts:25-31 | target selection keeps the stored order |
| Notify.ValidationBeforeTokens | src/app/api/notify/route.ts:10-24 | a 400, 404 or 422 answer makes no send and does not depend on the token read or the send; a 400 does not depend on the document read either |
| Notify.DispatchOutcome | src/app/api/notify/route.ts:33-50 | no targets gives 200 with delivered 0 and no send; otherwise one batch to the targets' tokens in order, delivered = number of targets, or 500 if the send throws |
| Notify.UnknownLocationAlwaysTargeted | src/app/api/notify/route.ts:29 | a token with a value but no location is always targeted |
| Notify.FeedWithinDispatch | src/app/api/notify/route.ts:29-30 | a token whose recorded location would show the donation in the 5 km feed is also targeted by the 5.3 km dispatch, given that the distance is symmetric on that pair |
| VolunteerFeed.RegisterToken | src/components/volunteer/VolunteerFeed.tsx:164-174 | the token document is keyed by uid and holds the token, uid, role volunteer, current location and time; other users' documents are kept |
| VolunteerFeed.LastRegistrationWins | src/components/volunteer/VolunteerFeed.tsx:164-174 | a second registration by the same user replaces the first entirely |
| VolunteerFeed.VolunteerFeed.constructor | src/components/volunteer/VolunteerFeed.tsx:29-40 | the component starts with no location, no donations, no typed codes, no uploads and push status idle |
| VolunteerFeed.VolunteerFeed.LocationFound | src/components/volunteer/VolunteerFeed.tsx:64-67 | the geolocation callback stores the position and nothing else; the local list keeps only open, claimed and picked-up donations |
| VolunteerFeed.VolunteerFeed.ReceiveSnapshot | src/components/volunteer/VolunteerFeed.tsx:49-56 | the local list becomes the live query's result, so it never holds a completed donation |
| VolunteerFeed.VolunteerFeed.Nearby | src/components/volunteer/VolunteerFeed.tsx:73-81 | the feed shown is empty without a location; every entry is in the local list, not completed, and within 5 km |
| VolunteerFeed.VolunteerFeed.Claim | src/components/volunteer/VolunteerFeed.tsx:83-99 | without a user nothing happens; otherwise the store becomes ClaimTx of the old store and its outcome is returned; the local list keeps only open, claimed and picked-up donations |
| VolunteerFeed.VolunteerFeed.EnterOtp | src/components/volunteer/VolunteerFeed.tsx:248-250 | the typed code for that donation is replaced and nothing else changes; the local list keeps only open, claimed and picked-up donations |
| VolunteerFeed.VolunteerFeed.VerifyOtp | src/components/volunteer/VolunteerFeed.tsx:101-113 | the store becomes OtpVerify of the old store with the typed code; the typed code is cleared exactly on success; the local list keeps only open, claimed and picked-up donations |
| VolunteerFeed.VolunteerFeed.UploadProof | src/components/volunteer/VolunteerFeed.tsx:115-137 | without a user nothing happens; a failed upload or a missing document leaves the flag raised and writes nothing; otherwise the store becomes AttachProof of the old store and the flag is lowered; the local list keeps only open, claimed and picked-up donations |
| VolunteerFeed.VolunteerFeed.RequestPush | src/components/volunteer/VolunteerFeed.tsx:139-177 | each early exit sets its push status and writes nothing; a non-empty token with a user upserts RegisterToken with the current location and sets granted; the local list keeps only open, claimed and picked-up donations |
| DonationForm.StoredBestBefore | src/components/donor/DonationForm.tsx:64 | an empty input is stored as null, otherwise as the ISO string of the date; a date that cannot be converted throws |
| DonationForm.DonationForm.constructor | src/components/donor/DonationForm.tsx:14-22 | the form starts empty with quantity 5, not submitting, no OTP and no error |
| DonationForm.DonationForm.Publish | src/components/donor/DonationForm.tsx:58-89 | adds the record under the fresh id, resets every field, shows the record's OTP and posts one notify request for that id |
| DonationForm.DonationForm.Submit | src/components/donor/DonationForm.tsx:40-96 | photo checked first, then the pin, each failing with its error and no write; a throw in upload, date conversion or addDoc sets the save error and writes nothing; the donation is posted iff photo and pin are present, the upload, date conversion and addDoc all succeed, and then the NewDonation record is added under the new id, the form reset, the same OTP shown and notify requested once; submitting ends false on every path past validation |

## Left out

- Distance: the haversine formula in `src/lib/geo.ts` is floating-point trigonometry, so the distance is an opaque parameter. Zero distance and symmetry are not derived. `Notify.FeedWithinDispatch` takes symmetry on one pair as a hypothesis, because the feed measures volunteer→donation and dispatch measures donation→token.
- Floating point: `quantityKg`, `meals` and the radii are exact reals. `5 + 0.3` is taken as exactly 5.3.
- Firestore mechanics: `runTransaction` retries are not modelled; the claim transaction is one atomic step. `onSnapshot` delivery, `orderBy('createdAt', 'desc')` and the order of the token listing are not modelled; each listing is taken in the order the store gives it. `serverTimestamp` is an opaque natural. `setDoc` with `merge: true` keeps fields outside the five written, and the token document has no such fields.
- Concurrency: the OTP handler reads with `getDoc` and writes with `updateDoc` in separate steps, so a concurrent write can come in between. That race is not modelled; each handler runs alone. So is a stale local list that still shows an older status to the UI gate.
- Storage and push delivery: an upload is modelled as its URL, or as a throw. The FCM call is the recorded `Multicast` batch. Its title and body text are not modelled, and neither are per-token delivery failures inside a successful call.
- `generateOtp` (`@/lib/otp`) is not part of this model: the code is an arbitrary string parameter.
- Thrown errors the handlers do not catch (claim, OTP, proof) are returned as outcomes. The unhandled promise rejection they cause in the browser is not modelled.
- The notify request body is modelled as an optional string. A non-string `donationId`, or one that is not a valid document path, counts as a throw of the document read.
- Browser-side form validation (`required`, `min={1}`, `step={0.5}`) runs before `handleSubmit` and is not modelled. The handler itself checks only the photo and the pin.
- UI and plumbing: rendering, the geolocation error messages, `handleLocate`, the service-worker registration in `requestPush`, role and auth gates, the map picker, donation history, pages, layout, the admin SDK setup and the messaging service worker.
