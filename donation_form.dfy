/** The donor's form: its fields and `handleSubmit`, which checks the photo
    and the pin, uploads the photo, adds the donation record, resets the form,
    shows the OTP and fires the notify request. */
module DonationForm {
  import opened Types
  import opened Lifecycle
  import Store

  const DefaultQuantityKg: real := 5.0

  /** The three errors the form can show. */
  datatype FormError = PhotoError | PinError | SaveError

  function Message(e: FormError): string
  {
    match e
    case PhotoError => "Add a food photo. It helps volunteers assess freshness quickly."
    case PinError => "Drop a map pin or use your location so we can find you."
    case SaveError => "Unable to save donation. Check your Firebase access rules."
  }

  datatype SubmitOutcome = MissingPhoto | MissingPin | SaveFailed | Posted(id: Id)

  /** The `bestBefore` value written to the record: null for an empty input,
      otherwise the ISO string of the entered date (`None` from `toIso` is a
      date that cannot be converted, which throws). */
  function StoredBestBefore(input: string, toIso: string -> Option<string>): (r: Read<Option<string>>)
    ensures input == "" ==> r == Ok(None)
    ensures input != "" && toIso(input).Some? ==> r == Ok(toIso(input))
    ensures input != "" && toIso(input).None? ==> r.Thrown?
  {
    if input == "" then Ok(None)
    else match toIso(input)
      case Some(iso) => Ok(Some(iso))
      case None => Thrown
  }

  class DonationForm {
    const db: Store.Db
    const user: User
    var itemName: string
    var quantityKg: real
    var bestBefore: string
    var address: string
    var coords: Option<LatLng>
    var file: Option<string>
    var submitting: bool
    var successOtp: Option<string>
    var error: Option<FormError>
    /** The donation ids posted to the notify endpoint, in order. */
    var notifyRequests: seq<Id>

    constructor (db: Store.Db, user: User)
      ensures this.db == db && this.user == user
      ensures itemName == "" && quantityKg == DefaultQuantityKg && bestBefore == "" && address == ""
      ensures coords.None? && file.None? && !submitting && successOtp.None? && error.None?
      ensures notifyRequests == []
    {
      this.db := db;
      this.user := user;
      itemName := "";
      quantityKg := DefaultQuantityKg;
      bestBefore := "";
      address := "";
      coords := None;
      file := None;
      submitting := false;
      successOtp := None;
      error := None;
      notifyRequests := [];
    }

    /** Form fields as they stand before a submission is accepted. */
    ghost predicate Unchanged(itemName0: string, quantityKg0: real, bestBefore0: string, address0: string,
                              coords0: Option<LatLng>, file0: Option<string>)
      reads this
    {
      itemName == itemName0 && quantityKg == quantityKg0 && bestBefore == bestBefore0
      && address == address0 && coords == coords0 && file == file0
    }

    /** The part of `handleSubmit` after the record is ready: add it, reset
        the form, show the OTP and post the notify request. */
    method Publish(record: Donation, newId: Id) returns (r: SubmitOutcome)
      requires newId !in db.donations
      modifies this, db
      ensures r == Posted(newId)
      ensures db.donations == Create(old(db.donations), newId, record)
      ensures db.notificationTokens == old(db.notificationTokens)
      ensures Unchanged("", DefaultQuantityKg, "", "", None, None)
      ensures successOtp == Some(record.otpCode) && error == old(error) && !submitting
      ensures notifyRequests == old(notifyRequests) + [newId]
    {
      db.donations := Create(db.donations, newId, record);
      itemName := "";
      quantityKg := DefaultQuantityKg;
      bestBefore := "";
      address := "";
      coords := None;
      file := None;
      successOtp := Some(record.otpCode);
      notifyRequests := notifyRequests + [newId];
      submitting := false;
      r := Posted(newId);
    }

    /** `handleSubmit`. `upload` is the photo's download URL (or the upload
        threw), `otp` what the OTP generator returns, `toIso` the date
        conversion, `added` whether `addDoc` succeeded and `newId` the id it
        generated. A failure of the notify request is caught and logged only,
        so it has no parameter. */
    method Submit(upload: Read<string>, otp: string, toIso: string -> Option<string>,
                  added: bool, newId: Id, now: Time) returns (r: SubmitOutcome)
      requires newId !in db.donations
      modifies this, db
      ensures db.notificationTokens == old(db.notificationTokens)
      // The photo is checked first, then the pin; neither failure writes.
      ensures old(file).None? ==>
        && r == MissingPhoto && error == Some(PhotoError) && submitting == old(submitting)
        && db.donations == old(db.donations)
      ensures old(file).Some? && old(coords).None? ==>
        && r == MissingPin && error == Some(PinError) && submitting == old(submitting)
        && db.donations == old(db.donations)
      // Past validation, `submitting` always ends false.
      ensures old(file).Some? && old(coords).Some? ==> !submitting
      // Any throw while uploading, converting the date or adding writes nothing.
      ensures old(file).Some? && old(coords).Some?
              && (upload.Thrown? || StoredBestBefore(old(bestBefore), toIso).Thrown? || !added) ==>
        && r == SaveFailed && error == Some(SaveError)
        && db.donations == old(db.donations)
      ensures !r.Posted? ==>
        && Unchanged(old(itemName), old(quantityKg), old(bestBefore), old(address), old(coords), old(file))
        && successOtp == old(successOtp) && notifyRequests == old(notifyRequests)
      // Otherwise the record is added, the form reset, the OTP shown and notify requested once.
      ensures r.Posted? <==>
        && old(file).Some? && old(coords).Some? && upload.Ok? && added
        && StoredBestBefore(old(bestBefore), toIso).Ok?
      ensures r.Posted? ==> r.id == newId
      ensures r.Posted? ==>
        db.donations == Create(old(db.donations), newId,
          NewDonation(user, old(itemName), old(quantityKg), StoredBestBefore(old(bestBefore), toIso).value,
                      old(address), old(coords).value, upload.value, otp, now))
      ensures r.Posted? ==> successOtp == Some(otp) && newId in db.donations && db.donations[newId].otpCode == otp
      ensures r.Posted? ==> error.None? && Unchanged("", DefaultQuantityKg, "", "", None, None)
      ensures r.Posted? ==> notifyRequests == old(notifyRequests) + [newId]
    {
      if file.None? {
        error := Some(PhotoError);
        return MissingPhoto;
      }
      if coords.None? {
        error := Some(PinError);
        return MissingPin;
      }
      submitting := true;
      error := None;
      if upload.Thrown? {
        error := Some(SaveError);
        submitting := false;
        return SaveFailed;
      }
      var photoUrl := upload.value;
      var stored := StoredBestBefore(bestBefore, toIso);
      if stored.Thrown? || !added {
        error := Some(SaveError);
        submitting := false;
        return SaveFailed;
      }
      var record := NewDonation(user, itemName, quantityKg, stored.value, address, coords.value,
                                photoUrl, otp, now);
      r := Publish(record, newId);
    }
  }
}
