/**
 * The visit form: a country and a city chosen from the catalog, the list of
 * cities offered for the chosen country, and `handleSubmit`, which checks its
 * preconditions, encrypts the two ids as one batch bound to the registry and
 * the connected account, sends `recordVisit` with the batch's two handles,
 * its proof and the current time in seconds, waits for the confirmation and
 * reports each step in the status line.
 */
module VisitForm {
  import opened Wrappers
  import opened Registry
  import opened Services
  import Locations

  /** A select's value: `''` (nothing chosen) or the number of the chosen option. */
  datatype Selection = Unselected | Selected(id: int)

  const CONTRACT_NOT_CONFIGURED: string := "Contract address is not configured."
  const NOT_READY: string := "Please connect your wallet and ensure encryption is ready."
  const SELECTION_INCOMPLETE: string := "Please select both a country and a city."
  const SIGNER_NOT_AVAILABLE: string := "Signer not available"
  const UNKNOWN_ERROR: string := "Unknown error"

  const ENCRYPTING: string := "Encrypting selection..."
  const SUBMITTING: string := "Submitting transaction..."
  const RECORDED: string := "Visit recorded successfully."

  /** The status shown while waiting: the first ten characters of the transaction hash. */
  function ConfirmationStatus(hash: string): string {
    "Waiting for confirmation (" + hash[..if |hash| < 10 then |hash| else 10] + "...)"
  }

  /**
   * The step of the `try` block at which a submission threw; once the
   * transaction is sent, the step carries it.
   */
  datatype Stage = Encrypting | Submitting | Confirming(tx: PendingTx)

  /** The status messages a submission had set when it threw at `stage`. */
  function StatusesBefore(stage: Stage): seq<string> {
    match stage
    case Encrypting => [ENCRYPTING]
    case Submitting => [ENCRYPTING, SUBMITTING]
    case Confirming(tx) => [ENCRYPTING, SUBMITTING, ConfirmationStatus(tx.hash)]
  }

  /**
   * `tx` records the selection: sent from `sender`, stamped with `now` in
   * seconds, its two handles standing for `countryId` and then `cityId`,
   * encrypted for the registry contract and `user`.
   */
  ghost predicate RecordsSelection(tx: PendingTx, ciphertexts: map<Handle, Ciphertext>, sender: Address,
                                   user: Address, countryId: int, cityId: int, now: nat) {
    && tx.from == sender
    && tx.travelTimestamp == now / 1000
    && tx.encryptedCountryId in ciphertexts
    && ciphertexts[tx.encryptedCountryId] == Ciphertext(CONTRACT_ADDRESS, user, countryId)
    && tx.encryptedCityId in ciphertexts
    && ciphertexts[tx.encryptedCityId] == Ciphertext(CONTRACT_ADDRESS, user, cityId)
  }

  /** What the transactions sent through `signer` threw; nothing without a signer. */
  ghost function TxLog(signer: Signer?): seq<Thrown>
    reads signer
  {
    if signer == null then [] else signer.txErrors
  }

  /**
   * `e`, caught at `stage`, is the value the failing step threw, as each
   * collaborator logged it: the instance while encrypting; while
   * submitting, the signer promise's rejection, the form's own "Signer not
   * available" when the promise yielded no signer, or else sending the
   * transaction; while confirming, the wait for the receipt.
   */
  ghost predicate CaughtFrom(e: Thrown, stage: Stage, instanceBefore: seq<Thrown>, instanceAfter: seq<Thrown>,
                             rejected: bool, rejectionsBefore: seq<Thrown>, rejectionsAfter: seq<Thrown>,
                             noSigner: bool, txBefore: seq<Thrown>, txAfter: seq<Thrown>) {
    match stage
    case Encrypting => instanceAfter == instanceBefore + [e]
    case Submitting =>
      if rejected then rejectionsAfter == rejectionsBefore + [e]
      else if noSigner then e == ErrorObject(SIGNER_NOT_AVAILABLE)
      else txAfter == txBefore + [e]
    case Confirming(_) => txAfter == txBefore + [e]
  }

  /** How a `handleSubmit` run ended. */
  datatype SubmitOutcome =
    | Rejected(message: string)
      // a precondition failed; only the form error was set
    | Recorded(input: EncryptedInput, tx: PendingTx)
    | SubmitFailed(error: Thrown, stage: Stage)

  /**
   * The cities offered once a country is chosen: none while no country is
   * chosen, the chosen catalog country's cities, or none for an id the
   * catalog does not list.
   */
  function AvailableCities(selectedCountry: Selection): (cities: seq<Locations.CityOption>)
    ensures selectedCountry.Unselected? ==> cities == []
    ensures selectedCountry.Selected? ==>
              forall c | c in Locations.COUNTRIES && c.id == selectedCountry.id :: cities == c.cities
    ensures selectedCountry.Selected? && (forall c | c in Locations.COUNTRIES :: c.id != selectedCountry.id) ==>
              cities == []
  {
    match selectedCountry
    case Unselected => []
    case Selected(id) =>
      Locations.GetCitiesForCountrySpec(id);
      Locations.GetCitiesForCountry(id)
  }

  /** A value the country select can produce: one of its catalog options. */
  ghost predicate IsCountryOption(id: int) {
    exists i | 0 <= i < |Locations.COUNTRIES| :: Locations.COUNTRIES[i].id == id
  }

  /** A value the city select can produce while `countryId` is chosen: a city the catalog lists under it. */
  ghost predicate IsCityOption(countryId: int, cityId: int) {
    exists i, j | 0 <= i < |Locations.COUNTRIES| && 0 <= j < |Locations.COUNTRIES[i].cities| ::
      Locations.COUNTRIES[i].id == countryId && Locations.COUNTRIES[i].cities[j].id == cityId
  }

  /** The city select offers exactly the cities the catalog lists under the chosen country. */
  lemma CityOptionsAreOffered(countryId: int, cityId: int)
    ensures IsCityOption(countryId, cityId) <==> exists k | k in AvailableCities(Selected(countryId)) :: k.id == cityId
  {
    ListedExactlyWhenOffered(Locations.COUNTRIES, countryId, cityId, AvailableCities(Selected(countryId)));
  }

  /**
   * A city is listed under a country of `cs` exactly when it is among
   * `cities`, the list of every entry with that id (and empty without one).
   */
  lemma ListedExactlyWhenOffered(cs: seq<Locations.CountryOption>, countryId: int, cityId: int,
                                 cities: seq<Locations.CityOption>)
    requires forall c | c in cs && c.id == countryId :: cities == c.cities
    requires (forall c | c in cs :: c.id != countryId) ==> cities == []
    ensures (exists i, j | 0 <= i < |cs| && 0 <= j < |cs[i].cities| :: cs[i].id == countryId && cs[i].cities[j].id == cityId)
            <==> exists k | k in cities :: k.id == cityId
  {
    if k :| k in cities && k.id == cityId {
      var i :| 0 <= i < |cs| && cs[i].id == countryId;
      assert cs[i] in cs;
      var j :| 0 <= j < |cs[i].cities| && cs[i].cities[j] == k;
    }
  }

  /**
   * The selects only produce their options, and the city is cleared with
   * every country change, so a chosen city is always one offered for the
   * chosen country.
   */
  ghost predicate ConsistentSelection(country: Selection, city: Selection) {
    && (country.Selected? ==> IsCountryOption(country.id))
    && (city.Selected? ==> country.Selected? && IsCityOption(country.id, city.id))
  }

  /**
   * A city offered for a chosen country is labelled with its own catalog
   * name, and the country with the catalog name of the chosen entry.
   */
  lemma OptionsAreLabelledAsListed(countryId: int, city: Locations.CityOption)
    requires city in AvailableCities(Selected(countryId))
    ensures Locations.GetCityName(city.id) == city.name
    ensures exists i | 0 <= i < |Locations.COUNTRIES| ::
              Locations.COUNTRIES[i].id == countryId && Locations.GetCountryName(countryId) == Locations.COUNTRIES[i].name
  {
    Locations.CitiesNamedAsListed(countryId, city);
    var found := Locations.FindCountry(Locations.COUNTRIES, countryId);
    var i :| 0 <= i < |Locations.COUNTRIES| && Locations.COUNTRIES[i] == found.value;
    Locations.GetCountryNameSpec(countryId);
  }

  /** The `onVisitRecorded` callback the parent passes in; it counts its calls. */
  class VisitRecordedListener {
    var calls: nat

    constructor ()
      ensures calls == 0
    {
      calls := 0;
    }

    method OnVisitRecorded()
      modifies this
      ensures calls == old(calls) + 1
    {
      calls := calls + 1;
    }
  }

  class VisitFormPanel {
    var selectedCountry: Selection
    var selectedCity: Selection
    var statusMessage: string
    var isSubmitting: bool
    var formError: Option<string>
    /** The status clears scheduled by `setTimeout` that have not fired yet. */
    var pendingStatusClears: nat
    /** Every value the status line was set to, in order. */
    ghost var statusTrail: seq<string>

    ghost predicate Consistent()
      reads this`selectedCountry, this`selectedCity
    {
      ConsistentSelection(selectedCountry, selectedCity)
    }

    constructor ()
      ensures Consistent()
      ensures selectedCountry == Unselected && selectedCity == Unselected
      ensures statusMessage == "" && !isSubmitting && formError == None
      ensures pendingStatusClears == 0 && statusTrail == []
    {
      selectedCountry, selectedCity := Unselected, Unselected;
      statusMessage, isSubmitting, formError := "", false, None;
      pendingStatusClears, statusTrail := 0, [];
    }

    /** The country select and the submit button are disabled while not configured, loading or submitting. */
    predicate SubmitDisabled(isContractReady: bool, encryptionLoading: bool)
      reads this
    {
      !isContractReady || encryptionLoading || isSubmitting
    }

    /** The city select is also disabled while no country is chosen. */
    predicate CitySelectDisabled(isContractReady: bool, encryptionLoading: bool)
      reads this
    {
      SubmitDisabled(isContractReady, encryptionLoading) || selectedCountry.Unselected?
    }

    /** A new country (or none) is chosen, and the city choice is cleared. */
    method OnCountryChange(value: Selection)
      requires Consistent()
      requires value.Selected? ==> IsCountryOption(value.id)
      modifies this
      ensures Consistent()
      ensures selectedCountry == value && selectedCity == Unselected
      ensures statusMessage == old(statusMessage) && isSubmitting == old(isSubmitting) && formError == old(formError)
      ensures pendingStatusClears == old(pendingStatusClears) && statusTrail == old(statusTrail)
    {
      selectedCountry := value;
      selectedCity := Unselected;
    }

    /** A city among those offered (or none) is chosen. */
    method OnCityChange(value: Selection)
      requires Consistent()
      requires value.Selected? ==> selectedCountry.Selected? && IsCityOption(selectedCountry.id, value.id)
      modifies this
      ensures Consistent()
      ensures selectedCity == value && selectedCountry == old(selectedCountry)
      ensures statusMessage == old(statusMessage) && isSubmitting == old(isSubmitting) && formError == old(formError)
      ensures pendingStatusClears == old(pendingStatusClears) && statusTrail == old(statusTrail)
    {
      selectedCity := value;
    }

    /** The `setTimeout` scheduled by a submission fires and blanks the status line. */
    method StatusClearFires()
      requires pendingStatusClears > 0
      modifies this
      ensures statusMessage == "" && statusTrail == old(statusTrail) + [""]
      ensures pendingStatusClears == old(pendingStatusClears) - 1
      ensures selectedCountry == old(selectedCountry) && selectedCity == old(selectedCity)
      ensures isSubmitting == old(isSubmitting) && formError == old(formError)
    {
      statusMessage := "";
      statusTrail := statusTrail + [""];
      pendingStatusClears := pendingStatusClears - 1;
    }

    /**
     * `handleSubmit`.  `address` is the connected account, `signerPromise`
     * the wallet's signer, and `now` the clock in milliseconds.
     */
    method HandleSubmit(isContractReady: bool, instance: FheInstance?, address: Option<Address>,
                        signerPromise: SignerPromise?, registry: TravelRegistry,
                        listener: VisitRecordedListener?, now: nat)
      returns (outcome: SubmitOutcome)
      requires Consistent()
      requires instance != null ==> instance.Valid()
      modifies this, instance, registry, listener, signerPromise
      modifies if signerPromise == null || signerPromise.resolved == null then {} else {signerPromise.resolved}
      ensures Consistent()
      ensures instance != null ==> instance.Valid()
      // the guards, in order
      ensures !isContractReady ==> outcome == Rejected(CONTRACT_NOT_CONFIGURED)
      ensures isContractReady && (instance == null || address.None? || signerPromise == null) ==>
                outcome == Rejected(NOT_READY)
      ensures isContractReady && instance != null && address.Some? && signerPromise != null &&
              (old(selectedCountry).Unselected? || old(selectedCity).Unselected?) ==>
                outcome == Rejected(SELECTION_INCOMPLETE)
      ensures isContractReady && instance != null && address.Some? && signerPromise != null &&
              old(selectedCountry).Selected? && old(selectedCity).Selected? ==>
                !outcome.Rejected?
      ensures outcome.Rejected? ==> outcome.message in {CONTRACT_NOT_CONFIGURED, NOT_READY, SELECTION_INCOMPLETE}
      ensures outcome.Rejected? ==>
                && formError == Some(outcome.message)
                && selectedCountry == old(selectedCountry) && selectedCity == old(selectedCity)
                && statusMessage == old(statusMessage) && statusTrail == old(statusTrail)
                && isSubmitting == old(isSubmitting) && pendingStatusClears == old(pendingStatusClears)
                && registry.ledger == old(registry.ledger)
                && (instance != null ==> instance.ciphertexts == old(instance.ciphertexts))
                && (listener != null ==> listener.calls == old(listener.calls))
      // the try block ran; `finally` cleared the flag and scheduled the status clear
      ensures !outcome.Rejected? ==>
                && instance != null && address.Some? && signerPromise != null
                && old(selectedCountry).Selected? && old(selectedCity).Selected?
                && !isSubmitting && pendingStatusClears == old(pendingStatusClears) + 1
      ensures outcome.Recorded? ==>
                && signerPromise.resolved != null
                && |outcome.input.handles| == 2
                && outcome.tx == PendingTx(outcome.tx.hash, signerPromise.resolved.address,
                                           outcome.input.handles[0], outcome.input.handles[1],
                                           outcome.input.inputProof, outcome.tx.travelTimestamp)
                && outcome.tx.travelTimestamp == now / 1000
                && registry.ledger == Appended(old(registry.ledger), signerPromise.resolved.address,
                                               Visit(outcome.input.handles[0], outcome.input.handles[1],
                                                     outcome.tx.travelTimestamp))
                && outcome.input.handles[0] in instance.ciphertexts
                && instance.ciphertexts[outcome.input.handles[0]] ==
                     Ciphertext(CONTRACT_ADDRESS, address.value, old(selectedCountry).id)
                && outcome.input.handles[1] in instance.ciphertexts
                && instance.ciphertexts[outcome.input.handles[1]] ==
                     Ciphertext(CONTRACT_ADDRESS, address.value, old(selectedCity).id)
                && statusTrail == old(statusTrail) + StatusesBefore(Confirming(outcome.tx)) + [RECORDED]
                && statusMessage == RECORDED && formError == None
                && selectedCountry == Unselected && selectedCity == Unselected
                && (listener != null ==> listener.calls == old(listener.calls) + 1)
      ensures outcome.SubmitFailed? ==>
                && formError == Some(MessageOf(outcome.error, UNKNOWN_ERROR))
                && CaughtFrom(outcome.error, outcome.stage, old(instance.thrown), instance.thrown,
                              signerPromise.rejected, old(signerPromise.rejections), signerPromise.rejections,
                              signerPromise.resolved == null,
                              old(TxLog(signerPromise.resolved)), TxLog(signerPromise.resolved))
                && statusMessage == "" && statusTrail == old(statusTrail) + StatusesBefore(outcome.stage) + [""]
                && selectedCountry == old(selectedCountry) && selectedCity == old(selectedCity)
                && (listener != null ==> listener.calls == old(listener.calls))
      // a failure before the transaction was sent left the ledger as it was; one while waiting
      // for the receipt may have come after the transaction was mined
      ensures outcome.SubmitFailed? && !outcome.stage.Confirming? ==> registry.ledger == old(registry.ledger)
      ensures outcome.SubmitFailed? && outcome.stage.Confirming? ==>
                && signerPromise.resolved != null
                && RecordsSelection(outcome.stage.tx, instance.ciphertexts, signerPromise.resolved.address,
                                    address.value, old(selectedCountry).id, old(selectedCity).id, now)
                && (|| registry.ledger == old(registry.ledger)
                    || registry.ledger == Appended(old(registry.ledger), outcome.stage.tx.from,
                                                   TxVisit(outcome.stage.tx)))
      // no signer: nothing is sent, and without a rejection the form says so
      ensures signerPromise != null && signerPromise.resolved == null ==>
                !outcome.Recorded? && !(outcome.SubmitFailed? && outcome.stage.Confirming?)
      ensures outcome.SubmitFailed? && outcome.stage == Submitting && signerPromise != null &&
              signerPromise.resolved == null && !signerPromise.rejected ==>
                formError == Some(SIGNER_NOT_AVAILABLE)
      // the wallet signs nothing, and exactly one transaction is sent when the run reached the receipt
      ensures signerPromise != null && signerPromise.resolved != null ==> signerPromise.resolved.signings == old(signerPromise.resolved.signings)
      ensures outcome.Recorded? ==> signerPromise.resolved.sent == old(signerPromise.resolved.sent) + [outcome.tx]
      ensures outcome.SubmitFailed? && outcome.stage.Confirming? ==>
                signerPromise.resolved.sent == old(signerPromise.resolved.sent) + [outcome.stage.tx]
      ensures outcome.SubmitFailed? && !outcome.stage.Confirming? && signerPromise.resolved != null ==>
                signerPromise.resolved.sent == old(signerPromise.resolved.sent)
      // a rejected submission touches none of the collaborators
      ensures outcome.Rejected? && instance != null ==>
                && instance.thrown == old(instance.thrown) && instance.keypairs == old(instance.keypairs)
                && instance.requests == old(instance.requests) && instance.issued == old(instance.issued)
      ensures outcome.Rejected? && signerPromise != null ==>
                signerPromise.rejected == old(signerPromise.rejected) && signerPromise.rejections == old(signerPromise.rejections)
      ensures outcome.Rejected? && signerPromise != null && signerPromise.resolved != null ==>
                && signerPromise.resolved.txErrors == old(signerPromise.resolved.txErrors)
                && signerPromise.resolved.sent == old(signerPromise.resolved.sent)
    {
      if !isContractReady {
        formError := Some(CONTRACT_NOT_CONFIGURED);
        return Rejected(CONTRACT_NOT_CONFIGURED);
      }
      if instance == null || address.None? || signerPromise == null {
        formError := Some(NOT_READY);
        return Rejected(NOT_READY);
      }
      if selectedCountry.Unselected? || selectedCity.Unselected? {
        formError := Some(SELECTION_INCOMPLETE);
        return Rejected(SELECTION_INCOMPLETE);
      }
      outcome := RunSubmission(instance, address.value, signerPromise, registry, listener, now);
    }

    /**
     * `handleSubmit` once its checks have passed: the flag and the error
     * reset, the `try` block, its `catch` and its `finally`.
     */
    method RunSubmission(instance: FheInstance, user: Address, signerPromise: SignerPromise,
                         registry: TravelRegistry, listener: VisitRecordedListener?, now: nat)
      returns (outcome: SubmitOutcome)
      requires selectedCountry.Selected? && selectedCity.Selected?
      requires instance.Valid() && Consistent()
      modifies this, instance, registry, listener, signerPromise
      modifies if signerPromise.resolved == null then {} else {signerPromise.resolved}
      ensures instance.Valid() && Consistent()
      ensures !outcome.Rejected?
      ensures !isSubmitting && pendingStatusClears == old(pendingStatusClears) + 1
      ensures outcome.Recorded? ==>
                && signerPromise.resolved != null
                && |outcome.input.handles| == 2
                && outcome.tx == PendingTx(outcome.tx.hash, signerPromise.resolved.address,
                                           outcome.input.handles[0], outcome.input.handles[1],
                                           outcome.input.inputProof, outcome.tx.travelTimestamp)
                && outcome.tx.travelTimestamp == now / 1000
                && registry.ledger == Appended(old(registry.ledger), signerPromise.resolved.address,
                                               Visit(outcome.input.handles[0], outcome.input.handles[1],
                                                     outcome.tx.travelTimestamp))
                && outcome.input.handles[0] in instance.ciphertexts
                && instance.ciphertexts[outcome.input.handles[0]] ==
                     Ciphertext(CONTRACT_ADDRESS, user, old(selectedCountry).id)
                && outcome.input.handles[1] in instance.ciphertexts
                && instance.ciphertexts[outcome.input.handles[1]] ==
                     Ciphertext(CONTRACT_ADDRESS, user, old(selectedCity).id)
                && statusTrail == old(statusTrail) + StatusesBefore(Confirming(outcome.tx)) + [RECORDED]
                && statusMessage == RECORDED && formError == None
                && selectedCountry == Unselected && selectedCity == Unselected
                && (listener != null ==> listener.calls == old(listener.calls) + 1)
      ensures outcome.SubmitFailed? ==>
                && formError == Some(MessageOf(outcome.error, UNKNOWN_ERROR))
                && CaughtFrom(outcome.error, outcome.stage, old(instance.thrown), instance.thrown,
                              signerPromise.rejected, old(signerPromise.rejections), signerPromise.rejections,
                              signerPromise.resolved == null,
                              old(TxLog(signerPromise.resolved)), TxLog(signerPromise.resolved))
                && statusMessage == "" && statusTrail == old(statusTrail) + StatusesBefore(outcome.stage) + [""]
                && selectedCountry == old(selectedCountry) && selectedCity == old(selectedCity)
                && (listener != null ==> listener.calls == old(listener.calls))
      ensures outcome.SubmitFailed? && !outcome.stage.Confirming? ==> registry.ledger == old(registry.ledger)
      ensures outcome.SubmitFailed? && outcome.stage.Confirming? ==>
                && signerPromise.resolved != null
                && RecordsSelection(outcome.stage.tx, instance.ciphertexts, signerPromise.resolved.address,
                                    user, old(selectedCountry).id, old(selectedCity).id, now)
                && (|| registry.ledger == old(registry.ledger)
                    || registry.ledger == Appended(old(registry.ledger), outcome.stage.tx.from,
                                                   TxVisit(outcome.stage.tx)))
      ensures signerPromise.resolved == null ==>
                !outcome.Recorded? && !(outcome.SubmitFailed? && outcome.stage.Confirming?)
      ensures outcome.SubmitFailed? && outcome.stage == Submitting &&
              signerPromise.resolved == null && !signerPromise.rejected ==>
                formError == Some(SIGNER_NOT_AVAILABLE)
      // the wallet signs nothing, and exactly one transaction is sent when the run reached the receipt
      ensures signerPromise.resolved != null ==> signerPromise.resolved.signings == old(signerPromise.resolved.signings)
      ensures outcome.Recorded? ==> signerPromise.resolved.sent == old(signerPromise.resolved.sent) + [outcome.tx]
      ensures outcome.SubmitFailed? && outcome.stage.Confirming? ==>
                signerPromise.resolved.sent == old(signerPromise.resolved.sent) + [outcome.stage.tx]
      ensures outcome.SubmitFailed? && !outcome.stage.Confirming? && signerPromise.resolved != null ==>
                signerPromise.resolved.sent == old(signerPromise.resolved.sent)
    {
      isSubmitting := true;
      formError := None;

      var attempt := Submit(instance, user, signerPromise, registry, now);
      outcome := Settle(attempt, listener);
    }

    /**
     * How `handleSubmit` ends once the `try` block has run: the success
     * steps or the `catch`, then the `finally` that clears the flag and
     * schedules the status clear.
     */
    method Settle(attempt: Result<(EncryptedInput, PendingTx), (Thrown, Stage)>, listener: VisitRecordedListener?)
      returns (outcome: SubmitOutcome)
      requires Consistent()
      modifies this, listener
      ensures Consistent()
      ensures !isSubmitting && pendingStatusClears == old(pendingStatusClears) + 1
      ensures attempt.Success? ==>
                && outcome == Recorded(attempt.value.0, attempt.value.1)
                && statusMessage == RECORDED && statusTrail == old(statusTrail) + [RECORDED]
                && formError == old(formError)
                && selectedCountry == Unselected && selectedCity == Unselected
                && (listener != null ==> listener.calls == old(listener.calls) + 1)
      ensures attempt.Failure? ==>
                && outcome == SubmitFailed(attempt.error.0, attempt.error.1)
                && formError == Some(MessageOf(attempt.error.0, UNKNOWN_ERROR))
                && statusMessage == "" && statusTrail == old(statusTrail) + [""]
                && selectedCountry == old(selectedCountry) && selectedCity == old(selectedCity)
                && (listener != null ==> listener.calls == old(listener.calls))
    {
      if attempt.Success? {
        var (input, tx) := attempt.value;
        ShowRecorded(listener);
        outcome := Recorded(input, tx);
      } else {
        var (error, stage) := attempt.error;
        ShowFailure(error);
        outcome := SubmitFailed(error, stage);
      }
      isSubmitting := false;
      pendingStatusClears := pendingStatusClears + 1;
    }

    /** The `catch`: the thrown message (or "Unknown error") and a blank status line; the selection is kept. */
    method ShowFailure(error: Thrown)
      modifies this
      ensures formError == Some(MessageOf(error, UNKNOWN_ERROR))
      ensures statusMessage == "" && statusTrail == old(statusTrail) + [""]
      ensures selectedCountry == old(selectedCountry) && selectedCity == old(selectedCity)
      ensures isSubmitting == old(isSubmitting) && pendingStatusClears == old(pendingStatusClears)
    {
      formError := Some(MessageOf(error, UNKNOWN_ERROR));
      statusMessage := "";
      statusTrail := statusTrail + [""];
    }

    /** The end of the `try`: the success message, `resetForm()` and the parent's callback. */
    method ShowRecorded(listener: VisitRecordedListener?)
      modifies this, listener
      ensures Consistent()
      ensures statusMessage == RECORDED && statusTrail == old(statusTrail) + [RECORDED]
      ensures selectedCountry == Unselected && selectedCity == Unselected
      ensures formError == old(formError) && isSubmitting == old(isSubmitting)
      ensures pendingStatusClears == old(pendingStatusClears)
      ensures listener != null ==> listener.calls == old(listener.calls) + 1
    {
      statusMessage := RECORDED;
      statusTrail := statusTrail + [RECORDED];
      selectedCountry, selectedCity := Unselected, Unselected;
      if listener != null {
        listener.OnVisitRecorded();
      }
    }

    /**
     * The status line set to "Encrypting selection..." and the body of the
     * `try` in `handleSubmit`, from the encryption to the
     * confirmation: the batch and the sent transaction, or what was thrown
     * and at which step.
     */
    method Submit(instance: FheInstance, user: Address, signerPromise: SignerPromise,
                  registry: TravelRegistry, now: nat)
      returns (r: Result<(EncryptedInput, PendingTx), (Thrown, Stage)>)
      requires selectedCountry.Selected? && selectedCity.Selected? && isSubmitting
      requires instance.Valid() && Consistent()
      modifies this, instance, registry, signerPromise
      modifies if signerPromise.resolved == null then {} else {signerPromise.resolved}
      ensures instance.Valid() && Consistent()
      ensures selectedCountry == old(selectedCountry) && selectedCity == old(selectedCity)
      ensures formError == old(formError) && isSubmitting == old(isSubmitting)
      ensures pendingStatusClears == old(pendingStatusClears)
      ensures r.Success? ==>
                && signerPromise.resolved != null
                && var (input, tx) := r.value;
                && |input.handles| == 2
                && tx == PendingTx(tx.hash, signerPromise.resolved.address, input.handles[0], input.handles[1],
                                   input.inputProof, tx.travelTimestamp)
                && tx.travelTimestamp == now / 1000
                && registry.ledger == Appended(old(registry.ledger), signerPromise.resolved.address,
                                               Visit(input.handles[0], input.handles[1], tx.travelTimestamp))
                && input.handles[0] in instance.ciphertexts
                && instance.ciphertexts[input.handles[0]] == Ciphertext(CONTRACT_ADDRESS, user, selectedCountry.id)
                && input.handles[1] in instance.ciphertexts
                && instance.ciphertexts[input.handles[1]] == Ciphertext(CONTRACT_ADDRESS, user, selectedCity.id)
                && statusTrail == old(statusTrail) + StatusesBefore(Confirming(tx))
      ensures r.Failure? ==> statusTrail == old(statusTrail) + StatusesBefore(r.error.1)
      ensures r.Failure? ==>
                CaughtFrom(r.error.0, r.error.1, old(instance.thrown), instance.thrown,
                           signerPromise.rejected, old(signerPromise.rejections), signerPromise.rejections,
                           signerPromise.resolved == null,
                           old(TxLog(signerPromise.resolved)), TxLog(signerPromise.resolved))
      ensures r.Failure? && !r.error.1.Confirming? ==> registry.ledger == old(registry.ledger)
      ensures r.Failure? && r.error.1.Confirming? ==>
                && signerPromise.resolved != null
                && RecordsSelection(r.error.1.tx, instance.ciphertexts, signerPromise.resolved.address,
                                    user, selectedCountry.id, selectedCity.id, now)
                && (|| registry.ledger == old(registry.ledger)
                    || registry.ledger == Appended(old(registry.ledger), r.error.1.tx.from, TxVisit(r.error.1.tx)))
      ensures signerPromise.resolved == null ==>
                r.Failure? && (r.error.1 == Encrypting || r.error.1 == Submitting)
      ensures r.Failure? && r.error.1 == Submitting && signerPromise.resolved == null && !signerPromise.rejected ==>
                r.error.0 == ErrorObject(SIGNER_NOT_AVAILABLE)
      // the wallet signs nothing, and exactly one transaction is sent when the run reached the receipt
      ensures signerPromise.resolved != null ==> signerPromise.resolved.signings == old(signerPromise.resolved.signings)
      ensures r.Success? ==> signerPromise.resolved.sent == old(signerPromise.resolved.sent) + [r.value.1]
      ensures r.Failure? && r.error.1.Confirming? ==>
                signerPromise.resolved.sent == old(signerPromise.resolved.sent) + [r.error.1.tx]
      ensures r.Failure? && !r.error.1.Confirming? && signerPromise.resolved != null ==>
                signerPromise.resolved.sent == old(signerPromise.resolved.sent)
    {
      statusMessage := ENCRYPTING;
      statusTrail := statusTrail + [ENCRYPTING];
      var countryId := selectedCountry.id;
      var cityId := selectedCity.id;
      var encryptedInput := instance.Encrypt(CreateEncryptedInput(CONTRACT_ADDRESS, user).Add32(countryId).Add32(cityId));
      if encryptedInput.Failure? {
        return Failure((encryptedInput.error, Encrypting));
      }
      var tx := SubmitTransaction(signerPromise, encryptedInput.value, registry, now);
      if tx.Failure? {
        return Failure(tx.error);
      }
      r := Success((encryptedInput.value, tx.value));
    }

    /**
     * The `try` block from the "Submitting transaction..." status on: await
     * the signer, throw "Signer not available" without one, and send and
     * confirm the transaction with it.
     */
    method SubmitTransaction(signerPromise: SignerPromise, input: EncryptedInput, registry: TravelRegistry, now: nat)
      returns (r: Result<PendingTx, (Thrown, Stage)>)
      requires |input.handles| == 2
      modifies this, registry, signerPromise
      modifies if signerPromise.resolved == null then {} else {signerPromise.resolved}
      ensures selectedCountry == old(selectedCountry) && selectedCity == old(selectedCity)
      ensures formError == old(formError) && isSubmitting == old(isSubmitting)
      ensures pendingStatusClears == old(pendingStatusClears)
      ensures r.Success? ==>
                && signerPromise.resolved != null
                && r.value == PendingTx(r.value.hash, signerPromise.resolved.address, input.handles[0],
                                        input.handles[1], input.inputProof, r.value.travelTimestamp)
                && r.value.travelTimestamp == now / 1000
                && registry.ledger == Appended(old(registry.ledger), signerPromise.resolved.address, TxVisit(r.value))
                && statusTrail == old(statusTrail) + [SUBMITTING, ConfirmationStatus(r.value.hash)]
                && signerPromise.resolved.sent == old(signerPromise.resolved.sent) + [r.value]
      ensures r.Failure? ==> r.error.1 == Submitting || r.error.1.Confirming?
      ensures r.Failure? ==>
                CaughtFrom(r.error.0, r.error.1, [], [],
                           signerPromise.rejected, old(signerPromise.rejections), signerPromise.rejections,
                           signerPromise.resolved == null,
                           old(TxLog(signerPromise.resolved)), TxLog(signerPromise.resolved))
      ensures r.Failure? && r.error.1 == Submitting ==>
                && registry.ledger == old(registry.ledger)
                && statusTrail == old(statusTrail) + [SUBMITTING]
                && (signerPromise.resolved != null ==> signerPromise.resolved.sent == old(signerPromise.resolved.sent))
      ensures r.Failure? && r.error.1.Confirming? ==>
                && signerPromise.resolved != null
                && var tx := r.error.1.tx;
                && tx == PendingTx(tx.hash, signerPromise.resolved.address, input.handles[0], input.handles[1],
                                   input.inputProof, tx.travelTimestamp)
                && tx.travelTimestamp == now / 1000
                && statusTrail == old(statusTrail) + [SUBMITTING, ConfirmationStatus(tx.hash)]
                && signerPromise.resolved.sent == old(signerPromise.resolved.sent) + [tx]
                && (|| registry.ledger == old(registry.ledger)
                    || registry.ledger == Appended(old(registry.ledger), tx.from, TxVisit(tx)))
      ensures signerPromise.resolved != null ==> signerPromise.resolved.signings == old(signerPromise.resolved.signings)
      ensures signerPromise.resolved == null ==> r.Failure? && r.error.1 == Submitting
    {
      statusMessage := SUBMITTING;
      statusTrail := statusTrail + [SUBMITTING];

      var signer := signerPromise.Await();
      if signer.Failure? {
        return Failure((signer.error, Submitting));
      }
      if signer.value == null {
        return Failure((ErrorObject(SIGNER_NOT_AVAILABLE), Submitting));
      }
      r := SendAndConfirm(signer.value, input, registry, now);
    }

    /**
     * The rest of the `try` once the signer is known: send `recordVisit`
     * with the batch's two handles, its proof and the time in seconds, show
     * the waiting status, and wait for the receipt.
     */
    method SendAndConfirm(signer: Signer, input: EncryptedInput, registry: TravelRegistry, now: nat)
      returns (r: Result<PendingTx, (Thrown, Stage)>)
      requires |input.handles| == 2
      modifies this, signer, registry
      ensures selectedCountry == old(selectedCountry) && selectedCity == old(selectedCity)
      ensures formError == old(formError) && isSubmitting == old(isSubmitting)
      ensures pendingStatusClears == old(pendingStatusClears)
      ensures r.Success? ==>
                && r.value == PendingTx(r.value.hash, signer.address, input.handles[0], input.handles[1],
                                        input.inputProof, r.value.travelTimestamp)
                && r.value.travelTimestamp == now / 1000
                && registry.ledger == Appended(old(registry.ledger), signer.address, TxVisit(r.value))
                && statusTrail == old(statusTrail) + [ConfirmationStatus(r.value.hash)]
                && signer.txErrors == old(signer.txErrors)
      ensures r.Failure? ==> signer.txErrors == old(signer.txErrors) + [r.error.0]
      ensures signer.signings == old(signer.signings)
      ensures r.Success? ==> signer.sent == old(signer.sent) + [r.value]
      ensures r.Failure? && r.error.1 == Submitting ==> signer.sent == old(signer.sent)
      ensures r.Failure? && r.error.1.Confirming? ==> signer.sent == old(signer.sent) + [r.error.1.tx]
      ensures r.Failure? ==> r.error.1 == Submitting || r.error.1.Confirming?
      ensures r.Failure? && r.error.1 == Submitting ==>
                registry.ledger == old(registry.ledger) && statusTrail == old(statusTrail)
      ensures r.Failure? && r.error.1.Confirming? ==>
                && var tx := r.error.1.tx;
                && tx == PendingTx(tx.hash, signer.address, input.handles[0], input.handles[1],
                                   input.inputProof, tx.travelTimestamp)
                && tx.travelTimestamp == now / 1000
                && statusTrail == old(statusTrail) + [ConfirmationStatus(tx.hash)]
                && (|| registry.ledger == old(registry.ledger)
                    || registry.ledger == Appended(old(registry.ledger), tx.from, TxVisit(tx)))
    {
      var timestamp := now / 1000;
      var tx := SendRecordVisit(signer, input.handles[0], input.handles[1], input.inputProof, timestamp);
      if tx.Failure? {
        return Failure((tx.error, Submitting));
      }
      var waiting := ConfirmationStatus(tx.value.hash);
      statusMessage := waiting;
      statusTrail := statusTrail + [waiting];
      var receipt := WaitForReceipt(registry, signer, tx.value);
      if receipt.Failure? {
        return Failure((receipt.error, Confirming(tx.value)));
      }
      r := Success(tx.value);
    }
  }

  /** While a submission is in flight, the submit button and both selects are disabled. */
  lemma LockedWhileSubmitting(form: VisitFormPanel, isContractReady: bool, encryptionLoading: bool)
    requires form.isSubmitting
    ensures form.SubmitDisabled(isContractReady, encryptionLoading)
    ensures form.CitySelectDisabled(isContractReady, encryptionLoading)
  {
  }
}
