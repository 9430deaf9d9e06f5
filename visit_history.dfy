/**
 * The visit history panel: the projection of the fetched visits, the reset of
 * decrypted labels whenever that data changes, and `decryptVisits`, which
 * checks its preconditions, asks the wallet to sign one decryption grant for
 * the whole list, decrypts every handle in a single call and turns the
 * plaintext ids into catalog labels, row by row.
 */
module VisitHistory {
  import opened Wrappers
  import opened Registry
  import opened Services
  import Locations

  const MASK: string := "***"
  const DURATION_DAYS: int := 7

  const SERVICE_UNAVAILABLE: string := "Encryption service is unavailable."
  const WALLET_NOT_CONNECTED: string := "Connect your wallet to decrypt your visits."
  const NO_VISITS: string := "No visits to decrypt."
  const SIGNER_UNAVAILABLE: string := "Signer not available. Connect your wallet."
  const UNKNOWN_DECRYPTION_ERROR: string := "Unknown decryption error"

  /** The labels shown for one decrypted row. */
  datatype DecryptedVisit = DecryptedVisit(country: string, city: string)

  /** How a `decryptVisits` run ended. */
  datatype DecryptOutcome =
    | NotStarted(message: string)
      // a precondition failed; only the error message was set
    | SignerRejected(error: Thrown)
      // awaiting the signer threw before the guarded section; nothing was set
    | Decrypted(result: map<Handle, int>, request: DecryptRequest)
    | DecryptionFailed(error: Thrown, sent: Option<DecryptRequest>)
      // what the `try` block threw; `sent` is the decryption request, when the run got as far as sending it

  /** The `visits` list: empty while there is no data, otherwise the fetched visits field by field. */
  function ProjectVisits(data: Option<seq<Visit>>): (visits: seq<Visit>)
    ensures data.None? ==> visits == []
    ensures data.Some? ==> |visits| == |data.value|
    ensures data.Some? ==> forall i | 0 <= i < |visits| ::
              && visits[i].countryHandle == data.value[i].countryHandle
              && visits[i].cityHandle == data.value[i].cityHandle
              && visits[i].timestamp == data.value[i].timestamp
  {
    match data
    case None => []
    case Some(d) => seq(|d|, i requires 0 <= i < |d| => Visit(d[i].countryHandle, d[i].cityHandle, d[i].timestamp))
  }

  /**
   * The decryption batch: for each visit its country handle and then its city
   * handle, all paired with the one registry address.
   */
  function HandleContractPairs(visits: seq<Visit>): (pairs: seq<HandleContractPair>)
    ensures |pairs| == 2 * |visits|
    ensures forall k | 0 <= k < |pairs| :: pairs[k].contractAddress == CONTRACT_ADDRESS
    ensures forall i | 0 <= i < |visits| ::
              && pairs[2 * i] == HandleContractPair(visits[i].countryHandle, CONTRACT_ADDRESS)
              && pairs[2 * i + 1] == HandleContractPair(visits[i].cityHandle, CONTRACT_ADDRESS)
  {
    if visits == [] then []
    else
      [HandleContractPair(visits[0].countryHandle, CONTRACT_ADDRESS),
       HandleContractPair(visits[0].cityHandle, CONTRACT_ADDRESS)]
      + HandleContractPairs(visits[1..])
  }

  /** Every handle of every visit is in the batch. */
  lemma HandleContractPairsCover(visits: seq<Visit>)
    ensures forall v | v in visits ::
              v.countryHandle in RequestedHandles(HandleContractPairs(visits)) &&
              v.cityHandle in RequestedHandles(HandleContractPairs(visits))
  {
  }

  /** `signature.replace('0x', '')`: the first occurrence of "0x" is removed. */
  function StripFirst0x(s: string): (r: string)
    ensures |s| >= 2 && s[0] == '0' && s[1] == 'x' ==> r == s[2..]
    ensures (forall i | 0 <= i < |s| - 1 :: !(s[i] == '0' && s[i + 1] == 'x')) ==> r == s
    ensures |r| == |s| || |r| == |s| - 2
  {
    if |s| < 2 then s
    else if s[0] == '0' && s[1] == 'x' then s[2..]
    else [s[0]] + StripFirst0x(s[1..])
  }

  /** "0x" stands at position `k` of `s`. */
  predicate HexPrefixAt(s: string, k: nat) {
    k + 1 < |s| && s[k] == '0' && s[k + 1] == 'x'
  }

  /** Wherever the first "0x" stands, `replace` cuts out exactly those two characters. */
  lemma {:induction false} StripFirst0xAt(s: string, i: nat)
    requires HexPrefixAt(s, i)
    requires forall k: nat | k < i :: !HexPrefixAt(s, k)
    ensures StripFirst0x(s) == s[..i] + s[i + 2..]
  {
    if i == 0 {
      assert s[..0] + s[2..] == s[2..];
    } else {
      var t := s[1..];
      forall k: nat | k < i - 1 ensures !HexPrefixAt(t, k) {
        assert !HexPrefixAt(s, k + 1);
      }
      calc {
        StripFirst0x(s);
        { assert !HexPrefixAt(s, 0); }
        [s[0]] + StripFirst0x(t);
        { StripFirst0xAt(t, i - 1); }
        [s[0]] + (t[..i - 1] + t[i + 1..]);
        { assert [s[0]] + t[..i - 1] == s[..i]; assert t[i + 1..] == s[i + 2..]; }
        s[..i] + s[i + 2..];
      }
    }
  }

  /** The id a handle decrypted to, `'0'` when the result has no entry for it. */
  function DecryptedId(result: map<Handle, int>, h: Handle): int
  {
    if h in result then result[h] else 0
  }

  /** The labels for one visit, given the decryption result. */
  function Reconcile(v: Visit, result: map<Handle, int>): DecryptedVisit
  {
    DecryptedVisit(Locations.GetCountryName(DecryptedId(result, v.countryHandle)),
                   Locations.GetCityName(DecryptedId(result, v.cityHandle)))
  }

  /** `decrypted` has exactly one entry per row index, built from that row's handles. */
  ghost predicate ReconciledFrom(decrypted: map<nat, DecryptedVisit>, visits: seq<Visit>, result: map<Handle, int>) {
    && (forall i: nat :: i in decrypted <==> i < |visits|)
    && (forall i | 0 <= i < |visits| :: decrypted[i] == Reconcile(visits[i], result))
  }

  /** The `forEach` that fills the `decrypted` record, row index by row index. */
  method BuildDecrypted(visits: seq<Visit>, result: map<Handle, int>) returns (decrypted: map<nat, DecryptedVisit>)
    ensures ReconciledFrom(decrypted, visits, result)
  {
    decrypted := map[];
    var index := 0;
    while index < |visits|
      invariant 0 <= index <= |visits|
      invariant forall i: nat | i in decrypted :: i < index
      invariant forall i | 0 <= i < index :: i in decrypted && decrypted[i] == Reconcile(visits[i], result)
    {
      var visit := visits[index];
      var countryIdValue := DecryptedId(result, visit.countryHandle);
      var cityIdValue := DecryptedId(result, visit.cityHandle);
      decrypted := decrypted[index := DecryptedVisit(Locations.GetCountryName(countryIdValue),
                                                      Locations.GetCityName(cityIdValue))];
      index := index + 1;
    }
  }

  /** The labels a row shows: the decrypted ones, or the mask when the row has no entry. */
  function RowLabels(decryptedVisits: map<nat, DecryptedVisit>, index: nat): (labels: DecryptedVisit)
    ensures index in decryptedVisits ==> labels == decryptedVisits[index]
    ensures index !in decryptedVisits ==> labels.country == MASK && labels.city == MASK
  {
    if index in decryptedVisits then decryptedVisits[index] else DecryptedVisit(MASK, MASK)
  }

  lemma CatalogNamesAreNotMask()
    ensures forall i | 0 <= i < |Locations.COUNTRIES| :: Locations.COUNTRIES[i].name != MASK
    ensures forall i, j | 0 <= i < |Locations.COUNTRIES| && 0 <= j < |Locations.COUNTRIES[i].cities| ::
              Locations.COUNTRIES[i].cities[j].name != MASK
  {
  }

  /** No label the catalog lookups produce is the mask, known id or not. */
  lemma LabelsAreNeverMask(countryId: int, cityId: int)
    ensures Locations.GetCountryName(countryId) != MASK
    ensures Locations.GetCityName(cityId) != MASK
  {
    CatalogNamesAreNotMask();
    if countryId in Locations.countryNameMap {
      Locations.CountryNamesValues(Locations.COUNTRIES, countryId);
    } else {
      assert Locations.GetCountryName(countryId)[0] == 'C';
    }
    if cityId in Locations.cityNameMap {
      Locations.CityNamesValues(Locations.COUNTRIES, cityId);
    } else {
      assert Locations.GetCityName(cityId)[0] == 'C';
    }
  }

  /**
   * After a successful decryption every row shows catalog labels, never the
   * mask; a handle with no entry in the result shows the labels of id 0.
   */
  lemma RowsAfterDecryption(decrypted: map<nat, DecryptedVisit>, visits: seq<Visit>, result: map<Handle, int>, i: nat)
    requires ReconciledFrom(decrypted, visits, result)
    requires i < |visits|
    ensures RowLabels(decrypted, i).country != MASK && RowLabels(decrypted, i).city != MASK
    ensures visits[i].countryHandle !in result ==> RowLabels(decrypted, i).country == "Country #0"
    ensures visits[i].cityHandle !in result ==> RowLabels(decrypted, i).city == "City #0"
    ensures visits[i].countryHandle in result ==>
              RowLabels(decrypted, i).country == Locations.GetCountryName(result[visits[i].countryHandle])
    ensures visits[i].cityHandle in result ==>
              RowLabels(decrypted, i).city == Locations.GetCityName(result[visits[i].cityHandle])
  {
    LabelsAreNeverMask(DecryptedId(result, visits[i].countryHandle), DecryptedId(result, visits[i].cityHandle));
    Locations.ZeroIdIsUnknown();
  }

  /** The request `decryptVisits` sends: the whole list's handles under one grant for the registry, valid 7 days from now. */
  ghost predicate BatchRequest(req: DecryptRequest, visits: seq<Visit>, user: Address, now: nat) {
    && req.pairs == HandleContractPairs(visits)
    && req.contracts == [CONTRACT_ADDRESS]
    && req.user == user
    && req.startTime == now / 1000
    && req.durationDays == DURATION_DAYS
  }

  /**
   * Exactly one signing happened between `before` and `after`: the wallet
   * was asked to sign the grant for `req`'s public key, contracts, start time
   * and duration, it answered with a signature, and `req` carries that
   * signature without its "0x".
   */
  ghost predicate SignedOnceFor(before: seq<Signing>, after: seq<Signing>, req: DecryptRequest) {
    && |after| == |before| + 1
    && after == before + [after[|before|]]
    && after[|before|].payload == Eip712(req.keypair.publicKey, req.contracts, req.startTime, req.durationDays)
    && after[|before|].answer.Success?
    && req.signature == StripFirst0x(after[|before|].answer.value)
  }

  /**
   * `e` was thrown before a decryption request was sent: either the instance
   * threw it (generating the keypair) and nothing was signed, or the wallet
   * refused the one signing it was asked for with `e` and the instance threw
   * nothing.
   */
  ghost predicate ThrewBeforeSending(signingsBefore: seq<Signing>, signingsAfter: seq<Signing>,
                                     thrownBefore: seq<Thrown>, thrownAfter: seq<Thrown>, e: Thrown) {
    || (signingsAfter == signingsBefore && thrownAfter == thrownBefore + [e])
    || (&& thrownAfter == thrownBefore
        && |signingsAfter| == |signingsBefore| + 1
        && signingsAfter == signingsBefore + [signingsAfter[|signingsBefore|]]
        && signingsAfter[|signingsBefore|].answer == Failure(e))
  }

  /** How the guarded section of `decryptVisits` ended: with a decryption result, or with a thrown value. */
  datatype Attempt =
    | Granted(result: map<Handle, int>, request: DecryptRequest)
    | Threw(error: Thrown, sent: Option<DecryptRequest>)
      // `sent` is the decryption request, when the section got as far as sending it

  class VisitHistoryPanel {
    var data: Option<seq<Visit>>
    var decryptionError: Option<string>
    var isDecrypting: bool
    var decryptedVisits: map<nat, DecryptedVisit>

    constructor ()
      ensures data == None && decryptionError == None && !isDecrypting && decryptedVisits == map[]
    {
      data, decryptionError, isDecrypting, decryptedVisits := None, None, false, map[];
    }

    function Visits(): seq<Visit>
      reads this
    {
      ProjectVisits(data)
    }

    /** The decrypt button is disabled while decrypting, with no visits, or without a configured registry. */
    predicate DecryptDisabled(isContractReady: bool)
      reads this
    {
      !isContractReady || isDecrypting || |Visits()| == 0
    }

    /**
     * The body of the `try` in `decryptVisits`: generate a keypair, have the
     * signer sign a 7-day grant for the registry, and decrypt every handle of
     * `visits` in one request.  Each awaited step may throw.  It runs while
     * the panel shows that it is decrypting.
     */
    method DecryptBatch(instance: FheInstance, signer: Signer, visits: seq<Visit>, user: Address, now: nat)
      returns (r: Attempt)
      requires isDecrypting
      modifies instance, signer
      ensures instance.ciphertexts == old(instance.ciphertexts)
      ensures r.Granted? ==>
                && instance.requests == old(instance.requests) + [r.request]
                && instance.thrown == old(instance.thrown)
                && instance.keypairs == old(instance.keypairs) + [r.request.keypair]
                && BatchRequest(r.request, visits, user, now)
                && SignedOnceFor(old(signer.signings), signer.signings, r.request)
                && forall h | h in r.result ::
                     && h in instance.ciphertexts && instance.ciphertexts[h].user == user
                     && instance.ciphertexts[h].contract == CONTRACT_ADDRESS
                     && r.result[h] == instance.ciphertexts[h].value
      ensures r.Threw? && r.sent.None? ==>
                && instance.requests == old(instance.requests)
                && ThrewBeforeSending(old(signer.signings), signer.signings, old(instance.thrown), instance.thrown, r.error)
      ensures r.Threw? && r.sent.Some? ==>
                && instance.requests == old(instance.requests) + [r.sent.value]
                && instance.thrown == old(instance.thrown) + [r.error]
                && instance.keypairs == old(instance.keypairs) + [r.sent.value.keypair]
                && BatchRequest(r.sent.value, visits, user, now)
                && SignedOnceFor(old(signer.signings), signer.signings, r.sent.value)
    {
      var keypair := instance.GenerateKeypair();
      if keypair.Failure? {
        return Threw(keypair.error, None);
      }
      var contracts := [CONTRACT_ADDRESS];
      var startTime := now / 1000;
      var handleContractPairs := HandleContractPairs(visits);
      var eip712 := Eip712(keypair.value.publicKey, contracts, startTime, DURATION_DAYS);
      var signature := signer.SignTypedData(eip712);
      if signature.Failure? {
        return Threw(signature.error, None);
      }
      var request := DecryptRequest(handleContractPairs, keypair.value, StripFirst0x(signature.value),
                                    contracts, user, startTime, DURATION_DAYS);
      var result := instance.UserDecrypt(request.pairs, request.keypair, request.signature,
                                         request.contracts, request.user, request.startTime, request.durationDays);
      if result.Failure? {
        return Threw(result.error, Some(request));
      }
      r := Granted(result.value, request);
    }

    /** New fetched data: the decrypted labels are dropped, so every row shows the mask again. */
    method DataChanged(newData: Option<seq<Visit>>)
      modifies this
      ensures data == newData && decryptedVisits == map[]
      ensures decryptionError == old(decryptionError) && isDecrypting == old(isDecrypting)
      ensures forall i: nat | i < |Visits()| :: RowLabels(decryptedVisits, i) == DecryptedVisit(MASK, MASK)
    {
      data := newData;
      decryptedVisits := map[];
    }

    /**
     * `decryptVisits`, run by a click on the decrypt button.  `isContractReady`
     * is the flag that, with the panel's state, decides whether the button
     * was enabled.
     */
    method DecryptVisits(ghost isContractReady: bool, instance: FheInstance?, address: Option<Address>,
                         signerPromise: SignerPromise?, now: nat)
      returns (outcome: DecryptOutcome)
      modifies this, instance, signerPromise, if signerPromise == null then {} else {signerPromise.resolved}
      ensures data == old(data)
      // a click on the enabled button never meets the empty list
      ensures !old(DecryptDisabled(isContractReady)) ==> outcome != NotStarted(NO_VISITS)
      // the guards, in order
      ensures instance == null ==> outcome == NotStarted(SERVICE_UNAVAILABLE)
      ensures instance != null && address.None? ==> outcome == NotStarted(WALLET_NOT_CONNECTED)
      ensures instance != null && address.Some? && Visits() == [] ==> outcome == NotStarted(NO_VISITS)
      ensures instance != null && address.Some? && Visits() != [] && signerPromise == null ==>
                outcome == NotStarted(SIGNER_UNAVAILABLE)
      ensures instance != null && address.Some? && Visits() != [] && signerPromise != null ==>
                (outcome.SignerRejected? <==> signerPromise.rejected)
      ensures instance != null && address.Some? && Visits() != [] && signerPromise != null && signerPromise.resolved == null ==>
                outcome == NotStarted(SIGNER_UNAVAILABLE) || outcome.SignerRejected?
      // every guard passed and the signer resolved: the guarded section runs
      ensures instance != null && address.Some? && Visits() != [] && signerPromise != null && signerPromise.resolved != null ==>
                !outcome.NotStarted?
      ensures outcome.NotStarted? || outcome.SignerRejected? ==>
                signerPromise != null && signerPromise.resolved != null ==>
                  signerPromise.resolved.signings == old(signerPromise.resolved.signings)
      ensures outcome.NotStarted? || outcome.SignerRejected? ==>
                instance != null ==>
                  && instance.requests == old(instance.requests) && instance.keypairs == old(instance.keypairs)
                  && instance.ciphertexts == old(instance.ciphertexts) && instance.issued == old(instance.issued)
                  && instance.thrown == old(instance.thrown)
      ensures outcome.NotStarted? ==>
                && decryptionError == Some(outcome.message)
                && decryptedVisits == old(decryptedVisits) && isDecrypting == old(isDecrypting)
                && (signerPromise != null ==> signerPromise.rejections == old(signerPromise.rejections))
      ensures outcome.SignerRejected? ==>
                && instance != null && address.Some? && Visits() != [] && signerPromise != null
                && signerPromise.rejections == old(signerPromise.rejections) + [outcome.error]
                && decryptionError == old(decryptionError)
                && decryptedVisits == old(decryptedVisits) && isDecrypting == old(isDecrypting)
      // the guarded section
      ensures outcome.Decrypted? || outcome.DecryptionFailed? ==>
                && instance != null && address.Some? && Visits() != []
                && signerPromise != null && signerPromise.resolved != null
                && !isDecrypting
                && instance.ciphertexts == old(instance.ciphertexts)
      ensures outcome.Decrypted? ==>
                && decryptionError == None
                && ReconciledFrom(decryptedVisits, Visits(), outcome.result)
                && instance.requests == old(instance.requests) + [outcome.request]
                && instance.thrown == old(instance.thrown)
                && BatchRequest(outcome.request, Visits(), address.value, now)
                && SignedOnceFor(old(signerPromise.resolved.signings), signerPromise.resolved.signings, outcome.request)
                && forall h | h in outcome.result ::
                     && h in instance.ciphertexts && instance.ciphertexts[h].user == address.value
                     && instance.ciphertexts[h].contract == CONTRACT_ADDRESS
                     && outcome.result[h] == instance.ciphertexts[h].value
      ensures outcome.DecryptionFailed? ==>
                && decryptionError == Some(MessageOf(outcome.error, UNKNOWN_DECRYPTION_ERROR))
                && decryptedVisits == old(decryptedVisits)
                && (outcome.sent.None? ==>
                      && instance.requests == old(instance.requests)
                      && ThrewBeforeSending(old(signerPromise.resolved.signings), signerPromise.resolved.signings,
                                            old(instance.thrown), instance.thrown, outcome.error))
                && (outcome.sent.Some? ==>
                      && instance.requests == old(instance.requests) + [outcome.sent.value]
                      && instance.thrown == old(instance.thrown) + [outcome.error]
                      && BatchRequest(outcome.sent.value, Visits(), address.value, now)
                      && SignedOnceFor(old(signerPromise.resolved.signings), signerPromise.resolved.signings,
                                       outcome.sent.value))
    {
      if instance == null {
        decryptionError := Some(SERVICE_UNAVAILABLE);
        return NotStarted(SERVICE_UNAVAILABLE);
      }
      if address.None? {
        decryptionError := Some(WALLET_NOT_CONNECTED);
        return NotStarted(WALLET_NOT_CONNECTED);
      }
      var visits := Visits();
      if |visits| == 0 {
        decryptionError := Some(NO_VISITS);
        return NotStarted(NO_VISITS);
      }
      var signer: Signer? := null;
      if signerPromise != null {
        var awaited := signerPromise.Await();
        if awaited.Failure? {
          return SignerRejected(awaited.error);
        }
        signer := awaited.value;
      }
      if signer == null {
        decryptionError := Some(SIGNER_UNAVAILABLE);
        return NotStarted(SIGNER_UNAVAILABLE);
      }

      outcome := RunDecryption(instance, signer, address.value, now);
    }

    /**
     * What `decryptVisits` does once its guards passed: mark the panel as
     * decrypting and clear the error, run the `try` block, then either store
     * the rebuilt labels or show what was thrown, and finally clear the flag.
     */
    method RunDecryption(instance: FheInstance, signer: Signer, user: Address, now: nat)
      returns (outcome: DecryptOutcome)
      modifies this, instance, signer
      ensures data == old(data) && !isDecrypting
      ensures instance.ciphertexts == old(instance.ciphertexts)
      ensures outcome.Decrypted? || outcome.DecryptionFailed?
      ensures outcome.Decrypted? ==>
                && decryptionError == None
                && ReconciledFrom(decryptedVisits, Visits(), outcome.result)
                && instance.requests == old(instance.requests) + [outcome.request]
                && instance.thrown == old(instance.thrown)
                && BatchRequest(outcome.request, Visits(), user, now)
                && SignedOnceFor(old(signer.signings), signer.signings, outcome.request)
                && forall h | h in outcome.result ::
                     && h in instance.ciphertexts && instance.ciphertexts[h].user == user
                     && instance.ciphertexts[h].contract == CONTRACT_ADDRESS
                     && outcome.result[h] == instance.ciphertexts[h].value
      ensures outcome.DecryptionFailed? ==>
                && decryptionError == Some(MessageOf(outcome.error, UNKNOWN_DECRYPTION_ERROR))
                && decryptedVisits == old(decryptedVisits)
                && (outcome.sent.None? ==>
                      && instance.requests == old(instance.requests)
                      && ThrewBeforeSending(old(signer.signings), signer.signings,
                                            old(instance.thrown), instance.thrown, outcome.error))
                && (outcome.sent.Some? ==>
                      && instance.requests == old(instance.requests) + [outcome.sent.value]
                      && instance.thrown == old(instance.thrown) + [outcome.error]
                      && BatchRequest(outcome.sent.value, Visits(), user, now)
                      && SignedOnceFor(old(signer.signings), signer.signings, outcome.sent.value))
    {
      isDecrypting := true;
      decryptionError := None;

      var visits := Visits();
      var attempt := DecryptBatch(instance, signer, visits, user, now);
      match attempt {
        case Granted(result, request) =>
          var decrypted := BuildDecrypted(visits, result);
          decryptedVisits := decrypted;
          outcome := Decrypted(result, request);
        case Threw(error, sent) =>
          decryptionError := Some(MessageOf(error, UNKNOWN_DECRYPTION_ERROR));
          outcome := DecryptionFailed(error, sent);
      }
      isDecrypting := false;
    }
  }
}
