# Confidential travel log: client core in Dafny

This project models the client side of a travel log whose entries are stored
encrypted on chain. A user picks a country and a city from a fixed catalog.
The form encrypts the two ids as one batch and sends them to the
`TravelRegistry` contract with a timestamp. The history panel later reads the
user's visits, asks the wallet to sign one decryption grant for all of them,
decrypts every handle in a single request and shows catalog names in place of
the ids.

Modules, one file each:

- `Wrappers` (`wrappers.dfy`): `Option` and `Result`.
- `Decimal` (`decimal.dfy`): the decimal text a template literal produces for
  an integer (`${id}`), and its inverse. The inverse shows that fallback labels
  name their id unambiguously.
- `Locations` (`locations.dfy`): the catalog of 6 countries with 4 cities
  each. It covers the loops that fill the two id→name maps (a `method` with
  loop invariants), `getCitiesForCountry`, `getCountryName` and `getCityName`.
- `Registry` (`registry.dfy`): the contract as the client sees it. It is a map
  from account to an append-only list of `Visit(countryHandle, cityHandle,
  timestamp)`, with the behaviour the contract's tests assert.
- `Services` (`services.dfy`): the awaited collaborators:
  - the encryption instance (`encrypt`, `generateKeypair`, `userDecrypt`);
  - the wallet signer and the promise that yields it;
  - sending `recordVisit` and waiting for its receipt.

  Each call may throw any value. On success it returns only what the caller
  relies on. The instance remembers which contract, user and plaintext each
  handle it issued stands for. That lets the model state that country goes
  first, city second, and that decryption returns what was encrypted. No
  cryptography is modelled.
- `VisitHistory` (`visit_history.dfy`): the history panel. React state is the
  fields of `VisitHistoryPanel`. It covers:
  - the `visits` projection;
  - the reset of decrypted labels when the data changes;
  - `decryptVisits`: its guards, the handle/contract batch, the grant, the
    `forEach` that rebuilds the labels (a `method` with loop invariants), and
    the catch/finally handling;
  - the per-row `'***'`.
- `VisitForm` (`visit_form.dfy`): the form. React state is the fields of
  `VisitFormPanel`. It covers `availableCities`, the two select handlers (a
  country change clears the city), and `handleSubmit`: its guards, the
  encryption order, the `recordVisit` arguments, the status line, and the
  error, reset and finally transitions.
- `Journey` (`journey.dfy`): the two components together. A visit recorded by
  the form and later decrypted by the panel shows the names of the selected
  catalog country and city.

Each `setX` of the components is an assignment to a field. Each `await` is a
call to a `Services` method that may fail. Every value the form's status line
takes is also appended to a ghost `statusTrail`, so its order can be stated.
The clock is a parameter `now` in milliseconds. The connected account and the
signer promise are parameters too.

Three behaviours of the code are worth stating:

- `decryptVisits` reads a handle that is missing from the decryption result as
  id `0` (`?? '0'`). Its row then shows "Country #0" / "City #0".
- `handleSubmit` does not check whether a submission is already in progress.
  A second submission is kept out only by the disabled button
  (`SubmitDisabled`).
- After an `await`, neither component checks whether its result is still
  wanted.

## Model

| member | source | states |
|---|---|---|
| Decimal.IntToText | ui/src/config/locations.ts:91 | the text of an id is never empty and starts with a minus sign exactly when the id is negative |
| Decimal.ParseIntToText | ui/src/config/locations.ts:90-96 | reading the decimal text of any integer back yields that integer |
| Decimal.IntToTextInjective | ui/src/config/locations.ts:90-96 | distinct ids have distinct decimal texts |
| Locations.BuildNameMaps | ui/src/config/locations.ts:75-83 | the nested loops fill the country map and the city map with exactly the mappings the catalog defines |
| Locations.CountryNamesKeys | ui/src/config/locations.ts:78-79 | the country map's keys are exactly the catalog's country ids |
| Locations.CountryNamesAt | ui/src/config/locations.ts:78-79 | with distinct ids, every country is mapped to its own name and no later `set` overwrites it |
| Locations.CountryNamesValues | ui/src/config/locations.ts:78-79 | every value in the country map is the name of some catalog country |
| Locations.CityNamesKeys | ui/src/config/locations.ts:78-83 | the city map's keys are exactly the union of all countries' city ids |
| Locations.CityNamesAt | ui/src/config/locations.ts:78-83 | with city ids distinct across the catalog, every city is mapped to its own name and no later `set` overwrites it |
| Locations.CityNamesValues | ui/src/config/locations.ts:80-82 | every value in the city map is the name of some catalog city |
| Locations.CountryNamesLookup | ui/src/config/locations.ts:78-79 | for any catalog with distinct ids, an id is a key exactly when some country has it, and then it maps to that country's name |
| Locations.CityNamesLookup | ui/src/config/locations.ts:78-83 | for any catalog with distinct city ids, an id is a key exactly when some city has it, and then it maps to that city's name |
| Locations.CatalogShape | ui/src/config/locations.ts:12-73 | the catalog has 6 countries with ids 1..6; country i's cities have ids 100·i+1.., and all names are non-empty |
| Locations.LaidOutIds | ui/src/config/locations.ts:12-73 | a catalog laid out that way has distinct, positive country and city ids |
| Locations.CatalogIds | ui/src/config/locations.ts:12-73 | the catalog's country ids and city ids are distinct and positive, so no `set` of the building loops overwrites another |
| Locations.FindCountry | ui/src/config/locations.ts:86 | `find` returns a catalog entry with the requested id, and returns nothing exactly when no entry has it |
| Locations.FindCountryIsFirst | ui/src/config/locations.ts:86 | the entry `find` returns is the first with the requested id: no earlier entry has that id |
| Locations.FindCountryListsCities | ui/src/config/locations.ts:85-88 | with distinct country ids, a city is listed under a country exactly when it is among the cities of the entry `find` returns |
| Locations.GetCitiesForCountrySpec | ui/src/config/locations.ts:85-88 | a catalog id yields that country's city list; any other id yields the empty list |
| Locations.GetCountryNameSpec | ui/src/config/locations.ts:90-92 | a catalog id yields its country's name; any other id yields exactly "Country #" followed by its decimal text; the result is never empty |
| Locations.GetCityNameSpec | ui/src/config/locations.ts:94-96 | a catalog city id yields its city's name; any other id yields exactly "City #" followed by its decimal text; the result is never empty |
| Locations.CitiesNamedAsListed | ui/src/config/locations.ts:78-96 | every city `getCitiesForCountry` returns is named by `getCityName` exactly as listed |
| Locations.ZeroIdIsUnknown | ui/src/config/locations.ts:90-96 | id 0 is not in the catalog: the labels are "Country #0" and "City #0" |
| Locations.FallbackLabelsDistinct | ui/src/config/locations.ts:91 | two fallback country labels are equal only for equal ids |
| Registry.VisitsOf | test/TravelRegistry.ts:39-45 | an account that never recorded has no visits |
| Registry.Appended | test/TravelRegistry.ts:68-73 | a confirmed record appends exactly one visit to its sender's list and leaves every other account's list unchanged |
| Registry.AppendedAllSpec | test/TravelRegistry.ts:92-110 | after N records by one account, its list has grown by exactly those N visits in order, and no other account's list has changed |
| Registry.RecordScenario | test/TravelRegistry.ts:39-110 | a new account has 0 visits; after one record it has 1, carrying the submitted timestamp, and another account still has 0 |
| Registry.TravelRegistry.constructor | test/TravelRegistry.ts:12-18 | a freshly deployed registry has no visits for anybody |
| Registry.TravelRegistry.RecordVisit | ui/src/config/contracts.ts:138-165 | `recordVisit(country, city, proof, timestamp)` appends `Visit(country, city, timestamp)` to the sender's list |
| Registry.TravelRegistry.GetVisitCount | ui/src/config/contracts.ts:67-88 | the count is the length of the account's list |
| Registry.TravelRegistry.GetVisits | ui/src/config/contracts.ts:89-125 | returns the account's list of (country handle, city handle, timestamp) records |
| Services.FheInstance.Encrypt | ui/src/components/VisitForm.tsx:64-68 | one fresh, distinct handle per added value, in the order added; each is bound to the builder's contract and user and stands for its value; earlier handles keep their meaning. A throw is logged by the instance |
| Services.FheInstance.GenerateKeypair | ui/src/components/VisitHistory.tsx:90 | a successful call hands out one keypair, which the instance logs; a throw is logged instead; the ciphertexts and the decrypt requests are unchanged |
| Services.FheInstance.UserDecrypt | ui/src/components/VisitHistory.tsx:116-125 | the request is recorded. A successful result has entries only for requested handles bound to the user and to a signed contract, each equal to the value encrypted; entries may be missing. A throw is logged by the instance |
| Services.SignerPromise.Await | ui/src/components/VisitForm.tsx:72 | awaiting the promise yields the signer it was created with (possibly none), or throws a rejection the promise logs |
| Services.Signer.SignTypedData | ui/src/components/VisitHistory.tsx:108-114 | the signer logs exactly one signing: the payload it was asked to sign and what it answered |
| Services.SendRecordVisit | ui/src/components/VisitForm.tsx:77-85 | the sent transaction carries the signer as sender and the handles, proof and timestamp in argument order; a timestamp outside uint64 always fails; a throw is logged by the signer, and so is a transaction sent successfully |
| Services.WaitForReceipt | ui/src/components/VisitForm.tsx:88 | on confirmation the registry appends the transaction's visit for its sender; on a throw the ledger is either unchanged or has that one visit appended, since a throw does not say whether the transaction was mined; a throw is logged by the sending signer |
| VisitHistory.ProjectVisits | ui/src/components/VisitHistory.tsx:54-64 | no data gives no visits; otherwise the list keeps the fetched list's length, order and fields |
| VisitHistory.HandleContractPairs | ui/src/components/VisitHistory.tsx:95-104 | the batch has 2·n entries: entry 2i is visit i's country handle and entry 2i+1 its city handle, and every entry names the registry |
| VisitHistory.HandleContractPairsCover | ui/src/components/VisitHistory.tsx:95-104 | every handle of every visit is requested |
| VisitHistory.StripFirst0x | ui/src/components/VisitHistory.tsx:120 | a leading "0x" is removed, a string without "0x" is unchanged, and at most two characters go |
| VisitHistory.StripFirst0xAt | ui/src/components/VisitHistory.tsx:120 | wherever the first "0x" stands, exactly those two characters are cut out and the rest is kept in order |
| VisitHistory.BuildDecrypted | ui/src/components/VisitHistory.tsx:127-140 | the rebuilt record has exactly the keys 0..n-1, and entry i holds the catalog labels of visit i's decrypted ids, with id 0 for a missing entry |
| VisitHistory.LabelsAreNeverMask | ui/src/components/VisitHistory.tsx:130-134 | no country or city label the lookups produce, for any id, is the mask "***" |
| VisitHistory.RowsAfterDecryption | ui/src/components/VisitHistory.tsx:127-140 | after a successful decryption no row shows "***"; a row whose handle has no entry shows "Country #0" / "City #0", and otherwise it shows the labels of the decrypted id |
| VisitHistory.RowLabels | ui/src/components/VisitHistory.tsx:184-198 | a row shows its decrypted labels when it has an entry, and "***" for both country and city otherwise |
| VisitHistory.VisitHistoryPanel.DecryptBatch | ui/src/components/VisitHistory.tsx:89-125 | runs only while the panel is decrypting: one fresh keypair, one signature over a 7-day grant for the registry alone, one decrypt request carrying every handle of the list. The wallet is asked exactly once, to sign the EIP-712 payload built from that keypair's public key, the registry, the start time and the duration; the request carries that signature with its first "0x" removed. The result only holds true plaintexts of the user's handles. A throw carries the value the failing call threw: before the request is sent, either `generateKeypair` threw it (nothing signed) or the wallet's one signing answered with it, and the requests are unchanged; after, `userDecrypt` threw it |
| VisitHistory.VisitHistoryPanel.constructor | ui/src/components/VisitHistory.tsx:25-27 | the panel starts with no error, not decrypting and no decrypted labels |
| VisitHistory.VisitHistoryPanel.DataChanged | ui/src/components/VisitHistory.tsx:50-52 | new data drops every decrypted label, so every row shows "***" |
| VisitHistory.VisitHistoryPanel.RunDecryption | ui/src/components/VisitHistory.tsx:86-148 | the batch runs while the panel is decrypting, and the panel stops decrypting afterwards. The run either rebuilds the labels from its one signed request and clears the error, or keeps the labels and shows the message of the value the failing call threw (or "Unknown decryption error") |
| VisitHistory.VisitHistoryPanel.DecryptVisits | ui/src/components/VisitHistory.tsx:66-149 | the guards run in order (no instance, no address, no visits, no signer); each sets its message and changes nothing else: the instance's keypairs, ciphertexts, requests and throws are as before, and the wallet is never asked to sign. A click on the enabled button never stops at the empty-list check. A rejected signer promise, and only that, ends the run with `SignerRejected`, carrying the rejection the promise logged. When every guard passes and the promise yields a signer, a decryption is always attempted. Otherwise: on success the labels are rebuilt from the one batch request and the error is cleared; on a throw the labels are kept and the message of the value the failing call threw (or "Unknown decryption error") is shown; in both cases the panel is no longer decrypting |
| VisitForm.AvailableCities | ui/src/components/VisitForm.tsx:26-31 | no country gives no cities; a catalog country gives its city list; an unknown id gives none |
| VisitForm.CityOptionsAreOffered | ui/src/components/VisitForm.tsx:139-151 | the city select offers exactly the cities the catalog lists under the chosen country |
| VisitForm.ListedExactlyWhenOffered | ui/src/components/VisitForm.tsx:139-151 | for any catalog, a city is listed under a country exactly when it is among that country's city list (empty when no entry has the id) |
| VisitForm.OptionsAreLabelledAsListed | ui/src/components/VisitForm.tsx:153-157 | the selection preview names an offered city and the chosen country exactly as the catalog lists them |
| VisitForm.VisitFormPanel.constructor | ui/src/components/VisitForm.tsx:20-24 | the form starts with nothing selected, no status, no error and not submitting |
| VisitForm.VisitFormPanel.OnCountryChange | ui/src/components/VisitForm.tsx:119-123 | a new country is selected and the city is cleared; the selection stays consistent |
| VisitForm.VisitFormPanel.OnCityChange | ui/src/components/VisitForm.tsx:141-144 | an offered city is selected and the country is kept |
| VisitForm.VisitFormPanel.StatusClearFires | ui/src/components/VisitForm.tsx:99 | the scheduled timer blanks the status line |
| VisitForm.VisitFormPanel.RunSubmission | ui/src/components/VisitForm.tsx:56-100 | with a complete selection the submission is never rejected; it ends recorded or failed exactly as `HandleSubmit` states for that case (a failure shows the message of the value the failing call threw), the form stops submitting and one status clear is scheduled |
| VisitForm.VisitFormPanel.SubmitTransaction | ui/src/components/VisitForm.tsx:70-88 | the status shows "Submitting transaction..." and then, once the transaction is sent, the waiting message; without a signer nothing is sent and the run fails while submitting; a throw is the promise's rejection, "Signer not available" or the value the signer logged; the signer signs nothing, and it has sent exactly one more transaction when the run reached the receipt, none otherwise |
| VisitForm.VisitFormPanel.Settle | ui/src/components/VisitForm.tsx:89-100 | a finished `try` ends `Recorded` with the success steps, a thrown value ends `SubmitFailed` with its message shown and the selection kept; either way the flag is cleared and one status clear is scheduled |
| VisitForm.VisitFormPanel.SendAndConfirm | ui/src/components/VisitForm.tsx:77-88 | `recordVisit` gets handle 0 as country, handle 1 as city, the proof and the time in seconds, from the signer's address; the status shows the waiting message only once the transaction is sent; a throw is the value the signer logged, caught as submitting before the send succeeded and as confirming after; the signer's log of sent transactions grows by exactly the one sent, and not at all when sending threw; only a confirmed receipt promises the appended visit |
| VisitForm.VisitFormPanel.ShowRecorded | ui/src/components/VisitForm.tsx:90-92 | the status becomes "Visit recorded successfully.", both selections are cleared and the parent's callback runs once |
| VisitForm.VisitFormPanel.ShowFailure | ui/src/components/VisitForm.tsx:93-96 | the form error is the thrown message (or "Unknown error"), the status is blanked and the selection is kept |
| VisitForm.VisitFormPanel.Submit | ui/src/components/VisitForm.tsx:58-92 | the status moves "Encrypting selection..." → "Submitting transaction..." → "Waiting for confirmation (…)"; the batch encrypts country before city, both bound to the registry and the account; `recordVisit` gets handle 0 as country, handle 1 as city, the proof and the time in seconds. Without a signer no transaction is sent: the run fails while encrypting or submitting, and if the promise did not reject, the error is "Signer not available". Every other error is the value the failing call threw: the instance's encryption, the promise's rejection, the send or the wait for the receipt, as each logged it. The wallet signs nothing. A failure before sending leaves the ledger and the signer's log of sent transactions unchanged. Success, and a failure while waiting, mean exactly one transaction was sent. A failure while waiting for the receipt carries the sent transaction, which records the selection; the ledger is then unchanged or has exactly that visit appended |
| VisitForm.VisitFormPanel.HandleSubmit | ui/src/components/VisitForm.tsx:38-101 | the guards run in order (contract not configured; instance, account or signer missing; selection incomplete); each only sets the form error: the instance encrypts, decrypts and logs nothing, the signer promise is not awaited, and the signer sends and logs nothing. A rejection carries one of those three messages, and when all three checks pass the submission is never rejected. Without a signer nothing is recorded; if the promise did not reject, the form shows "Signer not available". On success the sender's list gains one visit whose handles stand for the selected country and city, both selections are reset, the status ends "Visit recorded successfully." and the callback runs once. On failure the selections are kept, the message (or "Unknown error") of the value the failing call threw, as its collaborator logged it, is shown and the status is blanked. The wallet signs nothing, and the signer has sent exactly one transaction on success or a failure while waiting for the receipt, none on any other failure. The ledger is unchanged unless the failure came while waiting for the receipt; then the sent transaction records the selection, and the ledger may hold its visit. Either way the form stops submitting and schedules one status clear |
| VisitForm.VisitRecordedListener.OnVisitRecorded | ui/src/components/VisitForm.tsx:92 | the parent's callback counts one call |
| VisitForm.LockedWhileSubmitting | ui/src/components/VisitForm.tsx:114-171 | while a submission is in flight, the submit button and both selects are disabled |
| Journey.RecordedSelectionIsShown | ui/src/components/VisitHistory.tsx:127-140 | a visit whose handles encrypt a consistent selection (as `Encrypt` and `UserDecrypt` promise), once decrypted, is shown with the catalog names of that country and city, as `getCountryName` and `getCityName` (ui/src/config/locations.ts:90-96) give them |

## Left out

- Cryptography: encryption, input proofs, keypairs and the EIP-712 payload are
  opaque values. `userDecrypt` is modelled only by its access rule (the user's
  own handles, the signed contract) and by returning true plaintexts.
- The registry's Solidity source, proof verification and access control, the
  `VisitRecorded` event, and `getVisit`.
- `useReadContract` fetching and the `refreshKey` refetch. Only the effect of
  new data (`DataChanged`) is modelled.
- Wallet and encryption-service hooks, `TravelApp`, `Header`, the JSX, CSS
  and `console.error`. The hooks' values are parameters.
- `Date.now`, `toLocaleString` and the row's date text. The clock is a
  parameter, and `setTimeout` is a pending count released by
  `StatusClearFires`.
- Async interleaving: each handler runs to completion. Overlapping
  submissions and decryptions are not modelled.
- JavaScript numbers: ids are mathematical integers, and the `Number(...)`
  conversions of select values and decrypted values are identities.
  `Decimal.IntToText` is the decimal text JavaScript gives integers below
  10^21. Above that JavaScript uses exponent notation, which is not modelled.
- Services.FheInstance.Encrypt: the model's `Encrypt` accepts any integer. It
  does not model a rejection of values outside 32 bits. The ids involved come
  from the catalog (at most 604).
- Services.WaitForReceipt: a throw while waiting leaves it open whether the
  transaction was mined. The model only promises that the ledger is unchanged
  or has the transaction's one visit appended.
- VisitForm.VisitFormPanel.HandleSubmit: after a failure while waiting for
  confirmation, the model does not say whether the visit was recorded. It
  only promises the two possible ledgers, as for `WaitForReceipt`.
- VisitForm.VisitFormPanel.HandleSubmit: the encryption is bound to the
  connected account, but the ledger entry goes to the signer's address. The
  model keeps them as separate parameters and does not assume they are equal.
- Services.Signer.SignTypedData: building the EIP-712 payload
  (`createEIP712`, ui/src/components/VisitHistory.tsx:106) and signing it are
  one call in the model. A throw while building the payload shows up only as
  the signer's failed answer, which the signer logs.
- The deploy script, the command-line tasks and the live-network test.
