/**
 * The two components together: a visit recorded through the form, once the
 * history panel has it decrypted, is shown with the catalog names of the
 * country and the city that were selected.
 */
module Journey {
  import opened Registry
  import opened Services
  import Locations
  import VisitHistory
  import VisitForm

  /**
   * `v` carries the handles the form's batch produced for the selected
   * country and city; `result` is what a decryption returned, each entry the
   * value its handle was encrypted from (as `userDecrypt` promises); both of
   * the visit's handles have an entry.  The row then shows the selected
   * catalog country and city by name.
   */
  lemma RecordedSelectionIsShown(ciphertexts: map<Handle, Ciphertext>, user: Address, v: Visit,
                                 result: map<Handle, int>, countryId: int, cityId: int)
    requires v.countryHandle in ciphertexts && ciphertexts[v.countryHandle] == Ciphertext(CONTRACT_ADDRESS, user, countryId)
    requires v.cityHandle in ciphertexts && ciphertexts[v.cityHandle] == Ciphertext(CONTRACT_ADDRESS, user, cityId)
    requires forall h | h in result :: h in ciphertexts && result[h] == ciphertexts[h].value
    requires v.countryHandle in result && v.cityHandle in result
    requires VisitForm.ConsistentSelection(VisitForm.Selected(countryId), VisitForm.Selected(cityId))
    ensures exists i, j | 0 <= i < |Locations.COUNTRIES| && 0 <= j < |Locations.COUNTRIES[i].cities| ::
              && Locations.COUNTRIES[i].id == countryId && Locations.COUNTRIES[i].cities[j].id == cityId
              && VisitHistory.Reconcile(v, result) ==
                   VisitHistory.DecryptedVisit(Locations.COUNTRIES[i].name, Locations.COUNTRIES[i].cities[j].name)
  {
    var cs := Locations.COUNTRIES;
    var i, j :| 0 <= i < |cs| && 0 <= j < |cs[i].cities| && cs[i].id == countryId && cs[i].cities[j].id == cityId;
    assert cs[i] in cs && cs[i].cities[j] in cs[i].cities;
    Locations.GetCountryNameSpec(countryId);
    Locations.GetCityNameSpec(cityId);
  }
}
