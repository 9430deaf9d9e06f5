/**
 * The on-chain TravelRegistry as the client sees it: per account, an
 * append-only list of visits whose country and city are ciphertext handles.
 * Only the record shape of its interface and the behaviour its tests assert
 * are modelled: a new account has no visits, recordVisit appends exactly one
 * visit for its sender, and no account sees another's visits.
 */
module Registry {

  /** An account or contract address. */
  type Address = string

  type Uint64 = x: int | 0 <= x < 0x1_0000_0000_0000_0000

  /** An opaque 32-byte ciphertext handle; it carries no plaintext. */
  datatype Handle = Handle(raw: nat)

  /**
   * One stored visit.  The interface calls the two handles `countryId` and
   * `cityId`; they are encrypted 32-bit ids.
   */
  datatype Visit = Visit(countryHandle: Handle, cityHandle: Handle, timestamp: Uint64)

  type Ledger = map<Address, seq<Visit>>

  /** What `getVisits(user)` returns: nothing for an account that never recorded. */
  function VisitsOf(ledger: Ledger, user: Address): (vs: seq<Visit>)
    ensures user !in ledger ==> vs == []
  {
    if user in ledger then ledger[user] else []
  }

  /** The ledger after one confirmed `recordVisit` by `sender`. */
  function Appended(ledger: Ledger, sender: Address, v: Visit): (r: Ledger)
    ensures VisitsOf(r, sender) == VisitsOf(ledger, sender) + [v]
    ensures forall user | user != sender :: VisitsOf(r, user) == VisitsOf(ledger, user)
  {
    ledger[sender := VisitsOf(ledger, sender) + [v]]
  }

  /** The ledger after `sender` records each of `vs`, in order. */
  function AppendedAll(ledger: Ledger, sender: Address, vs: seq<Visit>): Ledger
  {
    if vs == [] then ledger else Appended(AppendedAll(ledger, sender, vs[..|vs| - 1]), sender, vs[|vs| - 1])
  }

  /**
   * After N confirmed records by one account its list has grown by exactly
   * those N visits, in the order recorded (visit k sits at index
   * old count + k), and every other account's list is unchanged.
   */
  lemma {:induction false} AppendedAllSpec(ledger: Ledger, sender: Address, vs: seq<Visit>)
    ensures VisitsOf(AppendedAll(ledger, sender, vs), sender) == VisitsOf(ledger, sender) + vs
    ensures forall user | user != sender :: VisitsOf(AppendedAll(ledger, sender, vs), user) == VisitsOf(ledger, user)
  {
    if vs != [] {
      var init := vs[..|vs| - 1];
      AppendedAllSpec(ledger, sender, init);
      assert vs == init + [vs[|vs| - 1]];
    }
  }

  /**
   * The scenario the registry's tests walk through: a fresh registry has no
   * visits for anybody; after one record by `user` that account has exactly
   * one visit, carrying the submitted timestamp, and `other` still has none.
   */
  lemma RecordScenario(user: Address, other: Address, v: Visit)
    requires user != other
    ensures |VisitsOf(map[], user)| == 0
    ensures |VisitsOf(Appended(map[], user, v), user)| == 1
    ensures VisitsOf(Appended(map[], user, v), user)[0].timestamp == v.timestamp
    ensures |VisitsOf(Appended(map[], user, v), other)| == 0
  {
  }

  class TravelRegistry {
    var ledger: Ledger

    constructor ()
      ensures ledger == map[]
    {
      ledger := map[];
    }

    /**
     * `recordVisit(encryptedCountryId, encryptedCityId, inputProof,
     * travelTimestamp)` sent by `sender`, once it is confirmed.
     */
    method RecordVisit(sender: Address, encryptedCountryId: Handle, encryptedCityId: Handle,
                       inputProof: seq<bv8>, travelTimestamp: Uint64)
      modifies this
      ensures ledger == Appended(old(ledger), sender, Visit(encryptedCountryId, encryptedCityId, travelTimestamp))
    {
      ledger := Appended(ledger, sender, Visit(encryptedCountryId, encryptedCityId, travelTimestamp));
    }

    method GetVisitCount(user: Address) returns (count: nat)
      ensures count == |VisitsOf(ledger, user)|
    {
      count := |VisitsOf(ledger, user)|;
    }

    method GetVisits(user: Address) returns (visits: seq<Visit>)
      ensures visits == VisitsOf(ledger, user)
    {
      visits := VisitsOf(ledger, user);
    }
  }
}
