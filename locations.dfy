/**
 * The static location catalog: six countries with four cities each, the two
 * id-to-name maps that are filled once by looping over the catalog, and the
 * lookups that fall back to "Country #<id>" / "City #<id>" for unknown ids.
 */
module Locations {
  import opened Wrappers
  import Decimal

  datatype CityOption = CityOption(id: int, name: string)

  datatype CountryOption = CountryOption(id: int, name: string, cities: seq<CityOption>)

  const COUNTRIES: seq<CountryOption> := [
    CountryOption(1, "United States", [
      CityOption(101, "New York"), CityOption(102, "San Francisco"),
      CityOption(103, "Los Angeles"), CityOption(104, "Chicago")]),
    CountryOption(2, "China", [
      CityOption(201, "Beijing"), CityOption(202, "Shanghai"),
      CityOption(203, "Shenzhen"), CityOption(204, "Guangzhou")]),
    CountryOption(3, "United Kingdom", [
      CityOption(301, "London"), CityOption(302, "Manchester"),
      CityOption(303, "Edinburgh"), CityOption(304, "Birmingham")]),
    CountryOption(4, "Germany", [
      CityOption(401, "Berlin"), CityOption(402, "Munich"),
      CityOption(403, "Hamburg"), CityOption(404, "Frankfurt")]),
    CountryOption(5, "Japan", [
      CityOption(501, "Tokyo"), CityOption(502, "Osaka"),
      CityOption(503, "Kyoto"), CityOption(504, "Sapporo")]),
    CountryOption(6, "Australia", [
      CityOption(601, "Sydney"), CityOption(602, "Melbourne"),
      CityOption(603, "Brisbane"), CityOption(604, "Perth")])
  ]

  const COUNTRY_FALLBACK: string := "Country #"
  const CITY_FALLBACK: string := "City #"

  // ---------------------------------------------------------------------------
  // The two name maps, as the module-level loops leave them.  Each `set` of a
  // later entry overwrites an earlier one with the same id, so the maps are
  // defined from the last entry backwards.

  function CountryNames(cs: seq<CountryOption>): map<int, string>
  {
    if cs == [] then map[]
    else CountryNames(cs[..|cs| - 1])[cs[|cs| - 1].id := cs[|cs| - 1].name]
  }

  function CityNamesInto(m: map<int, string>, ks: seq<CityOption>): map<int, string>
  {
    if ks == [] then m
    else CityNamesInto(m, ks[..|ks| - 1])[ks[|ks| - 1].id := ks[|ks| - 1].name]
  }

  function CityNames(cs: seq<CountryOption>): map<int, string>
  {
    if cs == [] then map[]
    else CityNamesInto(CityNames(cs[..|cs| - 1]), cs[|cs| - 1].cities)
  }

  /** All cities of the catalog, country by country. */
  function AllCities(cs: seq<CountryOption>): seq<CityOption>
  {
    if cs == [] then [] else AllCities(cs[..|cs| - 1]) + cs[|cs| - 1].cities
  }

  ghost predicate DistinctCountryIds(cs: seq<CountryOption>) {
    forall i, j | 0 <= i < j < |cs| :: cs[i].id != cs[j].id
  }

  ghost predicate DistinctCityIds(ks: seq<CityOption>) {
    forall i, j | 0 <= i < j < |ks| :: ks[i].id != ks[j].id
  }

  /** The loops that fill `countryNameMap` and `cityNameMap`. */
  method BuildNameMaps(cs: seq<CountryOption>) returns (countryNameMap: map<int, string>, cityNameMap: map<int, string>)
    ensures countryNameMap == CountryNames(cs)
    ensures cityNameMap == CityNames(cs)
  {
    countryNameMap, cityNameMap := map[], map[];
    var i := 0;
    while i < |cs|
      invariant 0 <= i <= |cs|
      invariant countryNameMap == CountryNames(cs[..i])
      invariant cityNameMap == CityNames(cs[..i])
    {
      var country := cs[i];
      assert cs[..i + 1][..i] == cs[..i];
      countryNameMap := countryNameMap[country.id := country.name];
      ghost var before := cityNameMap;
      var j := 0;
      while j < |country.cities|
        invariant 0 <= j <= |country.cities|
        invariant cityNameMap == CityNamesInto(before, country.cities[..j])
      {
        var city := country.cities[j];
        assert country.cities[..j + 1][..j] == country.cities[..j];
        cityNameMap := cityNameMap[city.id := city.name];
        j := j + 1;
      }
      assert country.cities[..j] == country.cities;
      i := i + 1;
    }
    assert cs[..i] == cs;
  }

  // ---------------------------------------------------------------------------
  // Key sets and lookups of the name maps.

  /** The country map's keys are exactly the catalog's country ids. */
  lemma {:induction false} CountryNamesKeys(cs: seq<CountryOption>)
    ensures CountryNames(cs).Keys == set c | c in cs :: c.id
  {
    if cs != [] {
      var init := cs[..|cs| - 1];
      CountryNamesKeys(init);
      assert cs == init + [cs[|cs| - 1]];
    }
  }

  /** With distinct ids, every country is named as listed: no later entry overwrites it. */
  lemma {:induction false} CountryNamesAt(cs: seq<CountryOption>, i: nat)
    requires DistinctCountryIds(cs)
    requires i < |cs|
    ensures cs[i].id in CountryNames(cs) && CountryNames(cs)[cs[i].id] == cs[i].name
  {
    if i < |cs| - 1 {
      var init := cs[..|cs| - 1];
      CountryNamesAt(init, i);
    }
  }

  lemma {:induction false} CityNamesIntoKeys(m: map<int, string>, ks: seq<CityOption>)
    ensures CityNamesInto(m, ks).Keys == m.Keys + set k | k in ks :: k.id
  {
    if ks != [] {
      var init := ks[..|ks| - 1];
      CityNamesIntoKeys(m, init);
      assert ks == init + [ks[|ks| - 1]];
    }
  }

  lemma {:induction false} CityNamesIntoAt(m: map<int, string>, ks: seq<CityOption>, i: nat)
    requires DistinctCityIds(ks)
    requires i < |ks|
    ensures ks[i].id in CityNamesInto(m, ks) && CityNamesInto(m, ks)[ks[i].id] == ks[i].name
  {
    if i < |ks| - 1 {
      CityNamesIntoAt(m, ks[..|ks| - 1], i);
    }
  }

  lemma {:induction false} CityNamesIntoAppend(m: map<int, string>, a: seq<CityOption>, b: seq<CityOption>)
    ensures CityNamesInto(m, a + b) == CityNamesInto(CityNamesInto(m, a), b)
  {
    if b != [] {
      var init := b[..|b| - 1];
      assert (a + b)[..|a + b| - 1] == a + init;
      CityNamesIntoAppend(m, a, init);
    } else {
      assert a + b == a;
    }
  }

  /** Filling the city map country by country is filling it from the flat city list. */
  lemma {:induction false} CityNamesFlat(cs: seq<CountryOption>)
    ensures CityNames(cs) == CityNamesInto(map[], AllCities(cs))
  {
    if cs != [] {
      var init := cs[..|cs| - 1];
      CityNamesFlat(init);
      CityNamesIntoAppend(map[], AllCities(init), cs[|cs| - 1].cities);
    }
  }

  lemma {:induction false} AllCitiesMembers(cs: seq<CountryOption>)
    ensures forall k :: k in AllCities(cs) <==> exists c :: c in cs && k in c.cities
  {
    if cs != [] {
      var init := cs[..|cs| - 1];
      AllCitiesMembers(init);
      assert cs == init + [cs[|cs| - 1]];
    }
  }

  /** The city map's keys are exactly the union of all countries' city ids. */
  lemma CityNamesKeys(cs: seq<CountryOption>)
    ensures CityNames(cs).Keys == set k | k in AllCities(cs) :: k.id
  {
    CityNamesFlat(cs);
    CityNamesIntoKeys(map[], AllCities(cs));
  }

  lemma {:induction false} CityNamesIntoOutside(m: map<int, string>, ks: seq<CityOption>, id: int)
    requires forall k | k in ks :: k.id != id
    ensures id in CityNamesInto(m, ks) <==> id in m
    ensures id in m ==> CityNamesInto(m, ks)[id] == m[id]
  {
    if ks != [] {
      CityNamesIntoOutside(m, ks[..|ks| - 1], id);
    }
  }

  /** Every value of the country map is the name of some catalog entry. */
  lemma {:induction false} CountryNamesValues(cs: seq<CountryOption>, countryId: int)
    requires countryId in CountryNames(cs)
    ensures exists i :: 0 <= i < |cs| && CountryNames(cs)[countryId] == cs[i].name
  {
    var n := |cs| - 1;
    if cs[n].id != countryId {
      CountryNamesValues(cs[..n], countryId);
      var i :| 0 <= i < n && CountryNames(cs[..n])[countryId] == cs[..n][i].name;
      assert CountryNames(cs)[countryId] == cs[i].name;
    }
  }

  lemma {:induction false} CityNamesIntoValues(m: map<int, string>, ks: seq<CityOption>, cityId: int)
    requires cityId in CityNamesInto(m, ks)
    ensures || (cityId in m && CityNamesInto(m, ks)[cityId] == m[cityId])
            || exists j :: 0 <= j < |ks| && CityNamesInto(m, ks)[cityId] == ks[j].name
  {
    if ks != [] {
      var n := |ks| - 1;
      if ks[n].id != cityId {
        CityNamesIntoValues(m, ks[..n], cityId);
        if j :| 0 <= j < n && CityNamesInto(m, ks[..n])[cityId] == ks[..n][j].name {
          assert CityNamesInto(m, ks)[cityId] == ks[j].name;
        }
      }
    }
  }

  /** Every value of the city map is the name of some catalog city. */
  lemma {:induction false} CityNamesValues(cs: seq<CountryOption>, cityId: int)
    requires cityId in CityNames(cs)
    ensures exists i, j :: 0 <= i < |cs| && 0 <= j < |cs[i].cities| && CityNames(cs)[cityId] == cs[i].cities[j].name
  {
    var n := |cs| - 1;
    var init := cs[..n];
    CityNamesIntoValues(CityNames(init), cs[n].cities, cityId);
    if j :| 0 <= j < |cs[n].cities| && CityNames(cs)[cityId] == cs[n].cities[j].name {
    } else {
      CityNamesValues(init, cityId);
      var i, j :| 0 <= i < n && 0 <= j < |init[i].cities| && CityNames(init)[cityId] == init[i].cities[j].name;
      assert init[i] == cs[i];
    }
  }

  ghost predicate DistinctCityIdsAcross(cs: seq<CountryOption>) {
    forall i, j, i', j' |
      0 <= i < |cs| && 0 <= j < |cs[i].cities| && 0 <= i' < |cs| && 0 <= j' < |cs[i'].cities| && (i, j) != (i', j') ::
      cs[i].cities[j].id != cs[i'].cities[j'].id
  }

  /** With distinct city ids, every city is named as listed: no later entry overwrites it. */
  lemma {:induction false} CityNamesAt(cs: seq<CountryOption>, i: nat, j: nat)
    requires DistinctCityIdsAcross(cs)
    requires i < |cs| && j < |cs[i].cities|
    ensures cs[i].cities[j].id in CityNames(cs) && CityNames(cs)[cs[i].cities[j].id] == cs[i].cities[j].name
  {
    var n := |cs| - 1;
    var init := cs[..n];
    if i == n {
      assert DistinctCityIds(cs[n].cities) by {
        forall a, b | 0 <= a < b < |cs[n].cities| ensures cs[n].cities[a].id != cs[n].cities[b].id {
          assert (n, a) != (n, b);
        }
      }
      CityNamesIntoAt(CityNames(init), cs[n].cities, j);
    } else {
      assert DistinctCityIdsAcross(init) by {
        forall a, b, a', b' |
          0 <= a < |init| && 0 <= b < |init[a].cities| && 0 <= a' < |init| && 0 <= b' < |init[a'].cities| && (a, b) != (a', b')
          ensures init[a].cities[b].id != init[a'].cities[b'].id
        {
          assert init[a] == cs[a] && init[a'] == cs[a'];
        }
      }
      CityNamesAt(init, i, j);
      forall k | k in cs[n].cities ensures k.id != cs[i].cities[j].id {
        var b :| 0 <= b < |cs[n].cities| && cs[n].cities[b] == k;
        assert (i, j) != (n, b);
      }
      CityNamesIntoOutside(CityNames(init), cs[n].cities, cs[i].cities[j].id);
    }
  }

  // ---------------------------------------------------------------------------
  // The catalog itself.

  /** Country i (from 0) has id i+1 and its j-th city has id 100(i+1)+j+1. */
  ghost predicate LaidOut(cs: seq<CountryOption>) {
    && (forall i | 0 <= i < |cs| :: cs[i].id == i + 1 && |cs[i].cities| <= 99)
    && (forall i, j | 0 <= i < |cs| && 0 <= j < |cs[i].cities| :: cs[i].cities[j].id == 100 * (i + 1) + j + 1)
  }

  ghost predicate NamesNonEmpty(cs: seq<CountryOption>) {
    forall c | c in cs :: c.name != [] && forall k | k in c.cities :: k.name != []
  }

  lemma CatalogShape()
    ensures |COUNTRIES| == 6
    ensures LaidOut(COUNTRIES)
    ensures NamesNonEmpty(COUNTRIES)
  {
    CatalogLayout();
    CatalogNames();
  }

  lemma CatalogLayout()
    ensures |COUNTRIES| == 6
    ensures forall i | 0 <= i < 6 :: COUNTRIES[i].id == i + 1 && |COUNTRIES[i].cities| == 4
    ensures forall i, j | 0 <= i < 6 && 0 <= j < 4 :: COUNTRIES[i].cities[j].id == 100 * (i + 1) + j + 1
  {
  }

  lemma CatalogNames()
    ensures forall i | 0 <= i < |COUNTRIES| :: COUNTRIES[i].name != []
    ensures forall i, j | 0 <= i < |COUNTRIES| && 0 <= j < |COUNTRIES[i].cities| :: COUNTRIES[i].cities[j].name != []
    ensures NamesNonEmpty(COUNTRIES)
  {
  }

  lemma LaidOutIds(cs: seq<CountryOption>)
    requires LaidOut(cs)
    ensures DistinctCountryIds(cs)
    ensures DistinctCityIdsAcross(cs)
    ensures forall c | c in cs :: c.id > 0 && forall k | k in c.cities :: k.id > 0
  {
  }

  /** All catalog ids are distinct and positive, so no `set` of the building loops overwrites another. */
  lemma CatalogIds()
    ensures DistinctCountryIds(COUNTRIES)
    ensures DistinctCityIdsAcross(COUNTRIES)
    ensures forall c | c in COUNTRIES :: c.id > 0 && forall k | k in c.cities :: k.id > 0
  {
    CatalogShape();
    LaidOutIds(COUNTRIES);
  }

  const countryNameMap: map<int, string> := CountryNames(COUNTRIES)
  const cityNameMap: map<int, string> := CityNames(COUNTRIES)

  /** The first catalog entry with the given id, as `Array.prototype.find` returns it. */
  function FindCountry(cs: seq<CountryOption>, countryId: int): (r: Option<CountryOption>)
    ensures r.Some? ==> r.value in cs && r.value.id == countryId
    ensures r.None? <==> forall c | c in cs :: c.id != countryId
  {
    if cs == [] then None
    else if cs[0].id == countryId then Some(cs[0])
    else FindCountry(cs[1..], countryId)
  }

  /** What `find` returns is the first entry with the id: no entry before it has that id. */
  lemma {:induction false} FindCountryIsFirst(cs: seq<CountryOption>, countryId: int)
    ensures FindCountry(cs, countryId).Some? ==>
              exists i | 0 <= i < |cs| :: cs[i] == FindCountry(cs, countryId).value &&
                                          forall k | 0 <= k < i :: cs[k].id != countryId
  {
    if cs != [] && cs[0].id != countryId && FindCountry(cs, countryId).Some? {
      FindCountryIsFirst(cs[1..], countryId);
      var i :| 0 <= i < |cs[1..]| && cs[1..][i] == FindCountry(cs, countryId).value &&
               forall k | 0 <= k < i :: cs[1..][k].id != countryId;
      assert cs[i + 1] == FindCountry(cs, countryId).value;
      assert forall k | 0 <= k < i + 1 :: cs[k].id != countryId by {
        forall k | 0 <= k < i + 1 ensures cs[k].id != countryId {
          if k > 0 { assert cs[k] == cs[1..][k - 1]; }
        }
      }
    } else if cs != [] && cs[0].id == countryId {
      assert cs[0] == FindCountry(cs, countryId).value;
    }
  }

  /**
   * In a catalog with distinct country ids, a city is listed under a country
   * exactly when it is among the cities of the entry `find` returns.
   */
  lemma FindCountryListsCities(cs: seq<CountryOption>, countryId: int, cityId: int)
    requires DistinctCountryIds(cs)
    ensures (exists i, j | 0 <= i < |cs| && 0 <= j < |cs[i].cities| :: cs[i].id == countryId && cs[i].cities[j].id == cityId)
            <==> (FindCountry(cs, countryId).Some? &&
                  exists k | k in FindCountry(cs, countryId).value.cities :: k.id == cityId)
  {
  }

  function GetCitiesForCountry(countryId: int): seq<CityOption>
  {
    match FindCountry(COUNTRIES, countryId)
    case Some(country) => country.cities
    case None => []
  }

  function GetCountryName(countryId: int): string
  {
    if countryId in countryNameMap then countryNameMap[countryId]
    else COUNTRY_FALLBACK + Decimal.IntToText(countryId)
  }

  function GetCityName(cityId: int): string
  {
    if cityId in cityNameMap then cityNameMap[cityId]
    else CITY_FALLBACK + Decimal.IntToText(cityId)
  }

  /** Lookup in the country map of any catalog with distinct ids. */
  lemma CountryNamesLookup(cs: seq<CountryOption>, countryId: int)
    requires DistinctCountryIds(cs)
    ensures forall c | c in cs && c.id == countryId :: countryId in CountryNames(cs) && CountryNames(cs)[countryId] == c.name
    ensures countryId in CountryNames(cs) <==> exists c :: c in cs && c.id == countryId
  {
  }

  /** Lookup in the city map of any catalog with distinct city ids. */
  lemma CityNamesLookup(cs: seq<CountryOption>, cityId: int)
    requires DistinctCityIdsAcross(cs)
    ensures forall c, k | c in cs && k in c.cities && k.id == cityId :: cityId in CityNames(cs) && CityNames(cs)[cityId] == k.name
    ensures cityId in CityNames(cs) <==> exists c, k :: c in cs && k in c.cities && k.id == cityId
  {
    CityNamesKeys(cs);
    AllCitiesMembers(cs);
    forall c, k | c in cs && k in c.cities && k.id == cityId ensures cityId in CityNames(cs) && CityNames(cs)[cityId] == k.name {
      var i :| 0 <= i < |cs| && cs[i] == c;
      var j :| 0 <= j < |c.cities| && c.cities[j] == k;
      CityNamesAt(cs, i, j);
    }
  }

  // ---------------------------------------------------------------------------
  // What the lookups return.

  /** A catalog id yields that country's city list; any other id yields no cities. */
  lemma GetCitiesForCountrySpec(countryId: int)
    ensures forall c | c in COUNTRIES && c.id == countryId :: GetCitiesForCountry(countryId) == c.cities
    ensures (forall c | c in COUNTRIES :: c.id != countryId) ==> GetCitiesForCountry(countryId) == []
  {
  }

  /** A catalog id yields the catalog name; any other id yields "Country #" and its decimal text. */
  lemma GetCountryNameSpec(countryId: int)
    ensures forall c | c in COUNTRIES && c.id == countryId :: GetCountryName(countryId) == c.name
    ensures (forall c | c in COUNTRIES :: c.id != countryId) ==>
              GetCountryName(countryId) == COUNTRY_FALLBACK + Decimal.IntToText(countryId)
    ensures GetCountryName(countryId) != []
  {
    CatalogIds();
    CatalogShape();
    CountryNamesLookup(COUNTRIES, countryId);
  }

  /** A catalog city id yields the catalog name; any other id yields "City #" and its decimal text. */
  lemma GetCityNameSpec(cityId: int)
    ensures forall c, k | c in COUNTRIES && k in c.cities && k.id == cityId :: GetCityName(cityId) == k.name
    ensures (forall c, k | c in COUNTRIES && k in c.cities :: k.id != cityId) ==>
              GetCityName(cityId) == CITY_FALLBACK + Decimal.IntToText(cityId)
    ensures GetCityName(cityId) != []
  {
    CatalogIds();
    CatalogShape();
    CityNamesLookup(COUNTRIES, cityId);
  }

  /** Every city offered for a country is named by GetCityName exactly as listed. */
  lemma CitiesNamedAsListed(countryId: int, city: CityOption)
    requires city in GetCitiesForCountry(countryId)
    ensures GetCityName(city.id) == city.name
  {
    var found := FindCountry(COUNTRIES, countryId);
    GetCityNameSpec(city.id);
    assert found.value in COUNTRIES && city in found.value.cities;
  }

  /** Id 0 is in neither namespace, so it gets the fallback labels. */
  lemma ZeroIdIsUnknown()
    ensures GetCountryName(0) == "Country #0"
    ensures GetCityName(0) == "City #0"
  {
    CatalogIds();
    GetCountryNameSpec(0);
    GetCityNameSpec(0);
  }

  /** Two unknown ids never share a fallback label. */
  lemma FallbackLabelsDistinct(a: int, b: int)
    requires COUNTRY_FALLBACK + Decimal.IntToText(a) == COUNTRY_FALLBACK + Decimal.IntToText(b)
    ensures a == b
  {
    var sa, sb := COUNTRY_FALLBACK + Decimal.IntToText(a), COUNTRY_FALLBACK + Decimal.IntToText(b);
    assert sa[|COUNTRY_FALLBACK|..] == Decimal.IntToText(a);
    assert sb[|COUNTRY_FALLBACK|..] == Decimal.IntToText(b);
    Decimal.IntToTextInjective(a, b);
  }
}
